/** The composite identifier of the bridge messages: the real token id and the
    token's state packed in base 10, `encoded = realTokenId * 10 + tokenState`. */
module IdentifierCodec {

  datatype DecodedTokenInfo = DecodedTokenInfo(realTokenId: nat, tokenState: nat)

  /** `decodeTokenInfo`: total on every non-negative input; the state is the last decimal digit. */
  function DecodeTokenInfo(encoded: nat): (r: DecodedTokenInfo)
    ensures r.realTokenId * 10 + r.tokenState == encoded
    ensures r.tokenState < 10
    ensures r.realTokenId <= encoded
  {
    DecodedTokenInfo(encoded / 10, encoded % 10)
  }

  /** What the sending chain does; only a reference for the round trips below. */
  function EncodeTokenInfo(info: DecodedTokenInfo): (e: nat)
    ensures info.tokenState < 10 ==> e % 10 == info.tokenState
  {
    info.realTokenId * 10 + info.tokenState
  }

  /** Decoding loses nothing: re-encoding the parts gives back the input. */
  lemma EncodeDecode(encoded: nat)
    ensures EncodeTokenInfo(DecodeTokenInfo(encoded)) == encoded
  {
  }

  /** Any split into an id and a single state digit is the decoded one. */
  lemma DecodeUnique(encoded: nat, info: DecodedTokenInfo)
    requires info.tokenState < 10
    requires EncodeTokenInfo(info) == encoded
    ensures DecodeTokenInfo(encoded) == info
  {
  }

  /** Round trip in the other direction: a well-formed pair survives encode then decode. */
  lemma DecodeEncode(info: DecodedTokenInfo)
    requires info.tokenState < 10
    ensures DecodeTokenInfo(EncodeTokenInfo(info)) == info
  {
    DecodeUnique(EncodeTokenInfo(info), info);
  }

  /** A state of 10 or more does not survive the trip: it is folded into the id. */
  lemma WideStateTruncates()
    ensures DecodeTokenInfo(EncodeTokenInfo(DecodedTokenInfo(4, 12))) == DecodedTokenInfo(5, 2)
  {
  }

  lemma DecodeExamples()
    ensures DecodeTokenInfo(123) == DecodedTokenInfo(12, 3)
    ensures DecodeTokenInfo(7) == DecodedTokenInfo(0, 7)
  {
  }
}

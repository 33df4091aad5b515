/** Concrete runs of the projection: worked examples of the fan-out, a replayed
    mint and a burn on receive, and the gap between the registry and the store. */
module Scenarios {
  import opened Base
  import opened Decimal
  import opened IdentifierCodec
  import opened Schema
  import opened MetadataUri
  import opened Registry
  import opened Projection

  /** Two registered tokens in states 3 and 4 follow a new base URI. */
  lemma FanOutExample(t1: Token, t2: Token, oldBase: string, records: map<RecordKey, AuditRecord>, m: EventMeta)
    requires t1.tokenState == Some("3") && t2.tokenState == Some("4")
    ensures
      var s := State(map["1" := t1, "2" := t2], Some(Global(oldBase, ["1", "2"])), records);
      var r := BaseURISetStep(s, m, "https://new/");
      && r.global.value.baseURI == "https://new/"
      && r.tokens["1"].tokenURI == Some("https://new/3/omninad.json")
      && r.tokens["2"].tokenURI == Some("https://new/4/omninad.json")
  {
    var s := State(map["1" := t1, "2" := t2], Some(Global(oldBase, ["1", "2"])), records);
    assert RegistryOf(s.global) == ["1", "2"];
    BaseURISetFormula(s, m, "https://new/", "1");
    BaseURISetFormula(s, m, "https://new/", "2");
    assert EffectiveState(Some("3")) == "3" && EffectiveState(Some("4")) == "4";
    LiteralUris();
  }

  /** A mint registers its id exactly once, however often it is replayed. */
  lemma MintRegistersOnce(s: State, m: EventMeta, to: Address, tokenId: nat, stateRead: ReadResult<nat>)
    requires to != ZERO_ADDRESS
    requires NoDuplicates(RegistryOf(s.global))
    ensures
      var once := TransferStep(s, m, ZERO_ADDRESS, to, tokenId, stateRead);
      var twice := TransferStep(once, m, ZERO_ADDRESS, to, tokenId, stateRead);
      var id := NatToString(tokenId);
      && id in twice.tokens && twice.tokens[id].owner == to
      && id in RegistryOf(twice.global)
      && NoDuplicates(RegistryOf(twice.global))
      && RegistryOf(twice.global) == RegistryOf(once.global)
  {
    TransferIdempotent(s, m, ZERO_ADDRESS, to, tokenId, stateRead);
  }

  /** Minting token 5 into an empty store, twice, leaves the registry `["5"]`. */
  lemma MintFiveTwice(m: EventMeta, to: Address, stateRead: ReadResult<nat>)
    requires to != ZERO_ADDRESS
    ensures
      var once := TransferStep(EMPTY, m, ZERO_ADDRESS, to, 5, stateRead);
      var twice := TransferStep(once, m, ZERO_ADDRESS, to, 5, stateRead);
      && "5" in twice.tokens && twice.tokens["5"].owner == to
      && RegistryOf(twice.global) == ["5"]
  {
    DigitToString(5);
    TransferIdempotent(EMPTY, m, ZERO_ADDRESS, to, 5, stateRead);
  }

  /** A bridge delivery to the zero address leaves no token under the decoded id. */
  lemma BurnOnReceive(s: State, m: EventMeta, guid: Bytes, srcEid: nat)
    ensures
      var r := ReceivedStep(s, m, guid, srcEid, ZERO_ADDRESS, 123);
      "12" !in r.tokens && r.global == s.global
  {
    assert NatToString(12) == "12" by {
      DigitToString(1);
      DigitToString(2);
    }
  }

  /** The registry/store gap: a token created by an evolution is never registered,
      so a later base-URI change leaves its URI on the old base. */
  lemma UnregisteredTokenMissesFanOut(m: EventMeta, later: EventMeta, chain: ChainReads)
    requires chain.tokenState == Ok(2)
    ensures
      var evolved := EvolvedStep(EMPTY, m, 5, 2, chain);
      var r := BaseURISetStep(evolved, later, "https://new/");
      && "5" in r.tokens
      && "5" !in RegistryOf(r.global)
      && r.tokens["5"].tokenURI == evolved.tokens["5"].tokenURI
      && r.tokens["5"].tokenURI != Some(TokenURI(r.global, r.tokens["5"].tokenState))
  {
    DigitToString(5);
    DigitToString(2);
    var evolved := EvolvedStep(EMPTY, m, 5, 2, chain);
    var r := BaseURISetStep(evolved, later, "https://new/");
    assert |evolved.tokens["5"].tokenURI.value| != |TokenURI(r.global, r.tokens["5"].tokenState)|;
  }
}

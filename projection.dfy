/** The event-to-state projection as functions on a snapshot of the store: one
    step per handler of src/omni-nads-consumer.ts. The `Subgraph` class runs the
    same handlers imperatively and is proved to produce these snapshots. */
module Projection {
  import opened Base
  import opened Decimal
  import opened IdentifierCodec
  import opened Schema
  import opened MetadataUri
  import opened Registry

  /** The parameters of the five events the core projects, as the audit records mirror them. */
  datatype Params =
    | TransferParams(from: Address, to: Address, tokenId: nat)
    | ONFTReceivedParams(guid: Bytes, srcEid: nat, toAddress: Address, tokenId: nat)
    | ONFTSentParams(guid: Bytes, dstEid: nat, fromAddress: Address, tokenId: nat)
    | TokenEvolvedParams(tokenId: nat, evolution: nat)
    | BaseURISetParams(baseURI: string)

  /** The audit entity table each event is written to. */
  function TableOf(p: Params): (table: string)
    ensures table != ""
  {
    match p
    case TransferParams(_, _, _) => "Transfer"
    case ONFTReceivedParams(_, _, _, _) => "ONFTReceived"
    case ONFTSentParams(_, _, _, _) => "ONFTSent"
    case TokenEvolvedParams(_, _) => "TokenEvolved"
    case BaseURISetParams(_) => "BaseURISet"
  }

  /** Audit records are keyed by table, transaction hash and log index. */
  datatype RecordKey = RecordKey(table: string, transactionHash: Bytes, logIndex: nat)
  datatype AuditRecord = AuditRecord(params: Params, provenance: Provenance)

  /** What the emitting contract answers, at the event's block, for the event's token:
      `try_ownerOf` and `try_tokenState`. */
  datatype ChainReads = ChainReads(ownerOf: ReadResult<Address>, tokenState: ReadResult<nat>)

  datatype State = State(
    tokens: map<string, Token>,
    global: Option<Global>,
    records: map<RecordKey, AuditRecord>)

  const EMPTY: State := State(map[], None, map[])

  function KeyOf(m: EventMeta, p: Params): RecordKey {
    RecordKey(TableOf(p), m.transactionHash, m.logIndex)
  }

  /** Saving the verbatim audit record of an event. */
  function Logged(s: State, m: EventMeta, p: Params): (r: State)
    ensures r.tokens == s.tokens && r.global == s.global
    ensures KeyOf(m, p) in r.records && r.records[KeyOf(m, p)] == AuditRecord(p, ProvenanceOf(m))
    ensures forall k :: k != KeyOf(m, p) ==> (k in r.records <==> k in s.records)
    ensures forall k :: k != KeyOf(m, p) && k in s.records ==> r.records[k] == s.records[k]
  {
    s.(records := s.records[KeyOf(m, p) := AuditRecord(p, ProvenanceOf(m))])
  }

  /** `removeTokenFromSubgraph`: absent afterwards; a missing token is not an error. */
  function RemoveToken(s: State, id: string): (r: State)
    ensures id !in r.tokens
    ensures forall k :: k != id ==> (k in r.tokens <==> k in s.tokens)
    ensures forall k :: k != id && k in s.tokens ==> r.tokens[k] == s.tokens[k]
    ensures r.global == s.global && r.records == s.records
  {
    s.(tokens := s.tokens - {id})
  }

  /** `addTokenIdToGlobal`, including the lazy creation of the Global. */
  function Register(s: State, id: string): (r: State)
    ensures r.global.Some?
    ensures id in RegistryOf(r.global)
    ensures forall x :: x in RegistryOf(r.global) <==> x in RegistryOf(s.global) || x == id
    ensures id in RegistryOf(s.global) ==> RegistryOf(r.global) == RegistryOf(s.global)
    ensures id !in RegistryOf(s.global) ==> RegistryOf(r.global) == RegistryOf(s.global) + [id]
    ensures NoDuplicates(RegistryOf(s.global)) ==> NoDuplicates(RegistryOf(r.global))
    ensures EffectiveBase(r.global) == EffectiveBase(s.global)
    // an existing Global keeps its stored base; a created one carries the default
    ensures r.global.value.baseURI == GlobalOrDefault(s.global).baseURI
    ensures r.tokens == s.tokens && r.records == s.records
  {
    s.(global := Some(AddTokenId(GlobalOrDefault(s.global), id)))
  }

  /** Every stored token sits under its own `id`, and that key is the decimal
      rendering of its numeric `tokenId`. */
  predicate Keyed(tokens: map<string, Token>) {
    forall k :: k in tokens ==> tokens[k].id == k && NatToString(tokens[k].tokenId) == k
  }

  /** `Token.load(id)`, or a new token with the creation-time fields. In a keyed
      store the token found under the decimal key of `tokenId` is that token. */
  function LoadOrCreate(tokens: map<string, Token>, id: string, tokenId: nat, contract: Address): (t: Token)
    ensures id in tokens ==> t == tokens[id]
    ensures id !in tokens ==> t == NewToken(id, tokenId, contract)
    ensures Keyed(tokens) && id == NatToString(tokenId) ==> t.id == id && t.tokenId == tokenId
  {
    if id !in tokens then
      NewToken(id, tokenId, contract)
    else if Keyed(tokens) && id == NatToString(tokenId) then
      NatToStringInjective(tokens[id].tokenId, tokenId);
      tokens[id]
    else
      tokens[id]
  }

  /** The token state a read gives, rendered in decimal, or `fallback` on revert.
      With a non-empty fallback the state is never empty, so the `"1"` default of
      `getTokenURI` never applies to a state a handler writes. */
  function StateFromRead(read: ReadResult<nat>, fallback: string): (state: string)
    ensures read.Ok? ==> state == NatToString(read.value)
    ensures read.Reverted? ==> state == fallback
    ensures fallback != "" ==> state != "" && EffectiveState(Some(state)) == state
  {
    match read
    case Ok(v) => NatToString(v)
    case Reverted => fallback
  }

  /** `handleTransfer`. */
  function TransferStep(s: State, m: EventMeta, from: Address, to: Address, tokenId: nat, stateRead: ReadResult<nat>): (r: State)
    ensures r.records == Logged(s, m, TransferParams(from, to, tokenId)).records
    ensures EffectiveBase(r.global) == EffectiveBase(s.global)
    ensures r.tokens - {NatToString(tokenId)} == s.tokens - {NatToString(tokenId)}
    // burning transfer: the token is gone and the registry is untouched
    ensures to == ZERO_ADDRESS ==> NatToString(tokenId) !in r.tokens && r.global == s.global
    // any other transfer: the token exists with the new owner and the on-chain state
    ensures to != ZERO_ADDRESS ==>
      var id := NatToString(tokenId);
      && id in r.tokens
      && r.tokens[id].owner == to
      && r.tokens[id].tokenState == Some(StateFromRead(stateRead, "0"))
      && r.tokens[id].tokenURI == Some(TokenURI(r.global, r.tokens[id].tokenState))
      && r.tokens[id].provenance == ProvenanceOf(m)
      // an existing token keeps its id, numeric id and contract; a new one gets them from the event
      && (id in s.tokens ==>
            r.tokens[id].(owner := s.tokens[id].owner, tokenState := s.tokens[id].tokenState,
                          tokenURI := s.tokens[id].tokenURI, provenance := s.tokens[id].provenance) == s.tokens[id])
      && (id !in s.tokens ==> r.tokens[id].id == id && r.tokens[id].contract == m.address && r.tokens[id].tokenId == tokenId)
      && (Keyed(s.tokens) ==> r.tokens[id].id == id && r.tokens[id].tokenId == tokenId)
    ensures Keyed(s.tokens) ==> Keyed(r.tokens)
    // a mint registers the id; nothing else touches the registry
    ensures to != ZERO_ADDRESS && from == ZERO_ADDRESS ==>
      r.global == Register(s, NatToString(tokenId)).global
    ensures to != ZERO_ADDRESS && from != ZERO_ADDRESS ==> r.global == s.global
  {
    var s1 := Logged(s, m, TransferParams(from, to, tokenId));
    var id := NatToString(tokenId);
    if to == ZERO_ADDRESS then
      RemoveToken(s1, id)
    else
      var t := LoadOrCreate(s1.tokens, id, tokenId, m.address)
                 .(owner := to, tokenState := Some(StateFromRead(stateRead, "0")));
      var s2 := s1.(tokens := s1.tokens[id := Refreshed(t, s1.global, ProvenanceOf(m))]);
      if from == ZERO_ADDRESS then Register(s2, id) else s2
  }

  /** `handleONFTReceived`: the bridge delivers a token, with its state packed into the id. */
  function ReceivedStep(s: State, m: EventMeta, guid: Bytes, srcEid: nat, toAddress: Address, encoded: nat): (r: State)
    ensures r.records == Logged(s, m, ONFTReceivedParams(guid, srcEid, toAddress, encoded)).records
    ensures EffectiveBase(r.global) == EffectiveBase(s.global)
    ensures
      var id := NatToString(DecodeTokenInfo(encoded).realTokenId);
      r.tokens - {id} == s.tokens - {id}
    // delivered to the zero address: the token is gone and the registry is untouched
    ensures toAddress == ZERO_ADDRESS ==>
      NatToString(DecodeTokenInfo(encoded).realTokenId) !in r.tokens && r.global == s.global
    ensures toAddress != ZERO_ADDRESS ==>
      var d := DecodeTokenInfo(encoded);
      var id := NatToString(d.realTokenId);
      && id in r.tokens
      && r.tokens[id].owner == toAddress
      && r.tokens[id].tokenState == Some(NatToString(encoded % 10))
      && r.tokens[id].tokenURI == Some(TokenURI(r.global, r.tokens[id].tokenState))
      && r.tokens[id].provenance == ProvenanceOf(m)
      && (id in s.tokens ==>
            r.tokens[id].(owner := s.tokens[id].owner, tokenState := s.tokens[id].tokenState,
                          tokenURI := s.tokens[id].tokenURI, provenance := s.tokens[id].provenance) == s.tokens[id])
      && (id !in s.tokens ==> r.tokens[id].id == id && r.tokens[id].contract == m.address && r.tokens[id].tokenId == d.realTokenId)
      && (Keyed(s.tokens) ==> r.tokens[id].id == id && r.tokens[id].tokenId == d.realTokenId)
      && r.global == Register(s, id).global
    ensures Keyed(s.tokens) ==> Keyed(r.tokens)
  {
    var d := DecodeTokenInfo(encoded);
    var id := NatToString(d.realTokenId);
    var s1 :=
      if toAddress == ZERO_ADDRESS then
        RemoveToken(s, id)
      else
        var t := LoadOrCreate(s.tokens, id, d.realTokenId, m.address)
                   .(owner := toAddress, tokenState := Some(NatToString(d.tokenState)));
        Register(s.(tokens := s.tokens[id := Refreshed(t, s.global, ProvenanceOf(m))]), id);
    Logged(s1, m, ONFTReceivedParams(guid, srcEid, toAddress, encoded))
  }

  /** `handleONFTSent`: the token leaves for another chain. It is first saved with the
      zero owner and its last state, then deleted; only the deletion survives the step. */
  function SentStep(s: State, m: EventMeta, guid: Bytes, dstEid: nat, fromAddress: Address, encoded: nat): (r: State)
    ensures r.tokens == s.tokens - {NatToString(DecodeTokenInfo(encoded).realTokenId)}
    ensures r.global == s.global
    ensures r.records == Logged(s, m, ONFTSentParams(guid, dstEid, fromAddress, encoded)).records
    // the audit record keeps the encoded id as received, not the decoded one
    ensures r.records[KeyOf(m, ONFTSentParams(guid, dstEid, fromAddress, encoded))].params.tokenId == encoded
  {
    var d := DecodeTokenInfo(encoded);
    var id := NatToString(d.realTokenId);
    var t := LoadOrCreate(s.tokens, id, d.realTokenId, m.address)
               .(owner := ZERO_ADDRESS, tokenState := Some(NatToString(d.tokenState)), provenance := ProvenanceOf(m));
    var saved := s.(tokens := s.tokens[id := t]);
    Logged(RemoveToken(saved, id), m, ONFTSentParams(guid, dstEid, fromAddress, encoded))
  }

  /** `handleTokenEvolved`: the token's state changes in place. */
  function EvolvedStep(s: State, m: EventMeta, tokenId: nat, evolution: nat, chain: ChainReads): (r: State)
    ensures r.global == s.global
    ensures r.records == Logged(s, m, TokenEvolvedParams(tokenId, evolution)).records
    ensures r.tokens - {NatToString(tokenId)} == s.tokens - {NatToString(tokenId)}
    ensures
      var id := NatToString(tokenId);
      && id in r.tokens
      && r.tokens[id].tokenState == Some(StateFromRead(chain.tokenState, NatToString(evolution)))
      && r.tokens[id].tokenURI == Some(TokenURI(r.global, r.tokens[id].tokenState))
      && r.tokens[id].provenance == ProvenanceOf(m)
      // an existing token keeps its owner, id, numeric id and contract
      && (id in s.tokens ==>
            r.tokens[id].(tokenState := s.tokens[id].tokenState, tokenURI := s.tokens[id].tokenURI,
                          provenance := s.tokens[id].provenance) == s.tokens[id])
      // a new one takes its owner from `ownerOf`, or the zero address if that reverted
      && (id !in s.tokens ==>
            r.tokens[id].owner == ReadOr(chain.ownerOf, ZERO_ADDRESS)
            && r.tokens[id].id == id
            && r.tokens[id].contract == m.address
            && r.tokens[id].tokenId == tokenId)
      && (Keyed(s.tokens) ==> r.tokens[id].id == id && r.tokens[id].tokenId == tokenId)
    ensures Keyed(s.tokens) ==> Keyed(r.tokens)
  {
    var s1 := Logged(s, m, TokenEvolvedParams(tokenId, evolution));
    var id := NatToString(tokenId);
    var loaded := LoadOrCreate(s1.tokens, id, tokenId, m.address);
    var t0 := if id in s1.tokens then loaded else WithOwnerFromOnChain(loaded, chain.ownerOf);
    var t := Refreshed(t0.(tokenState := Some(StateFromRead(chain.tokenState, NatToString(evolution)))), s1.global, ProvenanceOf(m));
    s1.(tokens := s1.tokens[id := t])
  }

  /** `handleBaseURISet`: the new base is stored and every registered token that
      is still stored gets a URI built on it. */
  function BaseURISetStep(s: State, m: EventMeta, baseURI: string): (r: State)
    ensures r.global == Some(Global(baseURI, RegistryOf(s.global)))
    ensures r.records == Logged(s, m, BaseURISetParams(baseURI)).records
    ensures r.tokens.Keys == s.tokens.Keys
    ensures forall k :: k in s.tokens && k in RegistryOf(s.global) ==>
      && r.tokens[k].tokenURI == Some(TokenURI(r.global, s.tokens[k].tokenState))
      && r.tokens[k].provenance == ProvenanceOf(m)
      && r.tokens[k].(tokenURI := s.tokens[k].tokenURI, provenance := s.tokens[k].provenance) == s.tokens[k]
    ensures forall k :: k in s.tokens && k !in RegistryOf(s.global) ==> r.tokens[k] == s.tokens[k]
    ensures Keyed(s.tokens) ==> Keyed(r.tokens)
  {
    var s1 := Logged(s, m, BaseURISetParams(baseURI));
    var g := GlobalOrDefault(s1.global).(baseURI := baseURI);
    s1.(global := Some(g), tokens := FanOut(s1.tokens, g.tokenIds, Some(g), ProvenanceOf(m)))
  }

  /** With a non-empty base the fan-out URI is literally `base + state + "/omninad.json"`. */
  lemma BaseURISetFormula(s: State, m: EventMeta, baseURI: string, k: string)
    requires baseURI != ""
    requires k in s.tokens && k in RegistryOf(s.global)
    ensures BaseURISetStep(s, m, baseURI).tokens[k].tokenURI
         == Some(baseURI + EffectiveState(s.tokens[k].tokenState) + URI_SUFFIX)
  {
  }

  /** One delivered event: its envelope, its parameters and what the contract reads return. */
  datatype Delivery = Delivery(meta: EventMeta, params: Params, chain: ChainReads)

  /** The handler the host dispatches the event to. */
  function Apply(s: State, d: Delivery): (r: State)
    ensures KeyOf(d.meta, d.params) in r.records
    ensures r.records[KeyOf(d.meta, d.params)] == AuditRecord(d.params, ProvenanceOf(d.meta))
  {
    var m := d.meta;
    match d.params
    case TransferParams(from, to, tokenId) => TransferStep(s, m, from, to, tokenId, d.chain.tokenState)
    case ONFTReceivedParams(guid, srcEid, toAddress, tokenId) => ReceivedStep(s, m, guid, srcEid, toAddress, tokenId)
    case ONFTSentParams(guid, dstEid, fromAddress, tokenId) => SentStep(s, m, guid, dstEid, fromAddress, tokenId)
    case TokenEvolvedParams(tokenId, evolution) => EvolvedStep(s, m, tokenId, evolution, d.chain)
    case BaseURISetParams(baseURI) => BaseURISetStep(s, m, baseURI)
  }

  /** Events are applied one at a time, in delivery order. */
  function Run(s: State, events: seq<Delivery>): State
    decreases |events|
  {
    if events == [] then s else Run(Apply(s, events[0]), events[1..])
  }

  /** Every registered token that is stored carries the URI its state and the
      current Global give. (Unregistered tokens are outside the fan-out and can go stale.) */
  predicate RegisteredUrisFresh(s: State) {
    forall k :: k in s.tokens && k in RegistryOf(s.global) ==>
      s.tokens[k].tokenURI == Some(TokenURI(s.global, s.tokens[k].tokenState))
  }

  predicate Valid(s: State) {
    Keyed(s.tokens) && NoDuplicates(RegistryOf(s.global)) && RegisteredUrisFresh(s)
  }

  lemma EmptyValid()
    ensures Valid(EMPTY)
  {
  }

  /** Every handler keeps the registry duplicate-free and the registered URIs fresh. */
  lemma {:induction false} ApplyPreservesValid(s: State, d: Delivery)
    requires Valid(s)
    ensures Valid(Apply(s, d))
  {
    var r := Apply(s, d);
    match d.params
    case TransferParams(from, to, tokenId) =>
      if to != ZERO_ADDRESS {
        TokenUriFreshAfterBaseKept(s, r, NatToString(tokenId));
      }
    case ONFTReceivedParams(guid, srcEid, toAddress, tokenId) =>
      if toAddress != ZERO_ADDRESS {
        TokenUriFreshAfterBaseKept(s, r, NatToString(DecodeTokenInfo(tokenId).realTokenId));
      }
    case ONFTSentParams(_, _, _, _) =>
    case TokenEvolvedParams(tokenId, _) =>
      TokenUriFreshAfterBaseKept(s, r, NatToString(tokenId));
    case BaseURISetParams(_) =>
  }

  /** The common shape of the upserting handlers: one token rewritten fresh, the
      others untouched, the effective base unchanged, and the registry grown by
      at most that one id. */
  lemma TokenUriFreshAfterBaseKept(s: State, r: State, id: string)
    requires RegisteredUrisFresh(s)
    requires EffectiveBase(r.global) == EffectiveBase(s.global)
    requires r.tokens - {id} == s.tokens - {id}
    requires id in r.tokens && r.tokens[id].tokenURI == Some(TokenURI(r.global, r.tokens[id].tokenState))
    requires forall x :: x in RegistryOf(r.global) ==> x in RegistryOf(s.global) || x == id
    ensures RegisteredUrisFresh(r)
  {
    forall k | k in r.tokens && k in RegistryOf(r.global)
      ensures r.tokens[k].tokenURI == Some(TokenURI(r.global, r.tokens[k].tokenState))
    {
      if k != id {
        assert k in s.tokens - {id};
        assert r.tokens[k] == (r.tokens - {id})[k] == (s.tokens - {id})[k] == s.tokens[k];
        TokenURISameBase(s.global, r.global, s.tokens[k].tokenState);
      }
    }
  }

  lemma {:induction false} RunPreservesValid(s: State, events: seq<Delivery>)
    requires Valid(s)
    ensures Valid(Run(s, events))
    decreases |events|
  {
    if events != [] {
      ApplyPreservesValid(s, events[0]);
      RunPreservesValid(Apply(s, events[0]), events[1..]);
    }
  }

  /** Replaying an event converges: at-least-once delivery is safe. */
  lemma {:induction false} ApplyIdempotent(s: State, d: Delivery)
    ensures Apply(Apply(s, d), d) == Apply(s, d)
  {
    var m := d.meta;
    match d.params
    case TransferParams(from, to, tokenId) =>
      TransferIdempotent(s, m, from, to, tokenId, d.chain.tokenState);
    case ONFTReceivedParams(guid, srcEid, toAddress, tokenId) =>
      ReceivedIdempotent(s, m, guid, srcEid, toAddress, tokenId);
    case ONFTSentParams(guid, dstEid, fromAddress, tokenId) =>
      SentIdempotent(s, m, guid, dstEid, fromAddress, tokenId);
    case TokenEvolvedParams(tokenId, evolution) =>
      EvolvedIdempotent(s, m, tokenId, evolution, d.chain);
    case BaseURISetParams(baseURI) =>
      BaseURISetIdempotent(s, m, baseURI);
  }

  /** A token that was just written fresh is a fixed point of the same rewrite. */
  lemma RewriteFixedPoint(t: Token, g: Option<Global>, h: Option<Global>, p: Provenance)
    requires EffectiveBase(g) == EffectiveBase(h)
    ensures Refreshed(Refreshed(t, g, p), h, p) == Refreshed(t, g, p)
  {
    TokenURISameBase(g, h, t.tokenState);
  }

  lemma TransferIdempotent(s: State, m: EventMeta, from: Address, to: Address, tokenId: nat, stateRead: ReadResult<nat>)
    ensures
      var once := TransferStep(s, m, from, to, tokenId, stateRead);
      TransferStep(once, m, from, to, tokenId, stateRead) == once
  {
    var once := TransferStep(s, m, from, to, tokenId, stateRead);
    var twice := TransferStep(once, m, from, to, tokenId, stateRead);
    var id := NatToString(tokenId);
    if to != ZERO_ADDRESS {
      var s1 := Logged(s, m, TransferParams(from, to, tokenId));
      var t := LoadOrCreate(s1.tokens, id, tokenId, m.address)
                 .(owner := to, tokenState := Some(StateFromRead(stateRead, "0")));
      var written := Refreshed(t, s1.global, ProvenanceOf(m));
      assert once.tokens == s1.tokens[id := written];
      var o1 := Logged(once, m, TransferParams(from, to, tokenId));
      assert LoadOrCreate(o1.tokens, id, tokenId, m.address).(owner := to, tokenState := Some(StateFromRead(stateRead, "0"))) == written;
      RewriteFixedPoint(t, s1.global, o1.global, ProvenanceOf(m));
      assert twice.tokens == once.tokens;
    }
  }

  lemma ReceivedIdempotent(s: State, m: EventMeta, guid: Bytes, srcEid: nat, toAddress: Address, encoded: nat)
    ensures
      var once := ReceivedStep(s, m, guid, srcEid, toAddress, encoded);
      ReceivedStep(once, m, guid, srcEid, toAddress, encoded) == once
  {
    var once := ReceivedStep(s, m, guid, srcEid, toAddress, encoded);
    var twice := ReceivedStep(once, m, guid, srcEid, toAddress, encoded);
    var dec := DecodeTokenInfo(encoded);
    var id := NatToString(dec.realTokenId);
    if toAddress != ZERO_ADDRESS {
      var t := LoadOrCreate(s.tokens, id, dec.realTokenId, m.address)
                 .(owner := toAddress, tokenState := Some(NatToString(dec.tokenState)));
      var written := Refreshed(t, s.global, ProvenanceOf(m));
      assert once.tokens == s.tokens[id := written];
      assert LoadOrCreate(once.tokens, id, dec.realTokenId, m.address)
               .(owner := toAddress, tokenState := Some(NatToString(dec.tokenState))) == written;
      RewriteFixedPoint(t, s.global, once.global, ProvenanceOf(m));
      assert twice.tokens == once.tokens;
    }
  }

  lemma SentIdempotent(s: State, m: EventMeta, guid: Bytes, dstEid: nat, fromAddress: Address, encoded: nat)
    ensures
      var once := SentStep(s, m, guid, dstEid, fromAddress, encoded);
      SentStep(once, m, guid, dstEid, fromAddress, encoded) == once
  {
  }

  lemma EvolvedIdempotent(s: State, m: EventMeta, tokenId: nat, evolution: nat, chain: ChainReads)
    ensures
      var once := EvolvedStep(s, m, tokenId, evolution, chain);
      EvolvedStep(once, m, tokenId, evolution, chain) == once
  {
    var once := EvolvedStep(s, m, tokenId, evolution, chain);
    var twice := EvolvedStep(once, m, tokenId, evolution, chain);
    var id := NatToString(tokenId);
    var written := once.tokens[id];
    assert written.(tokenState := Some(StateFromRead(chain.tokenState, NatToString(evolution)))) == written;
    RefreshedIdempotent(written, s.global, ProvenanceOf(m));
    assert twice.tokens == once.tokens;
  }

  lemma BaseURISetIdempotent(s: State, m: EventMeta, baseURI: string)
    ensures BaseURISetStep(BaseURISetStep(s, m, baseURI), m, baseURI) == BaseURISetStep(s, m, baseURI)
  {
    var g := GlobalOrDefault(s.global).(baseURI := baseURI);
    FanOutIdempotent(s.tokens, g.tokenIds, Some(g), ProvenanceOf(m));
  }
}

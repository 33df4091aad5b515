/** The registry of live token ids kept in `Global.tokenIds` (an array used as a
    set), and the base-URI fan-out over it. */
module Registry {
  import opened Base
  import opened Schema
  import opened MetadataUri

  predicate NoDuplicates(ids: seq<string>) {
    forall i, j :: 0 <= i < j < |ids| ==> ids[i] != ids[j]
  }

  /** `Array.indexOf`: the first position holding `s`, or -1 when there is none. */
  method IndexOf(arr: seq<string>, s: string) returns (i: int)
    ensures -1 <= i < |arr|
    ensures i == -1 <==> s !in arr
    ensures 0 <= i ==> arr[i] == s && s !in arr[..i]
  {
    i := 0;
    while i < |arr|
      invariant 0 <= i <= |arr|
      invariant s !in arr[..i]
    {
      if arr[i] == s {
        return;
      }
      i := i + 1;
    }
    i := -1;
  }

  /** The state `addTokenIdToGlobal` leaves behind: `s` is a member afterwards,
      a present id changes nothing, an absent one goes to the end, and the
      registry stays duplicate-free. */
  function AddTokenId(g: Global, s: string): (r: Global)
    ensures r.baseURI == g.baseURI
    ensures s in r.tokenIds
    ensures s in g.tokenIds ==> r == g
    ensures s !in g.tokenIds ==> r.tokenIds == g.tokenIds + [s]
    ensures NoDuplicates(g.tokenIds) ==> NoDuplicates(r.tokenIds)
    ensures forall x :: x in r.tokenIds <==> x in g.tokenIds || x == s
  {
    if s in g.tokenIds then g else g.(tokenIds := g.tokenIds + [s])
  }

  /** Registering twice is registering once. */
  lemma AddTokenIdIdempotent(g: Global, s: string)
    ensures AddTokenId(AddTokenId(g, s), s) == AddTokenId(g, s)
  {
  }

  /** A duplicate-free registry holding `s` holds it at exactly one position. */
  lemma RegisteredOnce(ids: seq<string>, s: string, i: nat)
    requires NoDuplicates(ids)
    requires i < |ids| && ids[i] == s
    ensures forall j :: 0 <= j < |ids| && ids[j] == s ==> j == i
  {
  }

  /** One token after its URI has been recomputed and its provenance overwritten. */
  function Refreshed(t: Token, g: Option<Global>, p: Provenance): (r: Token)
    ensures r.tokenURI == Some(TokenURI(g, t.tokenState))
    ensures r.provenance == p
    ensures r.(tokenURI := t.tokenURI, provenance := t.provenance) == t
  {
    t.(tokenURI := Some(TokenURI(g, t.tokenState)), provenance := p)
  }

  /** The token store after the `handleBaseURISet` loop: every registered id that
      has a stored token is refreshed under the new Global; every other entry,
      and the set of keys, are untouched. */
  function FanOut(tokens: map<string, Token>, ids: seq<string>, g: Option<Global>, p: Provenance): (r: map<string, Token>)
    ensures r.Keys == tokens.Keys
    ensures forall k :: k in tokens && k in ids ==> r[k] == Refreshed(tokens[k], g, p)
    ensures forall k :: k in tokens && k !in ids ==> r[k] == tokens[k]
  {
    map k | k in tokens :: if k in ids then Refreshed(tokens[k], g, p) else tokens[k]
  }

  /** Refreshing is idempotent. */
  lemma RefreshedIdempotent(t: Token, g: Option<Global>, p: Provenance)
    ensures Refreshed(Refreshed(t, g, p), g, p) == Refreshed(t, g, p)
  {
  }

  /** The fan-out depends on the registry only as a set: its order and any repetition are irrelevant. */
  lemma FanOutOrderIndependent(tokens: map<string, Token>, a: seq<string>, b: seq<string>, g: Option<Global>, p: Provenance)
    requires forall x :: x in a <==> x in b
    ensures FanOut(tokens, a, g, p) == FanOut(tokens, b, g, p)
  {
  }

  /** A second fan-out with the same configuration changes nothing. */
  lemma FanOutIdempotent(tokens: map<string, Token>, ids: seq<string>, g: Option<Global>, p: Provenance)
    ensures FanOut(FanOut(tokens, ids, g, p), ids, g, p) == FanOut(tokens, ids, g, p)
  {
    var once := FanOut(tokens, ids, g, p);
    var twice := FanOut(once, ids, g, p);
    forall k | k in tokens
      ensures twice[k] == once[k]
    {
      if k in ids {
        RefreshedIdempotent(tokens[k], g, p);
      }
    }
  }
}

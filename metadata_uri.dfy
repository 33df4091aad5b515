/** `getTokenURI`: the metadata locator is `<baseURI><tokenState>/omninad.json`.
    AssemblyScript treats a null or empty string as false, so both the base URI
    and the state fall back to their defaults when missing or empty. */
module MetadataUri {
  import opened Base
  import opened Schema

  const URI_SUFFIX: string := "/omninad.json"
  const DEFAULT_TOKEN_STATE: string := "1"

  /** The base the URI is built on: the configured one when a Global with a
      non-empty base exists, the default otherwise. */
  function EffectiveBase(g: Option<Global>): (b: string)
    ensures g.Some? && g.value.baseURI != "" ==> b == g.value.baseURI
    ensures g.None? || g.value.baseURI == "" ==> b == DEFAULT_BASE_URI
    ensures b != ""
  {
    if g.Some? && g.value.baseURI != "" then g.value.baseURI else DEFAULT_BASE_URI
  }

  function EffectiveState(state: Option<string>): (s: string)
    ensures state.Some? && state.value != "" ==> s == state.value
    ensures state.None? || state.value == "" ==> s == DEFAULT_TOKEN_STATE
    ensures s != ""
  {
    if state.Some? && state.value != "" then state.value else DEFAULT_TOKEN_STATE
  }

  function TokenURI(g: Option<Global>, state: Option<string>): (uri: string)
    ensures |uri| == |EffectiveBase(g)| + |EffectiveState(state)| + |URI_SUFFIX|
    ensures uri[..|EffectiveBase(g)|] == EffectiveBase(g)
    ensures uri[|EffectiveBase(g)|..|uri| - |URI_SUFFIX|] == EffectiveState(state)
    ensures uri[|uri| - |URI_SUFFIX|..] == URI_SUFFIX
  {
    EffectiveBase(g) + EffectiveState(state) + URI_SUFFIX
  }

  /** Under one configuration the URI names exactly one state: it can be parsed back. */
  lemma {:induction false} TokenURIDeterminesState(g: Option<Global>, a: Option<string>, b: Option<string>)
    requires TokenURI(g, a) == TokenURI(g, b)
    ensures EffectiveState(a) == EffectiveState(b)
  {
    var base, uri := EffectiveBase(g), TokenURI(g, a);
    assert |EffectiveState(a)| == |EffectiveState(b)|;
    var n := |EffectiveState(a)|;
    assert uri[|base|..|base| + n] == EffectiveState(a);
    assert TokenURI(g, b)[|base|..|base| + n] == EffectiveState(b);
  }

  /** The URI depends on the Global only through its effective base, so registering
      ids or creating the default Global never makes a stored URI stale. */
  lemma TokenURISameBase(g: Option<Global>, h: Option<Global>, state: Option<string>)
    requires EffectiveBase(g) == EffectiveBase(h)
    ensures TokenURI(g, state) == TokenURI(h, state)
  {
  }

  lemma TokenURIExamples()
    ensures TokenURI(Some(Global("https://new/", [])), Some("3")) == "https://new/3/omninad.json"
    ensures TokenURI(Some(Global("https://new/", [])), None) == "https://new/1/omninad.json"
  {
    var g := Some(Global("https://new/", []));
    LiteralUris();
    assert TokenURI(g, Some("3")) == "https://new/" + EffectiveState(Some("3")) + URI_SUFFIX;
    assert TokenURI(g, None) == "https://new/" + EffectiveState(None) + URI_SUFFIX;
  }

  lemma LiteralUris()
    ensures "https://new/" + "3" + URI_SUFFIX == "https://new/3/omninad.json"
    ensures "https://new/" + "4" + URI_SUFFIX == "https://new/4/omninad.json"
    ensures "https://new/" + "1" + URI_SUFFIX == "https://new/1/omninad.json"
  {
  }

  /** An empty configured base behaves like no base at all. */
  lemma EmptyBaseFallsBack(tokenIds: seq<string>, state: Option<string>)
    ensures TokenURI(Some(Global("", tokenIds)), state) == TokenURI(None, state)
  {
  }
}

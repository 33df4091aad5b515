/** The two derived entities the handlers keep current: `Token` (one per live NFT,
    keyed by the decimal token id) and the `Global` singleton. */
module Schema {
  import opened Base

  /** The base URI a fresh `Global` starts with, and the fallback when none is configured. */
  const DEFAULT_BASE_URI: string := "https://arweave.net/KTNUM70p_uS38bAUzrwmBFiMAIrXoiBQFzIGTRfDMu4/arbitrum/"

  /** `tokenState` and `tokenURI` are nullable columns: a freshly constructed entity
      has neither until a handler assigns them. */
  datatype Token = Token(
    id: string,
    tokenId: nat,
    owner: Address,
    tokenState: Option<string>,
    tokenURI: Option<string>,
    contract: Address,
    provenance: Provenance)

  datatype Global = Global(baseURI: string, tokenIds: seq<string>)

  /** `new Token(id)` followed by the two assignments every handler makes at creation
      (`tokenId`, `contract`). Owner and provenance hold placeholders that every
      handler overwrites before it saves. */
  function NewToken(id: string, tokenId: nat, contract: Address): (t: Token)
    ensures t.id == id && t.tokenId == tokenId && t.contract == contract
    ensures t.tokenState.None? && t.tokenURI.None?
  {
    Token(id, tokenId, ZERO_ADDRESS, None, None, contract, Provenance(0, 0, []))
  }

  /** The stored Global, or the one `getOrCreateGlobal` would create. */
  function GlobalOrDefault(g: Option<Global>): (r: Global)
    ensures g.Some? ==> r == g.value
    ensures g.None? ==> r.baseURI == DEFAULT_BASE_URI && r.tokenIds == []
  {
    match g
    case Some(x) => x
    case None => Global(DEFAULT_BASE_URI, [])
  }

  /** The registry as seen by a reader: empty while no Global exists. */
  function RegistryOf(g: Option<Global>): (ids: seq<string>)
    ensures g.None? ==> ids == []
    ensures g.Some? ==> ids == g.value.tokenIds
  {
    GlobalOrDefault(g).tokenIds
  }

  /** `setTokenOwnerFromOnChain`: the owner becomes the `ownerOf` answer, or the
      zero address when the call reverted; no other field changes. */
  function WithOwnerFromOnChain(t: Token, ownerRead: ReadResult<Address>): (r: Token)
    ensures ownerRead.Ok? ==> r.owner == ownerRead.value
    ensures ownerRead.Reverted? ==> r.owner == ZERO_ADDRESS
    ensures r.(owner := t.owner) == t
  {
    t.(owner := ReadOr(ownerRead, ZERO_ADDRESS))
  }
}

# Omni-nads subgraph: a verified model of the event projection

The Omni-nads subgraph indexes an NFT contract that can travel between chains.
It turns the contract's ordered event log into current state:

- `Token` entities, one per live NFT, keyed by the decimal token id. Each holds
  the owner, the token state, the metadata URI, the originating contract and the
  provenance of the last write.
- The `Global` singleton. It holds the configured `baseURI` and `tokenIds`, a
  registry of ids that is used as a set.

This project models the core of `src/omni-nads-consumer.ts` in Dafny:

- **Identifier codec** (`identifier_codec.dfy`). A bridged id packs the real id
  and the token's state as `encoded = realId * 10 + state`.
- **Metadata URI builder** (`metadata_uri.dfy`). The URI is
  `<baseURI><tokenState>/omninad.json`, with the default arweave base and state
  `"1"` as fallbacks.
- **Registry** (`registry.dfy`). This covers the `indexOf` membership scan, the
  duplicate-free insert, and the base-URI fan-out over the registered ids.
- **Projection** (`projection.dfy`). Each handler is a pure step on a snapshot
  of the store (tokens, Global, audit records). The per-call properties are
  stated as `ensures`. Properties that relate several steps are lemmas:
  replaying any event is idempotent, and every handler keeps the registry
  duplicate-free and the registered tokens' URIs fresh.
- **Handlers** (`subgraph.dfy`). The class `Subgraph` holds the store as fields.
  Its methods follow the source's load-mutate-save code, and the base-URI loop
  stays a loop. Each method is proved to leave exactly the snapshot that its
  projection step describes.
- **Scenarios** (`scenarios.dfy`). Worked examples of the fan-out, a replayed
  mint and a burn on receive, plus the gap between the registry and the store.
- Shared types are in `base.dfy` (`Option`, the `ReadResult` of a `try_*` call,
  `Address`, provenance). Decimal rendering is in `decimal.dfy`. The entities
  are in `schema.dfy`.

Three behaviours of the source are easy to miss, and the model keeps all three:

- AssemblyScript treats a null *or empty* string as false. So `getTokenURI`
  falls back to the default base when `Global.baseURI` is `""`, and to state
  `"1"` when `tokenState` is `""`. As a result, after `BaseURISet("")`,
  `Global.baseURI` is `""` but the URIs are built on the default base.
  `Projection.BaseURISetFormula` states the literal `u + state + "/omninad.json"`
  formula for a non-empty `u`. `MetadataUri.EmptyBaseFallsBack` covers `""`.
- Not every save recomputes the URI. `handleONFTSent` saves the token
  without recomputing its URI (a new token gets no URI at all) and then
  deletes it at once. The model keeps that
  intermediate save, and only the deletion shows in the result.
- The fan-out rewrites only registered ids. Evolutions and non-mint transfers
  never register. So the invariant that is proved (`Projection.Valid`) covers
  the URIs of *registered* tokens only. `Scenarios.UnregisteredTokenMissesFanOut`
  shows an unregistered token keeping a stale URI.

## Model

| member | source | states |
|---|---|---|
| `Decimal.NatToString` | src/omni-nads-consumer.ts:183 | `BigInt.toString`: a non-empty string of decimal digits with no leading zero, one character exactly for values below 10, and the last character is the last digit |
| `Decimal.NatToStringInjective` | src/omni-nads-consumer.ts:341 | distinct token ids give distinct store keys |
| `IdentifierCodec.DecodeTokenInfo` | src/omni-nads-consumer.ts:44-48 | for every non-negative input, `realTokenId * 10 + tokenState == encoded` and `tokenState < 10` |
| `IdentifierCodec.EncodeDecode` | src/omni-nads-consumer.ts:44-48 | decoding is lossless: re-encoding the parts gives back the input |
| `IdentifierCodec.DecodeUnique` | src/omni-nads-consumer.ts:44-48 | any split into an id and a single state digit is the decoded split |
| `IdentifierCodec.DecodeEncode` | src/omni-nads-consumer.ts:44-48 | a pair whose state is below 10 survives encoding and then decoding |
| `IdentifierCodec.WideStateTruncates` | src/omni-nads-consumer.ts:45-46 | a state of 10 or more is folded into the id: (4, 12) comes back as (5, 2) |
| `IdentifierCodec.DecodeExamples` | src/omni-nads-consumer.ts:44-48 | decode(123) = (12, 3) and decode(7) = (0, 7) |
| `MetadataUri.EffectiveBase` | src/omni-nads-consumer.ts:92-95 | the configured base when a Global with a non-empty base exists, otherwise the default arweave base; never empty |
| `MetadataUri.EffectiveState` | src/omni-nads-consumer.ts:97 | the token's state when present and non-empty, otherwise `"1"` |
| `MetadataUri.TokenURI` | src/omni-nads-consumer.ts:91-99 | the URI starts with the effective base, ends with `/omninad.json`, the slice between them is exactly the effective state, and its length is the sum of the three |
| `MetadataUri.TokenURIDeterminesState` | src/omni-nads-consumer.ts:98 | under one Global, equal URIs mean equal effective states, so the state can be read back from the URI |
| `MetadataUri.TokenURISameBase` | src/omni-nads-consumer.ts:92-98 | the URI depends on the Global only through its effective base |
| `MetadataUri.EmptyBaseFallsBack` | src/omni-nads-consumer.ts:93-95 | a Global whose base is `""` gives the same URIs as no Global |
| `MetadataUri.TokenURIExamples` | src/omni-nads-consumer.ts:98 | base `https://new/` with state "3" gives `https://new/3/omninad.json`; a missing state gives `.../1/omninad.json` |
| `Schema.NewToken` | src/omni-nads-consumer.ts:190-194 | a created token carries its key, its numeric id and the event's contract, with no state and no URI yet |
| `Schema.GlobalOrDefault` | src/omni-nads-consumer.ts:50-59 | the stored Global, or a new one with the default base and an empty registry |
| `Schema.WithOwnerFromOnChain` | src/omni-nads-consumer.ts:78-89 | the owner becomes the `ownerOf` answer, or the zero address if the call reverted; no other field changes |
| `Registry.IndexOf` | src/omni-nads-consumer.ts:64 | `indexOf` returns -1 exactly when the id is absent; otherwise it returns the first position that holds it |
| `Registry.AddTokenId` | src/omni-nads-consumer.ts:61-69 | the id is a member afterwards. A present id changes nothing, and an absent one is appended at the end. The base stays the same, membership grows by exactly that id, and a duplicate-free registry stays duplicate-free |
| `Registry.AddTokenIdIdempotent` | src/omni-nads-consumer.ts:64-67 | registering twice is the same as registering once |
| `Registry.RegisteredOnce` | src/omni-nads-consumer.ts:64-65 | in a duplicate-free registry an id sits at exactly one position |
| `Registry.FanOut` | src/omni-nads-consumer.ts:138-149 | the keys are unchanged. Every stored registered token gets its URI recomputed from its state under the new Global and its provenance overwritten. Every unregistered token is untouched |
| `Registry.FanOutOrderIndependent` | src/omni-nads-consumer.ts:139-149 | the fan-out depends on the registry only as a set, so order and repetition do not matter |
| `Registry.FanOutIdempotent` | src/omni-nads-consumer.ts:138-149 | a second fan-out with the same Global and provenance changes nothing |
| `Projection.Logged` | src/omni-nads-consumer.ts:206-214 | the verbatim record goes under its key (table, transaction hash, log index); the other records, tokens and Global are unchanged |
| `Projection.RemoveToken` | src/omni-nads-consumer.ts:71-76 | the token is absent afterwards, removing a missing token is a no-op, and everything else is unchanged |
| `Projection.Register` | src/omni-nads-consumer.ts:61-69 | creates the Global if needed and registers the id, with `AddTokenId`'s guarantees; an existing Global keeps its stored `baseURI` and a created Global carries the default base; the effective base, tokens and records are unchanged |
| `Projection.LoadOrCreate` | src/omni-nads-consumer.ts:189-194 | the stored token, or a new one with the creation-time fields; in a keyed store (every token under its own `id`, which is the decimal rendering of its `tokenId`) the token found under `str(tokenId)` has that `id` and that `tokenId` |
| `Projection.StateFromRead` | src/omni-nads-consumer.ts:357-362 | the decimal on-chain state, or the fallback on revert; with a non-empty fallback the state is non-empty, so `getTokenURI`'s `"1"` default never replaces a state a handler writes |
| `Registry.Refreshed` | src/omni-nads-consumer.ts:143-146 | the loop body: the URI is recomputed from the token's own state under the new Global, the provenance is the event's, and every other field is kept |
| `Projection.TransferStep` | src/omni-nads-consumer.ts:330-374 | a transfer to zero removes the token and leaves the Global alone. Otherwise the token owner is `to`, the state is the on-chain value or `"0"`, the URI is fresh and the provenance is the event's. An existing token keeps its id, numeric id and contract, a new one gets them from the event, and a keyed store stays keyed with the written token under its own id; a mint registers the id; no other token changes |
| `Projection.ReceivedStep` | src/omni-nads-consumer.ts:179-215 | delivery to zero removes the token under the decoded id and leaves the registry alone. Otherwise the token's owner is `toAddress`, its state is `str(e % 10)`, its URI is fresh, an existing token keeps its id, numeric id and contract (a new one gets them from the decoded id and the event), a keyed store stays keyed, and the decoded id is registered |
| `Projection.SentStep` | src/omni-nads-consumer.ts:218-248 | no token remains under the decoded id. The Global and all other tokens are unchanged, and the audit record keeps the encoded id |
| `Projection.EvolvedStep` | src/omni-nads-consumer.ts:293-328 | the registry is never changed. The state is the on-chain value or `str(evolution)`, and the URI is fresh. An existing token keeps its owner, id, numeric id and contract; a new one takes its owner from `ownerOf` or the zero address and its id from the event; a keyed store stays keyed |
| `Projection.BaseURISetStep` | src/omni-nads-consumer.ts:126-150 | `Global.baseURI` is the new base and the registry is unchanged. Every stored registered token gets a URI from the new Global and the event's provenance, with its other fields untouched. Unregistered tokens and the key set are unchanged |
| `Projection.BaseURISetFormula` | src/omni-nads-consumer.ts:138-149 | for a non-empty base `u`, a registered token's URI is exactly `u + state + "/omninad.json"` |
| `Projection.EmptyValid` | src/omni-nads-consumer.ts:55 | the empty store satisfies the invariant |
| `Projection.ApplyPreservesValid` | src/omni-nads-consumer.ts:134-149 | every handler keeps every token under its own decimal id, the registry duplicate-free and every registered stored token's URI fresh |
| `Projection.RunPreservesValid` | src/omni-nads-consumer.ts:134-149 | the invariant holds after any sequence of events |
| `Projection.ApplyIdempotent` | src/omni-nads-consumer.ts:179-374 | replaying any event gives the same store, Global and records as applying it once |
| `Projection.TransferIdempotent` | src/omni-nads-consumer.ts:340-373 | a replayed transfer changes nothing |
| `Projection.ReceivedIdempotent` | src/omni-nads-consumer.ts:179-204 | a replayed bridge delivery changes nothing |
| `Projection.SentIdempotent` | src/omni-nads-consumer.ts:218-237 | a replayed bridge send changes nothing |
| `Projection.EvolvedIdempotent` | src/omni-nads-consumer.ts:304-327 | a replayed evolution changes nothing, because the owner is read only on creation |
| `Projection.BaseURISetIdempotent` | src/omni-nads-consumer.ts:134-149 | a replayed base-URI change changes nothing |
| `Handlers.Subgraph.SaveRecord` | src/omni-nads-consumer.ts:239-247 | saving an audit record changes only the records, as `Logged` says |
| `Handlers.Subgraph.GetOrCreateGlobal` | src/omni-nads-consumer.ts:50-59 | returns the stored Global, or creates and saves the default one; tokens and records are unchanged |
| `Handlers.Subgraph.AddTokenIdToGlobal` | src/omni-nads-consumer.ts:61-69 | the linear scan and push leave exactly the `Register` snapshot |
| `Handlers.Subgraph.RemoveTokenFromSubgraph` | src/omni-nads-consumer.ts:71-76 | the load-then-remove leaves exactly the `RemoveToken` snapshot |
| `Handlers.Subgraph.HandleBaseURISet` | src/omni-nads-consumer.ts:126-150 | the loop over `tokenIds` leaves exactly the `BaseURISetStep` snapshot |
| `Handlers.Subgraph.HandleONFTReceived` | src/omni-nads-consumer.ts:179-215 | leaves exactly the `ReceivedStep` snapshot |
| `Handlers.Subgraph.HandleONFTSent` | src/omni-nads-consumer.ts:218-248 | the save-then-delete leaves exactly the `SentStep` snapshot |
| `Handlers.Subgraph.HandleTokenEvolved` | src/omni-nads-consumer.ts:293-328 | leaves exactly the `EvolvedStep` snapshot for the given `ownerOf` and `tokenState` answers |
| `Handlers.Subgraph.HandleTransfer` | src/omni-nads-consumer.ts:330-374 | leaves exactly the `TransferStep` snapshot, including the early return for a burn |
| `Scenarios.FanOutExample` | src/omni-nads-consumer.ts:134-149 | with registry ["1","2"] in states 3 and 4, base `https://new/` gives `https://new/3/omninad.json` and `https://new/4/omninad.json` |
| `Scenarios.MintRegistersOnce` | src/omni-nads-consumer.ts:370-373 | a mint, even when replayed, leaves the token owned by `to` and its id registered once, in a duplicate-free registry |
| `Scenarios.MintFiveTwice` | src/omni-nads-consumer.ts:370-373 | minting token 5 twice into an empty store leaves the registry `["5"]` |
| `Scenarios.BurnOnReceive` | src/omni-nads-consumer.ts:186-187 | a delivery of encoded id 123 to zero leaves no token "12" and the Global unchanged |
| `Scenarios.UnregisteredTokenMissesFanOut` | src/omni-nads-consumer.ts:304-327 | a token created by an evolution is not registered, so a later base change leaves its URI stale |

## Left out

- The seven handlers that only write an audit record (`handleApproval`, `handleApprovalForAll`, `handleEnforcedOptionSet`, `handleMsgInspectorSet`, `handleOwnershipTransferred`, `handlePeerSet`, `handlePreCrimeSet`). They copy event fields and touch no Token or Global. The audit halves of the five modelled handlers go through one generic record store (`Projection.Logged`).
- Audit record keys. The host builds them as `transactionHash.concatI32(logIndex.toI32())`. The model keys them by (table, hash, log index) and does not model the 32-bit truncation of the log index.
- The host's persistence API (`Entity.load`, `save`, `store.remove`). These become operations on the `tokens` map and the `global` option.
- The GraphQL schema is not part of this model. Its checks that required fields are set at save time are therefore not modelled, and `tokenState` and `tokenURI` are treated as nullable.
- Contract binding and RPC (`OmniNadsConsumer.bind`, `try_ownerOf`, `try_tokenState`). These are external blocking calls. Their answers at the event's block are inputs (`ReadResult` values).
- Hex encoding of addresses (`toHexString`, `Address.fromHexString`). An address is a number below 2^160. A comparison with the 40-zero hex string is a comparison with `ZERO_ADDRESS`.
- Integer widths. `BigInt` values, event ids and the `tokenState` read are unbounded naturals. Negative values cannot occur for these unsigned on-chain fields.
- Fields of a newly constructed `Token` that the host leaves unset (owner, provenance). They hold placeholders, and every handler overwrites them before it saves.
- Concurrency. The host delivers events one at a time, so there is none to model.

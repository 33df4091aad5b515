/** The handlers of src/omni-nads-consumer.ts as the indexing host runs them:
    each one loads entities from the store, overwrites fields and saves them back.
    The store is the three fields of `Subgraph`; every handler is proved to leave
    exactly the snapshot the corresponding `Projection` step describes. */
module Handlers {
  import opened Base
  import opened Decimal
  import opened IdentifierCodec
  import opened Schema
  import opened MetadataUri
  import opened Registry
  import opened Projection

  class Subgraph {
    var tokens: map<string, Token>
    var global: Option<Global>
    var records: map<RecordKey, AuditRecord>

    function Snapshot(): State
      reads this
    {
      State(tokens, global, records)
    }

    constructor ()
      ensures Snapshot() == EMPTY
    {
      tokens, global, records := map[], None, map[];
    }

    /** `entity.save()` for the verbatim audit record of an event. */
    method SaveRecord(m: EventMeta, p: Params)
      modifies this
      ensures Snapshot() == Logged(old(Snapshot()), m, p)
    {
      records := records[KeyOf(m, p) := AuditRecord(p, ProvenanceOf(m))];
    }

    method GetOrCreateGlobal() returns (g: Global)
      modifies this
      ensures g == GlobalOrDefault(old(global)) && global == Some(g)
      ensures tokens == old(tokens) && records == old(records)
    {
      match global {
        case Some(loaded) =>
          g := loaded;
        case None =>
          g := Global(DEFAULT_BASE_URI, []);
          global := Some(g);
      }
    }

    method AddTokenIdToGlobal(id: string)
      modifies this
      ensures Snapshot() == Register(old(Snapshot()), id)
    {
      var g := GetOrCreateGlobal();
      var arr := g.tokenIds;
      var at := IndexOf(arr, id);
      if at == -1 {
        arr := arr + [id];
        global := Some(g.(tokenIds := arr));
      }
    }

    method RemoveTokenFromSubgraph(id: string)
      modifies this
      ensures Snapshot() == RemoveToken(old(Snapshot()), id)
    {
      if id in tokens {
        tokens := tokens - {id};
      }
    }

    method HandleBaseURISet(m: EventMeta, baseURI: string)
      modifies this
      ensures Snapshot() == BaseURISetStep(old(Snapshot()), m, baseURI)
    {
      SaveRecord(m, BaseURISetParams(baseURI));

      var g := GetOrCreateGlobal();
      global := Some(g.(baseURI := baseURI));

      ghost var before := tokens;
      var tokenIds := global.value.tokenIds;
      var i := 0;
      while i < |tokenIds|
        invariant 0 <= i <= |tokenIds|
        invariant global == Some(g.(baseURI := baseURI)) && tokenIds == g.tokenIds
        invariant records == old(records)[KeyOf(m, BaseURISetParams(baseURI)) := AuditRecord(BaseURISetParams(baseURI), ProvenanceOf(m))]
        invariant tokens == FanOut(before, tokenIds[..i], global, ProvenanceOf(m))
      {
        var tidStr := tokenIds[i];
        if tidStr in tokens {
          var token := tokens[tidStr];
          token := token.(tokenURI := Some(TokenURI(global, token.tokenState)));
          token := token.(provenance := ProvenanceOf(m));
          FanOutStep(before, tokenIds, i, global, ProvenanceOf(m));
          tokens := tokens[tidStr := token];
        } else {
          FanOutSkip(before, tokenIds, i, global, ProvenanceOf(m));
        }
        i := i + 1;
      }
      assert tokenIds[..|tokenIds|] == tokenIds;
    }

    method HandleONFTReceived(m: EventMeta, guid: Bytes, srcEid: nat, toAddress: Address, tokenId: nat)
      modifies this
      ensures Snapshot() == ReceivedStep(old(Snapshot()), m, guid, srcEid, toAddress, tokenId)
    {
      var decoded := DecodeTokenInfo(tokenId);
      var realTokenId := decoded.realTokenId;
      var newState := decoded.tokenState;
      var idStr := NatToString(realTokenId);

      if toAddress == ZERO_ADDRESS {
        RemoveTokenFromSubgraph(idStr);
      } else {
        var token: Token;
        if idStr in tokens {
          token := tokens[idStr];
        } else {
          token := NewToken(idStr, realTokenId, m.address);
        }
        token := token.(owner := toAddress);
        token := token.(tokenState := Some(NatToString(newState)));
        token := token.(tokenURI := Some(TokenURI(global, token.tokenState)));
        token := token.(provenance := ProvenanceOf(m));
        tokens := tokens[idStr := token];

        AddTokenIdToGlobal(idStr);
      }

      SaveRecord(m, ONFTReceivedParams(guid, srcEid, toAddress, tokenId));
    }

    method HandleONFTSent(m: EventMeta, guid: Bytes, dstEid: nat, fromAddress: Address, tokenId: nat)
      modifies this
      ensures Snapshot() == SentStep(old(Snapshot()), m, guid, dstEid, fromAddress, tokenId)
    {
      var decoded := DecodeTokenInfo(tokenId);
      var realTokenId := decoded.realTokenId;
      var lastKnownState := decoded.tokenState;
      var idStr := NatToString(realTokenId);

      var token: Token;
      if idStr in tokens {
        token := tokens[idStr];
      } else {
        token := NewToken(idStr, realTokenId, m.address);
      }
      token := token.(owner := ZERO_ADDRESS);
      token := token.(tokenState := Some(NatToString(lastKnownState)));
      token := token.(provenance := ProvenanceOf(m));
      tokens := tokens[idStr := token];

      RemoveTokenFromSubgraph(idStr);

      SaveRecord(m, ONFTSentParams(guid, dstEid, fromAddress, tokenId));
    }

    method HandleTokenEvolved(m: EventMeta, tokenId: nat, evolution: nat, ownerRead: ReadResult<Address>, stateRead: ReadResult<nat>)
      modifies this
      ensures Snapshot() == EvolvedStep(old(Snapshot()), m, tokenId, evolution, ChainReads(ownerRead, stateRead))
    {
      SaveRecord(m, TokenEvolvedParams(tokenId, evolution));
      ghost var logged := Snapshot();

      var tokenIdStr := NatToString(tokenId);
      var token: Token;
      if tokenIdStr in tokens {
        token := tokens[tokenIdStr];
      } else {
        token := NewToken(tokenIdStr, tokenId, m.address);
        token := WithOwnerFromOnChain(token, ownerRead);
      }
      ghost var loaded := token;

      match stateRead {
        case Ok(value) =>
          token := token.(tokenState := Some(NatToString(value)));
        case Reverted =>
          token := token.(tokenState := Some(NatToString(evolution)));
      }
      assert token == loaded.(tokenState := Some(StateFromRead(stateRead, NatToString(evolution))));

      token := token.(tokenURI := Some(TokenURI(global, token.tokenState)));
      token := token.(provenance := ProvenanceOf(m));
      tokens := tokens[tokenIdStr := token];
      assert Snapshot() == logged.(tokens := logged.tokens[tokenIdStr := token]);
    }

    method HandleTransfer(m: EventMeta, from: Address, to: Address, tokenId: nat, stateRead: ReadResult<nat>)
      modifies this
      ensures Snapshot() == TransferStep(old(Snapshot()), m, from, to, tokenId, stateRead)
    {
      SaveRecord(m, TransferParams(from, to, tokenId));
      ghost var logged := Snapshot();

      var tokenIdStr := NatToString(tokenId);
      if to == ZERO_ADDRESS {
        RemoveTokenFromSubgraph(tokenIdStr);
        return;
      }

      var token: Token;
      if tokenIdStr in tokens {
        token := tokens[tokenIdStr];
      } else {
        token := NewToken(tokenIdStr, tokenId, m.address);
      }
      token := token.(owner := to);
      ghost var loaded := token;

      match stateRead {
        case Ok(value) =>
          token := token.(tokenState := Some(NatToString(value)));
        case Reverted =>
          token := token.(tokenState := Some("0"));
      }
      assert token == loaded.(tokenState := Some(StateFromRead(stateRead, "0")));

      token := token.(tokenURI := Some(TokenURI(global, token.tokenState)));
      token := token.(provenance := ProvenanceOf(m));
      tokens := tokens[tokenIdStr := token];
      ghost var saved := Snapshot();
      assert saved == logged.(tokens := logged.tokens[tokenIdStr := token]);

      if from == ZERO_ADDRESS {
        AddTokenIdToGlobal(tokenIdStr);
        assert Snapshot() == Register(saved, tokenIdStr);
      }
    }
  }

  /** One pass of the fan-out loop over a registered id that has a stored token. */
  lemma FanOutStep(tokens: map<string, Token>, ids: seq<string>, i: nat, g: Option<Global>, p: Provenance)
    requires i < |ids| && ids[i] in tokens
    ensures
      var done := FanOut(tokens, ids[..i], g, p);
      FanOut(tokens, ids[..i + 1], g, p) == done[ids[i] := Refreshed(done[ids[i]], g, p)]
  {
    var done := FanOut(tokens, ids[..i], g, p);
    var next := FanOut(tokens, ids[..i + 1], g, p);
    assert ids[..i + 1] == ids[..i] + [ids[i]];
    RefreshedIdempotent(tokens[ids[i]], g, p);
    assert next.Keys == done[ids[i] := Refreshed(done[ids[i]], g, p)].Keys;
  }

  /** One pass of the fan-out loop over a registered id whose token is gone. */
  lemma FanOutSkip(tokens: map<string, Token>, ids: seq<string>, i: nat, g: Option<Global>, p: Provenance)
    requires i < |ids| && ids[i] !in tokens
    ensures FanOut(tokens, ids[..i + 1], g, p) == FanOut(tokens, ids[..i], g, p)
  {
    assert ids[..i + 1] == ids[..i] + [ids[i]];
  }
}

/**
 `ssoTokenSource` (token.go) in its imperative form.  A call of `Token` or `Save` is proved to
 do what Calls.TokenCall and Calls.SaveCall say, for every fortune; module Sequential shows that
 such a call is a stretch of a run of module Protocol.
 */
module TokenSource {
  import opened Wrappers
  import opened Claims
  import opened Tables
  import opened Protocol
  import opened Store
  import opened Calls

  class SsoTokenSource {
    const store: PGStore
    const profileId: Id
    const characterName: string
    const scopes: ScopeList
    var character: Character?
    var token: Option<Protocol.Token>

    constructor (store: PGStore, profileId: Id, characterName: string, scopes: ScopeList, character: Character?)
      requires character != null ==> character.store == store
      ensures Valid() && this.store == store && this.character == character && token.None?
      ensures Abstract(Idle, None) ==
              Source(profileId, characterName, scopes, if character == null then None else Some(character.id), None, Idle, None)
    {
      this.store, this.profileId, this.characterName, this.scopes := store, profileId, characterName, scopes;
      this.character, this.token := character, None;
    }

    ghost predicate Valid()
      reads this
    {
      character != null ==> character.store == store
    }

    ghost function Abstract(pc: SourcePc, returned: Option<Protocol.Token>): Source
      reads this
    {
      Source(profileId, characterName, scopes, if character == null then None else Some(character.id), token, pc, returned)
    }

    /** The objects a call may change: the source, the store, and the handle it holds. */
    ghost function Footprint(): set<object>
      reads this
    {
      {this, store} + if character == null then {} else {character}
    }

    /**
     `GetCharacter`: the profile, then the active character in it that has the scopes;
     Calls.HandleFound says in columns which one.
     */
    method GetCharacter(f: TokenFortune) returns (r: Character?)
      requires Valid() && character == null
      ensures r != null ==> fresh(r) && r.store == store && r.id in store.characters
      ensures HandleOf(store.Snapshot(), Abstract(Lookup, None), f) == if r == null then None else Some(r.id)
      ensures var src := Abstract(Lookup, None);
        LookupCall((store.Snapshot(), src), f) ==
          (store.Snapshot(), if r == null then Return(src, None) else src.(pc := Loading, character := Some(r.id)))
    {
      LookupResult(store.Snapshot(), Abstract(Lookup, None), f);
      r := null;
      var profile := store.GetProfile(profileId, f.profileFound);
      if profile != null {
        r := profile.FindCharacter(Criteria(0, characterName, ""), scopes, f.characterFound);
      }
    }

    /** Fills the cache if it is empty: from the row of the handle, which is looked up first if need be. */
    method Load(f: TokenFortune) returns (loaded: bool)
      requires Valid()
      modifies Footprint()
      ensures Valid() && store.Snapshot() == old(store.Snapshot())
      ensures fresh(Footprint() - old(Footprint()))
      ensures loaded ==> token.Some?
      ensures (store.Snapshot(), Abstract(if loaded then Exchanging else Idle, None)) ==
              LoadCall(old((store.Snapshot(), Abstract(Idle, None))), f)
    {
      ghost var t, src := store.Snapshot(), Abstract(Idle, None);
      LoadResult(t, src, f);
      if token.Some? {
        return true;
      }
      if character == null {
        var found := GetCharacter(f);
        assert Try((t, src), Call) == (t, Abstract(Lookup, None));
        if found == null {
          return false;
        }
        character := found;
      }
      var row := character.Token(f.loaded, f.parses);
      if row.None? {
        return false;
      }
      token := row;
      return true;
    }

    /** First the refresh token, if it changed. */
    method KeepRefreshToken(got: Protocol.Token, f: TokenFortune) returns (kept: bool)
      requires Valid() && token.Some?
      modifies Footprint()
      ensures Valid() && character == old(character) && token == old(token)
      ensures var effect := SourceNext(old(store.Snapshot()), old(Abstract(Received(got), None)),
                                        StoreRefresh(f.at, f.refreshStored)).value;
        && store.Snapshot() == Commit(old(store.Snapshot()), effect.stmt)
        && effect.next == Abstract(if kept then Stored(got) else Idle, None)
    {
      if token.value.refresh == got.refresh {
        return true;
      }
      if character == null {
        return false;
      }
      kept := character.UpdateRefreshToken(got.refresh, f.at, f.refreshStored);
    }

    /** Last the access token, and with it the cache. */
    method KeepAccessToken(got: Protocol.Token, f: TokenFortune) returns (kept: bool)
      requires Valid() && token.Some?
      modifies Footprint()
      ensures Valid() && character == old(character)
      ensures token == if kept then Some(got) else old(token)
      ensures var effect := SourceNext(old(store.Snapshot()), old(Abstract(Accepted(got), None)),
                                        StoreAccess(f.at, f.accessStored)).value;
        && store.Snapshot() == Commit(old(store.Snapshot()), effect.stmt)
        && effect.next == Abstract(Idle, if kept then Some(got) else None)
    {
      if character == null {
        return false;
      }
      kept := character.UpdateAccessToken(got.access, f.at, f.accessStored);
      if kept {
        token := Some(got);
      }
    }

    /** The rest of a call once oauth2 has given a token: store the refresh token, validate, store the access token. */
    method Finish(got: Protocol.Token, f: TokenFortune) returns (r: Option<Protocol.Token>)
      requires Valid() && token.Some?
      modifies Footprint()
      ensures Valid() && character == old(character)
      ensures (store.Snapshot(), Abstract(Idle, r)) == Ending(old(store.Snapshot()), old(Abstract(Idle, None)), got, f)
      ensures token == if r.Some? then r else old(token)
    {
      var kept := KeepRefreshToken(got, f);
      if !kept {
        return None;
      }
      if token.value.access == got.access {
        return token;
      }
      if !f.valid {
        return None;
      }
      kept := KeepAccessToken(got, f);
      if !kept {
        return None;
      }
      return token;
    }

    /** What oauth2's answer leads to. */
    method Use(f: TokenFortune) returns (r: Option<Protocol.Token>)
      requires Valid() && token.Some?
      modifies Footprint()
      ensures Valid() && character == old(character)
      ensures (store.Snapshot(), Abstract(Idle, r)) == UseCall(old((store.Snapshot(), Abstract(Exchanging, None))), f)
      ensures token == if r.Some? then r else old(token)
    {
      ghost var x := (store.Snapshot(), Abstract(Exchanging, None));
      AnswerResult(x, f);
      var got := Given(token.value, f.answer);
      if got.None? {
        if f.answer == RetrieveError && character != null {
          var _ := character.UpdateActiveState(false, f.at, f.marked);
        }
        NothingLeft(AnswerCall(x, f), f);
        return None;
      }
      r := Finish(got.value, f);
    }

    /**
     `Token`: a call changes the store and the source as Calls.TokenCall says, and returns what
     that says; Calls.TokenReturns spells out when it succeeds.
     */
    method Token(f: TokenFortune) returns (r: Option<Protocol.Token>)
      requires Valid()
      modifies Footprint()
      ensures Valid()
      ensures (store.Snapshot(), Abstract(Idle, r)) == TokenCall(old(store.Snapshot()), old(Abstract(Idle, None)), f)
      ensures r.Some? ==> token == r
      ensures r.None? && old(token).Some? ==> token == old(token)
    {
      ghost var t, src := store.Snapshot(), Abstract(Idle, None);
      LoadResult(t, src, f);
      var loaded := Load(f);
      if !loaded {
        NothingLeft(LoadCall((t, src), f), f);
        return None;
      }
      r := Use(f);
    }

    /**
     `Save`: the claims of a validated token become a row, and the token the cache; the handle
     stays as it is.
     */
    method Save(saved: Protocol.Token, data: Data, f: SaveFortune) returns (success: bool)
      requires Valid() && Integrity(store.Snapshot())
      modifies this`token, store
      ensures Valid() && character == old(character)
      ensures (store.Snapshot(), Abstract(Idle, None)) ==
              SaveCall(old(store.Snapshot()), old(Abstract(Idle, None)), saved, data, f)
      ensures token == if success then Some(saved) else old(token)
      ensures var row := RowToSave(old(Abstract(Idle, None)), saved, data, f);
        success <==> row.Some? && f.profileFound && profileId in old(store.profiles) && f.stored
                     && Exec(old(store.Snapshot()), UpsertCharacter(f.uuid, row.value)).Ok?
      ensures success ==>
        && f.jt.Some? && ClaimsOf(f.jt.value).Ok?
        && var claims := ClaimsOf(f.jt.value).value;
           var row := CharacterRow(profileId, claims.characterId, claims.characterName, claims.owner, claims.scopes,
                                   saved.refresh, saved.access, true, data, f.at, f.at);
           && Exec(old(store.Snapshot()), UpsertCharacter(f.uuid, row)).Ok?
           && store.Snapshot() == Exec(old(store.Snapshot()), UpsertCharacter(f.uuid, row)).value
      ensures !success ==> store.Snapshot() == old(store.Snapshot())
    {
      SaveStores(store.Snapshot(), Abstract(Idle, None), saved, data, f);
      if f.jt.None? {
        return false;
      }
      var claims := NewCharacterClaims(f.jt.value);
      if claims.Err? {
        return false;
      }
      var profile := store.GetProfile(profileId, f.profileFound);
      if profile == null {
        return false;
      }
      var created := profile.CreateCharacter(claims.value, saved, data, f.uuid, f.at, f.stored);
      if created == null {
        return false;
      }
      token := Some(saved);
      return true;
    }
  }

  // ---- What a call leaves behind ----

  /** Both parts of the cached token are those of the row. */
  predicate InStep(t: Tables, src: Source, c: Id)
  {
    c in t.characters && src.token == Some(Protocol.Token(t.characters[c].accessToken, t.characters[c].refreshToken))
  }

  /**
   From a cache in step with its row, a call leaves them in step exactly when it stored no new
   refresh token, or went all the way: with a new access token, validated and stored.
   So a rejected token, or a failing last write, leaves the row ahead of the cache.
   */
  lemma CacheAfterCall(t: Tables, src: Source, c: Id, got: Protocol.Token, f: TokenFortune)
    requires src.character == Some(c) && InStep(t, src, c)
    ensures var (t', src') := Ending(t, src, got, f);
      InStep(t', src', c) <==>
        || got.refresh == src.token.value.refresh || !f.refreshStored
        || (got.access != src.token.value.access && f.valid && f.accessStored)
  {
  }

  /**
   Whatever happens after it, a refresh token whose write succeeds is in the row: validation
   and the write of the access token come later and cannot take it back.
   */
  lemma RefreshTokenComesFirst(t: Tables, src: Source, c: Id, got: Protocol.Token, f: TokenFortune)
    requires src.character == Some(c) && InStep(t, src, c)
    ensures var (t', src') := Ending(t, src, got, f);
      && c in t'.characters
      && t'.characters[c].refreshToken == (if f.refreshStored then got.refresh else src.token.value.refresh)
      && (t'.characters[c].accessToken != t.characters[c].accessToken ==>
            f.valid && t'.characters[c].accessToken == got.access && t'.characters[c].refreshToken == got.refresh)
  {
  }
}

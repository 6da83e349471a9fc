/**
 The store and the handles it gives out, in the imperative form of the Go code
 (pkg/datastore/evessopg).  Every method is proved against the statements and queries of
 module Tables.  `ok` says whether the database answers; uuids and clock readings are
 arguments.
 */
module Store {
  import opened Wrappers
  import opened Claims
  import opened Tables
  import opened Effects
  import opened Protocol
  import opened Base64Url
  import opened Pkce

  /** A statement commits exactly if the database answers and accepts it; otherwise nothing changes. */
  ghost predicate Ran(before: Tables, after: Tables, q: Stmt, ok: bool, success: bool)
  {
    && (success <==> ok && Exec(before, q).Ok?)
    && after == if success then Exec(before, q).value else before
  }

  /** scany's `Get`: exactly one row, or an error. */
  method Get(rows: set<Id>) returns (r: Option<Id>)
    ensures r == TheOnly(rows)
  {
    if |rows| == 1 {
      var c :| c in rows;
      assert |rows - {c}| == 0;
      assert rows == {c};
      return Some(c);
    }
    return None;
  }

  /** Lists a set of rows, each once, in no particular order. */
  method Select(rows: set<Id>) returns (r: seq<Id>)
    ensures multiset(r) == multiset(rows)
  {
    r := [];
    var left := rows;
    while left != {}
      invariant left <= rows
      invariant multiset(r) + multiset(left) == multiset(rows)
      decreases left
    {
      var c :| c in left;
      r := r + [c];
      left := left - {c};
    }
  }

  /** A PKCE handle: the row as it was read. */
  datatype PkceHandle = PkceHandle(id: Id, row: PkceRow)

  class PGStore {
    var profiles: map<Id, ProfileRow>
    var pkces: map<Id, PkceRow>
    var characters: map<Id, CharacterRow>

    ghost function Snapshot(): Tables
      reads this
    {
      Tables(profiles, pkces, characters)
    }

    constructor ()
      ensures Snapshot() == EMPTY
    {
      profiles, pkces, characters := map[], map[], map[];
    }

    method NewProfile(id: Id, name: string, data: Data, at: Instant, ok: bool) returns (r: Profile?)
      modifies this
      ensures Ran(old(Snapshot()), Snapshot(), InsertProfile(id, ProfileRow(name, data, at, at)), ok, r != null)
      ensures r != null <==> ok && id !in old(profiles) && forall p :: p in old(profiles) ==> old(profiles)[p].name != name
      ensures r != null ==> fresh(r) && r.store == this && r.id == id && r.profileName == name
      ensures r != null ==>
        && profiles.Keys == old(profiles).Keys + {id}
        && profiles[id].name == name && profiles[id].data == data
        && profiles[id].createdAt == at && profiles[id].updatedAt == at
        && forall p :: p in old(profiles) ==> profiles[p] == old(profiles)[p]
      ensures r == null ==> profiles == old(profiles)
      ensures pkces == old(pkces) && characters == old(characters)
    {
      if !ok || id in profiles || exists p :: p in profiles && profiles[p].name == name {
        return null;
      }
      profiles := profiles[id := ProfileRow(name, data, at, at)];
      r := new Profile(this, id, name);
    }

    method GetProfile(id: Id, ok: bool) returns (r: Profile?)
      ensures r != null <==> ok && id in profiles
      ensures r != null ==> fresh(r) && r.store == this && r.id == id && r.profileName == profiles[id].name
    {
      if ok && id in profiles {
        r := new Profile(this, id, profiles[id].name);
      } else {
        r := null;
      }
    }

    /** Each profile once. */
    method AllProfiles(ok: bool) returns (r: Option<seq<Id>>)
      ensures r.Some? <==> ok
      ensures r.Some? ==> multiset(r.value) == multiset(profiles.Keys)
    {
      if !ok {
        return None;
      }
      var rows := Select(profiles.Keys);
      return Some(rows);
    }

    method DeleteProfile(id: Id, ok: bool) returns (success: bool)
      modifies this
      ensures Ran(old(Snapshot()), Snapshot(), Stmt.DeleteProfile(id), ok, success)
      ensures success ==>
        && profiles.Keys == old(profiles).Keys - {id}
        && (forall p :: p in pkces <==> p in old(pkces) && old(pkces)[p].profileRef != id)
        && (forall c :: c in characters <==> c in old(characters) && old(characters)[c].profileRef != id)
      ensures success ==> id !in profiles && (forall p :: p in pkces ==> pkces[p].profileRef != id)
                          && (forall c :: c in characters ==> characters[c].profileRef != id)
      ensures forall p :: p in profiles ==> p in old(profiles) && profiles[p] == old(profiles)[p]
      ensures forall p :: p in pkces ==> p in old(pkces) && pkces[p] == old(pkces)[p]
      ensures forall c :: c in characters ==> c in old(characters) && characters[c] == old(characters)[c]
      ensures !success ==> Snapshot() == old(Snapshot())
    {
      if ok {
        profiles := profiles - {id};
        pkces := map p | p in pkces && pkces[p].profileRef != id :: pkces[p];
        characters := map c | c in characters && characters[c].profileRef != id :: characters[c];
      }
      return ok;
    }

    /** The store's lookup, then the profile of the row it selects. */
    method FindCharacter(k: Criteria, ok: bool, profileOk: bool) returns (profile: Profile?, r: Option<Id>)
      ensures r.Some? <==> profile != null
      ensures r.Some? ==>
        && r == TheOnly(StoreMatches(Snapshot(), k)) && r.value in characters
        && fresh(profile) && profile.store == this && profile.id == characters[r.value].profileRef
      ensures Integrity(Snapshot()) && ok && profileOk ==> r == TheOnly(StoreMatches(Snapshot(), k))
      ensures forall c :: c in characters ==>
        (Integrity(Snapshot()) && ok && profileOk ==>
           (r == Some(c) <==>
              forall d :: d in characters ==>
                (d == c <==>
                  && characters[d].active
                  && !(k.characterId > 0 && characters[d].characterId != k.characterId)
                  && !(k.name != "" && characters[d].name != k.name)
                  && !(k.owner != "" && characters[d].owner != k.owner))))
    {
      forall c | c in characters {
        CharacterInStore(Snapshot(), k, c);
      }
      profile, r := null, None;
      var rows := set c | c in characters && Meets(characters[c], k) && characters[c].active;
      assert rows == StoreMatches(Snapshot(), k);
      var found := Get(rows);
      if ok && found.Some? {
        assert found.value in rows;
        profile := GetProfile(characters[found.value].profileRef, profileOk);
        if profile != null {
          r := found;
        }
      }
    }

    method FindPKCE(state: Id, asOf: Instant, ok: bool) returns (r: Option<PkceHandle>)
      ensures r == (var row := FindPkceRow(Snapshot(), state, asOf);
                    if ok && row.Some? && row.value in pkces then Some(PkceHandle(row.value, pkces[row.value])) else None)
      ensures forall p :: p in pkces ==>
        (r == Some(PkceHandle(p, pkces[p])) <==>
          ok && forall q :: q in pkces ==>
                  (q == p <==> pkces[q].state == state && asOf - pkces[q].createdAt < 300_000_000))
    {
      forall p | p in pkces {
        PkceByState(Snapshot(), state, asOf, p);
      }
      var rows := set p | p in pkces && pkces[p].state == state && pkces[p].createdAt > asOf - PKCE_LIFETIME;
      assert rows == Findable(Snapshot(), state, asOf);
      var found := Get(rows);
      if ok && found.Some? {
        assert found.value in rows;
        return Some(PkceHandle(found.value, pkces[found.value]));
      }
      return None;
    }

    method GetPKCE(id: Id, asOf: Instant, ok: bool) returns (r: Option<PkceHandle>)
      ensures r.Some? <==> ok && GetPkceRow(Snapshot(), id, asOf).Some?
      ensures r.Some? <==> ok && id in pkces && asOf - pkces[id].createdAt < 300_000_000
      ensures r.Some? ==> id in pkces && r.value == PkceHandle(id, pkces[id])
    {
      PkceById(Snapshot(), id, asOf, id);
      var rows := set p | p in pkces && p == id && pkces[p].createdAt > asOf - PKCE_LIFETIME;
      assert rows == Gettable(Snapshot(), id, asOf);
      var found := Get(rows);
      if ok && found.Some? {
        assert found.value in rows;
        return Some(PkceHandle(found.value, pkces[found.value]));
      }
      return None;
    }

    method CleanPKCE(asOf: Instant, ok: bool) returns (success: bool)
      modifies this
      ensures Ran(old(Snapshot()), Snapshot(), CleanStmt(asOf), ok, success)
      ensures success ==> forall p :: p in pkces <==> p in old(pkces) && asOf - old(pkces)[p].createdAt <= 301_000_000
      ensures forall p :: p in pkces ==> p in old(pkces) && pkces[p] == old(pkces)[p]
      ensures !success ==> pkces == old(pkces)
      ensures profiles == old(profiles) && characters == old(characters)
    {
      if ok {
        var cutoff := asOf - (PKCE_LIFETIME + CLEAN_MARGIN);
        pkces := map p | p in pkces && !(pkces[p].createdAt < cutoff) :: pkces[p];
      }
      return ok;
    }

    /** `PKCE.Destroy`: the number of rows deleted is ignored. */
    method Destroy(pkce: PkceHandle, ok: bool) returns (success: bool)
      modifies this
      ensures Ran(old(Snapshot()), Snapshot(), DeletePkce(pkce.id), ok, success)
      ensures success <==> ok
      ensures pkces == if success then old(pkces) - {pkce.id} else old(pkces)
      ensures profiles == old(profiles) && characters == old(characters)
    {
      if ok {
        pkces := pkces - {pkce.id};
      }
      return ok;
    }
  }

  class Profile {
    const store: PGStore
    const id: Id
    var profileName: string

    constructor (store: PGStore, id: Id, name: string)
      ensures this.store == store && this.id == id && profileName == name
    {
      this.store, this.id, profileName := store, id, name;
    }

    /** The handle's name follows the row's: a failing rename is rolled back. */
    method Rename(name: string, at: Instant, ok: bool) returns (success: bool)
      modifies this, store
      ensures Ran(old(store.Snapshot()), store.Snapshot(), UpdateProfileName(id, name, at), ok, success)
      ensures profileName == if success then name else old(profileName)
      ensures success <==> ok && (id in old(store.profiles) ==>
        forall p :: p in old(store.profiles) && p != id ==> old(store.profiles)[p].name != name)
      ensures store.profiles.Keys == old(store.profiles).Keys
      ensures success && id in store.profiles ==>
        && store.profiles[id].name == name && store.profiles[id].updatedAt == at
        && store.profiles[id].data == old(store.profiles)[id].data
        && store.profiles[id].createdAt == old(store.profiles)[id].createdAt
      ensures !success && id in store.profiles ==> store.profiles[id] == old(store.profiles)[id]
      ensures forall p :: p in store.profiles && p != id ==> store.profiles[p] == old(store.profiles)[p]
      ensures store.pkces == old(store.pkces) && store.characters == old(store.characters)
    {
      var previous := profileName;
      profileName := name;
      success := ok && !(id in store.profiles && exists p :: p in store.profiles && p != id && store.profiles[p].name == name);
      if success && id in store.profiles {
        store.profiles := store.profiles[id := store.profiles[id].(name := name, updatedAt := at)];
      }
      if !success {
        profileName := previous;
      }
    }

    method Delete(ok: bool) returns (success: bool)
      modifies store
      ensures Ran(old(store.Snapshot()), store.Snapshot(), Stmt.DeleteProfile(id), ok, success)
      ensures success ==>
        && store.profiles.Keys == old(store.profiles).Keys - {id}
        && (forall p :: p in store.pkces <==> p in old(store.pkces) && old(store.pkces)[p].profileRef != id)
        && (forall c :: c in store.characters <==> c in old(store.characters) && old(store.characters)[c].profileRef != id)
      ensures forall p :: p in store.profiles ==> p in old(store.profiles) && store.profiles[p] == old(store.profiles)[p]
      ensures forall p :: p in store.pkces ==> p in old(store.pkces) && store.pkces[p] == old(store.pkces)[p]
      ensures forall c :: c in store.characters ==>
        c in old(store.characters) && store.characters[c] == old(store.characters)[c]
    {
      success := store.DeleteProfile(id, ok);
    }

    /** Each character of the profile once. */
    method AllCharacters(ok: bool) returns (r: Option<seq<Id>>)
      ensures r.Some? <==> ok
      ensures r.Some? ==> multiset(r.value) == multiset(CharactersOf(store.Snapshot(), id))
    {
      if !ok {
        return None;
      }
      var rows := Select(set c | c in store.characters && store.characters[c].profileRef == id);
      return Some(rows);
    }

    method FindCharacter(k: Criteria, wanted: ScopeList, ok: bool) returns (r: Character?)
      ensures var found := TheOnly(ProfileMatches(store.Snapshot(), k, id, wanted));
        && (r != null <==> ok && found.Some?)
        && (r != null ==> fresh(r) && r.store == store && r.id == found.value && r.id in store.characters && r.Mirrors())
      ensures forall c :: c in store.characters ==>
        (r != null && r.id == c <==>
          ok && forall d :: d in store.characters ==>
                  (d == c <==>
                    && store.characters[d].profileRef == id && store.characters[d].active
                    && store.characters[d].scopes.Some? && wanted.Some?
                    && (forall x :: x in wanted.value ==> x in store.characters[d].scopes.value)
                    && !(k.characterId > 0 && store.characters[d].characterId != k.characterId)
                    && !(k.name != "" && store.characters[d].name != k.name)
                    && !(k.owner != "" && store.characters[d].owner != k.owner)))
    {
      forall c | c in store.characters {
        CharacterInProfile(store.Snapshot(), k, id, wanted, c);
      }
      var rows := set c | c in store.characters && Meets(store.characters[c], k) && store.characters[c].profileRef == id
                          && ContainsScopes(store.characters[c].scopes, wanted) && store.characters[c].active;
      assert rows == ProfileMatches(store.Snapshot(), k, id, wanted);
      var found := Get(rows);
      r := null;
      if ok && found.Some? {
        assert found.value in rows;
        var row := store.characters[found.value];
        r := new Character(store, found.value, row.accessToken, row.refreshToken, row.active);
      }
    }

    /**
     The upsert.  The handle it returns carries the token just received and says active; on a
     conflict the row keeps its old access token and its old `active`.
     */
    method CreateCharacter(claims: CharacterClaims, token: Token, data: Data, uuid: Id, at: Instant, ok: bool)
      returns (r: Character?)
      requires Integrity(store.Snapshot())
      modifies store
      ensures var before := old(store.Snapshot()); var row := NewRow(id, claims, token, data, at);
        && Ran(before, store.Snapshot(), UpsertCharacter(uuid, row), ok, r != null)
        && (r != null ==> fresh(r) && r.store == store && r.id == UpsertTarget(before, uuid, row) && r.id in store.characters)
        && (r != null ==> r.accessToken == token.access && r.refreshToken == token.refresh && r.active)
      ensures forall c :: c in old(store.characters) ==>
        (&& old(store.characters)[c].profileRef == id && old(store.characters)[c].characterId == claims.characterId
         && old(store.characters)[c].name == claims.characterName && old(store.characters)[c].owner == claims.owner
         && claims.scopes.Some? && old(store.characters)[c].scopes == claims.scopes ==>
           && (r != null <==> ok)
           && (r != null ==>
                 && r.id == c
                 && store.characters == old(store.characters)[c := old(store.characters)[c].(refreshToken := token.refresh)]))
      ensures (forall c :: c in old(store.characters) ==>
                 !(old(store.characters)[c].profileRef == id
                   && old(store.characters)[c].characterId == claims.characterId
                   && old(store.characters)[c].name == claims.characterName && old(store.characters)[c].owner == claims.owner
                   && claims.scopes.Some? && old(store.characters)[c].scopes == claims.scopes)) ==>
        && (r != null <==> ok && uuid !in old(store.characters) && id in store.profiles)
        && (r != null ==>
              && r.id == uuid
              && store.characters == old(store.characters)[uuid :=
                   CharacterRow(id, claims.characterId, claims.characterName, claims.owner, claims.scopes,
                                token.refresh, token.access, true, data, at, at)])
      ensures r == null ==> store.characters == old(store.characters)
      ensures store.profiles == old(store.profiles) && store.pkces == old(store.pkces)
    {
      var row := NewRow(id, claims, token, data, at);
      var conflicts := set c | c in store.characters && SameIdentity(store.characters[c], row);
      assert conflicts == {} ==> Conflict(store.characters, row).None? by {
        var conflict := Conflict(store.characters, row);
        assert conflict.Some? ==> conflict.value in conflicts;
      }
      r := null;
      if !ok {
        return;
      }
      if conflicts != {} {
        var c :| c in conflicts;
        assert Conflict(store.characters, row) == Some(c);
        store.characters := store.characters[c := store.characters[c].(refreshToken := row.refreshToken)];
        r := new Character(store, c, token.access, token.refresh, true);
      } else if uuid !in store.characters && id in store.profiles {
        store.characters := store.characters[uuid := row];
        r := new Character(store, uuid, token.access, token.refresh, true);
      }
    }

    method CreatePKCE(random: seq<Byte>, sha: Sha256, scopes: ScopeList, data: Data,
                      uuid: Id, state: Id, at: Instant, ok: bool)
      returns (r: Option<PkceHandle>)
      modifies store
      ensures var row := PkceRow(id, state, Encode(random), Challenge(sha, Encode(random)), scopes, data, at);
        && Ran(old(store.Snapshot()), store.Snapshot(), InsertPkce(uuid, row), ok, r.Some?)
        && (r.Some? ==> r.value == PkceHandle(uuid, row))
      ensures r.Some? <==> ok && id in old(store.profiles) && uuid !in old(store.pkces)
                           && forall p :: p in old(store.pkces) ==> old(store.pkces)[p].state != state
      ensures r.Some? ==>
        var row := r.value.row;
        && r.value.id == uuid && store.pkces == old(store.pkces)[uuid := row]
        && row.profileRef == id && row.state == state && row.scopes == scopes && row.referenceData == data && row.createdAt == at
        && Decode(row.verifier) == Some(random) && Decode(row.challenge) == Some(sha(row.verifier))
      ensures r.None? ==> store.pkces == old(store.pkces)
      ensures store.profiles == old(store.profiles) && store.characters == old(store.characters)
    {
      RoundTrip(random);
      ChallengeIsTheDigest(sha, Encode(random));
      var verifier := Encode(random);
      var row := PkceRow(id, state, verifier, Challenge(sha, verifier), scopes, data, at);
      if !ok || uuid in store.pkces || (exists p :: p in store.pkces && store.pkces[p].state == state) || id !in store.profiles {
        return None;
      }
      store.pkces := store.pkces[uuid := row];
      return Some(PkceHandle(uuid, row));
    }
  }

  class Character {
    const store: PGStore
    const id: Id
    var accessToken: string
    var refreshToken: string
    var active: bool

    constructor (store: PGStore, id: Id, accessToken: string, refreshToken: string, active: bool)
      ensures this.store == store && this.id == id
      ensures this.accessToken == accessToken && this.refreshToken == refreshToken && this.active == active
    {
      this.store, this.id := store, id;
      this.accessToken, this.refreshToken, this.active := accessToken, refreshToken, active;
    }

    /** The handle shows the row as it is. */
    ghost predicate Mirrors()
      reads this, store
    {
      && id in store.characters
      && accessToken == store.characters[id].accessToken
      && refreshToken == store.characters[id].refreshToken
      && active == store.characters[id].active
    }

    /** The handle is changed first and not rolled back: after a failure it runs ahead of the row. */
    method UpdateAccessToken(token: string, at: Instant, ok: bool) returns (success: bool)
      modifies this`accessToken, store
      ensures Ran(old(store.Snapshot()), store.Snapshot(), SetAccessToken(id, token, at), ok, success)
      ensures accessToken == token
      ensures success <==> ok
      ensures store.characters == if success && id in old(store.characters)
        then old(store.characters)[id := old(store.characters)[id].(accessToken := token, updatedAt := at)]
        else old(store.characters)
      ensures store.profiles == old(store.profiles) && store.pkces == old(store.pkces)
      ensures old(Mirrors()) ==> (Mirrors() <==> success || token == old(accessToken))
    {
      accessToken := token;
      if ok && id in store.characters {
        store.characters := store.characters[id := store.characters[id].(accessToken := token, updatedAt := at)];
      }
      return ok;
    }

    method UpdateRefreshToken(token: string, at: Instant, ok: bool) returns (success: bool)
      modifies this`refreshToken, store
      ensures Ran(old(store.Snapshot()), store.Snapshot(), SetRefreshToken(id, token, at), ok, success)
      ensures refreshToken == token
      ensures success <==> ok
      ensures store.characters == if success && id in old(store.characters)
        then old(store.characters)[id := old(store.characters)[id].(refreshToken := token, updatedAt := at)]
        else old(store.characters)
      ensures store.profiles == old(store.profiles) && store.pkces == old(store.pkces)
      ensures old(Mirrors()) ==> (Mirrors() <==> success || token == old(refreshToken))
    {
      refreshToken := token;
      if ok && id in store.characters {
        store.characters := store.characters[id := store.characters[id].(refreshToken := token, updatedAt := at)];
      }
      return ok;
    }

    /** This one is rolled back: handle and row agree whatever happens. */
    method UpdateActiveState(value: bool, at: Instant, ok: bool) returns (success: bool)
      modifies this`active, store
      ensures Ran(old(store.Snapshot()), store.Snapshot(), SetActive(id, value, at), ok, success)
      ensures active == if success then value else old(active)
      ensures success <==> ok
      ensures store.characters == if success && id in old(store.characters)
        then old(store.characters)[id := old(store.characters)[id].(active := value, updatedAt := at)]
        else old(store.characters)
      ensures store.profiles == old(store.profiles) && store.pkces == old(store.pkces)
      ensures old(Mirrors()) ==> Mirrors()
    {
      var previous := active;
      active := value;
      if ok && id in store.characters {
        store.characters := store.characters[id := store.characters[id].(active := value, updatedAt := at)];
      }
      if !ok {
        active := previous;
      }
      return ok;
    }

    /** Reloads both tokens from the row; `parses` says whether the access token is a JWT. */
    method Token(ok: bool, parses: bool) returns (r: Option<Protocol.Token>)
      modifies this`accessToken, this`refreshToken
      ensures r == if ok && id in store.characters then Some(LoadedToken(store.characters[id], parses)) else None
      ensures r.Some? ==>
        && r.value.refresh == store.characters[id].refreshToken
        && (|store.characters[id].accessToken| <= 1 || parses ==> r.value.access == store.characters[id].accessToken)
        && (|store.characters[id].accessToken| > 1 && !parses ==> r.value.access == "")
      ensures r.Some? ==> accessToken == store.characters[id].accessToken && refreshToken == store.characters[id].refreshToken
      ensures r.None? ==> accessToken == old(accessToken) && refreshToken == old(refreshToken)
    {
      if !ok || id !in store.characters {
        return None;
      }
      accessToken, refreshToken := store.characters[id].accessToken, store.characters[id].refreshToken;
      var access := accessToken;
      if |access| > 1 && !parses {
        access := "";
      }
      return Some(Protocol.Token(access, refreshToken));
    }

    method Delete(ok: bool) returns (success: bool)
      modifies store
      ensures Ran(old(store.Snapshot()), store.Snapshot(), DeleteCharacter(id), ok, success)
      ensures success <==> ok
      ensures store.characters == if success then old(store.characters) - {id} else old(store.characters)
      ensures store.profiles == old(store.profiles) && store.pkces == old(store.pkces)
    {
      if ok {
        store.characters := store.characters - {id};
      }
      return ok;
    }
  }

  /**
   What `cmd/tokengen` does at its end: every profile, then every character of each.  In a
   store with referential integrity this visits every character row exactly once.
   */
  method VisitAll(store: PGStore) returns (visited: seq<Id>)
    requires Integrity(store.Snapshot())
    ensures multiset(visited) == multiset(store.characters.Keys)
  {
    visited := [];
    var profiles := store.AllProfiles(true);
    var i := 0;
    ghost var seen: set<Id> := {};
    while i < |profiles.value|
      invariant 0 <= i <= |profiles.value|
      invariant seen == set p | p in profiles.value[..i]
      invariant multiset(visited) == multiset(CharactersOfAll(store.Snapshot(), seen))
    {
      var p := profiles.value[i];
      EachOnce(profiles.value, store.profiles.Keys, i);
      var profile := new Profile(store, p, "");
      var own := profile.AllCharacters(true);
      OneMoreProfile(store.Snapshot(), seen, p);
      visited := visited + own.value;
      assert profiles.value[..i + 1] == profiles.value[..i] + [p];
      seen := seen + {p};
      i := i + 1;
    }
    assert profiles.value[..i] == profiles.value;
    forall p | p in store.profiles ensures p in seen {
      assert p in multiset(store.profiles.Keys);
      assert p in multiset(profiles.value);
    }
    assert CharactersOfAll(store.Snapshot(), seen) == store.characters.Keys;
  }

  ghost function CharactersOfAll(t: Tables, profiles: set<Id>): set<Id>
  {
    set c | c in t.characters && t.characters[c].profileRef in profiles
  }

  lemma OneMoreProfile(t: Tables, seen: set<Id>, p: Id)
    requires p !in seen
    ensures multiset(CharactersOfAll(t, seen + {p})) == multiset(CharactersOfAll(t, seen)) + multiset(CharactersOf(t, p))
  {
    assert CharactersOfAll(t, seen + {p}) == CharactersOfAll(t, seen) + CharactersOf(t, p);
    assert CharactersOfAll(t, seen) !! CharactersOf(t, p);
  }

  /** A listing of a set repeats nothing. */
  lemma EachOnce(listing: seq<Id>, rows: set<Id>, i: nat)
    requires multiset(listing) == multiset(rows) && i < |listing|
    ensures listing[i] !in listing[..i]
  {
    var x := listing[i];
    assert listing == listing[..i] + [x] + listing[i + 1..];
    assert multiset(listing)[x] == multiset(listing[..i])[x] + 1 + multiset(listing[i + 1..])[x];
    assert multiset(rows)[x] <= 1;
  }
}

/**
 What the statements and the queries of module Tables come to, in rows and columns: when each
 commits, which rows it leaves and with which values, and which row a lookup yields.
 */
module Effects {
  import opened Wrappers
  import opened Claims
  import opened Tables

  /** What exactly one row means. */
  lemma OnlyOne(rows: set<Id>, c: Id)
    ensures TheOnly(rows) == Some(c) <==> c in rows && forall d :: d in rows ==> d == c
  {
    if c in rows && forall d :: d in rows ==> d == c {
      assert rows == {c};
    }
  }

  // ---- Profiles ----

  lemma InsertedProfile(t: Tables, id: Id, row: ProfileRow)
    ensures Exec(t, InsertProfile(id, row)).Ok? <==>
            id !in t.profiles && forall p :: p in t.profiles ==> t.profiles[p].name != row.name
    ensures Exec(t, InsertProfile(id, row)).Ok? ==>
      var t' := Exec(t, InsertProfile(id, row)).value;
      && t'.profiles.Keys == t.profiles.Keys + {id} && t'.profiles[id] == row
      && (forall p :: p in t.profiles ==> t'.profiles[p] == t.profiles[p])
      && t'.pkces == t.pkces && t'.characters == t.characters
  {
  }

  /** A rename that meets no row succeeds; one that does fails exactly if another profile has the name. */
  lemma RenamedProfile(t: Tables, id: Id, name: string, at: Instant)
    ensures Exec(t, UpdateProfileName(id, name, at)).Ok? <==>
            (id in t.profiles ==> forall p :: p in t.profiles && p != id ==> t.profiles[p].name != name)
    ensures Exec(t, UpdateProfileName(id, name, at)).Ok? ==>
      var t' := Exec(t, UpdateProfileName(id, name, at)).value;
      && t'.profiles.Keys == t.profiles.Keys
      && (id in t.profiles ==>
            && t'.profiles[id].name == name && t'.profiles[id].updatedAt == at
            && t'.profiles[id].data == t.profiles[id].data && t'.profiles[id].createdAt == t.profiles[id].createdAt)
      && (forall p :: p in t.profiles && p != id ==> t'.profiles[p] == t.profiles[p])
      && t'.pkces == t.pkces && t'.characters == t.characters
  {
  }

  lemma DeletedProfile(t: Tables, id: Id)
    ensures Exec(t, DeleteProfile(id)).Ok?
    ensures var t' := Exec(t, DeleteProfile(id)).value;
      && (forall p :: p in t'.profiles <==> p in t.profiles && p != id)
      && (forall p :: p in t'.profiles ==> t'.profiles[p] == t.profiles[p])
      && (forall p :: p in t'.pkces <==> p in t.pkces && t.pkces[p].profileRef != id)
      && (forall p :: p in t'.pkces ==> t'.pkces[p] == t.pkces[p])
      && (forall c :: c in t'.characters <==> c in t.characters && t.characters[c].profileRef != id)
      && (forall c :: c in t'.characters ==> t'.characters[c] == t.characters[c])
  {
  }

  // ---- PKCE rows ----

  lemma InsertedPkce(t: Tables, id: Id, row: PkceRow)
    ensures Exec(t, InsertPkce(id, row)).Ok? <==>
            && id !in t.pkces && (forall p :: p in t.pkces ==> t.pkces[p].state != row.state)
            && row.profileRef in t.profiles
    ensures Exec(t, InsertPkce(id, row)).Ok? ==>
      var t' := Exec(t, InsertPkce(id, row)).value;
      && t'.pkces.Keys == t.pkces.Keys + {id} && t'.pkces[id] == row
      && (forall p :: p in t.pkces ==> t'.pkces[p] == t.pkces[p])
      && t'.profiles == t.profiles && t'.characters == t.characters
  {
  }

  lemma DeletedPkce(t: Tables, id: Id)
    ensures Exec(t, DeletePkce(id)).Ok?
    ensures var t' := Exec(t, DeletePkce(id)).value;
      && (forall p :: p in t'.pkces <==> p in t.pkces && p != id)
      && (forall p :: p in t'.pkces ==> t'.pkces[p] == t.pkces[p])
      && t'.profiles == t.profiles && t'.characters == t.characters
  {
  }

  /** `CleanPKCE` deletes the rows that are more than 301 seconds old, and no others. */
  lemma CollectedPkces(t: Tables, asOf: Instant)
    ensures Exec(t, CleanStmt(asOf)).Ok?
    ensures var t' := Exec(t, CleanStmt(asOf)).value;
      && (forall p :: p in t'.pkces <==> p in t.pkces && asOf - t.pkces[p].createdAt <= 301_000_000)
      && (forall p :: p in t'.pkces ==> t'.pkces[p] == t.pkces[p])
      && t'.profiles == t.profiles && t'.characters == t.characters
  {
  }

  /** `FindPKCE` yields the one row with this state that is less than 300 seconds old. */
  lemma PkceByState(t: Tables, state: Id, asOf: Instant, p: Id)
    ensures FindPkceRow(t, state, asOf) == Some(p) <==>
            && p in t.pkces
            && forall q :: q in t.pkces ==>
                 (q == p <==> t.pkces[q].state == state && asOf - t.pkces[q].createdAt < 300_000_000)
  {
    var rows := Findable(t, state, asOf);
    OnlyOne(rows, p);
    assert forall q :: q in t.pkces ==> (q in rows <==> t.pkces[q].state == state && t.pkces[q].createdAt > asOf - PKCE_LIFETIME);
  }

  /** `GetPKCE` yields the row of this id, if it is less than 300 seconds old. */
  lemma PkceById(t: Tables, id: Id, asOf: Instant, p: Id)
    ensures GetPkceRow(t, id, asOf) == Some(p) <==>
            p == id && p in t.pkces && asOf - t.pkces[p].createdAt < 300_000_000
  {
    OnlyOne(Gettable(t, id, asOf), p);
  }

  // ---- Characters ----

  /** The row an upsert meets: same profile, character, name and owner, and the same non-null scopes. */
  lemma Upserted(t: Tables, id: Id, row: CharacterRow, c: Id)
    requires Integrity(t)
    ensures Conflict(t.characters, row) == Some(c) <==>
            && c in t.characters
            && t.characters[c].profileRef == row.profileRef && t.characters[c].characterId == row.characterId
            && t.characters[c].name == row.name && t.characters[c].owner == row.owner
            && row.scopes.Some? && t.characters[c].scopes == row.scopes
    ensures Conflict(t.characters, row) == Some(c) ==>
      && Exec(t, UpsertCharacter(id, row)).Ok? && UpsertTarget(t, id, row) == c
      && var t' := Exec(t, UpsertCharacter(id, row)).value;
         && t'.characters.Keys == t.characters.Keys
         && t'.characters[c] == t.characters[c].(refreshToken := row.refreshToken)
         && (forall d :: d in t.characters && d != c ==> t'.characters[d] == t.characters[d])
         && t'.profiles == t.profiles && t'.pkces == t.pkces
  {
  }

  /** And without one: the row is inserted, under the new id, if there is such a profile. */
  lemma UpsertedNew(t: Tables, id: Id, row: CharacterRow)
    requires Conflict(t.characters, row).None?
    ensures Exec(t, UpsertCharacter(id, row)).Ok? <==> id !in t.characters && row.profileRef in t.profiles
    ensures UpsertTarget(t, id, row) == id
    ensures Exec(t, UpsertCharacter(id, row)).Ok? ==>
      var t' := Exec(t, UpsertCharacter(id, row)).value;
      && t'.characters.Keys == t.characters.Keys + {id} && t'.characters[id] == row
      && (forall d :: d in t.characters ==> t'.characters[d] == t.characters[d])
      && t'.profiles == t.profiles && t'.pkces == t.pkces
  {
  }

  /** The three updates of a character touch one column each, and the time of the update. */
  lemma UpdatedCharacter(t: Tables, id: Id, token: string, active: bool, at: Instant)
    ensures Exec(t, SetAccessToken(id, token, at)).Ok? && Exec(t, SetRefreshToken(id, token, at)).Ok?
    ensures Exec(t, SetActive(id, active, at)).Ok?
    ensures id !in t.characters ==>
      && Exec(t, SetAccessToken(id, token, at)).value == t && Exec(t, SetRefreshToken(id, token, at)).value == t
      && Exec(t, SetActive(id, active, at)).value == t
    ensures id in t.characters ==>
      var row := t.characters[id];
      && Exec(t, SetAccessToken(id, token, at)).value.characters
         == t.characters[id := CharacterRow(row.profileRef, row.characterId, row.name, row.owner, row.scopes,
                                            row.refreshToken, token, row.active, row.referenceData, row.createdAt, at)]
      && Exec(t, SetRefreshToken(id, token, at)).value.characters
         == t.characters[id := CharacterRow(row.profileRef, row.characterId, row.name, row.owner, row.scopes,
                                            token, row.accessToken, row.active, row.referenceData, row.createdAt, at)]
      && Exec(t, SetActive(id, active, at)).value.characters
         == t.characters[id := CharacterRow(row.profileRef, row.characterId, row.name, row.owner, row.scopes,
                                            row.refreshToken, row.accessToken, active, row.referenceData, row.createdAt, at)]
    ensures forall q :: q in {SetAccessToken(id, token, at), SetRefreshToken(id, token, at), SetActive(id, active, at)} ==>
              Exec(t, q).value.profiles == t.profiles && Exec(t, q).value.pkces == t.pkces
  {
  }

  lemma DeletedCharacter(t: Tables, id: Id)
    ensures Exec(t, DeleteCharacter(id)).Ok?
    ensures var t' := Exec(t, DeleteCharacter(id)).value;
      && (forall c :: c in t'.characters <==> c in t.characters && c != id)
      && (forall c :: c in t'.characters ==> t'.characters[c] == t.characters[c])
      && t'.profiles == t.profiles && t'.pkces == t.pkces
  {
  }

  /** The store's lookup yields the one active row that differs in none of the criteria given. */
  lemma CharacterInStore(t: Tables, k: Criteria, c: Id)
    ensures TheOnly(StoreMatches(t, k)) == Some(c) <==>
            && c in t.characters
            && forall d :: d in t.characters ==>
                 (d == c <==>
                   && t.characters[d].active
                   && !(k.characterId > 0 && t.characters[d].characterId != k.characterId)
                   && !(k.name != "" && t.characters[d].name != k.name)
                   && !(k.owner != "" && t.characters[d].owner != k.owner))
  {
    var rows := StoreMatches(t, k);
    OnlyOne(rows, c);
    assert forall d :: d in t.characters ==> (d in rows <==> Meets(t.characters[d], k) && t.characters[d].active);
  }

  /**
   The profile's lookup, in every table: it yields the one row of this very profile that is
   active, has non-null scopes with every scope wanted, and differs in none of the criteria given.
   */
  lemma CharacterInProfile(t: Tables, k: Criteria, profile: Id, wanted: ScopeList, c: Id)
    ensures TheOnly(ProfileMatches(t, k, profile, wanted)) == Some(c) <==>
            && c in t.characters
            && forall d :: d in t.characters ==>
                 (d == c <==>
                   && t.characters[d].profileRef == profile && t.characters[d].active
                   && t.characters[d].scopes.Some? && wanted.Some?
                   && (forall x :: x in wanted.value ==> x in t.characters[d].scopes.value)
                   && !(k.characterId > 0 && t.characters[d].characterId != k.characterId)
                   && !(k.name != "" && t.characters[d].name != k.name)
                   && !(k.owner != "" && t.characters[d].owner != k.owner))
  {
    var rows := ProfileMatches(t, k, profile, wanted);
    OnlyOne(rows, c);
    assert forall d :: d in t.characters ==>
      (d in rows <==> Meets(t.characters[d], k) && t.characters[d].profileRef == profile
                      && ContainsScopes(t.characters[d].scopes, wanted) && t.characters[d].active);
  }
}

/**
 The three tables of the store and the statements run on them
 (pkg/datastore/evessopg/migrations/1_init.up.sql, PGStore.go, Profile.go, Character.go, PKCE.go).
 A statement either commits as a whole or fails and leaves the tables alone.
 */
module Tables {
  import opened Wrappers
  import opened Claims
  import opened Base64Url

  /** A uuid. */
  type Id = nat

  /** Microseconds, the resolution of a timestamptz. */
  type Instant = int

  const SECOND: int := 1_000_000

  /** A PKCE row can be found for five minutes; it is collected one second later. */
  const PKCE_LIFETIME: int := 300 * SECOND
  const CLEAN_MARGIN: int := 1 * SECOND

  /** JSON the library carries along without looking into it. */
  type Data = string

  datatype ProfileRow = ProfileRow(name: string, data: Data, createdAt: Instant, updatedAt: Instant)

  datatype PkceRow = PkceRow(
    profileRef: Id, state: Id,
    verifier: Text, challenge: Text,
    scopes: ScopeList, referenceData: Data,
    createdAt: Instant)

  datatype CharacterRow = CharacterRow(
    profileRef: Id, characterId: int, name: string, owner: string, scopes: ScopeList,
    refreshToken: string, accessToken: string, active: bool,
    referenceData: Data,
    createdAt: Instant, updatedAt: Instant)

  /** Whose character a row is. */
  function Identity(row: CharacterRow): CharacterClaims
  {
    CharacterClaims(row.characterId, row.name, row.owner, row.scopes)
  }

  datatype Tables = Tables(
    profiles: map<Id, ProfileRow>,
    pkces: map<Id, PkceRow>,
    characters: map<Id, CharacterRow>)

  const EMPTY := Tables(map[], map[], map[])

  datatype DbError = UniqueViolation | ForeignKeyViolation

  datatype Stmt =
    | InsertProfile(id: Id, profile: ProfileRow)
    | UpdateProfileName(id: Id, name: string, at: Instant)
    | DeleteProfile(id: Id)
    | InsertPkce(id: Id, pkce: PkceRow)
    | DeletePkce(id: Id)
    | DeletePkcesBefore(cutoff: Instant)
    | UpsertCharacter(id: Id, row: CharacterRow)
    | SetAccessToken(id: Id, token: string, at: Instant)
    | SetRefreshToken(id: Id, token: string, at: Instant)
    | SetActive(id: Id, active: bool, at: Instant)
    | DeleteCharacter(id: Id)

  // ---- Constraints ----

  /** The columns of `characters_identity`; SQL's unique constraint never equates two NULLs. */
  predicate SameIdentity(a: CharacterRow, b: CharacterRow)
  {
    && a.profileRef == b.profileRef && a.characterId == b.characterId
    && a.name == b.name && a.owner == b.owner
    && a.scopes.Some? && a.scopes == b.scopes
  }

  /** References point at existing profiles. */
  ghost predicate References(t: Tables)
  {
    && (forall p :: p in t.pkces ==> t.pkces[p].profileRef in t.profiles)
    && (forall c :: c in t.characters ==> t.characters[c].profileRef in t.profiles)
  }

  ghost predicate NamesUnique(t: Tables)
  {
    forall p, q :: p in t.profiles && q in t.profiles && t.profiles[p].name == t.profiles[q].name ==> p == q
  }

  ghost predicate StatesUnique(t: Tables)
  {
    forall p, q :: p in t.pkces && q in t.pkces && t.pkces[p].state == t.pkces[q].state ==> p == q
  }

  ghost predicate IdentitiesUnique(t: Tables)
  {
    forall c, d :: c in t.characters && d in t.characters && SameIdentity(t.characters[c], t.characters[d]) ==> c == d
  }

  ghost predicate Integrity(t: Tables)
  {
    References(t) && NamesUnique(t) && StatesUnique(t) && IdentitiesUnique(t)
  }

  predicate NameTaken(t: Tables, name: string, except: set<Id>)
  {
    exists p :: p in t.profiles && p !in except && t.profiles[p].name == name
  }

  predicate StateTaken(t: Tables, state: Id)
  {
    exists p :: p in t.pkces && t.pkces[p].state == state
  }

  /** The row an upsert runs into, if there is one. */
  ghost function Conflict(rows: map<Id, CharacterRow>, row: CharacterRow): (r: Option<Id>)
    ensures r.Some? ==> r.value in rows && SameIdentity(rows[r.value], row)
    ensures r.None? ==> forall c :: c in rows ==> !SameIdentity(rows[c], row)
  {
    if exists c :: c in rows && SameIdentity(rows[c], row) then
      var c :| c in rows && SameIdentity(rows[c], row);
      Some(c)
    else None
  }

  /** The id an upsert returns. */
  ghost function UpsertTarget(t: Tables, id: Id, row: CharacterRow): Id
  {
    var conflict := Conflict(t.characters, row);
    if conflict.Some? then conflict.value else id
  }

  // ---- Statements ----

  ghost function Exec(t: Tables, q: Stmt): Result<Tables, DbError>
  {
    match q
    case InsertProfile(id, profile) =>
      if id in t.profiles || NameTaken(t, profile.name, {}) then Err(UniqueViolation)
      else Ok(t.(profiles := t.profiles[id := profile]))
    case UpdateProfileName(id, name, at) =>
      if id !in t.profiles then Ok(t)
      else if NameTaken(t, name, {id}) then Err(UniqueViolation)
      else Ok(t.(profiles := t.profiles[id := t.profiles[id].(name := name, updatedAt := at)]))
    case DeleteProfile(id) =>
      Ok(Tables(t.profiles - {id},
                map p | p in t.pkces && t.pkces[p].profileRef != id :: t.pkces[p],
                map c | c in t.characters && t.characters[c].profileRef != id :: t.characters[c]))
    case InsertPkce(id, pkce) =>
      if id in t.pkces || StateTaken(t, pkce.state) then Err(UniqueViolation)
      else if pkce.profileRef !in t.profiles then Err(ForeignKeyViolation)
      else Ok(t.(pkces := t.pkces[id := pkce]))
    case DeletePkce(id) =>
      Ok(t.(pkces := t.pkces - {id}))
    case DeletePkcesBefore(cutoff) =>
      Ok(t.(pkces := map p | p in t.pkces && !(t.pkces[p].createdAt < cutoff) :: t.pkces[p]))
    case UpsertCharacter(id, row) =>
      var conflict := Conflict(t.characters, row);
      if conflict.Some? then
        var found := t.characters[conflict.value];
        Ok(t.(characters := t.characters[conflict.value := found.(refreshToken := row.refreshToken)]))
      else if id in t.characters then Err(UniqueViolation)
      else if row.profileRef !in t.profiles then Err(ForeignKeyViolation)
      else Ok(t.(characters := t.characters[id := row]))
    case SetAccessToken(id, token, at) =>
      Ok(Touch(t, id, (r: CharacterRow) => r.(accessToken := token, updatedAt := at)))
    case SetRefreshToken(id, token, at) =>
      Ok(Touch(t, id, (r: CharacterRow) => r.(refreshToken := token, updatedAt := at)))
    case SetActive(id, active, at) =>
      Ok(Touch(t, id, (r: CharacterRow) => r.(active := active, updatedAt := at)))
    case DeleteCharacter(id) =>
      Ok(t.(characters := t.characters - {id}))
  }

  /** An UPDATE by primary key; one that meets no row succeeds all the same. */
  function Touch(t: Tables, id: Id, f: CharacterRow -> CharacterRow): Tables
  {
    if id in t.characters then t.(characters := t.characters[id := f(t.characters[id])]) else t
  }

  lemma ExecKeepsReferences(t: Tables, q: Stmt)
    requires References(t) && Exec(t, q).Ok?
    ensures References(Exec(t, q).value)
  {
  }

  lemma ExecKeepsNames(t: Tables, q: Stmt)
    requires NamesUnique(t) && Exec(t, q).Ok?
    ensures NamesUnique(Exec(t, q).value)
  {
  }

  lemma ExecKeepsStates(t: Tables, q: Stmt)
    requires StatesUnique(t) && Exec(t, q).Ok?
    ensures StatesUnique(Exec(t, q).value)
  {
  }

  /** A row is either new, inserted by an upsert that met no conflict, or keeps its identity columns. */
  lemma RowAfterExec(t: Tables, q: Stmt, c: Id)
    requires Exec(t, q).Ok? && c in Exec(t, q).value.characters
    ensures var after := Exec(t, q).value.characters[c];
      if c in t.characters then
        && after.profileRef == t.characters[c].profileRef && after.characterId == t.characters[c].characterId
        && after.name == t.characters[c].name && after.owner == t.characters[c].owner
        && after.scopes == t.characters[c].scopes
      else
        q.UpsertCharacter? && Conflict(t.characters, q.row).None? && c == q.id && after == q.row
  {
  }

  /** PKCE rows never change. */
  lemma PkceAfterExec(t: Tables, q: Stmt, p: Id)
    requires Exec(t, q).Ok? && p in Exec(t, q).value.pkces
    ensures var after := Exec(t, q).value.pkces[p];
      if p in t.pkces then after == t.pkces[p] else q == InsertPkce(p, after)
  {
  }

  lemma ExecKeepsIdentities(t: Tables, q: Stmt)
    requires IdentitiesUnique(t) && Exec(t, q).Ok?
    ensures IdentitiesUnique(Exec(t, q).value)
  {
    var rows := Exec(t, q).value.characters;
    forall c, d | c in rows && d in rows && SameIdentity(rows[c], rows[d])
      ensures c == d
    {
      RowAfterExec(t, q, c);
      RowAfterExec(t, q, d);
    }
  }

  /** Every committed statement keeps the keys, the unique constraints and the references. */
  lemma ExecKeepsIntegrity(t: Tables, q: Stmt)
    requires Integrity(t) && Exec(t, q).Ok?
    ensures Integrity(Exec(t, q).value)
  {
    ExecKeepsReferences(t, q);
    ExecKeepsNames(t, q);
    ExecKeepsStates(t, q);
    ExecKeepsIdentities(t, q);
  }

  /** A profile that is gone accepts neither a PKCE row nor a character: no orphans. */
  lemma NoOrphans(t: Tables, id: Id, pkce: PkceRow, row: CharacterRow)
    requires Integrity(t)
    ensures pkce.profileRef !in t.profiles ==> Exec(t, InsertPkce(id, pkce)).Err?
    ensures row.profileRef !in t.profiles ==> Exec(t, UpsertCharacter(id, row)).Err?
  {
  }

  // ---- Row history ----

  /** What every step leaves alone in a row, and the only direction `active` can take. */
  predicate Successor(before: CharacterRow, after: CharacterRow)
  {
    && after.profileRef == before.profileRef && after.characterId == before.characterId
    && after.name == before.name && after.owner == before.owner && after.scopes == before.scopes
    && after.referenceData == before.referenceData && after.createdAt == before.createdAt
    && (after.active ==> before.active)
  }

  /** A statement keeps every surviving row's identity, reference data and creation time. */
  lemma ExecRowHistory(t: Tables, q: Stmt, c: Id)
    requires Exec(t, q).Ok?
    requires c in t.characters && c in Exec(t, q).value.characters
    requires q.SetActive? ==> !q.active
    ensures Successor(t.characters[c], Exec(t, q).value.characters[c])
    ensures q.UpsertCharacter? ==>
              Exec(t, q).value.characters[c] in {t.characters[c], t.characters[c].(refreshToken := q.row.refreshToken)}
    ensures Exec(t, q).value.characters[c].active != t.characters[c].active ==> q.SetActive? && q.id == c
  {
  }

  // ---- Queries ----

  /** What scany's `Get` accepts: exactly one row. */
  ghost function TheOnly(rows: set<Id>): (r: Option<Id>)
    ensures r.Some? <==> exists c :: rows == {c}
    ensures r.Some? ==> rows == {r.value}
  {
    if exists c :: rows == {c} then
      var c :| rows == {c};
      Some(c)
    else None
  }

  ghost function Findable(t: Tables, state: Id, asOf: Instant): set<Id>
  {
    set p | p in t.pkces && t.pkces[p].state == state && t.pkces[p].createdAt > asOf - PKCE_LIFETIME
  }

  ghost function Gettable(t: Tables, id: Id, asOf: Instant): set<Id>
  {
    set p | p in t.pkces && p == id && t.pkces[p].createdAt > asOf - PKCE_LIFETIME
  }

  /** `FindPKCE`: the cutoff is taken from the caller's clock at `asOf`. */
  ghost function FindPkceRow(t: Tables, state: Id, asOf: Instant): Option<Id>
  {
    TheOnly(Findable(t, state, asOf))
  }

  /** `GetPKCE`. */
  ghost function GetPkceRow(t: Tables, id: Id, asOf: Instant): Option<Id>
  {
    TheOnly(Gettable(t, id, asOf))
  }

  /** The statement `CleanPKCE` runs. */
  function CleanStmt(asOf: Instant): Stmt
  {
    DeletePkcesBefore(asOf - (PKCE_LIFETIME + CLEAN_MARGIN))
  }

  datatype Criteria = Criteria(characterId: int, name: string, owner: string)

  /** A zero id and empty strings do not filter. */
  predicate Meets(row: CharacterRow, k: Criteria)
  {
    && (k.characterId > 0 ==> row.characterId == k.characterId)
    && (k.name != "" ==> row.name == k.name)
    && (k.owner != "" ==> row.owner == k.owner)
  }

  /** The SQL condition `scopes @> wanted`: NULL on either side selects nothing. */
  predicate ContainsScopes(scopes: ScopeList, wanted: ScopeList)
  {
    && scopes.Some? && wanted.Some?
    && forall x :: x in wanted.value ==> x in scopes.value
  }

  function CharactersOf(t: Tables, profile: Id): set<Id>
  {
    set c | c in t.characters && t.characters[c].profileRef == profile
  }

  function StoreMatches(t: Tables, k: Criteria): set<Id>
  {
    set c | c in t.characters && Meets(t.characters[c], k) && t.characters[c].active
  }

  function ProfileMatches(t: Tables, k: Criteria, profile: Id, wanted: ScopeList): set<Id>
  {
    set c | c in t.characters && Meets(t.characters[c], k) && t.characters[c].profileRef == profile
            && ContainsScopes(t.characters[c].scopes, wanted) && t.characters[c].active
  }

  /**
   The two `FindCharacter` lookups agree: a row the store selects is the one active row that
   differs in none of the criteria given, it belongs to an existing profile, and that profile
   selects the same row under the same criteria exactly when the wanted scopes are granted to it
   (never when its scopes are NULL).
   */
  lemma LookupAgreement(t: Tables, k: Criteria, c: Id, wanted: ScopeList)
    requires Integrity(t)
    requires TheOnly(StoreMatches(t, k)) == Some(c)
    ensures c in t.characters && t.characters[c].profileRef in t.profiles
    ensures t.characters[c].active
    ensures forall d :: d in t.characters && t.characters[d].active ==>
      (d == c <==> !((k.characterId > 0 && t.characters[d].characterId != k.characterId)
                     || (k.name != "" && t.characters[d].name != k.name)
                     || (k.owner != "" && t.characters[d].owner != k.owner)))
    ensures TheOnly(ProfileMatches(t, k, t.characters[c].profileRef, wanted)) == Some(c)
            <==> ContainsScopes(t.characters[c].scopes, wanted)
  {
    var rows := StoreMatches(t, k);
    assert c in rows;
    assert forall d :: d in rows ==> d == c;
    assert forall d :: d in t.characters && t.characters[d].active && Meets(t.characters[d], k) ==> d in rows;
    var mine := ProfileMatches(t, k, t.characters[c].profileRef, wanted);
    assert mine <= rows;
    if ContainsScopes(t.characters[c].scopes, wanted) {
      assert mine == {c};
    } else {
      assert c !in mine;
    }
  }

  /** The row an upsert lands on is new or has been active all along. */
  ghost predicate LandsActive(t: Tables, row: CharacterRow)
  {
    var conflict := Conflict(t.characters, row);
    conflict.Some? ==> t.characters[conflict.value].active
  }

  /**
   Re-authorizing does not reactivate: the row it lands on has the new refresh token, but both
   lookups for that character consider it exactly if it is new or was active before, and the
   store's lookup selects it exactly if, besides, no other active row answers to it.
   */
  lemma UpsertKeepsInactive(t: Tables, id: Id, row: CharacterRow, wanted: ScopeList)
    requires Exec(t, UpsertCharacter(id, row)).Ok?
    requires row.active
    ensures var t' := Exec(t, UpsertCharacter(id, row)).value;
            var landed := UpsertTarget(t, id, row);
            var k := Criteria(row.characterId, row.name, row.owner);
            && landed in t'.characters
            && t'.characters[landed].refreshToken == row.refreshToken
            && (landed in StoreMatches(t', k) <==> LandsActive(t, row))
            && (landed in ProfileMatches(t', k, row.profileRef, wanted)
                <==> LandsActive(t, row) && ContainsScopes(row.scopes, wanted))
            && (TheOnly(StoreMatches(t', k)) == Some(landed)
                <==> LandsActive(t, row)
                     && forall c :: c in t.characters && c != landed && t.characters[c].active ==> !Meets(t.characters[c], k))
  {
    var t' := Exec(t, UpsertCharacter(id, row)).value;
    var landed := UpsertTarget(t, id, row);
    var k := Criteria(row.characterId, row.name, row.owner);
    var rows := StoreMatches(t', k);
    assert landed in rows <==> LandsActive(t, row);
    forall c | c in t.characters && c != landed
      ensures c in rows <==> t.characters[c].active && Meets(t.characters[c], k)
    {
      assert t'.characters[c] == t.characters[c];
    }
    assert forall c :: c in rows && c != landed ==> c in t.characters;
    if landed in rows && forall c :: c in t.characters && c != landed && t.characters[c].active ==> !Meets(t.characters[c], k) {
      assert rows == {landed};
    }
    if TheOnly(rows) == Some(landed) {
      assert rows == {landed};
    }
  }

  /**
   A character authorized with an empty scope list is stored with NULL scopes, meets no
   conflict, and gets one more row each time.
   */
  lemma UnscopedRowsRepeat(t: Tables, id: Id, row: CharacterRow)
    requires Integrity(t) && row.profileRef in t.profiles && id !in t.characters
    ensures row.scopes.None? ==>
              && Exec(t, UpsertCharacter(id, row)) == Ok(t.(characters := t.characters[id := row]))
              && |Exec(t, UpsertCharacter(id, row)).value.characters| == |t.characters| + 1
  {
    if row.scopes.None? {
      assert t.characters[id := row].Keys == t.characters.Keys + {id};
      assert |t.characters[id := row]| == |t.characters[id := row].Keys|;
    }
  }

  // ---- The margin between finding and collecting ----

  /** The latest collection instant a lookup with clock reading `asOf` cannot notice. */
  function UnnoticedUntil(asOf: Instant): Instant
  {
    asOf + CLEAN_MARGIN + 1
  }

  /**
   A row is collected only one second after it stopped being found.  So collecting at
   `cleaned` is invisible to every later lookup exactly when that lookup's own clock reading
   is at most that margin (and the microsecond a timestamp resolves) older.
   */
  lemma CleanMarginExact(cleaned: Instant, asOf: Instant)
    ensures (forall t: Tables, state: Id ::
               FindPkceRow(t, state, asOf) == FindPkceRow(Exec(t, CleanStmt(cleaned)).value, state, asOf))
            <==> cleaned <= UnnoticedUntil(asOf)
    ensures (forall t: Tables, id: Id ::
               GetPkceRow(t, id, asOf) == GetPkceRow(Exec(t, CleanStmt(cleaned)).value, id, asOf))
            <==> cleaned <= UnnoticedUntil(asOf)
  {
    if cleaned <= UnnoticedUntil(asOf) {
      forall t: Tables, x: Id
        ensures FindPkceRow(t, x, asOf) == FindPkceRow(Exec(t, CleanStmt(cleaned)).value, x, asOf)
        ensures GetPkceRow(t, x, asOf) == GetPkceRow(Exec(t, CleanStmt(cleaned)).value, x, asOf)
      {
        CleanInvisible(t, x, cleaned, asOf);
      }
    } else {
      var row := PkceRow(0, 0, [], [], None, "", asOf - PKCE_LIFETIME + 1);
      var t := EMPTY.(pkces := map[0 := row]);
      CleanVisible(t, row, cleaned, asOf);
      assert FindPkceRow(t, 0, asOf) != FindPkceRow(Exec(t, CleanStmt(cleaned)).value, 0, asOf);
      assert GetPkceRow(t, 0, asOf) != GetPkceRow(Exec(t, CleanStmt(cleaned)).value, 0, asOf);
    }
  }

  /** `x` is a state for the one lookup and an id for the other. */
  lemma CleanInvisible(t: Tables, x: Id, cleaned: Instant, asOf: Instant)
    requires cleaned <= UnnoticedUntil(asOf)
    ensures FindPkceRow(t, x, asOf) == FindPkceRow(Exec(t, CleanStmt(cleaned)).value, x, asOf)
    ensures GetPkceRow(t, x, asOf) == GetPkceRow(Exec(t, CleanStmt(cleaned)).value, x, asOf)
  {
    var t' := Exec(t, CleanStmt(cleaned)).value;
    assert Findable(t, x, asOf) == Findable(t', x, asOf);
    assert Gettable(t, x, asOf) == Gettable(t', x, asOf);
  }

  lemma CleanVisible(t: Tables, row: PkceRow, cleaned: Instant, asOf: Instant)
    requires t.pkces == map[0 := row] && row.state == 0
    requires asOf - PKCE_LIFETIME < row.createdAt < cleaned - (PKCE_LIFETIME + CLEAN_MARGIN)
    ensures FindPkceRow(t, 0, asOf) == Some(0)
    ensures FindPkceRow(Exec(t, CleanStmt(cleaned)).value, 0, asOf) == None
    ensures GetPkceRow(t, 0, asOf) == Some(0) && GetPkceRow(Exec(t, CleanStmt(cleaned)).value, 0, asOf) == None
  {
    var t' := Exec(t, CleanStmt(cleaned)).value;
    assert Findable(t, 0, asOf) == {0} && Gettable(t, 0, asOf) == {0};
    assert Findable(t', 0, asOf) == {} && Gettable(t', 0, asOf) == {};
  }
}

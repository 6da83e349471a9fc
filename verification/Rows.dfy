/**
 What every reachable state of the tables satisfies, and what every run does to a row.
 */
module Rows {
  import opened Wrappers
  import opened Claims
  import opened Tables
  import opened Effects
  import opened Protocol
  import opened Pkce
  import StringOrder

  ghost predicate ScopesCanonical(t: Tables)
  {
    forall c :: c in t.characters ==> CanonicalScopes(t.characters[c].scopes)
  }

  /** Claims waiting to be stored already have canonical scopes. */
  ghost predicate ClaimsCanonical(s: System)
  {
    && (forall k :: k in s.handlers ==> CanonicalScopes(s.handlers[k].claims.scopes))
    && (forall k :: k in s.sources ==> CanonicalScopes(PendingScopes(s.sources[k].pc)))
  }

  ghost predicate RowsOnRecord(s: System)
  {
    && (forall p :: p in s.t.pkces ==> p in s.hist.pkces && s.hist.pkces[p] == s.t.pkces[p])
    && (forall c :: c in s.t.characters ==> c in s.hist.origins)
  }

  ghost predicate UuidsUsed(s: System)
  {
    && (forall p :: p in s.hist.pkces ==> p in s.used && s.hist.pkces[p].state in s.used)
    && (forall c :: c in s.hist.origins ==> c in s.used)
    && (forall p :: p in s.t.profiles ==> p in s.used)
  }

  /** The history knows every row there is, and no uuid is given out twice. */
  ghost predicate HistoryKnows(s: System)
  {
    RowsOnRecord(s) && UuidsUsed(s)
  }

  /** How an event can touch source `k`. */
  lemma SourceMoves(sha: Sha256, s: System, e: Event, k: nat)
    requires Enabled(sha, s, e) && k in Apply(sha, s, e).value.sources
    ensures var src' := Apply(sha, s, e).value.sources[k];
      || (k in s.sources && src' == s.sources[k] && !(e.SourceDoes? && e.s == k))
      || (k !in s.sources && src'.pc == Idle && src'.token.None?)
      || (e.SourceDoes? && e.s == k && k in s.sources && SourceNext(s.t, s.sources[k], e.sstep).Some?
          && src' == SourceNext(s.t, s.sources[k], e.sstep).value.next)
  {
  }

  /** A committed statement succeeds. */
  lemma CommittedSucceeds(sha: Sha256, s: System, e: Event)
    requires Enabled(sha, s, e) && Committed(sha, s, e).Some?
    ensures Exec(s.t, Committed(sha, s, e).value).Ok?
  {
  }

  /** Who commits the statements that write character rows, and when. */
  lemma WhoWrites(sha: Sha256, s: System, e: Event)
    requires Apply(sha, s, e).Some? && Committed(sha, s, e).Some?
    ensures match Committed(sha, s, e).value
      case UpsertCharacter(id, row) =>
        && id in FreshIds(e) && row.active
        && ((e.HandlerDoes? && e.hstep.Create? && s.handlers[e.h].pc == Identified
             && row.profileRef == s.handlers[e.h].pkce.profileRef
             && Identity(row) == s.handlers[e.h].claims
             && row.referenceData == s.handlers[e.h].pkce.referenceData
             && row.accessToken == s.handlers[e.h].token.access && row.refreshToken == s.handlers[e.h].token.refresh)
            || (e.SourceDoes? && e.sstep.SaveCreate? && s.sources[e.s].pc.SaveLocated?
                && Identity(row) == s.sources[e.s].pc.claims
                && row.accessToken == s.sources[e.s].pc.got.access && row.refreshToken == s.sources[e.s].pc.got.refresh))
      case SetAccessToken(id, access, _) =>
        e.SourceDoes? && s.sources[e.s].pc == Accepted(s.sources[e.s].pc.got) && access == s.sources[e.s].pc.got.access
        && s.sources[e.s].character == Some(id)
      case SetRefreshToken(id, refresh, _) =>
        e.SourceDoes? && s.sources[e.s].pc.Received? && refresh == s.sources[e.s].pc.got.refresh
        && s.sources[e.s].character == Some(id)
      case SetActive(id, active, _) =>
        e.SourceDoes? && s.sources[e.s].pc == Rejected && s.sources[e.s].character == Some(id) && !active
      case InsertPkce(id, pkce) => e.CreatePkce? && e.id == id && pkce.state == e.state
      case InsertProfile(id, _) => e.NewProfile? && e.id == id
      case _ => true
  {
  }

  /** A handler's claims come out of the token it has had verified. */
  lemma ClaimsAfter(t: Tables, h: Handler, n: nat, step: HandlerStep)
    requires HandlerNext(t, h, n, step).Some?
    ensures var claims := HandlerNext(t, h, n, step).value.next.claims;
      claims == h.claims || (step.ReadClaims? && h.pc == Verified && ClaimsOf(h.jt) == Ok(claims))
  {
  }

  lemma ScopesOfClaims(jt: VerifiedJwt)
    requires ClaimsOf(jt).Ok?
    ensures CanonicalScopes(ClaimsOf(jt).value.scopes)
  {
    ClaimsAreTheTokens(jt);
  }

  lemma HandlerClaims(t: Tables, h: Handler, n: nat, step: HandlerStep)
    requires HandlerNext(t, h, n, step).Some? && CanonicalScopes(h.claims.scopes)
    ensures CanonicalScopes(HandlerNext(t, h, n, step).value.next.claims.scopes)
  {
    ClaimsAfter(t, h, n, step);
    if ClaimsOf(h.jt).Ok? {
      ScopesOfClaims(h.jt);
    }
  }

  /** The claims a source is about to store. */
  function PendingScopes(pc: SourcePc): ScopeList
  {
    match pc
    case SaveAccepted(_, claims, _) => claims.scopes
    case SaveLocated(_, claims, _) => claims.scopes
    case _ => None
  }

  lemma SourceClaims(t: Tables, src: Source, step: SourceStep)
    requires SourceNext(t, src, step).Some? && CanonicalScopes(PendingScopes(src.pc))
    ensures CanonicalScopes(PendingScopes(SourceNext(t, src, step).value.next.pc))
  {
    if step.Save? && step.jt.Some? && ClaimsOf(step.jt.value).Ok? {
      ScopesOfClaims(step.jt.value);
    }
  }

  lemma ClaimsStep(sha: Sha256, s: System, e: Event)
    requires Apply(sha, s, e).Some? && ClaimsCanonical(s)
    ensures ClaimsCanonical(Apply(sha, s, e).value)
  {
    if e.HandlerDoes? {
      HandlerClaims(s.t, s.handlers[e.h], s.steps, e.hstep);
    } else if e.SourceDoes? {
      SourceClaims(s.t, s.sources[e.s], e.sstep);
    }
  }

  lemma ScopesStep(sha: Sha256, s: System, e: Event)
    requires Apply(sha, s, e).Some? && ClaimsCanonical(s) && ScopesCanonical(s.t)
    ensures ScopesCanonical(Apply(sha, s, e).value.t)
  {
    if Committed(sha, s, e).Some? {
      CommittedSucceeds(sha, s, e);
      WhoWrites(sha, s, e);
      var q := Committed(sha, s, e).value;
      forall c | c in Exec(s.t, q).value.characters
        ensures CanonicalScopes(Exec(s.t, q).value.characters[c].scopes)
      {
        RowAfterExec(s.t, q, c);
      }
    }
  }

  /** Rows are inserted under fresh uuids. */
  lemma InsertsAreFresh(sha: Sha256, s: System, e: Event)
    requires Enabled(sha, s, e) && Committed(sha, s, e).Some?
    ensures match Committed(sha, s, e).value
      case UpsertCharacter(id, _) => id in FreshIds(e)
      case InsertPkce(id, pkce) => id in FreshIds(e) && pkce.state in FreshIds(e)
      case InsertProfile(id, _) => id in FreshIds(e)
      case _ => true
  {
  }

  lemma UuidsStep(sha: Sha256, s: System, e: Event)
    requires Enabled(sha, s, e) && UuidsUsed(s)
    ensures UuidsUsed(Apply(sha, s, e).value)
  {
    if Committed(sha, s, e).Some? {
      CommittedSucceeds(sha, s, e);
      InsertsAreFresh(sha, s, e);
    }
  }

  lemma RecordStep(sha: Sha256, s: System, e: Event)
    requires Enabled(sha, s, e) && HistoryKnows(s)
    ensures RowsOnRecord(Apply(sha, s, e).value)
  {
    var s' := Apply(sha, s, e).value;
    if Committed(sha, s, e).Some? {
      CommittedSucceeds(sha, s, e);
      InsertsAreFresh(sha, s, e);
      var q := Committed(sha, s, e).value;
      forall p | p in s'.t.pkces ensures p in s'.hist.pkces && s'.hist.pkces[p] == s'.t.pkces[p] {
        PkceAfterExec(s.t, q, p);
      }
      forall c | c in s'.t.characters ensures c in s'.hist.origins {
        RowAfterExec(s.t, q, c);
      }
    }
  }

  lemma HistoryStep(sha: Sha256, s: System, e: Event)
    requires Enabled(sha, s, e) && HistoryKnows(s)
    ensures HistoryKnows(Apply(sha, s, e).value)
  {
    RecordStep(sha, s, e);
    UuidsStep(sha, s, e);
  }

  ghost predicate StoreInv(s: System)
  {
    Integrity(s.t) && ScopesCanonical(s.t) && ClaimsCanonical(s) && HistoryKnows(s)
  }

  lemma StoreStep(sha: Sha256, s: System, e: Event)
    requires Apply(sha, s, e).Some? && StoreInv(s)
    ensures StoreInv(Apply(sha, s, e).value)
  {
    if Committed(sha, s, e).Some? {
      CommittedSucceeds(sha, s, e);
      ExecKeepsIntegrity(s.t, Committed(sha, s, e).value);
    }
    ClaimsStep(sha, s, e);
    ScopesStep(sha, s, e);
    HistoryStep(sha, s, e);
  }

  /**
   Every reachable state has referential integrity and unique names, states and identities,
   stores scopes in canonical form only, and never reuses a uuid.
   */
  lemma {:induction false} Reachable(sha: Sha256, ss: seq<System>, es: seq<Event>, i: nat)
    requires Run(sha, ss, es) && i <= |es|
    ensures StoreInv(ss[i])
  {
    if i > 0 {
      Reachable(sha, ss, es, i - 1);
      RunStep(sha, ss, es, i - 1);
      StoreStep(sha, ss[i - 1], es[i - 1]);
    }
  }

  lemma Known(sha: Sha256, ss: seq<System>, es: seq<Event>, i: nat)
    requires Run(sha, ss, es) && i <= |es|
    ensures HistoryKnows(ss[i])
  {
    Reachable(sha, ss, es, i);
  }

  /**
   No reachable profile holds the same character twice with the same scope set, in whatever
   order the tokens listed it.
   */
  lemma OneRowPerScopeSet(sha: Sha256, ss: seq<System>, es: seq<Event>, i: nat, c: Id, d: Id)
    requires Run(sha, ss, es) && i <= |es|
    requires var rows := ss[i].t.characters;
      && c in rows && d in rows
      && rows[c].profileRef == rows[d].profileRef
      && rows[c].characterId == rows[d].characterId && rows[c].name == rows[d].name && rows[c].owner == rows[d].owner
      && rows[c].scopes.Some? && rows[d].scopes.Some?
      && multiset(rows[c].scopes.value) == multiset(rows[d].scopes.value)
    ensures c == d
  {
    Reachable(sha, ss, es, i);
    var rows := ss[i].t.characters;
    StringOrder.SortedUnique(rows[c].scopes.value, rows[d].scopes.value);
  }

  // ---- What a run does to one row ----

  lemma {:induction false} UuidsStayUsed(sha: Sha256, ss: seq<System>, es: seq<Event>, i: nat, j: nat)
    requires Run(sha, ss, es) && i <= j <= |es|
    ensures ss[i].used <= ss[j].used
  {
    if i < j {
      UuidsStayUsed(sha, ss, es, i, j - 1);
      RunStep(sha, ss, es, j - 1);
    }
  }

  /** One event: a row that survives it keeps identity, reference data and creation time. */
  lemma RowStep(sha: Sha256, s: System, e: Event, c: Id)
    requires Enabled(sha, s, e) && c in s.t.characters && c in Apply(sha, s, e).value.t.characters
    ensures Successor(s.t.characters[c], Apply(sha, s, e).value.t.characters[c])
  {
    if Committed(sha, s, e).Some? {
      CommittedSucceeds(sha, s, e);
      WhoWrites(sha, s, e);
      ExecRowHistory(s.t, Committed(sha, s, e).value, c);
    }
  }

  /** A row that is there after an event was there before, or has just been inserted under a fresh uuid. */
  lemma RowWasThere(sha: Sha256, s: System, e: Event, c: Id)
    requires Enabled(sha, s, e) && c in Apply(sha, s, e).value.t.characters
    ensures c in s.t.characters || c !in s.used
  {
    if Committed(sha, s, e).Some? {
      CommittedSucceeds(sha, s, e);
      WhoWrites(sha, s, e);
      RowAfterExec(s.t, Committed(sha, s, e).value, c);
    }
  }

  /** A row that exists at two moments of a run exists all the time in between. */
  lemma RowStays(sha: Sha256, ss: seq<System>, es: seq<Event>, i: nat, j: nat, c: Id)
    requires Run(sha, ss, es) && i < j <= |es|
    requires c in ss[i].t.characters && c in ss[j].t.characters
    ensures c in ss[j - 1].t.characters
  {
    Known(sha, ss, es, i);
    UuidsStayUsed(sha, ss, es, i, j - 1);
    RunStep(sha, ss, es, j - 1);
    RowWasThere(sha, ss[j - 1], es[j - 1], c);
  }

  /**
   Row history: between any two moments of a run at which a row exists, its identity columns,
   reference data and creation time are the same, and it has not been reactivated.
   */
  lemma {:induction false} RowHistory(sha: Sha256, ss: seq<System>, es: seq<Event>, i: nat, j: nat, c: Id)
    requires Run(sha, ss, es) && i <= j <= |es|
    requires c in ss[i].t.characters && c in ss[j].t.characters
    ensures Successor(ss[i].t.characters[c], ss[j].t.characters[c])
  {
    if i < j {
      RowStays(sha, ss, es, i, j, c);
      RowHistory(sha, ss, es, i, j - 1, c);
      RunStep(sha, ss, es, j - 1);
      RowStep(sha, ss[j - 1], es[j - 1], c);
    }
  }

  /** At moment `a` the server rejects the refresh token source `k` presents for row `c`, and it did nothing since. */
  ghost predicate RejectedSince(ss: seq<System>, es: seq<Event>, a: nat, i: nat, k: nat, c: Option<Id>)
    requires |ss| == |es| + 1 && a < i <= |es|
  {
    && es[a] == SourceDoes(k, RefreshRejected)
    && k in ss[a].sources && ss[a].sources[k].pc == Exchanging && ss[a].sources[k].character == c
    && forall j :: a < j <= i ==> k in ss[j].sources && ss[j].sources[k] == ss[a].sources[k].(pc := Rejected)
  }

  lemma RejectedStep(sha: Sha256, s: System, e: Event, k: nat)
    requires Enabled(sha, s, e)
    requires k in Apply(sha, s, e).value.sources && Apply(sha, s, e).value.sources[k].pc == Rejected
    ensures k in s.sources
    ensures var src := Apply(sha, s, e).value.sources[k];
      || (e == SourceDoes(k, RefreshRejected) && s.sources[k].pc == Exchanging && src == s.sources[k].(pc := Rejected))
      || s.sources[k] == src
  {
  }

  lemma {:induction false} RejectedWasAnswered(sha: Sha256, ss: seq<System>, es: seq<Event>, i: nat, k: nat) returns (a: nat)
    requires Run(sha, ss, es) && i <= |es|
    requires k in ss[i].sources && ss[i].sources[k].pc == Rejected
    ensures a < i && RejectedSince(ss, es, a, i, k, ss[i].sources[k].character)
  {
    RunStep(sha, ss, es, i - 1);
    RejectedStep(sha, ss[i - 1], es[i - 1], k);
    if ss[i - 1].sources[k] == ss[i].sources[k] {
      a := RejectedWasAnswered(sha, ss, es, i - 1, k);
    } else {
      a := i - 1;
    }
  }

  /**
   The only way to lose `active`: a source holding that very row got a RetrieveError from the
   server, and marking the row is the next thing it does.
   */
  lemma DeactivationHasACause(sha: Sha256, ss: seq<System>, es: seq<Event>, i: nat, c: Id)
    requires Run(sha, ss, es) && i < |es|
    requires c in ss[i].t.characters && c in ss[i + 1].t.characters
    requires ss[i].t.characters[c].active && !ss[i + 1].t.characters[c].active
    ensures es[i].SourceDoes? && es[i].sstep.MarkInactive?
    ensures es[i].s in ss[i].sources && ss[i].sources[es[i].s].character == Some(c)
    ensures exists a :: 0 <= a < i && RejectedSince(ss, es, a, i, es[i].s, Some(c))
  {
    RunStep(sha, ss, es, i);
    Deactivates(sha, ss[i], es[i], c);
    var a := RejectedWasAnswered(sha, ss, es, i, es[i].s);
  }

  lemma Deactivates(sha: Sha256, s: System, e: Event, c: Id)
    requires Enabled(sha, s, e) && c in s.t.characters && c in Apply(sha, s, e).value.t.characters
    requires s.t.characters[c].active && !Apply(sha, s, e).value.t.characters[c].active
    ensures e.SourceDoes? && e.sstep.MarkInactive?
    ensures e.s in s.sources && s.sources[e.s].character == Some(c) && s.sources[e.s].pc == Rejected
  {
    CommittedSucceeds(sha, s, e);
    WhoWrites(sha, s, e);
    ExecRowHistory(s.t, Committed(sha, s, e).value, c);
  }

  /** A re-authorization that meets an existing row replaces its refresh token and nothing else. */
  lemma ReauthorizationTouchesRefreshOnly(sha: Sha256, s: System, k: nat, id: Id, at: Instant, ok: bool, c: Id)
    requires Enabled(sha, s, HandlerDoes(k, Create(id, at, ok))) && c in s.t.characters
    ensures var s' := Apply(sha, s, HandlerDoes(k, Create(id, at, ok))).value;
      && c in s'.t.characters
      && (s'.t.characters[c] == s.t.characters[c]
          || (s'.handlers[k].landed == Some(c)
              && s'.t.characters[c] == s.t.characters[c].(refreshToken := s.handlers[k].token.refresh)))
  {
    var e := HandlerDoes(k, Create(id, at, ok));
    if Committed(sha, s, e).Some? {
      CommittedSucceeds(sha, s, e);
      ExecRowHistory(s.t, Committed(sha, s, e).value, c);
    }
  }

  lemma ProfileStep(sha: Sha256, s: System, e: Event, p: Id)
    requires Enabled(sha, s, e) && p in s.used && p !in s.t.profiles
    ensures p !in Apply(sha, s, e).value.t.profiles
  {
    if Committed(sha, s, e).Some? {
      CommittedSucceeds(sha, s, e);
      InsertsAreFresh(sha, s, e);
    }
  }

  lemma {:induction false} ProfileStaysGone(sha: Sha256, ss: seq<System>, es: seq<Event>, i: nat, j: nat, p: Id)
    requires Run(sha, ss, es) && i <= j <= |es| && p in ss[i].used && p !in ss[i].t.profiles
    ensures p !in ss[j].t.profiles
  {
    if i < j {
      ProfileStaysGone(sha, ss, es, i, j - 1, p);
      UuidsStayUsed(sha, ss, es, i, j - 1);
      RunStep(sha, ss, es, j - 1);
      ProfileStep(sha, ss[j - 1], es[j - 1], p);
    }
  }

  /** A profile once deleted is in no later state, and neither is a PKCE row or a character of it. */
  lemma DeletedForGood(sha: Sha256, ss: seq<System>, es: seq<Event>, i: nat, j: nat, p: Id)
    requires Run(sha, ss, es) && i < j <= |es| && es[i] == DropProfile(p) && p in ss[i].t.profiles
    ensures p !in ss[j].t.profiles
    ensures forall q :: q in ss[j].t.pkces ==> ss[j].t.pkces[q].profileRef != p
    ensures forall c :: c in ss[j].t.characters ==> ss[j].t.characters[c].profileRef != p
  {
    Known(sha, ss, es, i);
    RunStep(sha, ss, es, i);
    DeletedProfile(ss[i].t, p);
    UuidsStayUsed(sha, ss, es, i, i + 1);
    ProfileStaysGone(sha, ss, es, i + 1, j, p);
    Reachable(sha, ss, es, j);
  }

  /** A rename that is carried out gives the profile its new name and changes no other. */
  lemma RenameTakesEffect(sha: Sha256, ss: seq<System>, es: seq<Event>, i: nat, id: Id, name: string, at: Instant)
    requires Run(sha, ss, es) && i < |es| && es[i] == Rename(id, name, at)
    ensures ss[i + 1].t.profiles.Keys == ss[i].t.profiles.Keys
    ensures id in ss[i].t.profiles ==> ss[i + 1].t.profiles[id].name == name
    ensures forall p :: p in ss[i].t.profiles && p != id ==> ss[i + 1].t.profiles[p] == ss[i].t.profiles[p]
  {
    RunStep(sha, ss, es, i);
    RenamedProfile(ss[i].t, id, name, at);
  }

  /** A handler whose profile has been deleted meanwhile stores nothing and fails. */
  lemma DeletedProfileRefuses(sha: Sha256, ss: seq<System>, es: seq<Event>, i: nat, k: nat, id: Id, at: Instant, ok: bool)
    requires Run(sha, ss, es) && i <= |es|
    requires Enabled(sha, ss[i], HandlerDoes(k, Create(id, at, ok)))
    requires ss[i].handlers[k].pkce.profileRef !in ss[i].t.profiles
    ensures var s' := Apply(sha, ss[i], HandlerDoes(k, Create(id, at, ok))).value;
      s'.t == ss[i].t && s'.handlers[k].pc == Finished(NotStored)
  {
    Reachable(sha, ss, es, i);
    var h := ss[i].handlers[k];
    NoOrphans(ss[i].t, id, h.pkce, NewRow(h.pkce.profileRef, h.claims, h.token, h.pkce.referenceData, at));
  }

  /** In every reachable state the store's lookup and the profile's agree, see Tables.LookupAgreement. */
  lemma LookupsAgree(sha: Sha256, ss: seq<System>, es: seq<Event>, i: nat, k: Criteria, c: Id, wanted: ScopeList)
    requires Run(sha, ss, es) && i <= |es|
    requires TheOnly(StoreMatches(ss[i].t, k)) == Some(c)
    ensures var t := ss[i].t;
      && c in t.characters && t.characters[c].profileRef in t.profiles
      && (TheOnly(ProfileMatches(t, k, t.characters[c].profileRef, wanted)) == Some(c)
          <==> t.characters[c].scopes.Some? && wanted.Some?
               && forall x :: x in wanted.value ==> x in t.characters[c].scopes.value)
  {
    Reachable(sha, ss, es, i);
    LookupAgreement(ss[i].t, k, c, wanted);
  }
}

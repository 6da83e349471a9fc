/**
 Where a character row comes from: which PKCE row authorized it, in which order the callback
 handled that row, and which authorization the code belonged to.
 */
module Provenance {
  import opened Wrappers
  import opened Claims
  import opened Tables
  import opened Protocol
  import opened Pkce
  import opened Base64Url
  import Rows

  // ---- The moments of one handler ----

  /** How far a handler has come; a handler that gave up has come nowhere. */
  function Stage(h: Handler): nat
  {
    match h.pc
    case Started => 0
    case Found => 1
    case Located => 2
    case Destroyed => 3
    case Young => 4
    case Exchanged => 5
    case Verified => 6
    case Identified => 7
    case Landed => 8
    case Finished(outcome) => if outcome == Completed then 8 else 0
  }

  /** `FindPKCE` returned the row `h.pkce` for the state called back, from the table as it was at that moment. */
  ghost predicate FoundBefore(ss: seq<System>, es: seq<Event>, i: nat, k: nat, h: Handler)
    requires |ss| == |es| + 1 && i <= |es|
  {
    var f := h.trail.found;
    && f < i && es[f].HandlerDoes? && es[f].h == k && es[f].hstep.Find?
    && h.pkceId in ss[f].t.pkces && ss[f].t.pkces[h.pkceId] == h.pkce
    && h.pkce.state == h.state && h.pkce.createdAt > es[f].hstep.asOf - PKCE_LIFETIME
  }

  /** Its own `Destroy` committed later. */
  ghost predicate DestroyedBefore(es: seq<Event>, i: nat, k: nat, h: Handler)
    requires i <= |es|
  {
    h.trail.found < h.trail.destroyed < i && es[h.trail.destroyed] == HandlerDoes(k, Destroy(true))
  }

  /** Later still, the row was found to be no older than five minutes. */
  ghost predicate CheckedBefore(ss: seq<System>, es: seq<Event>, i: nat, k: nat, h: Handler)
    requires |ss| == |es| + 1 && i <= |es|
  {
    var a := h.trail.checked;
    && h.trail.destroyed < a < i && es[a] == HandlerDoes(k, CheckAge(ss[a].now))
    && ss[a].now - h.pkce.createdAt <= PKCE_LIFETIME
  }

  /** Then the code was exchanged, against the challenge the server had issued it for. */
  ghost predicate ExchangedBefore(sha: Sha256, ss: seq<System>, es: seq<Event>, i: nat, k: nat, h: Handler)
    requires |ss| == |es| + 1 && i <= |es|
  {
    var x := h.trail.exchanged;
    && h.trail.checked < x < i && es[x].HandlerDoes? && es[x].h == k && es[x].hstep.Exchange?
    && es[x].hstep.reply.Some? && h.token == ReplyToken(es[x].hstep.reply.value)
    && h.code in ss[x].server.codes && ss[x].server.codes[h.code].challenge == Challenge(sha, h.pkce.verifier)
  }

  /** Then the access token passed validation. */
  ghost predicate VerifiedBefore(es: seq<Event>, i: nat, k: nat, h: Handler)
    requires i <= |es|
  {
    h.trail.exchanged < h.trail.verified < i && es[h.trail.verified] == HandlerDoes(k, Verify(Some(h.jt)))
  }

  /** Then the identity was read out of that token. */
  ghost predicate IdentifiedBefore(es: seq<Event>, i: nat, k: nat, h: Handler)
    requires i <= |es|
  {
    var r := h.trail.identified;
    h.trail.verified < r < i && es[r] == HandlerDoes(k, ReadClaims) && ClaimsOf(h.jt) == Ok(h.claims)
  }

  /** And only then the character was stored. */
  ghost predicate StoredBefore(es: seq<Event>, i: nat, k: nat, h: Handler)
    requires i <= |es|
  {
    && h.trail.identified < h.trail.stored < i
    && es[h.trail.stored].HandlerDoes? && es[h.trail.stored].h == k && es[h.trail.stored].hstep.Create?
  }

  ghost predicate TrailOk(sha: Sha256, ss: seq<System>, es: seq<Event>, i: nat, k: nat, h: Handler)
    requires |ss| == |es| + 1 && i <= |es|
  {
    && (Stage(h) >= 1 ==> FoundBefore(ss, es, i, k, h))
    && (Stage(h) >= 3 ==> DestroyedBefore(es, i, k, h))
    && (Stage(h) >= 4 ==> CheckedBefore(ss, es, i, k, h))
    && (Stage(h) >= 5 ==> ExchangedBefore(sha, ss, es, i, k, h))
    && (Stage(h) >= 6 ==> VerifiedBefore(es, i, k, h))
    && (Stage(h) >= 7 ==> IdentifiedBefore(es, i, k, h))
    && (Stage(h) >= 8 ==> StoredBefore(es, i, k, h))
  }

  /** How an event can touch handler `k`. */
  lemma HandlerMoves(sha: Sha256, s: System, e: Event, k: nat)
    requires Enabled(sha, s, e) && k in Apply(sha, s, e).value.handlers
    ensures var h' := Apply(sha, s, e).value.handlers[k];
      || (k in s.handlers && h' == s.handlers[k])
      || (k !in s.handlers && e.Arrive? && h' == NewHandler(e.code, e.state))
      || (e.HandlerDoes? && e.h == k && k in s.handlers
          && HandlerNext(s.t, s.handlers[k], s.steps, e.hstep).Some?
          && h' == HandlerNext(s.t, s.handlers[k], s.steps, e.hstep).value.next)
  {
  }

  lemma {:induction false} StepsCount(sha: Sha256, ss: seq<System>, es: seq<Event>, i: nat)
    requires Run(sha, ss, es) && i <= |es|
    ensures ss[i].steps == i
  {
    if i > 0 {
      RunStep(sha, ss, es, i - 1);
      StepsCount(sha, ss, es, i - 1);
    }
  }

  ghost predicate StepOk(sha: Sha256, ss: seq<System>, es: seq<Event>, i: nat, k: nat)
  {
    && |ss| == |es| + 1 && i < |es|
    && es[i].HandlerDoes? && es[i].h == k && k in ss[i].handlers
    && HandlerNext(ss[i].t, ss[i].handlers[k], i, es[i].hstep).Some?
    && ServeHandler(sha, ss[i].server, ss[i].handlers[k], es[i].hstep).Some?
    && (es[i].hstep.CheckAge? ==> es[i].hstep.at == ss[i].now)
  }

  /** One step of a handler writes its number into the trail and keeps what was there. */
  lemma EarlyTrailStep(sha: Sha256, ss: seq<System>, es: seq<Event>, i: nat, k: nat)
    requires StepOk(sha, ss, es, i, k) && TrailOk(sha, ss, es, i, k, ss[i].handlers[k])
    requires es[i].hstep.Find? || es[i].hstep.GetProfile? || es[i].hstep.Destroy? || es[i].hstep.CheckAge?
    ensures TrailOk(sha, ss, es, i + 1, k, HandlerNext(ss[i].t, ss[i].handlers[k], i, es[i].hstep).value.next)
  {
  }

  lemma MiddleTrailStep(sha: Sha256, ss: seq<System>, es: seq<Event>, i: nat, k: nat)
    requires StepOk(sha, ss, es, i, k) && TrailOk(sha, ss, es, i, k, ss[i].handlers[k])
    requires es[i].hstep.Exchange? || es[i].hstep.Verify?
    ensures TrailOk(sha, ss, es, i + 1, k, HandlerNext(ss[i].t, ss[i].handlers[k], i, es[i].hstep).value.next)
  {
  }

  lemma ClaimsTrailStep(sha: Sha256, ss: seq<System>, es: seq<Event>, i: nat, k: nat)
    requires StepOk(sha, ss, es, i, k) && TrailOk(sha, ss, es, i, k, ss[i].handlers[k])
    requires es[i].hstep.ReadClaims?
    ensures TrailOk(sha, ss, es, i + 1, k, HandlerNext(ss[i].t, ss[i].handlers[k], i, es[i].hstep).value.next)
  {
    var h := ss[i].handlers[k];
    var h' := HandlerNext(ss[i].t, h, i, es[i].hstep).value.next;
    TrailLater(sha, ss, es, i, k, h);
    if h'.pc == Identified {
      TrailOfIdentified(sha, ss, es, i + 1, k, h, h');
    }
  }

  /** The account up to the validation depends on nothing the reading of the claims changes. */
  lemma TrailOfIdentified(sha: Sha256, ss: seq<System>, es: seq<Event>, i: nat, k: nat, h: Handler, h': Handler)
    requires |ss| == |es| + 1 && i <= |es| && TrailOk(sha, ss, es, i, k, h) && Stage(h) == 6
    requires h' == h.(pc := Identified, claims := h'.claims, trail := h.trail.(identified := h'.trail.identified))
    requires IdentifiedBefore(es, i, k, h')
    ensures TrailOk(sha, ss, es, i, k, h')
  {
  }

  lemma LateTrailStep(sha: Sha256, ss: seq<System>, es: seq<Event>, i: nat, k: nat)
    requires StepOk(sha, ss, es, i, k) && TrailOk(sha, ss, es, i, k, ss[i].handlers[k])
    requires es[i].hstep.Create? || es[i].hstep.Clean?
    ensures TrailOk(sha, ss, es, i + 1, k, HandlerNext(ss[i].t, ss[i].handlers[k], i, es[i].hstep).value.next)
  {
    var h := ss[i].handlers[k];
    var h' := HandlerNext(ss[i].t, h, i, es[i].hstep).value.next;
    TrailLater(sha, ss, es, i, k, h);
    if h'.pc != Finished(NotStored) {
      SameTrail(sha, ss, es, i + 1, k, h, h');
    }
  }

  /** The account up to the identity depends on nothing the last two steps change. */
  lemma SameTrail(sha: Sha256, ss: seq<System>, es: seq<Event>, i: nat, k: nat, h: Handler, h': Handler)
    requires |ss| == |es| + 1 && i <= |es| && TrailOk(sha, ss, es, i, k, h) && Stage(h) >= 7
    requires h' == h.(pc := h'.pc, landed := h'.landed, trail := h.trail.(stored := h'.trail.stored))
    requires StoredBefore(es, i, k, h')
    ensures TrailOk(sha, ss, es, i, k, h')
  {
  }

  /** How the run's i-th event can touch handler `k`. */
  lemma RunMoves(sha: Sha256, ss: seq<System>, es: seq<Event>, i: nat, k: nat)
    requires Run(sha, ss, es) && i < |es| && k in ss[i + 1].handlers
    ensures
      || (k in ss[i].handlers && ss[i + 1].handlers[k] == ss[i].handlers[k])
      || (k !in ss[i].handlers && Stage(ss[i + 1].handlers[k]) == 0)
      || (StepOk(sha, ss, es, i, k)
          && ss[i + 1].handlers[k] == HandlerNext(ss[i].t, ss[i].handlers[k], i, es[i].hstep).value.next)
  {
    RunStep(sha, ss, es, i);
    StepsCount(sha, ss, es, i);
    HandlerMoves(sha, ss[i], es[i], k);
  }

  lemma TrailStep(sha: Sha256, ss: seq<System>, es: seq<Event>, i: nat, k: nat)
    requires StepOk(sha, ss, es, i, k) && TrailOk(sha, ss, es, i, k, ss[i].handlers[k])
    ensures TrailOk(sha, ss, es, i + 1, k, HandlerNext(ss[i].t, ss[i].handlers[k], i, es[i].hstep).value.next)
  {
    match es[i].hstep
    case Find(_, _) => EarlyTrailStep(sha, ss, es, i, k);
    case GetProfile(_) => EarlyTrailStep(sha, ss, es, i, k);
    case Destroy(_) => EarlyTrailStep(sha, ss, es, i, k);
    case CheckAge(_) => EarlyTrailStep(sha, ss, es, i, k);
    case Exchange(_) => MiddleTrailStep(sha, ss, es, i, k);
    case Verify(_) => MiddleTrailStep(sha, ss, es, i, k);
    case ReadClaims => ClaimsTrailStep(sha, ss, es, i, k);
    case Create(_, _, _) => LateTrailStep(sha, ss, es, i, k);
    case Clean(_, _) => LateTrailStep(sha, ss, es, i, k);
  }

  /** A true account stays true. */
  lemma TrailLater(sha: Sha256, ss: seq<System>, es: seq<Event>, i: nat, k: nat, h: Handler)
    requires |ss| == |es| + 1 && i < |es| && TrailOk(sha, ss, es, i, k, h)
    ensures TrailOk(sha, ss, es, i + 1, k, h)
  {
  }

  lemma NoTrailYet(sha: Sha256, ss: seq<System>, es: seq<Event>, i: nat, k: nat, h: Handler)
    requires |ss| == |es| + 1 && i <= |es| && Stage(h) == 0
    ensures TrailOk(sha, ss, es, i, k, h)
  {
  }

  /** At every moment of every run, each handler's trail is a true account of the run. */
  lemma {:induction false} TrailIsTrue(sha: Sha256, ss: seq<System>, es: seq<Event>, i: nat, k: nat)
    requires Run(sha, ss, es) && i <= |es| && k in ss[i].handlers
    ensures TrailOk(sha, ss, es, i, k, ss[i].handlers[k])
  {
    if i > 0 {
      RunMoves(sha, ss, es, i - 1, k);
      if k in ss[i - 1].handlers {
        TrailIsTrue(sha, ss, es, i - 1, k);
        if ss[i].handlers[k] == ss[i - 1].handlers[k] {
          TrailLater(sha, ss, es, i - 1, k, ss[i].handlers[k]);
        } else {
          TrailStep(sha, ss, es, i - 1, k);
        }
      } else {
        NoTrailYet(sha, ss, es, i, k, ss[i].handlers[k]);
      }
    }
  }

  // ---- A PKCE row, once gone, stays gone ----

  /** A new PKCE row has a fresh uuid, so no event brings an old one back. */
  lemma PkceStep(sha: Sha256, s: System, e: Event, p: Id)
    requires Enabled(sha, s, e) && p in s.used && p !in s.t.pkces
    ensures p !in Apply(sha, s, e).value.t.pkces
  {
    if Committed(sha, s, e).Some? {
      Rows.CommittedSucceeds(sha, s, e);
      Rows.InsertsAreFresh(sha, s, e);
      if p in Apply(sha, s, e).value.t.pkces {
        PkceAfterExec(s.t, Committed(sha, s, e).value, p);
      }
    }
  }

  lemma {:induction false} PkceStaysGone(sha: Sha256, ss: seq<System>, es: seq<Event>, i: nat, j: nat, p: Id)
    requires Run(sha, ss, es) && i <= j <= |es|
    requires p in ss[i].used && p !in ss[i].t.pkces
    ensures p !in ss[j].t.pkces
  {
    if i < j {
      PkceStaysGone(sha, ss, es, i, j - 1, p);
      Rows.UuidsStayUsed(sha, ss, es, i, j - 1);
      RunStep(sha, ss, es, j - 1);
      PkceStep(sha, ss[j - 1], es[j - 1], p);
    }
  }

  /** After a committed `Destroy` the row is never seen again. */
  lemma DestroyedIsGone(sha: Sha256, ss: seq<System>, es: seq<Event>, d: nat, m: nat, j: nat)
    requires Run(sha, ss, es) && d < j <= |es|
    requires es[d] == HandlerDoes(m, Destroy(true))
    ensures m in ss[d].handlers && ss[d].handlers[m].pkceId !in ss[j].t.pkces
  {
    RunStep(sha, ss, es, d);
    var h := ss[d].handlers[m];
    TrailIsTrue(sha, ss, es, d, m);
    Rows.Known(sha, ss, es, h.trail.found);
    Rows.UuidsStayUsed(sha, ss, es, h.trail.found, d + 1);
    assert h.pkceId !in ss[d + 1].t.pkces;
    PkceStaysGone(sha, ss, es, d + 1, j, h.pkceId);
  }

  // ---- Rows inserted by callbacks ----

  /** The row has the profile and the reference data of the handler's PKCE row, and the identity it read. */
  predicate Carries(row: CharacterRow, h: Handler)
  {
    row.profileRef == h.pkce.profileRef && row.referenceData == h.pkce.referenceData && Identity(row) == h.claims
  }

  /** Every row a callback inserted is the one it landed on, and carries what the callback stored. */
  ghost predicate CallbackRows(s: System)
  {
    forall c :: c in s.hist.origins && s.hist.origins[c].ByCallback? ==>
      var k := s.hist.origins[c].handler;
      && k in s.handlers && Stage(s.handlers[k]) == 8 && s.handlers[k].landed == Some(c)
      && (c in s.t.characters ==> Carries(s.t.characters[c], s.handlers[k]))
  }

  /** A handler that has landed only cleans up. */
  lemma LandedStays(t: Tables, h: Handler, n: nat, step: HandlerStep)
    requires HandlerNext(t, h, n, step).Some? && Stage(h) == 8
    ensures var h' := HandlerNext(t, h, n, step).value.next;
      Stage(h') == 8 && h'.landed == h.landed && h'.pkce == h.pkce && h'.claims == h.claims
  {
  }

  lemma OriginStep(sha: Sha256, s: System, e: Event, c: Id)
    requires Enabled(sha, s, e) && c in Apply(sha, s, e).value.hist.origins
    ensures var s' := Apply(sha, s, e).value;
      || (c in s.hist.origins && s'.hist.origins[c] == s.hist.origins[c])
      || (Committed(sha, s, e).Some? && Committed(sha, s, e).value.UpsertCharacter?
          && Conflict(s.t.characters, Committed(sha, s, e).value.row).None?
          && c == Committed(sha, s, e).value.id && s'.hist.origins[c] == OriginOf(e))
  {
    if Committed(sha, s, e).Some? {
      Rows.CommittedSucceeds(sha, s, e);
    }
  }

  lemma CallbackRowsStep(sha: Sha256, s: System, e: Event)
    requires Enabled(sha, s, e) && CallbackRows(s) && Rows.HistoryKnows(s)
    ensures CallbackRows(Apply(sha, s, e).value)
  {
    var s' := Apply(sha, s, e).value;
    forall c | c in s'.hist.origins && s'.hist.origins[c].ByCallback?
      ensures var k := s'.hist.origins[c].handler;
        && k in s'.handlers && Stage(s'.handlers[k]) == 8 && s'.handlers[k].landed == Some(c)
        && (c in s'.t.characters ==> Carries(s'.t.characters[c], s'.handlers[k]))
    {
      OriginStep(sha, s, e, c);
      if c in s.hist.origins && s'.hist.origins[c] == s.hist.origins[c] {
        OldRowKept(sha, s, e, c);
      } else {
        NewRowLands(sha, s, e, c);
      }
    }
  }

  lemma OldRowKept(sha: Sha256, s: System, e: Event, c: Id)
    requires Enabled(sha, s, e) && CallbackRows(s) && Rows.HistoryKnows(s)
    requires c in s.hist.origins && s.hist.origins[c].ByCallback?
    ensures var s' := Apply(sha, s, e).value; var k := s.hist.origins[c].handler;
      && k in s'.handlers && Stage(s'.handlers[k]) == 8 && s'.handlers[k].landed == Some(c)
      && (c in s'.t.characters ==> Carries(s'.t.characters[c], s'.handlers[k]))
  {
    var s' := Apply(sha, s, e).value;
    var k := s.hist.origins[c].handler;
    if e.HandlerDoes? && e.h == k {
      LandedStays(s.t, s.handlers[k], s.steps, e.hstep);
    }
    HandlerMoves(sha, s, e, k);
    if c in s'.t.characters {
      Rows.RowWasThere(sha, s, e, c);
      Rows.RowStep(sha, s, e, c);
    }
  }

  lemma NewRowLands(sha: Sha256, s: System, e: Event, c: Id)
    requires Enabled(sha, s, e) && e.HandlerDoes?
    requires Committed(sha, s, e).Some? && Committed(sha, s, e).value.UpsertCharacter?
    requires Conflict(s.t.characters, Committed(sha, s, e).value.row).None? && c == Committed(sha, s, e).value.id
    ensures var s' := Apply(sha, s, e).value;
      && Stage(s'.handlers[e.h]) == 8 && s'.handlers[e.h].landed == Some(c)
      && (c in s'.t.characters ==> Carries(s'.t.characters[c], s'.handlers[e.h]))
  {
    Rows.CommittedSucceeds(sha, s, e);
    Rows.WhoWrites(sha, s, e);
  }

  lemma {:induction false} CallbackRowsHold(sha: Sha256, ss: seq<System>, es: seq<Event>, i: nat)
    requires Run(sha, ss, es) && i <= |es|
    ensures CallbackRows(ss[i])
  {
    if i > 0 {
      CallbackRowsHold(sha, ss, es, i - 1);
      CallbackRowsNext(sha, ss, es, i - 1);
    }
  }

  lemma CallbackRowsNext(sha: Sha256, ss: seq<System>, es: seq<Event>, i: nat)
    requires Run(sha, ss, es) && i < |es| && CallbackRows(ss[i])
    ensures CallbackRows(ss[i + 1])
  {
    RunStep(sha, ss, es, i);
    Rows.Known(sha, ss, es, i);
    CallbackRowsStep(sha, ss[i], es[i]);
  }

  ghost predicate InsertedByCallback(s: System, k: nat, c: Id)
  {
    c in s.hist.origins && s.hist.origins[c] == ByCallback(k)
  }

  /** The whole account of a callback by handler `k` that stored row `c`, complete before moment `i`. */
  ghost predicate Account(sha: Sha256, ss: seq<System>, es: seq<Event>, i: nat, k: nat, h: Handler, c: Id)
    requires |ss| == |es| + 1 && i <= |es|
  {
    && FoundBefore(ss, es, i, k, h)
    && DestroyedBefore(es, i, k, h)
    && CheckedBefore(ss, es, i, k, h)
    && ExchangedBefore(sha, ss, es, i, k, h)
    && VerifiedBefore(es, i, k, h)
    && IdentifiedBefore(es, i, k, h)
    && StoredBefore(es, i, k, h)
    && h.landed == Some(c)
    && forall j :: h.trail.destroyed < j <= i ==> h.pkceId !in ss[j].t.pkces
  }

  /**
   Provenance, under every interleaving: a row inserted by a callback carries the profile and
   reference data of a PKCE row which that callback found for its state, then deleted for good,
   then found to be no older than five minutes, and only then used to exchange the code; and it
   carries the identity read out of the token so obtained, after that token was verified.
   */
  lemma CallbackProvenance(sha: Sha256, ss: seq<System>, es: seq<Event>, i: nat, k: nat, c: Id)
    requires Run(sha, ss, es) && i <= |es|
    requires c in ss[i].t.characters && InsertedByCallback(ss[i], k, c)
    ensures k in ss[i].handlers && Stage(ss[i].handlers[k]) == 8
    ensures Account(sha, ss, es, i, k, ss[i].handlers[k], c)
    ensures Carries(ss[i].t.characters[c], ss[i].handlers[k])
  {
    CallbackRowsHold(sha, ss, es, i);
    var h := ss[i].handlers[k];
    TrailIsTrue(sha, ss, es, i, k);
    RunStep(sha, ss, es, h.trail.destroyed);
    PkceIsKept(sha, ss, es, h.trail.destroyed, i, k);
    forall j | h.trail.destroyed < j <= i ensures h.pkceId !in ss[j].t.pkces {
      DestroyedIsGone(sha, ss, es, h.trail.destroyed, k, j);
    }
  }

  /** From its `Destroy` on, a handler that has not given up sticks to its PKCE row. */
  lemma {:induction false} PkceIsKept(sha: Sha256, ss: seq<System>, es: seq<Event>, d: nat, i: nat, k: nat)
    requires Run(sha, ss, es) && d <= i <= |es|
    requires k in ss[d].handlers && k in ss[i].handlers && ss[d].handlers[k].pc != Started
    ensures ss[i].handlers[k].pkceId == ss[d].handlers[k].pkceId && ss[i].handlers[k].pc != Started
  {
    if d < i {
      RunStep(sha, ss, es, i - 1);
      HandlersStay(sha, ss, es, d, i - 1, k);
      PkceIsKept(sha, ss, es, d, i - 1, k);
      HandlerMoves(sha, ss[i - 1], es[i - 1], k);
    }
  }

  lemma {:induction false} HandlersStay(sha: Sha256, ss: seq<System>, es: seq<Event>, d: nat, i: nat, k: nat)
    requires Run(sha, ss, es) && d <= i <= |es| && k in ss[d].handlers
    ensures k in ss[i].handlers
  {
    if d < i {
      HandlersStay(sha, ss, es, d, i - 1, k);
      RunStep(sha, ss, es, i - 1);
    }
  }

  // ---- Which authorization a row stands for ----

  /** Every PKCE row carries the challenge of its verifier, and every code of ours the challenge of a row. */
  ghost predicate ChallengesMatch(sha: Sha256, s: System)
  {
    && (forall p :: p in s.hist.pkces ==> s.hist.pkces[p].challenge == Challenge(sha, s.hist.pkces[p].verifier))
    && (forall code :: code in s.server.codes && s.server.codes[code].builtFrom.Some? ==>
          var p := s.server.codes[code].builtFrom.value;
          p in s.hist.pkces && s.hist.pkces[p].challenge == s.server.codes[code].challenge)
  }

  lemma ServerCodes(sha: Sha256, s: System, e: Event)
    requires Enabled(sha, s, e)
    ensures Apply(sha, s, e).value.server.codes == if e.Authorize? then s.server.codes[e.code := e.grant] else s.server.codes
  {
  }

  lemma HistoryPkces(sha: Sha256, s: System, e: Event)
    requires Enabled(sha, s, e)
    ensures Apply(sha, s, e).value.hist.pkces ==
            if e.CreatePkce? then s.hist.pkces[e.id := Statement(sha, e).value.pkce] else s.hist.pkces
  {
    if Committed(sha, s, e).Some? {
      Rows.WhoWrites(sha, s, e);
    }
  }

  lemma {:induction false} ChallengesHold(sha: Sha256, ss: seq<System>, es: seq<Event>, i: nat)
    requires Run(sha, ss, es) && i <= |es|
    ensures ChallengesMatch(sha, ss[i])
  {
    if i > 0 {
      ChallengesHold(sha, ss, es, i - 1);
      RunStep(sha, ss, es, i - 1);
      Rows.Known(sha, ss, es, i - 1);
      ServerCodes(sha, ss[i - 1], es[i - 1]);
      HistoryPkces(sha, ss[i - 1], es[i - 1]);
    }
  }

  /** Made from 32 random bytes, with the digest of the verifier as challenge. */
  ghost predicate WellMade(sha: Sha256, row: PkceRow)
  {
    && WellFormed(row.verifier) && Decode(row.verifier).Some? && |Decode(row.verifier).value| == 32
    && Decode(row.challenge) == Some(sha(row.verifier))
  }

  lemma MadeWell(sha: Sha256, e: Event)
    requires e.CreatePkce? && DrawOk(e)
    ensures WellMade(sha, Statement(sha, e).value.pkce)
  {
    EncodingShape(e.random);
    RoundTrip(e.random);
    ChallengeIsTheDigest(sha, Encode(e.random));
  }

  /** In every run, every PKCE row there ever was is well made. */
  lemma {:induction false} PkcesAreWellMade(sha: Sha256, ss: seq<System>, es: seq<Event>, i: nat, p: Id)
    requires Run(sha, ss, es) && i <= |es| && p in ss[i].hist.pkces
    ensures WellMade(sha, ss[i].hist.pkces[p])
  {
    if i > 0 {
      RunStep(sha, ss, es, i - 1);
      HistoryPkces(sha, ss[i - 1], es[i - 1]);
      if es[i - 1].CreatePkce? && es[i - 1].id == p {
        MadeWell(sha, es[i - 1]);
      } else {
        PkcesAreWellMade(sha, ss, es, i - 1, p);
      }
    }
  }

  /** Codes once issued and PKCE rows once inserted stay on record. */
  lemma {:induction false} RecordsStay(sha: Sha256, ss: seq<System>, es: seq<Event>, i: nat, j: nat)
    requires Run(sha, ss, es) && i <= j <= |es|
    ensures forall code :: code in ss[i].server.codes ==>
              code in ss[j].server.codes && ss[j].server.codes[code] == ss[i].server.codes[code]
    ensures forall p :: p in ss[i].hist.pkces ==> p in ss[j].hist.pkces && ss[j].hist.pkces[p] == ss[i].hist.pkces[p]
  {
    if i < j {
      RecordsStay(sha, ss, es, i, j - 1);
      RunStep(sha, ss, es, j - 1);
      Rows.Known(sha, ss, es, j - 1);
      ServerCodes(sha, ss[j - 1], es[j - 1]);
      HistoryPkces(sha, ss[j - 1], es[j - 1]);
    }
  }

  /** Random verifiers do not repeat, and SHA-256 does not collide on those used. */
  ghost predicate VerifiersDistinct(sha: Sha256, pkces: map<Id, PkceRow>)
  {
    forall p, q :: p in pkces && q in pkces && p != q ==>
      pkces[p].verifier != pkces[q].verifier && sha(pkces[p].verifier) != sha(pkces[q].verifier)
  }

  /**
   Code-to-profile binding (section 4.6 of RFC 7636): the code behind a row inserted by a
   callback was issued against the challenge of a PKCE row of the very profile the row is in;
   and if the authorization went through a URL of this library, that URL was built from that
   PKCE row, whatever state the callback was called with.
   */
  lemma CodeBinding(sha: Sha256, ss: seq<System>, es: seq<Event>, i: nat, k: nat, c: Id)
    requires Run(sha, ss, es) && i <= |es|
    requires c in ss[i].t.characters && InsertedByCallback(ss[i], k, c)
    ensures k in ss[i].handlers && ss[i].handlers[k].code in ss[i].server.codes
    ensures var h := ss[i].handlers[k]; var grant := ss[i].server.codes[h.code];
      && h.pkceId in ss[i].hist.pkces
      && ss[i].hist.pkces[h.pkceId].profileRef == ss[i].t.characters[c].profileRef
      && grant.challenge == ss[i].hist.pkces[h.pkceId].challenge
      && (grant.builtFrom.Some? && VerifiersDistinct(sha, ss[i].hist.pkces) ==> grant.builtFrom == Some(h.pkceId))
  {
    CallbackProvenance(sha, ss, es, i, k, c);
    var h := ss[i].handlers[k];
    PkceOnRecord(sha, ss, es, i, k);
    RecordsStay(sha, ss, es, h.trail.exchanged, i);
    ChallengesHold(sha, ss, es, i);
    var grant := ss[i].server.codes[h.code];
    if grant.builtFrom.Some? && VerifiersDistinct(sha, ss[i].hist.pkces) {
      var v, w := ss[i].hist.pkces[grant.builtFrom.value].verifier, h.pkce.verifier;
      ChallengeNamesVerifier(sha, v, w);
    }
  }

  lemma PkceOnRecord(sha: Sha256, ss: seq<System>, es: seq<Event>, i: nat, k: nat)
    requires Run(sha, ss, es) && i <= |es| && k in ss[i].handlers && Stage(ss[i].handlers[k]) >= 1
    ensures var h := ss[i].handlers[k]; h.pkceId in ss[i].hist.pkces && ss[i].hist.pkces[h.pkceId] == h.pkce
  {
    var h := ss[i].handlers[k];
    TrailIsTrue(sha, ss, es, i, k);
    Rows.Known(sha, ss, es, h.trail.found);
    RecordsStay(sha, ss, es, h.trail.found, i);
  }

  // ---- How often a code is used ----

  /** Handler `k` is given a token for `code` at moment `x`. */
  ghost predicate Redeems(ss: seq<System>, es: seq<Event>, x: nat, k: nat, code: string)
    requires |ss| == |es| + 1
  {
    && x < |es| && es[x].HandlerDoes? && es[x].h == k && es[x].hstep.Exchange? && es[x].hstep.reply.Some?
    && k in ss[x].handlers && ss[x].handlers[k].code == code
  }

  lemma {:induction false} SpentStays(sha: Sha256, ss: seq<System>, es: seq<Event>, i: nat, j: nat)
    requires Run(sha, ss, es) && i <= j <= |es|
    ensures ss[i].server.spent <= ss[j].server.spent
  {
    if i < j {
      SpentStays(sha, ss, es, i, j - 1);
      RunStep(sha, ss, es, j - 1);
    }
  }

  lemma RedeemedAfter(sha: Sha256, ss: seq<System>, es: seq<Event>, x: nat, k: nat, y: nat, m: nat, code: string)
    requires Run(sha, ss, es) && Redeems(ss, es, x, k, code) && Redeems(ss, es, y, m, code)
    ensures y <= x
  {
    RunStep(sha, ss, es, x);
    RunStep(sha, ss, es, y);
    if x < y {
      assert code in ss[x + 1].server.spent;
      SpentStays(sha, ss, es, x + 1, y);
    }
  }

  /** However many callbacks carry a code, at most one of them is ever given a token for it. */
  lemma CodeRedeemedOnce(sha: Sha256, ss: seq<System>, es: seq<Event>, x: nat, k: nat, y: nat, m: nat, code: string)
    requires Run(sha, ss, es) && Redeems(ss, es, x, k, code) && Redeems(ss, es, y, m, code)
    ensures x == y && k == m
  {
    RedeemedAfter(sha, ss, es, x, k, y, m, code);
    RedeemedAfter(sha, ss, es, y, m, x, k, code);
  }

  // ---- How often a PKCE row is used ----

  /** Handler `k` goes to the server with PKCE row `p` at moment `x`. */
  ghost predicate Exchanges(ss: seq<System>, es: seq<Event>, x: nat, k: nat, p: Id)
    requires |ss| == |es| + 1
  {
    && x < |es| && es[x].HandlerDoes? && es[x].h == k && es[x].hstep.Exchange?
    && k in ss[x].handlers && ss[x].handlers[k].pkceId == p
  }

  /** Handler `m` deletes PKCE row `p` at moment `d`. */
  ghost predicate Destroys(ss: seq<System>, es: seq<Event>, d: nat, m: nat, p: Id)
    requires |ss| == |es| + 1
  {
    d < |es| && es[d] == HandlerDoes(m, Destroy(true)) && m in ss[d].handlers && ss[d].handlers[m].pkceId == p
  }

  /** Handler `k` was given PKCE row `p` by `FindPKCE` at a moment before `d`. */
  ghost predicate FoundRow(ss: seq<System>, es: seq<Event>, d: nat, k: nat, p: Id)
    requires |ss| == |es| + 1
  {
    exists f :: 0 <= f < d && f < |es| && es[f].HandlerDoes? && es[f].h == k && es[f].hstep.Find?
                && k in ss[f + 1].handlers && ss[f + 1].handlers[k].pc == Found && ss[f + 1].handlers[k].pkceId == p
  }

  /** Late callbacks are refused: whoever exchanges a code for a PKCE row found it before any `Destroy` of it. */
  lemma LateCallbackRefused(sha: Sha256, ss: seq<System>, es: seq<Event>, x: nat, k: nat, d: nat, m: nat, p: Id)
    requires Run(sha, ss, es) && Exchanges(ss, es, x, k, p) && Destroys(ss, es, d, m, p)
    ensures FoundRow(ss, es, d, k, p)
  {
    RunStep(sha, ss, es, x);
    assert Stage(ss[x].handlers[k]) == 4;
    TrailIsTrue(sha, ss, es, x, k);
    var f := ss[x].handlers[k].trail.found;
    if d < f {
      DestroyedIsGone(sha, ss, es, d, m, f);
    }
    FindGives(sha, ss, es, x, k);
  }

  lemma FindGives(sha: Sha256, ss: seq<System>, es: seq<Event>, x: nat, k: nat)
    requires Run(sha, ss, es) && x <= |es| && k in ss[x].handlers && Stage(ss[x].handlers[k]) >= 1
    ensures var h := ss[x].handlers[k]; var f := h.trail.found;
      && f < x && k in ss[f + 1].handlers && ss[f + 1].handlers[k].pc == Found && ss[f + 1].handlers[k].pkceId == h.pkceId
  {
    var f := ss[x].handlers[k].trail.found;
    FoundOnTrail(sha, ss, es, x, k);
    AfterFind(sha, ss, es, f, k);
    NoReturnToFound(sha, ss, es, f + 1, x, k);
  }

  lemma FoundOnTrail(sha: Sha256, ss: seq<System>, es: seq<Event>, x: nat, k: nat)
    requires Run(sha, ss, es) && x <= |es| && k in ss[x].handlers && Stage(ss[x].handlers[k]) >= 1
    ensures FoundBefore(ss, es, x, k, ss[x].handlers[k])
  {
    TrailIsTrue(sha, ss, es, x, k);
  }

  /** `FindPKCE` has found a row, or the handler has given up. */
  lemma AfterFind(sha: Sha256, ss: seq<System>, es: seq<Event>, f: nat, k: nat)
    requires Run(sha, ss, es) && f < |es| && es[f].HandlerDoes? && es[f].h == k && es[f].hstep.Find?
    ensures k in ss[f + 1].handlers && ss[f + 1].handlers[k].pc in {Found, Finished(Refused)}
  {
    RunStep(sha, ss, es, f);
  }

  /** A handler that gave up at its `Find` stays given up; one that found a row keeps it. */
  lemma {:induction false} NoReturnToFound(sha: Sha256, ss: seq<System>, es: seq<Event>, a: nat, x: nat, k: nat)
    requires Run(sha, ss, es) && a <= x <= |es| && k in ss[a].handlers && ss[a].handlers[k].pc != Started
    ensures k in ss[x].handlers && ss[x].handlers[k].pc != Started && ss[x].handlers[k].pkceId == ss[a].handlers[k].pkceId
    ensures ss[a].handlers[k].pc.Finished? ==>
      ss[x].handlers[k].pc.Finished? && Stage(ss[x].handlers[k]) == Stage(ss[a].handlers[k])
  {
    if a < x {
      NoReturnToFound(sha, ss, es, a, x - 1, k);
      RunStep(sha, ss, es, x - 1);
      HandlerMoves(sha, ss[x - 1], es[x - 1], k);
    }
  }

  /** All handlers that ever exchange a code for `p`, and all that found it before moment `d`. */
  ghost function Exchangers(ss: seq<System>, es: seq<Event>, p: Id): set<nat>
    requires |ss| == |es| + 1
  {
    set k | k in ss[|es|].handlers && exists x :: Exchanges(ss, es, x, k, p)
  }

  ghost function Finders(ss: seq<System>, es: seq<Event>, d: nat, p: Id): set<nat>
    requires |ss| == |es| + 1
  {
    set k | k in ss[|es|].handlers && FoundRow(ss, es, d, k, p)
  }

  /** At most as many handlers use a PKCE row as found it before its first committed `Destroy`. */
  lemma UsesAreBounded(sha: Sha256, ss: seq<System>, es: seq<Event>, d: nat, m: nat, p: Id)
    requires Run(sha, ss, es) && Destroys(ss, es, d, m, p)
    ensures Exchangers(ss, es, p) <= Finders(ss, es, d, p)
    ensures |Exchangers(ss, es, p)| <= |Finders(ss, es, d, p)|
  {
    forall k | k in Exchangers(ss, es, p) ensures k in Finders(ss, es, d, p) {
      var x :| Exchanges(ss, es, x, k, p);
      LateCallbackRefused(sha, ss, es, x, k, d, m, p);
    }
    SubsetSize(Exchangers(ss, es, p), Finders(ss, es, d, p));
  }

  lemma SubsetSize(a: set<nat>, b: set<nat>)
    requires a <= b
    ensures |a| <= |b|
  {
    assert b == a + (b - a);
  }

  /**
   Two handlers can both use a PKCE row only if they overlap: each found it before the other
   deleted it.  So callbacks handled one after the other use a row at most once.
   */
  lemma UsersOverlap(sha: Sha256, ss: seq<System>, es: seq<Event>, x: nat, k: nat, y: nat, m: nat, p: Id)
    requires Run(sha, ss, es) && Exchanges(ss, es, x, k, p) && Exchanges(ss, es, y, m, p)
    ensures ss[x].handlers[k].trail.found < ss[y].handlers[m].trail.destroyed
    ensures ss[y].handlers[m].trail.found < ss[x].handlers[k].trail.destroyed
  {
    FoundBeforeDestroy(sha, ss, es, x, k, y, m, p);
    FoundBeforeDestroy(sha, ss, es, y, m, x, k, p);
  }

  lemma FoundBeforeDestroy(sha: Sha256, ss: seq<System>, es: seq<Event>, x: nat, k: nat, y: nat, m: nat, p: Id)
    requires Run(sha, ss, es) && Exchanges(ss, es, x, k, p) && Exchanges(ss, es, y, m, p)
    ensures ss[x].handlers[k].trail.found < ss[y].handlers[m].trail.destroyed
  {
    UserFound(sha, ss, es, x, k, p);
    UserDestroyed(sha, ss, es, y, m, p);
    var f, d := ss[x].handlers[k].trail.found, ss[y].handlers[m].trail.destroyed;
    if d < f {
      DestroyedIsGone(sha, ss, es, d, m, f);
    }
  }

  /** Whoever uses a row found it, and was not deleting anything then. */
  lemma UserFound(sha: Sha256, ss: seq<System>, es: seq<Event>, x: nat, k: nat, p: Id)
    requires Run(sha, ss, es) && Exchanges(ss, es, x, k, p)
    ensures var f := ss[x].handlers[k].trail.found; f < x && p in ss[f].t.pkces && es[f].HandlerDoes? && es[f].hstep.Find?
  {
    RunStep(sha, ss, es, x);
    TrailIsTrue(sha, ss, es, x, k);
  }

  /** Whoever uses a row deleted it before. */
  lemma UserDestroyed(sha: Sha256, ss: seq<System>, es: seq<Event>, y: nat, m: nat, p: Id)
    requires Run(sha, ss, es) && Exchanges(ss, es, y, m, p)
    ensures var d := ss[y].handlers[m].trail.destroyed; d < y && Destroys(ss, es, d, m, p)
  {
    RunStep(sha, ss, es, y);
    TrailIsTrue(sha, ss, es, y, m);
    var d := ss[y].handlers[m].trail.destroyed;
    RunStep(sha, ss, es, d);
    PkceIsKept(sha, ss, es, d, y, m);
  }
}

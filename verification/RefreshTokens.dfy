/**
 Refresh tokens and a rotating authorization server (section 6 of RFC 6749).  `Token` stores a
 rotated refresh token before it validates anything; this is what keeps every row usable.
 */
module RefreshTokens {
  import opened Wrappers
  import opened Tables
  import opened Protocol
  import opened Pkce
  import Rows

  /**
   What a run must be free of: a response that rotated the refresh token and got lost, a
   failing write of a refresh token, a code exchange without a refresh token, and `Save`.
   Failing validations and failing writes of access tokens are welcome.
   */
  predicate Smooth(e: Event)
  {
    match e
    case SourceDoes(_, RefreshLost(rotated)) => rotated.None?
    case SourceDoes(_, StoreRefresh(_, ok)) => ok
    case SourceDoes(_, Save(_, _, _)) => false
    case HandlerDoes(_, Exchange(Some(Reply(_, refresh)))) => refresh.Some?
    case _ => true
  }

  ghost predicate SmoothRun(sha: Sha256, ss: seq<System>, es: seq<Event>)
  {
    Run(sha, ss, es) && forall i :: 0 <= i < |es| ==> Smooth(es[i])
  }

  /** A source between receiving a rotated refresh token and storing it. */
  predicate Pending(src: Source)
  {
    src.pc.Received? && src.token.Some? && src.pc.got.refresh != src.token.value.refresh
  }

  predicate Held(s: System, refresh: string, holder: Holder)
  {
    refresh in s.hist.holders && s.hist.holders[refresh] == holder
  }

  /** Refresh tokens on record were issued; the empty string is none. */
  ghost predicate IssuedOk(s: System)
  {
    && (forall r :: r in s.hist.holders ==> r in s.server.issued)
    && s.server.live <= s.server.issued
    && "" in s.server.issued && "" !in s.server.live
  }

  ghost predicate RowsHeld(s: System)
  {
    forall c :: c in s.t.characters ==> Held(s, s.t.characters[c].refreshToken, AtRow(c))
  }

  /** A handler that has exchanged its code holds a live refresh token nobody else has. */
  predicate HandlerHolds(s: System, k: nat, h: Handler)
  {
    h.pc in {Exchanged, Verified, Identified} ==> Held(s, h.token.refresh, WithHandler(k)) && h.token.refresh in s.server.live
  }

  /** A cached refresh token belongs to the row of the handle; a pending one to the source alone, and it is live. */
  predicate SourceHolds(s: System, k: nat, src: Source)
  {
    && !src.pc.SaveAccepted? && !src.pc.SaveLocated?
    && (src.token.Some? ==> src.character.Some? && Held(s, src.token.value.refresh, AtRow(src.character.value)))
    && (src.pc in {Lookup, ProfileKnown, Loading} ==> src.token.None?)
    && (src.pc == Exchanging || src.pc.Received? || src.pc.Stored? || src.pc.Accepted? ==> src.token.Some?)
    && (src.pc.Stored? ==> Held(s, src.pc.got.refresh, AtRow(src.character.value)))
    && (src.pc.Accepted? ==> Held(s, src.pc.got.refresh, AtRow(src.character.value)))
    && (Pending(src) ==> Held(s, src.pc.got.refresh, WithSource(k)) && src.pc.got.refresh in s.server.live)
    && (Pending(src) ==> src.token.value.refresh !in s.server.live)
  }

  /** Source `k` has presented the token of row `c`, received its successor, and is about to store it. */
  ghost predicate Succeeds(s: System, k: nat, c: Id)
  {
    && k in s.sources && Pending(s.sources[k]) && s.sources[k].character == Some(c)
    && c in s.t.characters && s.sources[k].token.value.refresh == s.t.characters[c].refreshToken
  }

  /** Some source is about to give row `c` the successor of its token. */
  ghost predicate InFlight(s: System, c: Id)
  {
    exists k :: Succeeds(s, k, c)
  }

  ghost predicate RowsLive(s: System)
  {
    forall c :: c in s.t.characters ==> s.t.characters[c].refreshToken in s.server.live || InFlight(s, c)
  }

  ghost predicate AllHeld(s: System)
  {
    && IssuedOk(s) && RowsHeld(s)
    && (forall k :: k in s.handlers ==> HandlerHolds(s, k, s.handlers[k]))
    && (forall k :: k in s.sources ==> SourceHolds(s, k, s.sources[k]))
  }

  // ---- The server and the record ----

  /** The one whose step an event is, as a holder of refresh tokens. */
  function Actor(e: Event): Option<Holder>
  {
    match e
    case HandlerDoes(k, _) => Some(WithHandler(k))
    case SourceDoes(k, _) => Some(WithSource(k))
    case _ => None
  }

  /** A refresh token that gets written was live and in the hands of the writer alone. */
  lemma WrittenWasHeld(sha: Sha256, s: System, e: Event, r: string)
    requires Enabled(sha, s, e) && Smooth(e) && AllHeld(s)
    requires r in WrittenTo(s.t, Committed(sha, s, e))
    ensures Actor(e).Some? && Held(s, r, Actor(e).value) && r in s.server.live
  {
    Rows.WhoWrites(sha, s, e);
    if e.HandlerDoes? {
      assert HandlerHolds(s, e.h, s.handlers[e.h]);
    } else {
      assert SourceHolds(s, e.s, s.sources[e.s]);
    }
  }

  /** A refresh token sent out is fresh, so nobody held it. */
  lemma SentWasFresh(sha: Sha256, s: System, e: Event, r: string)
    requires Enabled(sha, s, e) && IssuedOk(s) && r in SentTo(e)
    ensures r !in s.server.issued && r !in s.hist.holders
    ensures r in Apply(sha, s, e).value.server.live
  {
  }

  /** Tokens stay where they are, except for the one the writer writes. */
  lemma HeldStays(sha: Sha256, s: System, e: Event, r: string, holder: Holder)
    requires Enabled(sha, s, e) && Smooth(e) && AllHeld(s)
    requires Held(s, r, holder) && Actor(e) != Some(holder)
    ensures Held(Apply(sha, s, e).value, r, holder)
  {
    if r in WrittenTo(s.t, Committed(sha, s, e)) {
      WrittenWasHeld(sha, s, e, r);
    }
    if r in SentTo(e) {
      SentWasFresh(sha, s, e, r);
    }
  }

  /** A source presents refresh token `r` and is to get another one for it. */
  predicate Rotates(s: System, e: Event, r: string)
  {
    && e.SourceDoes? && e.s in s.sources && s.sources[e.s].pc == Exchanging
    && ((e.sstep.Refresh? && e.sstep.rotated.Some?) || (e.sstep.RefreshLost? && e.sstep.rotated.Some?))
    && s.sources[e.s].token.Some? && s.sources[e.s].token.value.refresh == r
  }

  /** At any event, a refresh token dies exactly if it is live, presented and rotated. */
  lemma LiveStays(sha: Sha256, s: System, e: Event, r: string)
    requires Enabled(sha, s, e) && r in s.server.live && s.server.live <= s.server.issued
    ensures r in Apply(sha, s, e).value.server.live <==> !Rotates(s, e, r)
  {
  }

  lemma StepIssued(sha: Sha256, s: System, e: Event)
    requires Enabled(sha, s, e) && Smooth(e) && AllHeld(s)
    ensures IssuedOk(Apply(sha, s, e).value)
  {
    var s' := Apply(sha, s, e).value;
    forall r | r in s'.hist.holders ensures r in s'.server.issued {
      if r in WrittenTo(s.t, Committed(sha, s, e)) {
        WrittenWasHeld(sha, s, e, r);
      }
    }
    ServerStep(sha, s, e);
  }

  lemma ServerStep(sha: Sha256, s: System, e: Event)
    requires Enabled(sha, s, e) && IssuedOk(s)
    ensures var v := Apply(sha, s, e).value.server;
      && s.server.issued <= v.issued && v.live <= v.issued && "" !in v.live
      && (forall r :: r in SentTo(e) ==> r in v.issued)
  {
  }

  /** A row that survives a statement keeps its refresh token, or has been given the one written. */
  lemma RefreshAfter(t: Tables, q: Stmt, c: Id)
    requires Exec(t, q).Ok? && c in Exec(t, q).value.characters
    ensures var refresh := Exec(t, q).value.characters[c].refreshToken;
      || (c in t.characters && refresh == t.characters[c].refreshToken)
      || (refresh in WrittenTo(t, Some(q)) && WrittenTo(t, Some(q))[refresh] == AtRow(c))
  {
  }

  // ---- Rows, handlers and sources keep hold of their tokens ----

  lemma StepRowsHeld(sha: Sha256, s: System, e: Event)
    requires Enabled(sha, s, e) && Smooth(e) && AllHeld(s)
    ensures RowsHeld(Apply(sha, s, e).value)
  {
    var s' := Apply(sha, s, e).value;
    var stmt := Committed(sha, s, e);
    forall c | c in s'.t.characters ensures Held(s', s'.t.characters[c].refreshToken, AtRow(c)) {
      if c in s.t.characters {
        HeldStays(sha, s, e, s.t.characters[c].refreshToken, AtRow(c));
      }
      if stmt.Some? {
        Rows.CommittedSucceeds(sha, s, e);
        RefreshAfter(s.t, stmt.value, c);
      }
    }
  }

  lemma StepHandlerHolds(sha: Sha256, s: System, e: Event, k: nat)
    requires Enabled(sha, s, e) && Smooth(e) && AllHeld(s) && k in Apply(sha, s, e).value.handlers
    ensures HandlerHolds(Apply(sha, s, e).value, k, Apply(sha, s, e).value.handlers[k])
  {
    if k in s.handlers && !(e.HandlerDoes? && e.h == k) {
      var h := s.handlers[k];
      assert HandlerHolds(s, k, h);
      if h.pc in {Exchanged, Verified, Identified} {
        HeldStays(sha, s, e, h.token.refresh, WithHandler(k));
        LiveStays(sha, s, e, h.token.refresh);
        if e.SourceDoes? {
          assert SourceHolds(s, e.s, s.sources[e.s]);
        }
      }
    } else if k in s.handlers {
      OwnHandlerHolds(sha, s, k, e.hstep);
    }
  }

  lemma OwnHandlerHolds(sha: Sha256, s: System, k: nat, step: HandlerStep)
    requires Enabled(sha, s, HandlerDoes(k, step)) && Smooth(HandlerDoes(k, step)) && AllHeld(s)
    ensures var s' := Apply(sha, s, HandlerDoes(k, step)).value; HandlerHolds(s', k, s'.handlers[k])
  {
    assert HandlerHolds(s, k, s.handlers[k]);
    if step.Exchange? && step.reply.Some? {
      SentWasFresh(sha, s, HandlerDoes(k, step), step.reply.value.refresh.value);
    }
  }

  lemma StepSourceHolds(sha: Sha256, s: System, e: Event, k: nat)
    requires Enabled(sha, s, e) && Smooth(e) && AllHeld(s) && k in Apply(sha, s, e).value.sources
    ensures SourceHolds(Apply(sha, s, e).value, k, Apply(sha, s, e).value.sources[k])
  {
    if k in s.sources && !(e.SourceDoes? && e.s == k) {
      OtherSourceHolds(sha, s, e, k);
    } else if k in s.sources {
      OwnSourceHolds(sha, s, k, e.sstep);
    }
  }

  lemma OtherSourceHolds(sha: Sha256, s: System, e: Event, k: nat)
    requires Enabled(sha, s, e) && Smooth(e) && AllHeld(s)
    requires k in s.sources && !(e.SourceDoes? && e.s == k)
    ensures SourceHolds(Apply(sha, s, e).value, k, s.sources[k])
  {
    var src := s.sources[k];
    assert SourceHolds(s, k, src);
    if src.token.Some? {
      HeldStays(sha, s, e, src.token.value.refresh, AtRow(src.character.value));
    }
    if src.pc.Stored? || src.pc.Accepted? {
      HeldStays(sha, s, e, src.pc.got.refresh, AtRow(src.character.value));
    }
    if Pending(src) {
      HeldStays(sha, s, e, src.pc.got.refresh, WithSource(k));
      LiveStays(sha, s, e, src.pc.got.refresh);
      RevokedStep(sha, s, e, src.token.value.refresh);
      if e.SourceDoes? {
        assert SourceHolds(s, e.s, s.sources[e.s]);
      }
    }
  }

  lemma OwnSourceHolds(sha: Sha256, s: System, k: nat, step: SourceStep)
    requires Enabled(sha, s, SourceDoes(k, step)) && Smooth(SourceDoes(k, step)) && AllHeld(s)
    ensures var s' := Apply(sha, s, SourceDoes(k, step)).value; SourceHolds(s', k, s'.sources[k])
  {
    var e, src := SourceDoes(k, step), s.sources[k];
    assert SourceHolds(s, k, src);
    var s' := Apply(sha, s, e).value;
    if src.token.Some? {
      HeldStays(sha, s, e, src.token.value.refresh, AtRow(src.character.value));
    }
    if src.pc.Stored? || src.pc.Accepted? {
      HeldStays(sha, s, e, src.pc.got.refresh, AtRow(src.character.value));
    }
    if step.LoadToken? && src.character.Some? && src.character.value in s.t.characters {
      HeldStays(sha, s, e, s.t.characters[src.character.value].refreshToken, AtRow(src.character.value));
    }
    if step.Refresh? && step.rotated.Some? {
      SentWasFresh(sha, s, e, step.rotated.value);
      assert Held(s', step.rotated.value, WithSource(k));
    }
    if step.StoreRefresh? && Pending(src) {
      assert Held(s', src.pc.got.refresh, AtRow(src.character.value));
    }
    if step.Refresh? && step.rotated.Some? {
      PresentedDies(sha, s, k, step);
    }
    LocalSourceHolds(s, s', k, step);
  }

  lemma PresentedDies(sha: Sha256, s: System, k: nat, step: SourceStep)
    requires Enabled(sha, s, SourceDoes(k, step)) && IssuedOk(s) && step.Refresh? && step.rotated.Some?
    ensures s.sources[k].token.Some?
    ensures s.sources[k].token.value.refresh !in Apply(sha, s, SourceDoes(k, step)).value.server.live
  {
  }

  lemma LocalSourceHolds(s: System, s': System, k: nat, step: SourceStep)
    requires k in s.sources && SourceHolds(s, k, s.sources[k]) && Smooth(SourceDoes(k, step))
    requires SourceNext(s.t, s.sources[k], step).Some?
    requires var src := s.sources[k];
      && (src.token.Some? ==> Held(s', src.token.value.refresh, AtRow(src.character.value)))
      && (src.pc.Stored? || src.pc.Accepted? ==> Held(s', src.pc.got.refresh, AtRow(src.character.value)))
      && (step.LoadToken? && src.character.Some? && src.character.value in s.t.characters ==>
            Held(s', s.t.characters[src.character.value].refreshToken, AtRow(src.character.value)))
      && (step.Refresh? && step.rotated.Some? ==>
            && Held(s', step.rotated.value, WithSource(k)) && step.rotated.value in s'.server.live
            && (s.sources[k].token.Some? ==> s.sources[k].token.value.refresh !in s'.server.live))
      && (step.StoreRefresh? && Pending(src) ==> Held(s', src.pc.got.refresh, AtRow(src.character.value)))
    ensures SourceHolds(s', k, SourceNext(s.t, s.sources[k], step).value.next)
  {
  }

  lemma StepHeld(sha: Sha256, s: System, e: Event)
    requires Enabled(sha, s, e) && Smooth(e) && AllHeld(s)
    ensures AllHeld(Apply(sha, s, e).value)
  {
    StepIssued(sha, s, e);
    StepRowsHeld(sha, s, e);
    var s' := Apply(sha, s, e).value;
    forall k | k in s'.handlers ensures HandlerHolds(s', k, s'.handlers[k]) {
      StepHandlerHolds(sha, s, e, k);
    }
    forall k | k in s'.sources ensures SourceHolds(s', k, s'.sources[k]) {
      StepSourceHolds(sha, s, e, k);
    }
  }

  // ---- Revoked for good, in every run ----

  /** What is live was issued; the empty string, which a row without a refresh token has, is never honoured. */
  lemma {:induction false} ServerIsSound(sha: Sha256, ss: seq<System>, es: seq<Event>, i: nat)
    requires Run(sha, ss, es) && i <= |es|
    ensures ss[i].server.live <= ss[i].server.issued
    ensures "" in ss[i].server.issued && "" !in ss[i].server.live
  {
    if i > 0 {
      ServerIsSound(sha, ss, es, i - 1);
      RunStep(sha, ss, es, i - 1);
    }
  }

  lemma RevokedStep(sha: Sha256, s: System, e: Event, r: string)
    requires Enabled(sha, s, e) && r in s.server.issued && r !in s.server.live
    ensures var v := Apply(sha, s, e).value.server; r in v.issued && r !in v.live
    ensures e.SourceDoes? && (e.sstep.Refresh? || e.sstep.RefreshLost?) ==> s.sources[e.s].token.value.refresh != r
  {
  }

  lemma RevokedNext(sha: Sha256, ss: seq<System>, es: seq<Event>, i: nat, r: string)
    requires Run(sha, ss, es) && i < |es| && r in ss[i].server.issued && r !in ss[i].server.live
    ensures r in ss[i + 1].server.issued && r !in ss[i + 1].server.live
    ensures es[i].SourceDoes? && (es[i].sstep.Refresh? || es[i].sstep.RefreshLost?) ==>
      es[i].s in ss[i].sources && ss[i].sources[es[i].s].token.Some?
      && ss[i].sources[es[i].s].token.value.refresh != r
  {
    RunStep(sha, ss, es, i);
    RevokedStep(sha, ss[i], es[i], r);
  }

  /** A refresh token once revoked never becomes live again, and no refresh with it ever succeeds. */
  lemma {:induction false} RevokedForGood(sha: Sha256, ss: seq<System>, es: seq<Event>, i: nat, j: nat, r: string)
    requires Run(sha, ss, es) && i <= j <= |es|
    requires r in ss[i].server.issued && r !in ss[i].server.live
    ensures r in ss[j].server.issued && r !in ss[j].server.live
    ensures j < |es| && es[j].SourceDoes? && (es[j].sstep.Refresh? || es[j].sstep.RefreshLost?) ==>
      es[j].s in ss[j].sources && ss[j].sources[es[j].s].token.Some?
      && ss[j].sources[es[j].s].token.value.refresh != r
  {
    if i < j {
      RevokedForGood(sha, ss, es, i, j - 1, r);
      RevokedNext(sha, ss, es, j - 1, r);
    }
    if j < |es| {
      RevokedNext(sha, ss, es, j, r);
    }
  }

  // ---- Rows stay usable ----

  /** The row of an event's own write ends up with a live token. */
  lemma StepRowLive(sha: Sha256, s: System, e: Event, c: Id)
    requires Enabled(sha, s, e) && Smooth(e) && AllHeld(s) && RowsLive(s)
    requires c in Apply(sha, s, e).value.t.characters
    ensures var s' := Apply(sha, s, e).value; s'.t.characters[c].refreshToken in s'.server.live || InFlight(s', c)
  {
    var s', stmt := Apply(sha, s, e).value, Committed(sha, s, e);
    var refresh := s'.t.characters[c].refreshToken;
    if stmt.Some? {
      Rows.CommittedSucceeds(sha, s, e);
      RefreshAfter(s.t, stmt.value, c);
    }
    if c in s.t.characters && refresh == s.t.characters[c].refreshToken {
      OldTokenLive(sha, s, e, c);
    } else {
      WrittenWasHeld(sha, s, e, refresh);
      WritingRevokesNothing(sha, s, e);
    }
  }

  lemma WritingRevokesNothing(sha: Sha256, s: System, e: Event)
    requires Enabled(sha, s, e) && Committed(sha, s, e).Some?
    ensures Apply(sha, s, e).value.server == s.server || e.Authorize?
  {
  }

  /** A token that stays in its row stays live, unless the source of that row has just rotated it. */
  lemma OldTokenLive(sha: Sha256, s: System, e: Event, c: Id)
    requires Enabled(sha, s, e) && Smooth(e) && AllHeld(s) && RowsLive(s)
    requires c in s.t.characters && c in Apply(sha, s, e).value.t.characters
    requires Apply(sha, s, e).value.t.characters[c].refreshToken == s.t.characters[c].refreshToken
    ensures var s' := Apply(sha, s, e).value; s.t.characters[c].refreshToken in s'.server.live || InFlight(s', c)
  {
    var s', refresh := Apply(sha, s, e).value, s.t.characters[c].refreshToken;
    if refresh in s.server.live {
      LiveStays(sha, s, e, refresh);
      if refresh !in s'.server.live {
        RotatedIsPending(sha, s, e, c);
      }
    } else {
      InFlightUntilStored(sha, s, e, c);
    }
  }

  lemma InFlightUntilStored(sha: Sha256, s: System, e: Event, c: Id)
    requires Enabled(sha, s, e) && Smooth(e) && AllHeld(s) && InFlight(s, c)
    requires var s' := Apply(sha, s, e).value;
      c in s'.t.characters && s'.t.characters[c].refreshToken == s.t.characters[c].refreshToken
    ensures var s' := Apply(sha, s, e).value;
      || InFlight(s', c) || (c in s'.t.characters && s'.t.characters[c].refreshToken in s'.server.live)
  {
    var k :| Succeeds(s, k, c);
    if e.SourceDoes? && e.s == k {
      PendingStores(sha, s, e, c);
    } else {
      StillPending(sha, s, e, k, c);
    }
  }

  lemma StillPending(sha: Sha256, s: System, e: Event, k: nat, c: Id)
    requires Enabled(sha, s, e) && !(e.SourceDoes? && e.s == k) && Succeeds(s, k, c)
    requires var s' := Apply(sha, s, e).value;
      c in s'.t.characters && s'.t.characters[c].refreshToken == s.t.characters[c].refreshToken
    ensures InFlight(Apply(sha, s, e).value, c)
  {
    assert Succeeds(Apply(sha, s, e).value, k, c);
  }

  /** Whoever rotates the token of row `c` is the source of row `c`, and is now about to store it. */
  lemma RotatedIsPending(sha: Sha256, s: System, e: Event, c: Id)
    requires Enabled(sha, s, e) && AllHeld(s) && c in s.t.characters
    requires e.SourceDoes? && e.sstep.Refresh? && e.sstep.rotated.Some? && s.sources[e.s].token.Some?
    requires s.sources[e.s].token.value.refresh == s.t.characters[c].refreshToken
    requires var s' := Apply(sha, s, e).value;
      c in s'.t.characters && s'.t.characters[c].refreshToken == s.t.characters[c].refreshToken
    ensures InFlight(Apply(sha, s, e).value, c)
  {
    var k := e.s;
    assert SourceHolds(s, k, s.sources[k]);
    assert Held(s, s.t.characters[c].refreshToken, AtRow(c));
    var src' := Apply(sha, s, e).value.sources[k];
    SentWasFresh(sha, s, e, e.sstep.rotated.value);
    assert Pending(src') && src'.character == Some(c);
    assert Succeeds(Apply(sha, s, e).value, k, c);
  }

  /** The only step a pending source has is to store its token, and then the old one is gone from the row. */
  lemma PendingStores(sha: Sha256, s: System, e: Event, c: Id)
    requires Enabled(sha, s, e) && Smooth(e) && AllHeld(s) && c in s.t.characters
    requires e.SourceDoes? && Pending(s.sources[e.s]) && s.sources[e.s].character == Some(c)
    ensures e.sstep.StoreRefresh?
    ensures var s' := Apply(sha, s, e).value;
      && c in s'.t.characters && s'.t.characters[c].refreshToken == s.sources[e.s].pc.got.refresh
      && s'.t.characters[c].refreshToken in s'.server.live
  {
    assert SourceHolds(s, e.s, s.sources[e.s]);
  }

  lemma {:induction false} Smoothly(sha: Sha256, ss: seq<System>, es: seq<Event>, i: nat)
    requires SmoothRun(sha, ss, es) && i <= |es|
    ensures AllHeld(ss[i]) && RowsLive(ss[i])
  {
    if i > 0 {
      Smoothly(sha, ss, es, i - 1);
      RunStep(sha, ss, es, i - 1);
      StepHeld(sha, ss[i - 1], es[i - 1]);
      forall c | c in ss[i].t.characters ensures ss[i].t.characters[c].refreshToken in ss[i].server.live || InFlight(ss[i], c) {
        StepRowLive(sha, ss[i - 1], es[i - 1], c);
      }
    }
  }

  /**
   With a rotating server, any number of sources and callbacks over any number of rows: at
   every moment of a smooth run the refresh token in a row is live at the server, except exactly
   while a source of that very row has presented it, received its successor and not stored that
   yet.
   */
  lemma RowTokenIsLive(sha: Sha256, ss: seq<System>, es: seq<Event>, i: nat, c: Id)
    requires SmoothRun(sha, ss, es) && i <= |es| && c in ss[i].t.characters
    ensures ss[i].t.characters[c].refreshToken in ss[i].server.live <==> !InFlight(ss[i], c)
  {
    Smoothly(sha, ss, es, i);
    if InFlight(ss[i], c) {
      var k :| Succeeds(ss[i], k, c);
      assert SourceHolds(ss[i], k, ss[i].sources[k]);
    }
  }

  // ---- When a refresh token is live, in every run ----

  lemma {:induction false} IssuedStays(sha: Sha256, ss: seq<System>, es: seq<Event>, i: nat, j: nat)
    requires Run(sha, ss, es) && i <= j <= |es|
    ensures ss[i].server.issued <= ss[j].server.issued
  {
    if i < j {
      IssuedStays(sha, ss, es, i, j - 1);
      RunStep(sha, ss, es, j - 1);
    }
  }

  /** Only a live token can be rotated. */
  lemma RotatedWasLive(sha: Sha256, ss: seq<System>, es: seq<Event>, n: nat, r: string)
    requires Run(sha, ss, es) && n < |es| && Rotates(ss[n], es[n], r)
    ensures r in ss[n].server.live && r in ss[n].server.issued
  {
    RunStep(sha, ss, es, n);
    ServerIsSound(sha, ss, es, n);
  }

  /** Nobody has presented `r` and had it rotated before moment `i`. */
  ghost predicate NeverRotated(ss: seq<System>, es: seq<Event>, i: nat, r: string)
    requires |ss| == |es| + 1 && i <= |es|
  {
    forall n :: 0 <= n < i ==> !Rotates(ss[n], es[n], r)
  }

  /** A token that has just been issued is live. */
  lemma IssuedIsLive(sha: Sha256, s: System, e: Event, r: string)
    requires Enabled(sha, s, e) && r !in s.server.issued && s.server.live <= s.server.issued
    ensures r in Apply(sha, s, e).value.server.issued <==> r in Apply(sha, s, e).value.server.live
  {
  }

  /** In every run: a refresh token is live exactly if it was issued and nobody has had it rotated since. */
  lemma {:induction false} LiveExactly(sha: Sha256, ss: seq<System>, es: seq<Event>, i: nat, r: string)
    requires Run(sha, ss, es) && i <= |es|
    ensures r in ss[i].server.live <==> r in ss[i].server.issued && r != "" && NeverRotated(ss, es, i, r)
  {
    if i > 0 {
      LiveExactly(sha, ss, es, i - 1, r);
      ServerIsSound(sha, ss, es, i - 1);
      ServerIsSound(sha, ss, es, i);
      RunStep(sha, ss, es, i - 1);
      IssuedStays(sha, ss, es, i - 1, i);
      if r in ss[i - 1].server.live {
        LiveStays(sha, ss[i - 1], es[i - 1], r);
      } else if r in ss[i - 1].server.issued {
        RevokedStep(sha, ss[i - 1], es[i - 1], r);
      } else {
        IssuedIsLive(sha, ss[i - 1], es[i - 1], r);
        UnissuedUnrotated(sha, ss, es, i, r);
      }
    }
  }

  lemma UnissuedUnrotated(sha: Sha256, ss: seq<System>, es: seq<Event>, i: nat, r: string)
    requires Run(sha, ss, es) && 0 < i <= |es| && r !in ss[i - 1].server.issued
    ensures NeverRotated(ss, es, i, r)
  {
    forall n | 0 <= n < i ensures !Rotates(ss[n], es[n], r) {
      if Rotates(ss[n], es[n], r) {
        RotatedWasLive(sha, ss, es, n, r);
        IssuedStays(sha, ss, es, n, i - 1);
      }
    }
  }

  // ---- Rows that lose `active` ----

  /** If the server rejects a refresh token at this event, it is a dead one. */
  predicate Rightly(s: System, e: Event)
  {
    e.SourceDoes? && e.sstep.RefreshRejected? ==>
      && e.s in s.sources && s.sources[e.s].token.Some?
      && s.sources[e.s].token.value.refresh !in s.server.live
  }

  ghost predicate Justified(ss: seq<System>, es: seq<Event>)
    requires |ss| == |es| + 1
  {
    forall i :: 0 <= i < |es| ==> Rightly(ss[i], es[i])
  }

  /**
   In every run with a server that rejects dead tokens only: when a row loses `active`, some
   source holding it was rejected with a token that was never issued or that somebody had had
   rotated; but the row's own token is live all the same, exactly if nobody had that one rotated.
   */
  lemma DeactivatedExactly(sha: Sha256, ss: seq<System>, es: seq<Event>, i: nat, c: Id) returns (a: nat)
    requires Run(sha, ss, es) && Justified(ss, es) && i < |es|
    requires c in ss[i].t.characters && c in ss[i + 1].t.characters
    requires ss[i].t.characters[c].active && !ss[i + 1].t.characters[c].active
    ensures es[i].SourceDoes? && a < i && Rows.RejectedSince(ss, es, a, i, es[i].s, Some(c))
    ensures ss[a].sources[es[i].s].token.Some?
    ensures var presented := ss[a].sources[es[i].s].token.value.refresh;
      presented in ss[a].server.issued && presented != "" ==> !NeverRotated(ss, es, a, presented)
    ensures var r := ss[i + 1].t.characters[c].refreshToken;
      r in ss[i + 1].server.live <==> r in ss[i].server.issued && r != "" && NeverRotated(ss, es, i, r)
  {
    Rows.DeactivationHasACause(sha, ss, es, i, c);
    a :| 0 <= a < i && Rows.RejectedSince(ss, es, a, i, es[i].s, Some(c));
    assert Rightly(ss[a], es[a]);
    LiveExactly(sha, ss, es, a, ss[a].sources[es[i].s].token.value.refresh);
    LiveExactly(sha, ss, es, i, ss[i + 1].t.characters[c].refreshToken);
    MarkingRevokesNothing(sha, ss, es, i);
  }

  lemma MarkingRevokesNothing(sha: Sha256, ss: seq<System>, es: seq<Event>, i: nat)
    requires Run(sha, ss, es) && i < |es| && es[i].SourceDoes? && es[i].sstep.MarkInactive?
    ensures ss[i + 1].server == ss[i].server
  {
    RunStep(sha, ss, es, i);
  }
}

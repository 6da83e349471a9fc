/**
 Calls and runs.  A stretch of a run that one source, or one handler, has for itself is a play;
 a play that the clock, the server and the uuids go along with extends a run; and so a call of
 `Token`, `Save` or `ServeHTTP`, which is what modules TokenSource and Callback are proved to
 carry out, can be made in any run and takes it to the state the call leads to.  What is proved
 about all runs therefore holds of the code.
 */
module Sequential {
  import opened Wrappers
  import opened Tables
  import opened Protocol
  import opened Pkce
  import opened Plays
  import opened Calls

  // ---- From a run to a play ----

  lemma SourceMoves(sha: Sha256, ss: seq<System>, es: seq<Event>, i: nat, k: nat, step: SourceStep)
    returns (effect: Effect<Source>)
    requires Run(sha, ss, es) && i < |es| && es[i] == SourceDoes(k, step)
    ensures k in ss[i].sources && SourceNext(ss[i].t, ss[i].sources[k], step) == Some(effect)
    ensures ss[i + 1].t == Commit(ss[i].t, effect.stmt)
    ensures k in ss[i + 1].sources && ss[i + 1].sources[k] == effect.next
  {
    RunStep(sha, ss, es, i);
    effect := SourceNext(ss[i].t, ss[i].sources[k], step).value;
  }

  lemma {:induction false} SourceAlone(sha: Sha256, ss: seq<System>, es: seq<Event>, a: nat, b: nat, k: nat, steps: seq<SourceStep>)
    requires Run(sha, ss, es) && a <= b <= |es| && |steps| == b - a && k in ss[a].sources
    requires forall i :: a <= i < b ==> es[i] == SourceDoes(k, steps[i - a])
    ensures k in ss[b].sources
    ensures SourcePlay(ss[a].t, ss[a].sources[k], steps) == Some((ss[b].t, ss[b].sources[k]))
    decreases b
  {
    if a < b {
      var n := |steps| - 1;
      SourceAlone(sha, ss, es, a, b - 1, k, steps[..n]);
      var effect := SourceMoves(sha, ss, es, b - 1, k, steps[n]);
      PlayOne(SourceNext, ss[a].t, ss[a].sources[k], steps[..n], (ss[b - 1].t, ss[b - 1].sources[k]), steps[n], effect);
      assert steps == steps[..n] + [steps[n]];
    }
  }

  /** A handler without the record of its step numbers. */
  function Blank(h: Handler): Handler
  {
    h.(trail := NO_TRAIL)
  }

  lemma BlankStep(t: Tables, h: Handler, n: nat, step: HandlerStep)
    ensures HandlerNext(t, h, n, step).Some? <==> HandlerNext(t, Blank(h), 0, step).Some?
    ensures HandlerNext(t, h, n, step).Some? ==>
      var effect := HandlerNext(t, h, n, step).value;
      HandlerNext(t, Blank(h), 0, step) == Some(Effect(effect.stmt, Blank(effect.next)))
  {
  }

  /** A handler's event, seen from its blank form. */
  lemma HandlerMoves(sha: Sha256, ss: seq<System>, es: seq<Event>, i: nat, k: nat, step: HandlerStep)
    returns (stmt: Option<Stmt>, next: Handler)
    requires Run(sha, ss, es) && i < |es| && es[i] == HandlerDoes(k, step)
    ensures k in ss[i].handlers && k in ss[i + 1].handlers && next == Blank(ss[i + 1].handlers[k])
    ensures HandlerNext(ss[i].t, Blank(ss[i].handlers[k]), 0, step) == Some(Effect(stmt, next))
    ensures ss[i + 1].t == Commit(ss[i].t, stmt)
  {
    RunStep(sha, ss, es, i);
    var effect := HandlerNext(ss[i].t, ss[i].handlers[k], ss[i].steps, step).value;
    stmt, next := effect.stmt, Blank(effect.next);
    BlankStep(ss[i].t, ss[i].handlers[k], ss[i].steps, step);
  }

  lemma {:induction false} HandlerAlone(sha: Sha256, ss: seq<System>, es: seq<Event>, a: nat, b: nat, k: nat,
                                        steps: seq<HandlerStep>)
    requires Run(sha, ss, es) && a <= b <= |es| && |steps| == b - a && k in ss[a].handlers
    requires forall i :: a <= i < b ==> es[i] == HandlerDoes(k, steps[i - a])
    ensures k in ss[b].handlers
    ensures HandlerPlay(ss[a].t, Blank(ss[a].handlers[k]), steps) == Some((ss[b].t, Blank(ss[b].handlers[k])))
    decreases b
  {
    if a < b {
      var n := |steps| - 1;
      HandlerAlone(sha, ss, es, a, b - 1, k, steps[..n]);
      var stmt, next := HandlerMoves(sha, ss, es, b - 1, k, steps[n]);
      HandlerStepOn(ss[a].t, Blank(ss[a].handlers[k]), steps[..n],
                    (ss[b - 1].t, Blank(ss[b - 1].handlers[k])), steps[n], stmt, next);
      assert steps == steps[..n] + [steps[n]];
    }
  }

  // ---- From a play to a run ----

  /** Where a source's steps take the server. */
  ghost function ServerAfter(s: System, k: nat, steps: seq<SourceStep>): Server
    requires k in s.sources
    decreases |steps|
  {
    if steps == [] then s.server
    else
      var first := steps[..|steps| - 1];
      var v, before := ServerAfter(s, k, first), SourcePlay(s.t, s.sources[k], first);
      if before.Some? && ServeSource(v, before.value.1, steps[|steps| - 1]).Some?
      then ServeSource(v, before.value.1, steps[|steps| - 1]).value
      else v
  }

  /** The uuids they take. */
  function UuidsOf(k: nat, steps: seq<SourceStep>): set<Id>
    decreases |steps|
  {
    if steps == [] then {}
    else UuidsOf(k, steps[..|steps| - 1]) + FreshIds(SourceDoes(k, steps[|steps| - 1]))
  }

  /** Clock, uuids and server go along with a source's steps. */
  ghost predicate Welcome(s: System, k: nat, steps: seq<SourceStep>)
    requires k in s.sources
    decreases |steps|
  {
    steps == [] ||
    var first, last := steps[..|steps| - 1], steps[|steps| - 1];
    && Welcome(s, k, first)
    && ClockOk(s.now, SourceDoes(k, last)) && FreshIds(SourceDoes(k, last)) !! s.used + UuidsOf(k, first)
    && SourcePlay(s.t, s.sources[k], first).Some?
    && ServeSource(ServerAfter(s, k, first), SourcePlay(s.t, s.sources[k], first).value.1, last).Some?
  }

  lemma SourceEvent(sha: Sha256, ss: seq<System>, es: seq<Event>, k: nat, step: SourceStep)
    returns (ss': seq<System>, es': seq<Event>)
    requires Run(sha, ss, es) && Enabled(sha, ss[|es|], SourceDoes(k, step))
    ensures Run(sha, ss', es') && es' == es + [SourceDoes(k, step)] && ss'[..|es| + 1] == ss
    ensures var s, s' := ss[|es|], ss'[|es'|];
      var effect := SourceNext(s.t, s.sources[k], step).value;
      && s'.t == Commit(s.t, effect.stmt) && s'.sources == s.sources[k := effect.next]
      && s'.server == ServeSource(s.server, s.sources[k], step).value
      && s'.used == s.used + FreshIds(SourceDoes(k, step))
      && s'.now == s.now && s'.handlers == s.handlers
  {
    ss', es' := Extend(sha, ss, es, SourceDoes(k, step));
  }

  /** The run `es'` goes on from the run `es`. */
  ghost predicate Goes(sha: Sha256, ss: seq<System>, es: seq<Event>, ss': seq<System>, es': seq<Event>)
  {
    Run(sha, ss', es') && |es| <= |es'| && |es| < |ss| && es'[..|es|] == es && ss'[..|es| + 1] == ss
  }

  lemma GoesOn(sha: Sha256, ss: seq<System>, es: seq<Event>, ss1: seq<System>, es1: seq<Event>, ss2: seq<System>, es2: seq<Event>)
    requires Goes(sha, ss, es, ss1, es1) && Goes(sha, ss1, es1, ss2, es2)
    ensures Goes(sha, ss, es, ss2, es2)
  {
    assert es2[..|es|] == es2[..|es1|][..|es|];
    assert ss2[..|es| + 1] == ss2[..|es1| + 1][..|es| + 1];
  }

  /** The run `es` has been extended by the steps, and has come to where they lead. */
  ghost predicate SourcePlayed(sha: Sha256, ss: seq<System>, es: seq<Event>, k: nat, steps: seq<SourceStep>,
                               ss': seq<System>, es': seq<Event>)
  {
    && Goes(sha, ss, es, ss', es') && |es'| == |es| + |steps| && k in ss[|es|].sources
    && (forall i :: 0 <= i < |steps| ==> es'[|es| + i] == SourceDoes(k, steps[i]))
    && var s, s' := ss[|es|], ss'[|es'|];
       && k in s'.sources && SourcePlay(s.t, s.sources[k], steps) == Some((s'.t, s'.sources[k]))
       && s'.server == ServerAfter(s, k, steps) && s'.used == s.used + UuidsOf(k, steps)
       && s'.now == s.now && s'.handlers == s.handlers && s'.sources == s.sources[k := s'.sources[k]]
  }

  lemma SourcePlaysOneMore(sha: Sha256, ss: seq<System>, es: seq<Event>, k: nat, first: seq<SourceStep>, last: SourceStep,
                           ss1: seq<System>, es1: seq<Event>) returns (ss': seq<System>, es': seq<Event>)
    requires SourcePlayed(sha, ss, es, k, first, ss1, es1)
    requires SourcePlay(ss[|es|].t, ss[|es|].sources[k], first + [last]).Some?
    requires Welcome(ss[|es|], k, first + [last])
    ensures SourcePlayed(sha, ss, es, k, first + [last], ss', es')
  {
    assert (first + [last])[..|first|] == first;
    var s1 := ss1[|es1|];
    PlayInit(SourceNext, ss[|es|].t, ss[|es|].sources[k], first, last);
    ss', es' := SourceEvent(sha, ss1, es1, k, last);
    PlayOne(SourceNext, ss[|es|].t, ss[|es|].sources[k], first, (s1.t, s1.sources[k]), last,
            SourceNext(s1.t, s1.sources[k], last).value);
    GoesOn(sha, ss, es, ss1, es1, ss', es');
  }

  /** The converse of SourceAlone. */
  lemma {:induction false} SourcePlayRuns(sha: Sha256, ss: seq<System>, es: seq<Event>, k: nat, steps: seq<SourceStep>)
    returns (ss': seq<System>, es': seq<Event>)
    requires Run(sha, ss, es) && k in ss[|es|].sources
    requires SourcePlay(ss[|es|].t, ss[|es|].sources[k], steps).Some? && Welcome(ss[|es|], k, steps)
    ensures SourcePlayed(sha, ss, es, k, steps, ss', es')
    decreases |steps|
  {
    if steps == [] {
      ss', es' := ss, es;
    } else {
      var first, last := steps[..|steps| - 1], steps[|steps| - 1];
      assert steps == first + [last];
      PlayInit(SourceNext, ss[|es|].t, ss[|es|].sources[k], first, last);
      ss', es' := SourcePlayRuns(sha, ss, es, k, first);
      ss', es' := SourcePlaysOneMore(sha, ss, es, k, first, last, ss', es');
    }
  }

  /** The same for handlers: where a handler's steps take the server, */
  ghost function ServerAfterMoves(sha: Sha256, s: System, k: nat, steps: seq<HandlerStep>): Server
    requires k in s.handlers
    decreases |steps|
  {
    if steps == [] then s.server
    else
      var first := steps[..|steps| - 1];
      var v, before := ServerAfterMoves(sha, s, k, first), HandlerPlay(s.t, Blank(s.handlers[k]), first);
      if before.Some? && ServeHandler(sha, v, before.value.1, steps[|steps| - 1]).Some?
      then ServeHandler(sha, v, before.value.1, steps[|steps| - 1]).value
      else v
  }

  function UuidsOfMoves(k: nat, steps: seq<HandlerStep>): set<Id>
    decreases |steps|
  {
    if steps == [] then {}
    else UuidsOfMoves(k, steps[..|steps| - 1]) + FreshIds(HandlerDoes(k, steps[|steps| - 1]))
  }

  /** and whether clock, uuids and server go along with them. */
  ghost predicate WelcomeMoves(sha: Sha256, s: System, k: nat, steps: seq<HandlerStep>)
    requires k in s.handlers
    decreases |steps|
  {
    steps == [] ||
    var first, last := steps[..|steps| - 1], steps[|steps| - 1];
    && WelcomeMoves(sha, s, k, first)
    && ClockOk(s.now, HandlerDoes(k, last)) && FreshIds(HandlerDoes(k, last)) !! s.used + UuidsOfMoves(k, first)
    && HandlerPlay(s.t, Blank(s.handlers[k]), first).Some?
    && ServeHandler(sha, ServerAfterMoves(sha, s, k, first), HandlerPlay(s.t, Blank(s.handlers[k]), first).value.1, last).Some?
  }

  lemma HandlerEvent(sha: Sha256, ss: seq<System>, es: seq<Event>, k: nat, step: HandlerStep)
    returns (ss': seq<System>, es': seq<Event>)
    requires Run(sha, ss, es) && k in ss[|es|].handlers
    requires HandlerMove(ss[|es|].t, Blank(ss[|es|].handlers[k]), step).Some?
    requires ServeHandler(sha, ss[|es|].server, Blank(ss[|es|].handlers[k]), step).Some?
    requires ClockOk(ss[|es|].now, HandlerDoes(k, step)) && FreshIds(HandlerDoes(k, step)) !! ss[|es|].used
    ensures Run(sha, ss', es') && es' == es + [HandlerDoes(k, step)] && ss'[..|es| + 1] == ss
    ensures var s, s' := ss[|es|], ss'[|es'|];
      var effect := HandlerMove(s.t, Blank(s.handlers[k]), step).value;
      && s'.t == Commit(s.t, effect.stmt)
      && k in s'.handlers && Blank(s'.handlers[k]) == effect.next && s'.handlers == s.handlers[k := s'.handlers[k]]
      && s'.server == ServeHandler(sha, s.server, Blank(s.handlers[k]), step).value
      && s'.used == s.used + FreshIds(HandlerDoes(k, step))
      && s'.now == s.now && s'.sources == s.sources
  {
    var s := ss[|es|];
    BlankStep(s.t, s.handlers[k], s.steps, step);
    assert ServeHandler(sha, s.server, Blank(s.handlers[k]), step) == ServeHandler(sha, s.server, s.handlers[k], step);
    ss', es' := Extend(sha, ss, es, HandlerDoes(k, step));
  }

  ghost predicate HandlerPlayed(sha: Sha256, ss: seq<System>, es: seq<Event>, k: nat, steps: seq<HandlerStep>,
                                ss': seq<System>, es': seq<Event>)
  {
    && Goes(sha, ss, es, ss', es') && |es'| == |es| + |steps| && k in ss[|es|].handlers
    && (forall i :: 0 <= i < |steps| ==> es'[|es| + i] == HandlerDoes(k, steps[i]))
    && var s, s' := ss[|es|], ss'[|es'|];
       && k in s'.handlers && HandlerPlay(s.t, Blank(s.handlers[k]), steps) == Some((s'.t, Blank(s'.handlers[k])))
       && s'.server == ServerAfterMoves(sha, s, k, steps) && s'.used == s.used + UuidsOfMoves(k, steps)
       && s'.now == s.now && s'.sources == s.sources && s'.handlers == s.handlers[k := s'.handlers[k]]
  }

  lemma HandlerPlaysOneMore(sha: Sha256, ss: seq<System>, es: seq<Event>, k: nat, first: seq<HandlerStep>, last: HandlerStep,
                            ss1: seq<System>, es1: seq<Event>) returns (ss': seq<System>, es': seq<Event>)
    requires HandlerPlayed(sha, ss, es, k, first, ss1, es1)
    requires HandlerPlay(ss[|es|].t, Blank(ss[|es|].handlers[k]), first + [last]).Some?
    requires WelcomeMoves(sha, ss[|es|], k, first + [last])
    ensures HandlerPlayed(sha, ss, es, k, first + [last], ss', es')
  {
    assert (first + [last])[..|first|] == first;
    var s1 := ss1[|es1|];
    PlayInit(HandlerMove, ss[|es|].t, Blank(ss[|es|].handlers[k]), first, last);
    ss', es' := HandlerEvent(sha, ss1, es1, k, last);
    PlayOne(HandlerMove, ss[|es|].t, Blank(ss[|es|].handlers[k]), first, (s1.t, Blank(s1.handlers[k])), last,
            HandlerMove(s1.t, Blank(s1.handlers[k]), last).value);
    GoesOn(sha, ss, es, ss1, es1, ss', es');
  }

  lemma NoMoves(sha: Sha256, ss: seq<System>, es: seq<Event>, k: nat)
    requires Run(sha, ss, es) && k in ss[|es|].handlers
    ensures HandlerPlayed(sha, ss, es, k, [], ss, es)
  {
  }

  /** The steps go along with a run from here. */
  ghost predicate MovesPossible(sha: Sha256, s: System, k: nat, steps: seq<HandlerStep>)
  {
    && k in s.handlers
    && HandlerPlay(s.t, Blank(s.handlers[k]), steps).Some? && WelcomeMoves(sha, s, k, steps)
  }

  lemma FewerMoves(sha: Sha256, s: System, k: nat, steps: seq<HandlerStep>)
    requires steps != [] && MovesPossible(sha, s, k, steps)
    ensures MovesPossible(sha, s, k, steps[..|steps| - 1])
  {
    assert steps == steps[..|steps| - 1] + [steps[|steps| - 1]];
    PlayInit(HandlerMove, s.t, Blank(s.handlers[k]), steps[..|steps| - 1], steps[|steps| - 1]);
  }

  lemma LastMove(sha: Sha256, ss: seq<System>, es: seq<Event>, k: nat, steps: seq<HandlerStep>,
                 ss1: seq<System>, es1: seq<Event>) returns (ss': seq<System>, es': seq<Event>)
    requires |es| < |ss| && steps != [] && MovesPossible(sha, ss[|es|], k, steps)
    requires HandlerPlayed(sha, ss, es, k, steps[..|steps| - 1], ss1, es1)
    ensures HandlerPlayed(sha, ss, es, k, steps, ss', es')
  {
    assert steps == steps[..|steps| - 1] + [steps[|steps| - 1]];
    ss', es' := HandlerPlaysOneMore(sha, ss, es, k, steps[..|steps| - 1], steps[|steps| - 1], ss1, es1);
  }

  /** The converse of HandlerAlone. */
  lemma {:induction false} HandlerPlayRuns(sha: Sha256, ss: seq<System>, es: seq<Event>, k: nat, steps: seq<HandlerStep>)
    returns (ss': seq<System>, es': seq<Event>)
    requires Run(sha, ss, es) && MovesPossible(sha, ss[|es|], k, steps)
    ensures HandlerPlayed(sha, ss, es, k, steps, ss', es')
    decreases |steps|
  {
    if steps == [] {
      NoMoves(sha, ss, es, k);
      ss', es' := ss, es;
    } else {
      FewerMoves(sha, ss[|es|], k, steps);
      ss', es' := HandlerPlayRuns(sha, ss, es, k, steps[..|steps| - 1]);
      ss', es' := LastMove(sha, ss, es, k, steps, ss', es');
    }
  }

  // ---- Calls of Token and Save in a run ----

  /** A step if it is the source's turn to take it, in a run. */
  lemma TryRuns(sha: Sha256, ss: seq<System>, es: seq<Event>, k: nat, step: SourceStep)
    returns (ss': seq<System>, es': seq<Event>)
    requires Run(sha, ss, es) && k in ss[|es|].sources
    requires SourceNext(ss[|es|].t, ss[|es|].sources[k], step).Some? ==> Enabled(sha, ss[|es|], SourceDoes(k, step))
    ensures Goes(sha, ss, es, ss', es')
    ensures var s, s' := ss[|es|], ss'[|es'|]; var taken := SourceNext(s.t, s.sources[k], step).Some?;
      && k in s'.sources && s'.sources == s.sources[k := s'.sources[k]]
      && (s'.t, s'.sources[k]) == Try((s.t, s.sources[k]), step)
      && s'.server == (if taken then ServeSource(s.server, s.sources[k], step).value else s.server)
      && s'.used == (if taken then s.used + FreshIds(SourceDoes(k, step)) else s.used)
      && s'.now == s.now && s'.handlers == s.handlers
  {
    if SourceNext(ss[|es|].t, ss[|es|].sources[k], step).Some? {
      ss', es' := SourceEvent(sha, ss, es, k, step);
    } else {
      ss', es' := ss, es;
    }
  }

  /** A quiet step: no server, no uuid. */
  predicate Quietly(now: Instant, step: SourceStep)
  {
    && !step.Refresh? && !step.RefreshLost? && !step.SaveCreate?
    && (step.MarkInactive? || step.StoreRefresh? || step.StoreAccess? ==> step.at <= now)
  }

  /** What stays when source `k` takes quiet steps. */
  ghost predicate Beside(s: System, s': System, k: nat)
  {
    && k in s.sources && k in s'.sources && s'.sources == s.sources[k := s'.sources[k]]
    && s'.used == s.used && s'.now == s.now && s'.handlers == s.handlers
  }

  lemma QuietTry(sha: Sha256, ss: seq<System>, es: seq<Event>, ss1: seq<System>, es1: seq<Event>, k: nat, step: SourceStep)
    returns (ss': seq<System>, es': seq<Event>)
    requires |es| < |ss| && Goes(sha, ss, es, ss1, es1) && Beside(ss[|es|], ss1[|es1|], k) && Quietly(ss[|es|].now, step)
    ensures Goes(sha, ss, es, ss', es') && Beside(ss[|es|], ss'[|es'|], k)
    ensures var s, s' := ss1[|es1|], ss'[|es'|];
      (s'.t, s'.sources[k]) == Try((s.t, s.sources[k]), step) && s'.server == s.server
  {
    ss', es' := TryRuns(sha, ss1, es1, k, step);
    GoesOn(sha, ss, es, ss1, es1, ss', es');
  }

  lemma LoadRuns(sha: Sha256, ss: seq<System>, es: seq<Event>, k: nat, f: TokenFortune)
    returns (ss': seq<System>, es': seq<Event>)
    requires Run(sha, ss, es) && k in ss[|es|].sources
    ensures Goes(sha, ss, es, ss', es') && Beside(ss[|es|], ss'[|es'|], k)
    ensures var s, s' := ss[|es|], ss'[|es'|];
      (s'.t, s'.sources[k]) == LoadCall((s.t, s.sources[k]), f) && s'.server == s.server
  {
    ss', es' := QuietTry(sha, ss, es, ss, es, k, Call);
    ss', es' := QuietTry(sha, ss, es, ss', es', k, FindProfile(f.profileFound));
    ss', es' := QuietTry(sha, ss, es, ss', es', k, FindCharacter(f.characterFound));
    ss', es' := QuietTry(sha, ss, es, ss', es', k, LoadToken(f.loaded, f.parses));
  }

  /** The server after a call that started from this token. */
  function ServerOf(v: Server, cache: Option<Token>, answer: Answer): Server
  {
    if cache.Some? && answer.Granted? && answer.access != "" && ServeRefresh(v, cache.value.refresh, answer.rotated).Some?
    then ServeRefresh(v, cache.value.refresh, answer.rotated).value
    else v
  }

  lemma AnswerRuns(sha: Sha256, ss: seq<System>, es: seq<Event>, ss1: seq<System>, es1: seq<Event>, k: nat, f: TokenFortune)
    returns (ss': seq<System>, es': seq<Event>)
    requires |es| < |ss| && Goes(sha, ss, es, ss1, es1) && Beside(ss[|es|], ss1[|es1|], k)
    requires f.at <= ss[|es|].now
    requires var s1 := ss1[|es1|]; var src := s1.sources[k];
      (src.pc == Exchanging <==> src.token.Some?) &&
      (src.token.Some? && f.answer.Granted? && f.answer.access != "" ==>
        ServeRefresh(s1.server, src.token.value.refresh, f.answer.rotated).Some?)
    ensures Goes(sha, ss, es, ss', es') && Beside(ss[|es|], ss'[|es'|], k)
    ensures var s1, s' := ss1[|es1|], ss'[|es'|];
      && (s'.t, s'.sources[k]) == AnswerCall((s1.t, s1.sources[k]), f)
      && s'.server == ServerOf(s1.server, s1.sources[k].token, f.answer)
  {
    ss', es' := TryRuns(sha, ss1, es1, k, AnswerStep(f.answer));
    GoesOn(sha, ss, es, ss1, es1, ss', es');
    ss', es' := QuietTry(sha, ss, es, ss', es', k, RefreshFailed);
    ss', es' := QuietTry(sha, ss, es, ss', es', k, MarkInactive(f.at, f.marked));
  }

  lemma EndingRuns(sha: Sha256, ss: seq<System>, es: seq<Event>, ss1: seq<System>, es1: seq<Event>, k: nat, f: TokenFortune)
    returns (ss': seq<System>, es': seq<Event>)
    requires |es| < |ss| && Goes(sha, ss, es, ss1, es1) && Beside(ss[|es|], ss1[|es1|], k)
    requires f.at <= ss[|es|].now
    ensures Goes(sha, ss, es, ss', es') && Beside(ss[|es|], ss'[|es'|], k)
    ensures var s1, s' := ss1[|es1|], ss'[|es'|];
      (s'.t, s'.sources[k]) == EndingCall((s1.t, s1.sources[k]), f) && s'.server == s1.server
  {
    ss', es' := QuietTry(sha, ss, es, ss1, es1, k, StoreRefresh(f.at, f.refreshStored));
    ss', es' := QuietTry(sha, ss, es, ss', es', k, Validate(f.valid));
    ss', es' := QuietTry(sha, ss, es, ss', es', k, StoreAccess(f.at, f.accessStored));
  }

  /**
   `Token` can be called in every run, with every fortune the clock and the server go along
   with, and takes the run to what Calls.TokenCall says.
   */
  lemma TokenRuns(sha: Sha256, ss: seq<System>, es: seq<Event>, k: nat, f: TokenFortune)
    returns (ss': seq<System>, es': seq<Event>)
    requires Run(sha, ss, es) && k in ss[|es|].sources && ss[|es|].sources[k].pc == Idle && f.at <= ss[|es|].now
    requires var s := ss[|es|]; var cache := CacheOf(s.t, s.sources[k], f);
      cache.Some? && f.answer.Granted? && f.answer.access != "" ==>
        ServeRefresh(s.server, cache.value.refresh, f.answer.rotated).Some?
    ensures Goes(sha, ss, es, ss', es') && Beside(ss[|es|], ss'[|es'|], k)
    ensures var s, s' := ss[|es|], ss'[|es'|];
      && (s'.t, s'.sources[k]) == TokenCall(s.t, s.sources[k], f)
      && s'.server == ServerOf(s.server, CacheOf(s.t, s.sources[k], f), f.answer)
  {
    LoadResult(ss[|es|].t, ss[|es|].sources[k], f);
    ss', es' := LoadRuns(sha, ss, es, k, f);
    ss', es' := AnswerRuns(sha, ss, es, ss', es', k, f);
    ss', es' := EndingRuns(sha, ss, es, ss', es', k, f);
  }

  /** And so can `Save`. */
  lemma SaveRuns(sha: Sha256, ss: seq<System>, es: seq<Event>, k: nat, token: Token, data: Data, f: SaveFortune)
    returns (ss': seq<System>, es': seq<Event>)
    requires Run(sha, ss, es) && k in ss[|es|].sources && ss[|es|].sources[k].pc == Idle
    requires f.at <= ss[|es|].now && f.uuid !in ss[|es|].used
    ensures Goes(sha, ss, es, ss', es')
    ensures var s, s' := ss[|es|], ss'[|es'|];
      && k in s'.sources && s'.sources == s.sources[k := s'.sources[k]]
      && (s'.t, s'.sources[k]) == SaveCall(s.t, s.sources[k], token, data, f)
      && s'.server == s.server && s'.now == s.now && s'.handlers == s.handlers && s'.used <= s.used + {f.uuid}
  {
    ss', es' := QuietTry(sha, ss, es, ss, es, k, Save(token, f.jt, data));
    ss', es' := QuietTry(sha, ss, es, ss', es', k, SaveFindProfile(f.profileFound));
    var ss1, es1 := ss', es';
    ss', es' := TryRuns(sha, ss1, es1, k, SaveCreate(f.uuid, f.at, f.stored));
    GoesOn(sha, ss, es, ss1, es1, ss', es');
  }

  // ---- A callback in a run ----

  /** What stays when handler `k` moves. */
  ghost predicate BesideMoves(s: System, s': System, k: nat)
  {
    && k in s'.handlers && s'.now == s.now && s'.sources == s.sources
    && (forall m :: m in s.handlers && m != k ==> m in s'.handlers && s'.handlers[m] == s.handlers[m])
  }

  /** A step if it is the handler's turn to take it, in a run. */
  lemma MoveRuns(sha: Sha256, ss: seq<System>, es: seq<Event>, ss1: seq<System>, es1: seq<Event>, k: nat, step: HandlerStep)
    returns (ss': seq<System>, es': seq<Event>)
    requires |es| < |ss| && Goes(sha, ss, es, ss1, es1) && BesideMoves(ss[|es|], ss1[|es1|], k)
    requires ClockOk(ss[|es|].now, HandlerDoes(k, step)) && FreshIds(HandlerDoes(k, step)) !! ss1[|es1|].used
    requires var s1 := ss1[|es1|];
      HandlerMove(s1.t, Blank(s1.handlers[k]), step).Some? ==> ServeHandler(sha, s1.server, Blank(s1.handlers[k]), step).Some?
    ensures Goes(sha, ss, es, ss', es') && BesideMoves(ss[|es|], ss'[|es'|], k)
    ensures var s1, s' := ss1[|es1|], ss'[|es'|];
      && (s'.t, Blank(s'.handlers[k])) == TryMove((s1.t, Blank(s1.handlers[k])), step)
      && s'.server == (if HandlerMove(s1.t, Blank(s1.handlers[k]), step).Some?
                       then ServeHandler(sha, s1.server, Blank(s1.handlers[k]), step).value else s1.server)
      && s1.used <= s'.used <= s1.used + FreshIds(HandlerDoes(k, step))
  {
    var s1 := ss1[|es1|];
    if HandlerMove(s1.t, Blank(s1.handlers[k]), step).Some? {
      ss', es' := HandlerEvent(sha, ss1, es1, k, step);
      GoesOn(sha, ss, es, ss1, es1, ss', es');
    } else {
      ss', es' := ss1, es1;
    }
  }

  lemma ClaimRuns(sha: Sha256, ss: seq<System>, es: seq<Event>, k: nat, code: string, state: Id, f: CallbackFortune)
    returns (ss': seq<System>, es': seq<Event>)
    requires Run(sha, ss, es) && k !in ss[|es|].handlers && f.findAsOf <= ss[|es|].now
    ensures Goes(sha, ss, es, ss', es') && BesideMoves(ss[|es|], ss'[|es'|], k)
    ensures var s, s' := ss[|es|], ss'[|es'|];
      && (s'.t, Blank(s'.handlers[k])) == ClaimCall((s.t, NewHandler(code, state)), f)
      && s'.server == s.server && s'.used == s.used
  {
    ss', es' := Extend(sha, ss, es, Arrive(k, code, state));
    ss', es' := MoveRuns(sha, ss, es, ss', es', k, Find(f.findAsOf, f.found));
    ss', es' := MoveRuns(sha, ss, es, ss', es', k, GetProfile(f.profileFound));
    ss', es' := MoveRuns(sha, ss, es, ss', es', k, Destroy(f.destroyed));
  }

  lemma RedeemRuns(sha: Sha256, ss: seq<System>, es: seq<Event>, ss1: seq<System>, es1: seq<Event>, k: nat, f: CallbackFortune)
    returns (ss': seq<System>, es': seq<Event>)
    requires |es| < |ss| && Goes(sha, ss, es, ss1, es1) && BesideMoves(ss[|es|], ss1[|es1|], k)
    requires f.checkedAt == ss[|es|].now && ss1[|es1|].handlers[k].pc in {Destroyed, Finished(Refused)}
    requires var s1 := ss1[|es1|]; var h := s1.handlers[k];
      h.pc == Destroyed && f.checkedAt - h.pkce.createdAt <= PKCE_LIFETIME ==>
        ServeHandler(sha, s1.server, Blank(h), Exchange(f.reply)).Some?
    ensures Goes(sha, ss, es, ss', es') && BesideMoves(ss[|es|], ss'[|es'|], k)
    ensures var s1, s' := ss1[|es1|], ss'[|es'|]; var h := s1.handlers[k];
      && (s'.t, Blank(s'.handlers[k])) == RedeemCall((s1.t, Blank(h)), f)
      && s'.server == (if h.pc == Destroyed && f.checkedAt - h.pkce.createdAt <= PKCE_LIFETIME
                       then ServeHandler(sha, s1.server, Blank(h), Exchange(f.reply)).value else s1.server)
      && s'.used == s1.used
  {
    ss', es' := MoveRuns(sha, ss, es, ss1, es1, k, CheckAge(f.checkedAt));
    ss', es' := MoveRuns(sha, ss, es, ss', es', k, Exchange(f.reply));
  }

  lemma IdentifyRuns(sha: Sha256, ss: seq<System>, es: seq<Event>, ss1: seq<System>, es1: seq<Event>, k: nat, f: CallbackFortune)
    returns (ss': seq<System>, es': seq<Event>)
    requires |es| < |ss| && Goes(sha, ss, es, ss1, es1) && BesideMoves(ss[|es|], ss1[|es1|], k)
    requires f.createdAt <= ss[|es|].now && f.cleanAsOf <= ss[|es|].now && f.uuid !in ss1[|es1|].used
    ensures Goes(sha, ss, es, ss', es') && BesideMoves(ss[|es|], ss'[|es'|], k)
    ensures var s1, s' := ss1[|es1|], ss'[|es'|];
      && (s'.t, Blank(s'.handlers[k])) == LandCall(IdentifyCall((s1.t, Blank(s1.handlers[k])), f), f)
      && s'.server == s1.server && s1.used <= s'.used <= s1.used + {f.uuid}
  {
    ss', es' := MoveRuns(sha, ss, es, ss1, es1, k, Verify(f.jt));
    ss', es' := MoveRuns(sha, ss, es, ss', es', k, ReadClaims);
    ss', es' := MoveRuns(sha, ss, es, ss', es', k, Create(f.uuid, f.createdAt, f.created));
    ss', es' := MoveRuns(sha, ss, es, ss', es', k, Clean(f.cleanAsOf, f.cleaned));
  }

  /** Whether the server would answer the exchange of a callback, if it gets that far. */
  ghost predicate Answerable(sha: Sha256, s: System, code: string, state: Id, f: CallbackFortune)
  {
    var p := ClaimedRow(s.t, state, f);
    p.Some? && p.value in s.t.pkces && f.checkedAt - s.t.pkces[p.value].createdAt <= PKCE_LIFETIME ==>
      ServeHandler(sha, s.server, NewHandler(code, state).(pkce := s.t.pkces[p.value]), Exchange(f.reply)).Some?
  }

  /**
   A callback can arrive in every run, with every fortune the clock, the uuids and the server go
   along with, and takes the run to what Calls.ServeCall says.
   */
  lemma ServeRuns(sha: Sha256, ss: seq<System>, es: seq<Event>, k: nat, code: string, state: Id, f: CallbackFortune)
    returns (ss': seq<System>, es': seq<Event>)
    requires Run(sha, ss, es) && k !in ss[|es|].handlers && f.uuid !in ss[|es|].used
    requires var now := ss[|es|].now;
      f.findAsOf <= now && f.checkedAt == now && f.createdAt <= now && f.cleanAsOf <= now
    requires Answerable(sha, ss[|es|], code, state, f)
    ensures Goes(sha, ss, es, ss', es') && BesideMoves(ss[|es|], ss'[|es'|], k)
    ensures var s, s' := ss[|es|], ss'[|es'|]; var p := ClaimedRow(s.t, state, f);
      && (s'.t, Blank(s'.handlers[k])) == ServeCall(s.t, code, state, f)
      && s'.used <= s.used + {f.uuid}
      && s'.server ==
           (if p.Some? && p.value in s.t.pkces && f.checkedAt - s.t.pkces[p.value].createdAt <= PKCE_LIFETIME
            then ServeHandler(sha, s.server, NewHandler(code, state).(pkce := s.t.pkces[p.value]), Exchange(f.reply)).value
            else s.server)
  {
    ClaimResult(ss[|es|].t, code, state, f);
    ss', es' := ClaimRuns(sha, ss, es, k, code, state, f);
    ss', es' := RedeemRuns(sha, ss, es, ss', es', k, f);
    ss', es' := IdentifyRuns(sha, ss, es, ss', es', k, f);
  }
}

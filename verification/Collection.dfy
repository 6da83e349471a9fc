/**
 Garbage collection of PKCE rows is unobservable: whatever a run with `CleanPKCE` calls does,
 the same run with every collection failing does too, with the same answers.
 */
module Collection {
  import opened Wrappers
  import opened Tables
  import opened Protocol
  import opened Pkce
  import Rows

  /** The clock reading a committed collection uses. */
  function CollectsAt(e: Event): Option<Instant>
  {
    match e
    case CleanPkce(asOf) => Some(asOf)
    case HandlerDoes(_, Clean(asOf, true)) => Some(asOf)
    case _ => None
  }

  /** The clock reading a lookup of a PKCE row uses. */
  function LooksUpAt(e: Event): Option<Instant>
  {
    match e
    case GetPkce(_, asOf) => Some(asOf)
    case HandlerDoes(_, Find(asOf, _)) => Some(asOf)
    case _ => None
  }

  /** The row a lookup answers with. */
  ghost function Answer(s: System, e: Event): Option<Id>
  {
    match e
    case GetPkce(id, asOf) => GetPkceRow(s.t, id, asOf)
    case HandlerDoes(k, Find(asOf, _)) => if k in s.handlers then FindPkceRow(s.t, s.handlers[k].state, asOf) else None
    case _ => None
  }

  /** The same event with its collection, if it is one, not happening. */
  function Uncollected(e: Event): Event
  {
    match e
    case CleanPkce(_) => Tick(0)
    case HandlerDoes(k, Clean(asOf, _)) => HandlerDoes(k, Clean(asOf, false))
    case _ => e
  }

  function WithoutCollection(es: seq<Event>): (r: seq<Event>)
    ensures |r| == |es|
  {
    seq(|es|, i requires 0 <= i < |es| => Uncollected(es[i]))
  }

  /**
   No lookup runs with a clock reading more than the margin older than that of a collection
   before it.  A lookup that reads the clock and queries at once always is prompt.
   */
  ghost predicate Prompt(es: seq<Event>)
  {
    forall a, b :: 0 <= a < b < |es| && CollectsAt(es[a]).Some? && LooksUpAt(es[b]).Some? ==>
      CollectsAt(es[a]).value <= UnnoticedUntil(LooksUpAt(es[b]).value)
  }

  /** Some collection before moment `i` deletes rows as old as this one. */
  ghost predicate Collectable(es: seq<Event>, i: nat, row: PkceRow)
  {
    exists a :: 0 <= a < i && a < |es| && CollectsAt(es[a]).Some?
                && row.createdAt < CollectsAt(es[a]).value - (PKCE_LIFETIME + CLEAN_MARGIN)
  }

  /** The two states agree on everything but collected PKCE rows, which only `kept` still has. */
  ghost predicate Simulates(es: seq<Event>, i: nat, s: System, kept: System)
  {
    && kept == s.(t := s.t.(pkces := kept.t.pkces))
    && (forall p :: p in s.t.pkces ==> p in kept.t.pkces && kept.t.pkces[p] == s.t.pkces[p])
    && (forall p :: p in kept.t.pkces && p !in s.t.pkces ==> Collectable(es, i, kept.t.pkces[p]))
  }

  /** A prompt lookup does not see the difference. */
  lemma SameAnswer(es: seq<Event>, i: nat, s: System, kept: System)
    requires i < |es| && Prompt(es) && Simulates(es, i, s, kept)
    ensures Answer(kept, es[i]) == Answer(s, es[i])
  {
    if LooksUpAt(es[i]).Some? {
      var asOf := LooksUpAt(es[i]).value;
      forall p | p in kept.t.pkces && p !in s.t.pkces
        ensures !(kept.t.pkces[p].createdAt > asOf - PKCE_LIFETIME)
      {
      }
      if es[i].GetPkce? {
        assert Gettable(kept.t, es[i].id, asOf) == Gettable(s.t, es[i].id, asOf);
      } else if es[i].h in s.handlers {
        var state := s.handlers[es[i].h].state;
        assert Findable(kept.t, state, asOf) == Findable(s.t, state, asOf);
      }
    }
  }

  /** A handler's step gives the same effect on both states, except that nothing is collected. */
  lemma SameHandlerStep(es: seq<Event>, i: nat, s: System, kept: System)
    requires i < |es| && Prompt(es) && Simulates(es, i, s, kept)
    requires es[i].HandlerDoes? && es[i].h in s.handlers
    requires HandlerNext(s.t, s.handlers[es[i].h], s.steps, es[i].hstep).Some?
    ensures var h := s.handlers[es[i].h];
      var effect := HandlerNext(s.t, h, s.steps, es[i].hstep).value;
      var effect' := HandlerNext(kept.t, h, s.steps, Uncollected(es[i]).hstep);
      && effect'.Some? && effect'.value.next == effect.next
      && effect'.value.stmt == if es[i].hstep.Clean? then None else effect.stmt
  {
    var h := s.handlers[es[i].h];
    SameAnswer(es, i, s, kept);
    if es[i].hstep.Find? {
      var row := FindPkceRow(s.t, h.state, es[i].hstep.asOf);
      if row.Some? {
        assert row.value in Findable(s.t, h.state, es[i].hstep.asOf);
      }
    }
    if es[i].hstep.Create? {
      var q := UpsertCharacter(es[i].hstep.id, NewRow(h.pkce.profileRef, h.claims, h.token, h.pkce.referenceData, es[i].hstep.at));
      SameUpsert(s.t, kept.t, q.id, q.row);
    }
  }

  lemma SameUpsert(t: Tables, t': Tables, id: Id, row: CharacterRow)
    requires t' == t.(pkces := t'.pkces)
    ensures Exec(t', UpsertCharacter(id, row)).Ok? == Exec(t, UpsertCharacter(id, row)).Ok?
    ensures UpsertTarget(t', id, row) == UpsertTarget(t, id, row)
  {
  }

  lemma SameSourceStep(s: System, kept: System, k: nat, step: SourceStep)
    requires kept == s.(t := s.t.(pkces := kept.t.pkces)) && k in s.sources
    ensures SourceNext(kept.t, s.sources[k], step) == SourceNext(s.t, s.sources[k], step)
  {
    var src := s.sources[k];
    if step.FindCharacter? {
      var criteria := Criteria(0, src.name, "");
      assert ProfileMatches(kept.t, criteria, src.profile, src.scopes) == ProfileMatches(s.t, criteria, src.profile, src.scopes);
    }
    if step.SaveCreate? && src.pc.SaveLocated? {
      SameUpsert(s.t, kept.t, step.id, NewRow(src.profile, src.pc.claims, src.pc.got, src.pc.data, step.at));
    }
  }

  /** The uuids of collected rows are not handed out again, so they do not get in the way of new rows. */
  lemma SameInsert(s: System, kept: System, e: Event, sha: Sha256)
    requires kept == s.(t := s.t.(pkces := kept.t.pkces)) && Rows.HistoryKnows(kept)
    requires e.CreatePkce? && FreshIds(e) !! s.used
    requires Exec(s.t, Statement(sha, e).value).Ok?
    ensures Exec(kept.t, Statement(sha, e).value).Ok?
  {
    assert e.id in FreshIds(e) && e.state in FreshIds(e);
  }

  lemma StaysEnabled(sha: Sha256, es: seq<Event>, i: nat, s: System, kept: System)
    requires i < |es| && Prompt(es) && Simulates(es, i, s, kept)
    requires Rows.HistoryKnows(kept)
    requires Enabled(sha, s, es[i])
    ensures Enabled(sha, kept, Uncollected(es[i]))
  {
    var e := es[i];
    if e.HandlerDoes? {
      SameHandlerStep(es, i, s, kept);
    } else if e.SourceDoes? {
      SameSourceStep(s, kept, e.s, e.sstep);
    } else if e.CreatePkce? {
      SameInsert(s, kept, e, sha);
    }
  }

  /** The two statements leave the two states related. */
  lemma SameCommit(es: seq<Event>, i: nat, t: Tables, kept: Tables, stmt: Option<Stmt>)
    requires kept == t.(pkces := kept.pkces)
    requires stmt.Some? ==> Exec(t, stmt.value).Ok? && (stmt.value.InsertPkce? ==> Exec(kept, stmt.value).Ok?)
    requires stmt.Some? ==> !stmt.value.DeletePkcesBefore?
    requires forall p :: p in t.pkces ==> p in kept.pkces && kept.pkces[p] == t.pkces[p]
    ensures var t', kept' := Commit(t, stmt), Commit(kept, stmt);
      && kept' == t'.(pkces := kept'.pkces)
      && (forall p :: p in t'.pkces ==> p in kept'.pkces && kept'.pkces[p] == t'.pkces[p])
      && (forall p :: p in kept'.pkces && p !in t'.pkces ==> p in kept.pkces && p !in t.pkces && kept'.pkces[p] == kept.pkces[p])
  {
    if stmt.Some? && stmt.value.UpsertCharacter? {
      SameUpsert(t, kept, stmt.value.id, stmt.value.row);
    }
  }

  /** A collection deletes collectable rows only, and the run without it keeps them. */
  lemma CollectStep(sha: Sha256, es: seq<Event>, i: nat, s: System, kept: System)
    requires i < |es| && Simulates(es, i, s, kept)
    requires Enabled(sha, s, es[i]) && Enabled(sha, kept, Uncollected(es[i])) && CollectsAt(es[i]).Some?
    ensures Simulates(es, i + 1, Apply(sha, s, es[i]).value, Apply(sha, kept, Uncollected(es[i])).value)
  {
    var e := es[i];
    var s', kept' := Apply(sha, s, e).value, Apply(sha, kept, Uncollected(e)).value;
    assert Committed(sha, s, e) == Some(CleanStmt(CollectsAt(e).value));
    assert kept'.t == kept.t;
    forall p | p in kept'.t.pkces && p !in s'.t.pkces ensures Collectable(es, i + 1, kept'.t.pkces[p]) {
      if p !in s.t.pkces {
        assert Collectable(es, i, kept.t.pkces[p]);
      }
    }
    assert kept'.handlers == s'.handlers;
    assert kept'.hist == s'.hist;
  }

  lemma OtherStep(sha: Sha256, es: seq<Event>, i: nat, s: System, kept: System)
    requires i < |es| && Prompt(es) && Simulates(es, i, s, kept)
    requires Enabled(sha, s, es[i]) && Enabled(sha, kept, Uncollected(es[i])) && CollectsAt(es[i]).None?
    ensures Simulates(es, i + 1, Apply(sha, s, es[i]).value, Apply(sha, kept, Uncollected(es[i])).value)
  {
    var e := es[i];
    var stmt := Committed(sha, s, e);
    if e.HandlerDoes? {
      SameHandlerStep(es, i, s, kept);
    } else if e.SourceDoes? {
      SameSourceStep(s, kept, e.s, e.sstep);
    }
    assert Committed(sha, kept, Uncollected(e)) == stmt;
    if stmt.Some? {
      Rows.CommittedSucceeds(sha, s, e);
      Rows.CommittedSucceeds(sha, kept, Uncollected(e));
    }
    SameCommit(es, i, s.t, kept.t, stmt);
    SameRest(sha, s, kept, e, Uncollected(e));
    var s', kept' := Apply(sha, s, e).value, Apply(sha, kept, Uncollected(e)).value;
    forall p | p in kept'.t.pkces && p !in s'.t.pkces ensures Collectable(es, i + 1, kept'.t.pkces[p]) {
      assert Collectable(es, i, kept.t.pkces[p]);
    }
  }

  /** Everything but the tables evolves alike. */
  lemma SameRest(sha: Sha256, s: System, kept: System, e: Event, e': Event)
    requires kept == s.(t := s.t.(pkces := kept.t.pkces))
    requires Enabled(sha, s, e) && Enabled(sha, kept, e') && e' == Uncollected(e) && CollectsAt(e).None?
    requires Committed(sha, kept, e') == Committed(sha, s, e)
    requires e.HandlerDoes? ==>
      HandlerNext(kept.t, s.handlers[e.h], s.steps, e'.hstep).value.next
      == HandlerNext(s.t, s.handlers[e.h], s.steps, e.hstep).value.next
    requires e.SourceDoes? ==> SourceNext(kept.t, s.sources[e.s], e.sstep) == SourceNext(s.t, s.sources[e.s], e.sstep)
    ensures Apply(sha, kept, e').value == Apply(sha, s, e).value.(t := Commit(kept.t, Committed(sha, s, e)))
  {
    var stmt := Committed(sha, s, e);
    if stmt.Some? && stmt.value.UpsertCharacter? {
      SameUpsert(s.t, kept.t, stmt.value.id, stmt.value.row);
    }
    assert NextHandlers(sha, kept, e') == NextHandlers(sha, s, e);
    assert NextServer(sha, kept, e') == NextServer(sha, s, e);
    assert Verifies(sha, kept, e') == Verifies(sha, s, e);
  }

  /** The run without collections keeps up with the next event. */
  lemma MatchEvent(sha: Sha256, ss: seq<System>, es: seq<Event>, kept: seq<System>, done: seq<Event>)
    returns (kept': seq<System>, done': seq<Event>)
    requires Run(sha, ss, es) && Prompt(es) && Run(sha, kept, done) && |done| < |es|
    requires Simulates(es, |done|, ss[|done|], kept[|done|])
    ensures Run(sha, kept', done') && done' == done + [Uncollected(es[|done|])]
    ensures kept'[..|done| + 1] == kept && Simulates(es, |done| + 1, ss[|done| + 1], kept'[|done| + 1])
  {
    var i := |done|;
    RunStep(sha, ss, es, i);
    Rows.Reachable(sha, kept, done, i);
    StaysEnabled(sha, es, i, ss[i], kept[i]);
    if CollectsAt(es[i]).Some? {
      CollectStep(sha, es, i, ss[i], kept[i]);
    } else {
      OtherStep(sha, es, i, ss[i], kept[i]);
    }
    kept', done' := Extend(sha, kept, done, Uncollected(es[i]));
  }

  /**
   Garbage collection is unobservable: every prompt run is matched, event by event, by the run
   in which no collection ever deletes a row.  All lookups answer the same, and handlers,
   sources, server, profiles and characters are the same at every moment.
   */
  lemma {:induction false} GcUnobservable(sha: Sha256, ss: seq<System>, es: seq<Event>) returns (kept: seq<System>)
    requires Run(sha, ss, es) && Prompt(es)
    ensures Run(sha, kept, WithoutCollection(es))
    ensures forall i :: 0 <= i <= |es| ==> Simulates(es, i, ss[i], kept[i])
    ensures forall i :: 0 <= i < |es| ==> Answer(kept[i], es[i]) == Answer(ss[i], es[i])
  {
    kept := [INIT];
    var done: seq<Event> := [];
    RunStart(sha);
    while |done| < |es|
      invariant |done| <= |es| && done == WithoutCollection(es)[..|done|]
      invariant Run(sha, kept, done)
      invariant forall i :: 0 <= i <= |done| ==> Simulates(es, i, ss[i], kept[i])
    {
      var before := kept;
      kept, done := MatchEvent(sha, ss, es, kept, done);
      assert forall i :: 0 <= i < |done| ==> kept[i] == kept[..|done|][i] == before[i];
    }
    assert done == WithoutCollection(es);
    forall i | 0 <= i < |es| ensures Answer(kept[i], es[i]) == Answer(ss[i], es[i]) {
      SameAnswer(es, i, ss[i], kept[i]);
    }
  }

  lemma RunStart(sha: Sha256)
    ensures Run(sha, [INIT], [])
  {
  }

  // ---- When a run is prompt ----

  /** Every collection and every lookup uses the clock as it stands at the query. */
  ghost predicate ReadsClockAtQuery(ss: seq<System>, es: seq<Event>)
    requires |ss| == |es| + 1
  {
    forall i :: 0 <= i < |es| ==>
      && (CollectsAt(es[i]).Some? ==> CollectsAt(es[i]).value == ss[i].now)
      && (LooksUpAt(es[i]).Some? ==> LooksUpAt(es[i]).value == ss[i].now)
  }

  lemma {:induction false} ClockAdvances(sha: Sha256, ss: seq<System>, es: seq<Event>, i: nat, j: nat)
    requires Run(sha, ss, es) && i <= j <= |es|
    ensures ss[i].now <= ss[j].now
  {
    if i < j {
      ClockAdvances(sha, ss, es, i, j - 1);
      RunStep(sha, ss, es, j - 1);
    }
  }

  /** The clock never goes back, so reading it at the query makes a run prompt. */
  lemma ClockAtQueryIsPrompt(sha: Sha256, ss: seq<System>, es: seq<Event>)
    requires Run(sha, ss, es) && ReadsClockAtQuery(ss, es)
    ensures Prompt(es)
  {
    forall a, b | 0 <= a < b < |es| && CollectsAt(es[a]).Some? && LooksUpAt(es[b]).Some?
      ensures CollectsAt(es[a]).value <= UnnoticedUntil(LooksUpAt(es[b]).value)
    {
      ClockAdvances(sha, ss, es, a, b);
    }
  }
}

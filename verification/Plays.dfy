/**
 A play: one party's steps taken one after the other, nobody else interfering.  The imperative
 methods are proved to be plays; module Sequential ties plays to runs.
 */
module Plays {
  import opened Wrappers
  import opened Tables
  import opened Protocol

  /** Where `steps` lead under the step function `next`, if they can be taken. */
  ghost function Play<S, Step>(next: (Tables, S, Step) -> Option<Effect<S>>, t: Tables, s: S, steps: seq<Step>): Option<(Tables, S)>
    decreases |steps|
  {
    if steps == [] then Some((t, s))
    else
      var before := Play(next, t, s, steps[..|steps| - 1]);
      if before.None? then None
      else
        var effect := next(before.value.0, before.value.1, steps[|steps| - 1]);
        if effect.None? then None
        else Some((Commit(before.value.0, effect.value.stmt), effect.value.next))
  }

  /** One step more. */
  lemma PlayOne<S, Step>(next: (Tables, S, Step) -> Option<Effect<S>>, t: Tables, s: S, steps: seq<Step>,
                         before: (Tables, S), step: Step, effect: Effect<S>)
    requires Play(next, t, s, steps) == Some(before)
    requires next(before.0, before.1, step) == Some(effect)
    ensures Play(next, t, s, steps + [step]) == Some((Commit(before.0, effect.stmt), effect.next))
  {
    assert (steps + [step])[..|steps|] == steps;
  }

  /** One step less. */
  lemma PlayInit<S, Step>(next: (Tables, S, Step) -> Option<Effect<S>>, t: Tables, s: S, first: seq<Step>, last: Step)
    requires Play(next, t, s, first + [last]).Some?
    ensures Play(next, t, s, first).Some?
    ensures next(Play(next, t, s, first).value.0, Play(next, t, s, first).value.1, last).Some?
  {
    assert (first + [last])[..|first|] == first;
  }

  /** A play of a source, and of a handler whose step numbers are left out. */
  ghost function SourcePlay(t: Tables, src: Source, steps: seq<SourceStep>): Option<(Tables, Source)>
  {
    Play(SourceNext, t, src, steps)
  }

  ghost function HandlerMove(t: Tables, h: Handler, step: HandlerStep): Option<Effect<Handler>>
  {
    HandlerNext(t, h, 0, step)
  }

  ghost function HandlerPlay(t: Tables, h: Handler, steps: seq<HandlerStep>): Option<(Tables, Handler)>
  {
    Play(HandlerMove, t, h, steps)
  }

  lemma HandlerStepOn(t: Tables, h: Handler, steps: seq<HandlerStep>, before: (Tables, Handler),
                      step: HandlerStep, stmt: Option<Stmt>, after: Handler)
    requires HandlerPlay(t, h, steps) == Some(before)
    requires HandlerNext(before.0, before.1, 0, step) == Some(Effect(stmt, after))
    ensures HandlerPlay(t, h, steps + [step]) == Some((Commit(before.0, stmt), after))
  {
    PlayOne(HandlerMove, t, h, steps, before, step, Effect(stmt, after));
  }
}

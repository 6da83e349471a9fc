/**
 `Save` fills a source's cache and not its handle (token.go).  Which sources have a token and no
 handle, what they can still do, and what that means for the row they saved.
 */
module Handles {
  import opened Wrappers
  import opened Tables
  import opened Protocol
  import opened Pkce
  import Rows
  import RefreshTokens
  import Coherence

  /** A token is cached, and there is no handle to write it through. */
  predicate Handleless(src: Source)
  {
    src.token.Some? && src.character.None?
  }

  /** The row a source is about to save. */
  function SavedRow(src: Source, at: Instant): CharacterRow
    requires src.pc.SaveLocated?
  {
    NewRow(src.profile, src.pc.claims, src.pc.got, src.pc.data, at)
  }

  /** At this event source `k` completes a `Save`. */
  ghost predicate Saves(s: System, e: Event, k: nat)
  {
    && e.SourceDoes? && e.s == k && e.sstep.SaveCreate? && e.sstep.ok
    && k in s.sources && s.sources[k].pc.SaveLocated?
    && Exec(s.t, UpsertCharacter(e.sstep.id, SavedRow(s.sources[k], e.sstep.at))).Ok?
  }

  // ---- Which sources have no handle ----

  /** A source looks its character up only when it has neither token nor handle, and loads only an empty cache. */
  predicate LooksUpNothing(src: Source)
  {
    && (src.pc in {Lookup, ProfileKnown} ==> src.token.None? && src.character.None?)
    && (src.pc == Loading ==> src.token.None?)
  }

  lemma LookupStep(t: Tables, src: Source, step: SourceStep)
    requires SourceNext(t, src, step).Some? && LooksUpNothing(src)
    ensures LooksUpNothing(SourceNext(t, src, step).value.next)
  {
  }

  lemma {:induction false} LooksUpEmpty(sha: Sha256, ss: seq<System>, es: seq<Event>, i: nat, k: nat)
    requires Run(sha, ss, es) && i <= |es| && k in ss[i].sources
    ensures LooksUpNothing(ss[i].sources[k])
  {
    if i > 0 {
      RunStep(sha, ss, es, i - 1);
      Rows.SourceMoves(sha, ss[i - 1], es[i - 1], k);
      if k in ss[i - 1].sources {
        LooksUpEmpty(sha, ss, es, i - 1, k);
        if es[i - 1].SourceDoes? && es[i - 1].s == k {
          LookupStep(ss[i - 1].t, ss[i - 1].sources[k], es[i - 1].sstep);
        }
      }
    }
  }

  /** A source's own step takes it into this state, or leaves it there, exactly so. */
  lemma HandlelessStep(t: Tables, src: Source, step: SourceStep)
    requires SourceNext(t, src, step).Some? && LooksUpNothing(src)
    ensures Handleless(SourceNext(t, src, step).value.next) <==>
      || Handleless(src)
      || (src.character.None? && step.SaveCreate? && step.ok && src.pc.SaveLocated?
          && Exec(t, UpsertCharacter(step.id, SavedRow(src, step.at))).Ok?)
  {
  }

  lemma HandlelessNext(sha: Sha256, ss: seq<System>, es: seq<Event>, i: nat, k: nat)
    requires Run(sha, ss, es) && i < |es| && k in ss[i + 1].sources
    ensures Handleless(ss[i + 1].sources[k]) <==>
      k in ss[i].sources && (Handleless(ss[i].sources[k]) || (Saves(ss[i], es[i], k) && ss[i].sources[k].character.None?))
  {
    RunStep(sha, ss, es, i);
    Rows.SourceMoves(sha, ss[i], es[i], k);
    if es[i].SourceDoes? && es[i].s == k {
      LooksUpEmpty(sha, ss, es, i, k);
      HandlelessStep(ss[i].t, ss[i].sources[k], es[i].sstep);
    }
  }

  /** Source `k` completed a `Save` while it had no handle. */
  ghost predicate SavedWithout(ss: seq<System>, es: seq<Event>, a: nat, k: nat)
    requires |ss| == |es| + 1
  {
    a < |es| && Saves(ss[a], es[a], k) && ss[a].sources[k].character.None?
  }

  /** In every run: a source has a token and no handle exactly if it ever completed a `Save` without a handle. */
  lemma {:induction false} HandlelessExactly(sha: Sha256, ss: seq<System>, es: seq<Event>, i: nat, k: nat)
    requires Run(sha, ss, es) && i <= |es| && k in ss[i].sources
    ensures Handleless(ss[i].sources[k]) <==> exists a :: 0 <= a < i && SavedWithout(ss, es, a, k)
  {
    if i > 0 {
      HandlelessNext(sha, ss, es, i - 1, k);
      RunStep(sha, ss, es, i - 1);
      if k in ss[i - 1].sources {
        HandlelessExactly(sha, ss, es, i - 1, k);
        if SavedWithout(ss, es, i - 1, k) {
          assert Handleless(ss[i].sources[k]);
        }
      } else {
        SourcesStay(sha, ss, es, i - 1, k);
      }
    }
  }

  /** A source that is not there has not saved anything. */
  lemma {:induction false} SourcesStay(sha: Sha256, ss: seq<System>, es: seq<Event>, i: nat, k: nat)
    requires Run(sha, ss, es) && i <= |es| && k !in ss[i].sources
    ensures forall a :: 0 <= a <= i ==> k !in ss[a].sources
  {
    if i > 0 {
      RunStep(sha, ss, es, i - 1);
      assert k !in ss[i - 1].sources;
      SourcesStay(sha, ss, es, i - 1, k);
    }
  }

  /** And then it has none for the rest of the run. */
  lemma {:induction false} HandlelessStays(sha: Sha256, ss: seq<System>, es: seq<Event>, i: nat, j: nat, k: nat)
    requires Run(sha, ss, es) && i <= j <= |es| && k in ss[i].sources && Handleless(ss[i].sources[k])
    ensures k in ss[j].sources && Handleless(ss[j].sources[k])
  {
    if i < j {
      HandlelessStays(sha, ss, es, i, j - 1, k);
      RunStep(sha, ss, es, j - 1);
      assert k in ss[j].sources;
      HandlelessNext(sha, ss, es, j - 1, k);
    }
  }

  /**
   Such a source never again updates a row: none of its later events commits anything but another
   `Save`.  So no refresh token it is given in exchange for the saved one is ever stored by it.
   */
  lemma HandlelessUpdatesNothing(sha: Sha256, ss: seq<System>, es: seq<Event>, i: nat, j: nat, k: nat)
    requires Run(sha, ss, es) && i <= j < |es| && k in ss[i].sources && Handleless(ss[i].sources[k])
    requires es[j].SourceDoes? && es[j].s == k
    ensures Enabled(sha, ss[j], es[j])
    ensures Committed(sha, ss[j], es[j]).Some? ==> Committed(sha, ss[j], es[j]).value.UpsertCharacter?
  {
    HandlelessStays(sha, ss, es, i, j, k);
    RunStep(sha, ss, es, j);
    if Committed(sha, ss[j], es[j]).Some? {
      Rows.WhoWrites(sha, ss[j], es[j]);
    }
  }

  lemma {:induction false} HandleStays(sha: Sha256, ss: seq<System>, es: seq<Event>, i: nat, j: nat, k: nat)
    requires Run(sha, ss, es) && i <= j <= |es| && k in ss[i].sources && ss[i].sources[k].character.Some?
    ensures k in ss[j].sources && ss[j].sources[k].character == ss[i].sources[k].character
  {
    if i < j {
      HandleStays(sha, ss, es, i, j - 1, k);
      RunStep(sha, ss, es, j - 1);
      assert k in ss[j].sources;
      Rows.SourceMoves(sha, ss[j - 1], es[j - 1], k);
      LooksUpEmpty(sha, ss, es, j - 1, k);
    }
  }

  // ---- What becomes of the saved row ----

  /** The event neither removes row `c` nor writes one of its tokens. */
  ghost predicate Spares(sha: Sha256, s: System, e: Event, c: Id)
  {
    Enabled(sha, s, e) ==>
      Committed(sha, s, e).None? || !Coherence.Concerns(s.t, Committed(sha, s, e).value, c)
  }

  lemma SparedStep(sha: Sha256, s: System, e: Event, c: Id)
    requires Enabled(sha, s, e) && Spares(sha, s, e, c) && c in s.t.characters
    ensures var s' := Apply(sha, s, e).value;
      c in s'.t.characters && s'.t.characters[c].refreshToken == s.t.characters[c].refreshToken
  {
    if Committed(sha, s, e).Some? {
      Rows.CommittedSucceeds(sha, s, e);
      Coherence.Unconcerned(s.t, Committed(sha, s, e).value, c);
    }
  }

  lemma {:induction false} Spared(sha: Sha256, ss: seq<System>, es: seq<Event>, i: nat, j: nat, c: Id)
    requires Run(sha, ss, es) && i <= j <= |es| && c in ss[i].t.characters
    requires forall n :: i <= n < j ==> Spares(sha, ss[n], es[n], c)
    ensures c in ss[j].t.characters && ss[j].t.characters[c].refreshToken == ss[i].t.characters[c].refreshToken
  {
    if i < j {
      Spared(sha, ss, es, i, j - 1, c);
      RunStep(sha, ss, es, j - 1);
      SparedStep(sha, ss[j - 1], es[j - 1], c);
    }
  }

  lemma {:induction false} LiveUntilRotated(sha: Sha256, ss: seq<System>, es: seq<Event>, i: nat, j: nat, r: string)
    requires Run(sha, ss, es) && i <= j <= |es| && r in ss[i].server.live
    requires forall n :: i <= n < j ==> !RefreshTokens.Rotates(ss[n], es[n], r)
    ensures r in ss[j].server.live
  {
    if i < j {
      LiveUntilRotated(sha, ss, es, i, j - 1, r);
      RefreshTokens.ServerIsSound(sha, ss, es, j - 1);
      RunStep(sha, ss, es, j - 1);
      RefreshTokens.LiveStays(sha, ss[j - 1], es[j - 1], r);
    }
  }

  /** The row a completed `Save` lands in, with the saved token. */
  lemma SaveLands(sha: Sha256, ss: seq<System>, es: seq<Event>, a: nat, k: nat)
    requires Run(sha, ss, es) && a < |es| && Saves(ss[a], es[a], k)
    ensures var c := UpsertTarget(ss[a].t, es[a].sstep.id, SavedRow(ss[a].sources[k], es[a].sstep.at));
      && c in ss[a + 1].t.characters
      && ss[a + 1].t.characters[c].refreshToken == ss[a].sources[k].pc.got.refresh
      && k in ss[a + 1].sources && ss[a + 1].sources[k].token == Some(ss[a].sources[k].pc.got)
      && ss[a + 1].sources[k].character == ss[a].sources[k].character
  {
    RunStep(sha, ss, es, a);
  }

  /** A rotation gives the source a live token, and the one it presented is dead. */
  lemma RotationRevokes(sha: Sha256, ss: seq<System>, es: seq<Event>, b: nat, k: nat, access: string, rotated: string)
    requires Run(sha, ss, es) && b < |es| && es[b] == SourceDoes(k, Refresh(access, Some(rotated)))
    ensures k in ss[b].sources && ss[b].sources[k].token.Some?
    ensures var presented := ss[b].sources[k].token.value.refresh; var v := ss[b + 1].server;
      && rotated in v.live && presented in v.issued && presented !in v.live
      && ss[b + 1].t == ss[b].t && k in ss[b + 1].sources
      && ss[b + 1].sources[k] == ss[b].sources[k].(pc := Received(Token(access, rotated)))
  {
    RefreshTokens.ServerIsSound(sha, ss, es, b);
    RunStep(sha, ss, es, b);
  }

  lemma StoresThroughHandle(sha: Sha256, ss: seq<System>, es: seq<Event>, d: nat, k: nat, at: Instant, ok: bool, c: Id)
    requires Run(sha, ss, es) && d < |es| && es[d] == SourceDoes(k, StoreRefresh(at, ok))
    requires k in ss[d].sources && ss[d].sources[k].pc.Received? && ss[d].sources[k].token.Some?
    requires c in ss[d].t.characters && ss[d].t.characters[c].refreshToken == ss[d].sources[k].token.value.refresh
    requires ss[d].sources[k].pc.got.refresh != ss[d].sources[k].token.value.refresh
    ensures c in ss[d + 1].t.characters && ss[d + 1].server == ss[d].server
    ensures ss[d + 1].t.characters[c].refreshToken ==
      if ok && ss[d].sources[k].character == Some(c) then ss[d].sources[k].pc.got.refresh
      else ss[d].sources[k].token.value.refresh
  {
    RunStep(sha, ss, es, d);
  }

  /** A source that takes no step stays as it is. */
  lemma {:induction false} Waits(sha: Sha256, ss: seq<System>, es: seq<Event>, i: nat, j: nat, k: nat)
    requires Run(sha, ss, es) && i <= j <= |es| && k in ss[i].sources
    requires forall n :: i <= n < j ==> !(es[n].SourceDoes? && es[n].s == k)
    ensures k in ss[j].sources && ss[j].sources[k] == ss[i].sources[k]
  {
    if i < j {
      Waits(sha, ss, es, i, j - 1, k);
      RunStep(sha, ss, es, j - 1);
    }
  }

  lemma RotationSpares(sha: Sha256, ss: seq<System>, es: seq<Event>, b: nat, c: Id)
    requires Run(sha, ss, es) && b < |es| && es[b].SourceDoes? && es[b].sstep.Refresh?
    ensures Spares(sha, ss[b], es[b], c)
  {
    RunStep(sha, ss, es, b);
  }

  /**
   A row `c` whose token a source has cached, after that token has been rotated at `b` and the
   write of the new one has succeeded or failed at `d`, with anything in between that spares the
   row and does not use up the new token: it is usable exactly if the write succeeded and went to
   this row.
   */
  lemma RotatedThenWritten(sha: Sha256, ss: seq<System>, es: seq<Event>, b: nat, d: nat, k: nat, c: Id,
                           access: string, rotated: string, at: Instant, ok: bool)
    requires Run(sha, ss, es) && b < d < |es|
    requires es[b] == SourceDoes(k, Refresh(access, Some(rotated))) && es[d] == SourceDoes(k, StoreRefresh(at, ok))
    requires k in ss[b].sources && ss[b].sources[k].token.Some? && c in ss[b].t.characters
    requires ss[b].sources[k].token.value.refresh == ss[b].t.characters[c].refreshToken
    requires forall n :: b < n < d ==> !(es[n].SourceDoes? && es[n].s == k)
    requires forall n :: b < n < d ==> Spares(sha, ss[n], es[n], c) && !RefreshTokens.Rotates(ss[n], es[n], rotated)
    ensures c in ss[d + 1].t.characters
    ensures ss[d + 1].t.characters[c].refreshToken in ss[d + 1].server.live <==>
            ok && ss[b].sources[k].character == Some(c)
  {
    RotationRevokes(sha, ss, es, b, k, access, rotated);
    Spared(sha, ss, es, b + 1, d, c);
    var presented := ss[b].sources[k].token.value.refresh;
    RefreshTokens.RevokedForGood(sha, ss, es, b + 1, d, presented);
    LiveUntilRotated(sha, ss, es, b + 1, d, rotated);
    Waits(sha, ss, es, b + 1, d, k);
    StoresThroughHandle(sha, ss, es, d, k, at, ok, c);
  }

  // ---- A cache that is never reloaded ----

  /** Refresh token `r` is all a source has, and all it is about to store. */
  predicate StuckWith(src: Source, r: string)
  {
    && src.token.Some? && src.token.value.refresh == r
    && (src.pc.Received? || src.pc.Stored? || src.pc.Accepted? ==> src.pc.got.refresh == r)
  }

  lemma StuckStep(sha: Sha256, s: System, k: nat, step: SourceStep, r: string)
    requires Enabled(sha, s, SourceDoes(k, step)) && StuckWith(s.sources[k], r) && LooksUpNothing(s.sources[k])
    requires r !in s.server.live && !Saves(s, SourceDoes(k, step), k)
    ensures StuckWith(Apply(sha, s, SourceDoes(k, step)).value.sources[k], r)
  {
  }

  /**
   In every run: a source whose cached refresh token has been revoked is never given another one,
   unless it completes a `Save`; `Token` loads an empty cache only.  So until then no refresh of
   its ever succeeds, whatever its row holds by now.
   */
  lemma {:induction false} StuckForGood(sha: Sha256, ss: seq<System>, es: seq<Event>, i: nat, j: nat, k: nat, r: string)
    requires Run(sha, ss, es) && i <= j <= |es| && k in ss[i].sources && StuckWith(ss[i].sources[k], r)
    requires r in ss[i].server.issued && r !in ss[i].server.live
    requires forall n :: i <= n < j ==> !Saves(ss[n], es[n], k)
    ensures k in ss[j].sources && StuckWith(ss[j].sources[k], r) && r !in ss[j].server.live
    ensures j < |es| && es[j].SourceDoes? && es[j].s == k ==> !es[j].sstep.Refresh? && !es[j].sstep.RefreshLost?
  {
    RefreshTokens.RevokedForGood(sha, ss, es, i, j, r);
    if i < j {
      StuckForGood(sha, ss, es, i, j - 1, k, r);
      LooksUpEmpty(sha, ss, es, j - 1, k);
      RunStep(sha, ss, es, j - 1);
      if es[j - 1].SourceDoes? && es[j - 1].s == k {
        StuckStep(sha, ss[j - 1], k, es[j - 1].sstep, r);
      }
    }
  }

  /** From a completed `Save` on, the handle stays what it was. */
  lemma HandleAfterSave(sha: Sha256, ss: seq<System>, es: seq<Event>, a: nat, b: nat, k: nat)
    requires Run(sha, ss, es) && a < b <= |es| && Saves(ss[a], es[a], k)
    ensures k in ss[b].sources && ss[b].sources[k].character == ss[a].sources[k].character
  {
    SaveLands(sha, ss, es, a, k);
    if ss[a].sources[k].character.Some? {
      HandleStays(sha, ss, es, a + 1, b, k);
    } else {
      HandlelessStays(sha, ss, es, a + 1, b, k);
    }
  }

  /**
   The row `c` a source saved at moment `a`, after the next rotation of the saved token, received
   at `b` and written at `d`, with anything in between that spares that row and does not use up
   the new token: it is usable exactly if the source already held the handle of that row when it
   saved it.
   */
  lemma SaveNeedsItsHandle(sha: Sha256, ss: seq<System>, es: seq<Event>, a: nat, b: nat, d: nat, k: nat, c: Id,
                           access: string, rotated: string, at: Instant)
    requires Run(sha, ss, es) && a < b < d < |es| && Saves(ss[a], es[a], k)
    requires c == UpsertTarget(ss[a].t, es[a].sstep.id, SavedRow(ss[a].sources[k], es[a].sstep.at))
    requires es[b] == SourceDoes(k, Refresh(access, Some(rotated))) && es[d] == SourceDoes(k, StoreRefresh(at, true))
    requires k in ss[b].sources && ss[b].sources[k].token == Some(ss[a].sources[k].pc.got)
    requires forall n :: b < n < d ==> !(es[n].SourceDoes? && es[n].s == k)
    requires forall n :: a < n < d ==> Spares(sha, ss[n], es[n], c)
    requires forall n :: b < n < d ==> !RefreshTokens.Rotates(ss[n], es[n], rotated)
    ensures c in ss[d + 1].t.characters
    ensures ss[d + 1].t.characters[c].refreshToken in ss[d + 1].server.live <==> ss[a].sources[k].character == Some(c)
  {
    SaveLands(sha, ss, es, a, k);
    Spared(sha, ss, es, a + 1, b, c);
    HandleAfterSave(sha, ss, es, a, b, k);
    RotationRevokes(sha, ss, es, b, k, access, rotated);
    RotationSpares(sha, ss, es, b, c);
    RotatedThenWritten(sha, ss, es, b, d, k, c, access, rotated, at, true);
  }
}

/**
 Verified at write: no access token reaches a row or a caller without having passed
 `validateAccessToken`, although rows are read back with an unverified parse.
 */
module Verification {
  import opened Tables
  import opened Protocol
  import opened Pkce
  import Rows

  ghost predicate RowsVerified(t: Tables, verified: set<string>)
  {
    forall c :: c in t.characters ==> t.characters[c].accessToken in verified
  }

  predicate HandlerVerified(h: Handler, verified: set<string>)
  {
    h.pc == Verified || h.pc == Identified ==> h.token.access in verified
  }

  /** A cached access token is verified or empty; one on its way is not empty, and verified once accepted. */
  predicate SourceVerified(src: Source, verified: set<string>)
  {
    && (src.token.Some? ==> src.token.value.access == "" || src.token.value.access in verified)
    && (src.returned.Some? ==> src.returned.value.access in verified)
    && match src.pc
       case Received(got) => got.access != ""
       case Stored(got) => got.access != ""
       case Accepted(got) => got.access != "" && got.access in verified
       case SaveAccepted(got, _, _) => got.access in verified
       case SaveLocated(got, _, _) => got.access in verified
       case _ => true
  }

  ghost predicate AllVerified(s: System)
  {
    && RowsVerified(s.t, s.hist.verified)
    && (forall k :: k in s.handlers ==> HandlerVerified(s.handlers[k], s.hist.verified))
    && (forall k :: k in s.sources ==> SourceVerified(s.sources[k], s.hist.verified))
  }

  lemma HandlerStepVerified(t: Tables, h: Handler, n: nat, step: HandlerStep, verified: set<string>)
    requires HandlerNext(t, h, n, step).Some? && HandlerVerified(h, verified)
    ensures HandlerVerified(HandlerNext(t, h, n, step).value.next, verified + HandlerVerifies(h, step))
  {
  }

  /** The steps by which a token gets into the cache, and those by which a call goes on from there. */
  predicate Loads(step: SourceStep)
  {
    step.Call? || step.FindProfile? || step.FindCharacter? || step.LoadToken? || step.Reuse? || step.Refresh?
    || step.Save? || step.SaveFindProfile? || step.SaveCreate?
  }

  lemma LoadVerified(t: Tables, src: Source, step: SourceStep, verified: set<string>)
    requires SourceNext(t, src, step).Some? && SourceVerified(src, verified) && RowsVerified(t, verified) && Loads(step)
    ensures SourceVerified(SourceNext(t, src, step).value.next, verified + SourceVerifies(src, step))
  {
  }

  lemma UseVerified(t: Tables, src: Source, step: SourceStep, verified: set<string>)
    requires SourceNext(t, src, step).Some? && SourceVerified(src, verified) && !Loads(step)
    ensures SourceVerified(SourceNext(t, src, step).value.next, verified + SourceVerifies(src, step))
  {
  }

  lemma AccessAfter(t: Tables, q: Stmt, c: Id)
    requires Exec(t, q).Ok? && c in Exec(t, q).value.characters
    ensures var access := Exec(t, q).value.characters[c].accessToken;
      || (c in t.characters && access == t.characters[c].accessToken)
      || (q.SetAccessToken? && access == q.token)
      || (q.UpsertCharacter? && access == q.row.accessToken)
  {
  }

  /** Whoever writes an access token has had it verified. */
  lemma WrittenIsVerified(sha: Sha256, s: System, e: Event)
    requires Enabled(sha, s, e) && AllVerified(s) && Committed(sha, s, e).Some?
    ensures var q := Committed(sha, s, e).value;
      && (q.SetAccessToken? ==> q.token in s.hist.verified)
      && (q.UpsertCharacter? ==> q.row.accessToken in s.hist.verified)
  {
    Rows.WhoWrites(sha, s, e);
  }

  lemma RowsStepVerified(sha: Sha256, s: System, e: Event)
    requires Enabled(sha, s, e) && AllVerified(s)
    ensures RowsVerified(Apply(sha, s, e).value.t, s.hist.verified)
  {
    if Committed(sha, s, e).Some? {
      var q := Committed(sha, s, e).value;
      Rows.CommittedSucceeds(sha, s, e);
      WrittenIsVerified(sha, s, e);
      forall c | c in Exec(s.t, q).value.characters ensures Exec(s.t, q).value.characters[c].accessToken in s.hist.verified {
        AccessAfter(s.t, q, c);
      }
    }
  }

  lemma StepVerified(sha: Sha256, s: System, e: Event)
    requires Enabled(sha, s, e) && AllVerified(s)
    ensures AllVerified(Apply(sha, s, e).value)
  {
    RowsStepVerified(sha, s, e);
    if e.HandlerDoes? {
      HandlerStepVerified(s.t, s.handlers[e.h], s.steps, e.hstep, s.hist.verified);
    } else if e.SourceDoes? {
      if Loads(e.sstep) {
        LoadVerified(s.t, s.sources[e.s], e.sstep, s.hist.verified);
      } else {
        UseVerified(s.t, s.sources[e.s], e.sstep, s.hist.verified);
      }
    }
  }

  lemma {:induction false} ReachableVerified(sha: Sha256, ss: seq<System>, es: seq<Event>, i: nat)
    requires Run(sha, ss, es) && i <= |es|
    ensures AllVerified(ss[i])
  {
    if i > 0 {
      ReachableVerified(sha, ss, es, i - 1);
      RunStep(sha, ss, es, i - 1);
      StepVerified(sha, ss[i - 1], es[i - 1]);
    }
  }

  /** At moment `a` of the run `validateAccessToken` accepts the access token `token`. */
  ghost predicate ValidatedAt(ss: seq<System>, es: seq<Event>, a: nat, token: string)
    requires |ss| == |es| + 1
  {
    && a < |es|
    && match es[a]
       case HandlerDoes(k, Verify(jt)) => jt.Some? && k in ss[a].handlers && ss[a].handlers[k].token.access == token
       case SourceDoes(k, Validate(ok)) =>
         ok && k in ss[a].sources && ss[a].sources[k].pc.Stored? && ss[a].sources[k].pc.got.access == token
       case SourceDoes(_, Save(saved, jt, _)) => jt.Some? && saved.access == token
       case _ => false
  }

  /** The record of verified tokens grows only when `validateAccessToken` succeeds. */
  lemma {:induction false} VerifiedWasValidated(sha: Sha256, ss: seq<System>, es: seq<Event>, i: nat, token: string)
    requires Run(sha, ss, es) && i <= |es| && token in ss[i].hist.verified
    ensures exists a :: 0 <= a < i && ValidatedAt(ss, es, a, token)
  {
    if i > 0 {
      RunStep(sha, ss, es, i - 1);
      if token in ss[i - 1].hist.verified {
        VerifiedWasValidated(sha, ss, es, i - 1, token);
      } else {
        assert token in Verifies(sha, ss[i - 1], es[i - 1]);
        assert ValidatedAt(ss, es, i - 1, token);
      }
    }
  }

  /**
   Over whole runs from an empty store, whatever is stored, re-read, cached, saved or lost on
   the way: the access token in a row passed validation at an earlier moment of the run.
   */
  lemma StoredTokensWereValidated(sha: Sha256, ss: seq<System>, es: seq<Event>, i: nat, c: Id)
    requires Run(sha, ss, es) && i <= |es| && c in ss[i].t.characters
    ensures exists a :: 0 <= a < i && ValidatedAt(ss, es, a, ss[i].t.characters[c].accessToken)
  {
    ReachableVerified(sha, ss, es, i);
    VerifiedWasValidated(sha, ss, es, i, ss[i].t.characters[c].accessToken);
  }

  /** And so did every token a call of `Token` returned. */
  lemma ReturnedTokensWereValidated(sha: Sha256, ss: seq<System>, es: seq<Event>, i: nat, k: nat)
    requires Run(sha, ss, es) && i <= |es| && k in ss[i].sources && ss[i].sources[k].returned.Some?
    ensures exists a :: 0 <= a < i && ValidatedAt(ss, es, a, ss[i].sources[k].returned.value.access)
  {
    ReachableVerified(sha, ss, es, i);
    VerifiedWasValidated(sha, ss, es, i, ss[i].sources[k].returned.value.access);
  }
}

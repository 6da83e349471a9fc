/**
 No identity nobody verified: DataStore.go promises that a store is only ever handed
 identities read out of a token that passed validation.
 */
module Identities {
  import opened Wrappers
  import opened Claims
  import opened Tables
  import opened Protocol
  import opened Pkce
  import Rows

  function IdentityIn(jt: VerifiedJwt): Option<CharacterClaims>
  {
    if ClaimsOf(jt).Ok? then Some(ClaimsOf(jt).value) else None
  }

  /** The identity in the token `validateAccessToken` accepts at an event. */
  function Accepts(e: Event): Option<CharacterClaims>
  {
    match e
    case HandlerDoes(_, Verify(Some(jt))) => IdentityIn(jt)
    case SourceDoes(_, Save(_, Some(jt), _)) => IdentityIn(jt)
    case _ => None
  }

  /** A token with this identity was accepted before moment `i`. */
  ghost predicate Vouched(es: seq<Event>, i: nat, claims: CharacterClaims)
  {
    exists a :: 0 <= a < i && a < |es| && Accepts(es[a]) == Some(claims)
  }

  ghost predicate HandlerVouched(es: seq<Event>, i: nat, h: Handler)
  {
    && (h.pc == Verified && ClaimsOf(h.jt).Ok? ==> Vouched(es, i, ClaimsOf(h.jt).value))
    && (h.pc == Identified ==> Vouched(es, i, h.claims))
  }

  ghost predicate SourceVouched(es: seq<Event>, i: nat, pc: SourcePc)
  {
    && (pc.SaveAccepted? ==> Vouched(es, i, pc.claims))
    && (pc.SaveLocated? ==> Vouched(es, i, pc.claims))
  }

  ghost predicate AllVouched(es: seq<Event>, i: nat, s: System)
  {
    && (forall c :: c in s.t.characters ==> Vouched(es, i, Identity(s.t.characters[c])))
    && (forall k :: k in s.handlers ==> HandlerVouched(es, i, s.handlers[k]))
    && (forall k :: k in s.sources ==> SourceVouched(es, i, s.sources[k].pc))
  }

  lemma VouchedLater(es: seq<Event>, i: nat, claims: CharacterClaims)
    requires Vouched(es, i, claims)
    ensures Vouched(es, i + 1, claims)
  {
    var a :| 0 <= a < i && a < |es| && Accepts(es[a]) == Some(claims);
    assert a < i + 1;
  }

  lemma VouchedNow(es: seq<Event>, i: nat, claims: CharacterClaims)
    requires i < |es| && Accepts(es[i]) == Some(claims)
    ensures Vouched(es, i + 1, claims)
  {
  }

  lemma StepRows(sha: Sha256, es: seq<Event>, i: nat, s: System, c: Id)
    requires i < |es| && Enabled(sha, s, es[i]) && AllVouched(es, i, s)
    requires c in Apply(sha, s, es[i]).value.t.characters
    ensures Vouched(es, i + 1, Identity(Apply(sha, s, es[i]).value.t.characters[c]))
  {
    var e := es[i];
    if Committed(sha, s, e).Some? {
      Rows.CommittedSucceeds(sha, s, e);
      Rows.WhoWrites(sha, s, e);
      RowAfterExec(s.t, Committed(sha, s, e).value, c);
    }
    VouchedLater(es, i, Identity(Apply(sha, s, e).value.t.characters[c]));
  }

  lemma StepHandlers(sha: Sha256, es: seq<Event>, i: nat, s: System, k: nat)
    requires i < |es| && Enabled(sha, s, es[i]) && AllVouched(es, i, s)
    requires k in Apply(sha, s, es[i]).value.handlers
    ensures HandlerVouched(es, i + 1, Apply(sha, s, es[i]).value.handlers[k])
  {
    var h := Apply(sha, s, es[i]).value.handlers[k];
    if es[i] == HandlerDoes(k, Verify(Some(h.jt))) {
      if ClaimsOf(h.jt).Ok? {
        VouchedNow(es, i, ClaimsOf(h.jt).value);
      }
    } else if k in s.handlers {
      if h.pc == Verified && ClaimsOf(h.jt).Ok? {
        VouchedLater(es, i, ClaimsOf(h.jt).value);
      } else if h.pc == Identified {
        VouchedLater(es, i, h.claims);
      }
    }
  }

  /** Claims on their way to the store come from a `Save` just accepted, or were on their way before. */
  lemma SavedClaims(t: Tables, src: Source, step: SourceStep)
    requires SourceNext(t, src, step).Some?
    ensures var pc := SourceNext(t, src, step).value.next.pc;
      pc.SaveAccepted? || pc.SaveLocated? ==>
        || ((src.pc.SaveAccepted? || src.pc.SaveLocated?) && src.pc.claims == pc.claims)
        || (step.Save? && step.jt.Some? && ClaimsOf(step.jt.value) == Ok(pc.claims))
  {
  }

  lemma StepSources(sha: Sha256, es: seq<Event>, i: nat, s: System, k: nat)
    requires i < |es| && Enabled(sha, s, es[i]) && AllVouched(es, i, s)
    requires k in Apply(sha, s, es[i]).value.sources
    ensures SourceVouched(es, i + 1, Apply(sha, s, es[i]).value.sources[k].pc)
  {
    var pc := Apply(sha, s, es[i]).value.sources[k].pc;
    Rows.SourceMoves(sha, s, es[i], k);
    if pc.SaveAccepted? || pc.SaveLocated? {
      if es[i].SourceDoes? && es[i].s == k {
        SavedClaims(s.t, s.sources[k], es[i].sstep);
      }
      if Accepts(es[i]) == Some(pc.claims) {
        VouchedNow(es, i, pc.claims);
      } else {
        assert SourceVouched(es, i, s.sources[k].pc);
        VouchedLater(es, i, pc.claims);
      }
    }
  }

  lemma StepVouched(sha: Sha256, es: seq<Event>, i: nat, s: System)
    requires i < |es| && Enabled(sha, s, es[i]) && AllVouched(es, i, s)
    ensures AllVouched(es, i + 1, Apply(sha, s, es[i]).value)
  {
    var s' := Apply(sha, s, es[i]).value;
    forall c | c in s'.t.characters ensures Vouched(es, i + 1, Identity(s'.t.characters[c])) {
      StepRows(sha, es, i, s, c);
    }
    forall k | k in s'.handlers ensures HandlerVouched(es, i + 1, s'.handlers[k]) {
      StepHandlers(sha, es, i, s, k);
    }
    forall k | k in s'.sources ensures SourceVouched(es, i + 1, s'.sources[k].pc) {
      StepSources(sha, es, i, s, k);
    }
  }

  lemma {:induction false} ReachableVouched(sha: Sha256, ss: seq<System>, es: seq<Event>, i: nat)
    requires Run(sha, ss, es) && i <= |es|
    ensures AllVouched(es, i, ss[i])
  {
    if i > 0 {
      ReachableVouched(sha, ss, es, i - 1);
      RunStep(sha, ss, es, i - 1);
      StepVouched(sha, es, i - 1, ss[i - 1]);
    }
  }

  /**
   Whoever stored it and whatever happened to it since: the identity of a row, its scopes
   included, is the one in a token that was validated at an earlier moment of the run.
   */
  lemma StoredIdentitiesWereVerified(sha: Sha256, ss: seq<System>, es: seq<Event>, i: nat, c: Id)
    requires Run(sha, ss, es) && i <= |es| && c in ss[i].t.characters
    ensures exists a :: 0 <= a < i && Accepts(es[a]) == Some(Identity(ss[i].t.characters[c]))
  {
    ReachableVouched(sha, ss, es, i);
    var a :| 0 <= a < i && a < |es| && Accepts(es[a]) == Some(Identity(ss[i].t.characters[c]));
    assert Accepts(es[a]) == Some(Identity(ss[i].t.characters[c]));
  }
}

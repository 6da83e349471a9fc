/**
 The SSO callback, `ServeHTTP` and its twin in `LocalhostAuth` (autoconfig.go), in imperative
 form: proved to do what Calls.ServeCall says, for every fortune.
 */
module Callback {
  import opened Wrappers
  import opened Claims
  import opened Tables
  import opened Protocol
  import opened Store
  import opened Calls
  import opened Effects

  /** Find the PKCE row and its profile, and delete the row: the part before anything is trusted. */
  method Claim(store: PGStore, code: string, state: Id, f: CallbackFortune) returns (h: Handler, profile: Profile?)
    requires Integrity(store.Snapshot())
    modifies store
    ensures Integrity(store.Snapshot())
    ensures (store.Snapshot(), h) == ClaimCall((old(store.Snapshot()), NewHandler(code, state)), f)
    ensures h.trail == NO_TRAIL
    ensures profile == null <==> ClaimedRow(old(store.Snapshot()), state, f).None?
    ensures profile != null ==> fresh(profile) && profile.store == store && profile.id == h.pkce.profileRef
  {
    ghost var t := store.Snapshot();
    ClaimResult(t, code, state, f);
    profile := null;
    h := NewHandler(code, state);
    var pkce := store.FindPKCE(state, f.findAsOf, f.found);
    if pkce.None? {
      return Abandon(h, Refused), null;
    }
    h := h.(pc := Found, pkceId := pkce.value.id, pkce := pkce.value.row);
    var found := store.GetProfile(pkce.value.row.profileRef, f.profileFound);
    if found == null {
      return Abandon(h, Refused), null;
    }
    ExecKeepsIntegrity(t, DeletePkce(pkce.value.id));
    var destroyed := store.Destroy(pkce.value, f.destroyed);
    if !destroyed {
      return Abandon(h, Refused), null;
    }
    return h.(pc := HandlerPc.Destroyed), found;
  }

  /** Check the age and exchange the code. */
  method Redeem(ghost t: Tables, before: Handler, f: CallbackFortune) returns (h: Handler)
    requires before.pc == Destroyed && before.trail == NO_TRAIL
    ensures (t, h) == RedeemCall((t, before), f)
    ensures (h.pc == Exchanged || h.pc.Finished?) && h.trail == NO_TRAIL
  {
    if f.checkedAt - before.pkce.createdAt > PKCE_LIFETIME {
      return Abandon(before, TimedOut);
    }
    if f.reply.None? {
      return Abandon(before, ExchangeFailed);
    }
    return before.(pc := Exchanged, token := ReplyToken(f.reply.value));
  }

  /** Verify the access token and read the identity out of it. */
  method Identify(ghost t: Tables, before: Handler, f: CallbackFortune) returns (h: Handler)
    requires before.pc == Exchanged && before.trail == NO_TRAIL
    ensures (t, h) == IdentifyCall((t, before), f)
    ensures (h.pc == Identified || h.pc.Finished?) && h.trail == NO_TRAIL
  {
    if f.jt.None? {
      return Abandon(before, NotVerified);
    }
    var claims := NewCharacterClaims(f.jt.value);
    if claims.Err? {
      return Abandon(before.(jt := f.jt.value), BadClaims);
    }
    return before.(pc := Identified, jt := f.jt.value, claims := claims.value);
  }

  /** Store the character and collect expired PKCE rows, whose failure is ignored. */
  method Land(store: PGStore, profile: Profile, before: Handler, f: CallbackFortune) returns (h: Handler)
    requires Integrity(store.Snapshot())
    requires profile.store == store && profile.id == before.pkce.profileRef
    requires before.pc == Identified && before.trail == NO_TRAIL
    modifies store
    ensures (store.Snapshot(), h) == LandCall((old(store.Snapshot()), before), f)
    ensures h.pc == Finished(NotStored) || h.pc == Finished(Completed)
  {
    var data := before.pkce.referenceData;
    var character := profile.CreateCharacter(before.claims, before.token, data, f.uuid, f.createdAt, f.created);
    if character == null {
      return Abandon(before, NotStored);
    }
    var _ := store.CleanPKCE(f.cleanAsOf, f.cleaned);
    return Abandon(before.(landed := Some(character.id)), Completed);
  }

  /**
   A callback completes with PKCE row `p` of its state: it was found when less than five minutes
   old and used when at most five minutes old, it is gone, and the character is stored with the
   row's profile and reference data, the identity validated and the tokens exchanged.
   */
  ghost predicate Completes(t: Tables, t': Tables, state: Id, f: CallbackFortune, p: Id)
    requires p in t.pkces
  {
    && t.pkces[p].state == state && t.pkces[p].profileRef in t.profiles && p !in t'.pkces
    && f.findAsOf - t.pkces[p].createdAt < 300_000_000 && f.checkedAt - t.pkces[p].createdAt <= 300_000_000
    && f.found && f.profileFound && f.destroyed && f.reply.Some? && f.created
    && f.jt.Some? && ClaimsOf(f.jt.value).Ok?
    && var claims := ClaimsOf(f.jt.value).value;
       var row := CharacterRow(t.pkces[p].profileRef, claims.characterId, claims.characterName, claims.owner, claims.scopes,
                               if f.reply.value.refresh.Some? then f.reply.value.refresh.value else "", f.reply.value.access,
                               true, t.pkces[p].referenceData, f.createdAt, f.createdAt);
       && Exec(t, UpsertCharacter(f.uuid, row)).Ok?
       && t'.characters == Exec(t, UpsertCharacter(f.uuid, row)).value.characters
  }

  /** What completion means. */
  lemma CompletedSo(t: Tables, code: string, state: Id, f: CallbackFortune) returns (p: Id)
    requires OutcomeOf(t, state, f) == Completed
    ensures p in t.pkces && Completes(t, ServeCall(t, code, state, f).0, state, f, p)
  {
    ServeResult(t, code, state, f);
    p := ClaimedRow(t, state, f).value;
    PkceByState(t, state, f.findAsOf, p);
  }

  /**
   One callback from request to response: the tables afterwards are those of Calls.ServeCall, and
   the outcome is the first failure in the order of the code, or completion; Calls.ServeResult
   spells out what that does to the tables.
   */
  method ServeHTTP(store: PGStore, code: string, state: Id, f: CallbackFortune) returns (outcome: Outcome)
    requires Integrity(store.Snapshot())
    modifies store
    ensures store.Snapshot() == ServeCall(old(store.Snapshot()), code, state, f).0
    ensures ServeCall(old(store.Snapshot()), code, state, f).1.pc == Finished(outcome)
    ensures outcome == OutcomeOf(old(store.Snapshot()), state, f)
    ensures !(f.found && f.profileFound && f.destroyed) ==> outcome == Refused && store.Snapshot() == old(store.Snapshot())
    ensures outcome != Completed ==> store.characters == old(store.characters)
    ensures outcome == Completed ==>
      exists p :: p in old(store.pkces) && Completes(old(store.Snapshot()), store.Snapshot(), state, f, p)
  {
    if OutcomeOf(store.Snapshot(), state, f) == Completed {
      ghost var p := CompletedSo(store.Snapshot(), code, state, f);
    }
    ServeResult(store.Snapshot(), code, state, f);
    ClaimResult(store.Snapshot(), code, state, f);
    var claimed, profile := Claim(store, code, state, f);
    if profile == null {
      Answered((store.Snapshot(), claimed), f);
      return Refused;
    }
    var redeemed := Redeem(store.Snapshot(), claimed, f);
    if redeemed.pc.Finished? {
      Answered((store.Snapshot(), redeemed), f);
      return redeemed.pc.outcome;
    }
    var identified := Identify(store.Snapshot(), redeemed, f);
    if identified.pc.Finished? {
      Answered((store.Snapshot(), identified), f);
      return identified.pc.outcome;
    }
    AuthenticateResult((store.Snapshot(), claimed), f);
    var landed := Land(store, profile, identified, f);
    return landed.pc.outcome;
  }
}

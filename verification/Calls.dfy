/**
 What one call of `Token` or `Save` (token.go) or one callback (autoconfig.go) comes to when
 nobody interferes, as a function of the state and of everything the code does not decide: the
 protocol's steps in the order of the code, each taken if it is its turn.
 */
module Calls {
  import opened Wrappers
  import opened Claims
  import opened Tables
  import opened Protocol
  import opened Plays
  import opened Effects

  /** What oauth2 gives for the cached token; a lost response is an error like any other. */
  datatype Answer = Reused | Granted(access: string, rotated: Option<string>) | RetrieveError | OtherError

  /** Everything about one call of `Token` that the code does not decide. */
  datatype TokenFortune = TokenFortune(
    profileFound: bool, characterFound: bool, loaded: bool, parses: bool,
    answer: Answer,
    marked: bool, refreshStored: bool, valid: bool, accessStored: bool,
    at: Instant)

  /** And of `Save`; `jt` is what validation made of the token. */
  datatype SaveFortune = SaveFortune(jt: Option<VerifiedJwt>, profileFound: bool, uuid: Id, at: Instant, stored: bool)

  /** And of a callback. */
  datatype CallbackFortune = CallbackFortune(
    findAsOf: Instant, found: bool, profileFound: bool, destroyed: bool,
    checkedAt: Instant,
    reply: Option<Reply>, jt: Option<VerifiedJwt>,
    uuid: Id, createdAt: Instant, created: bool,
    cleanAsOf: Instant, cleaned: bool)

  // ---- Token ----

  /** A step if it is the source's turn to take it; otherwise nothing. */
  ghost function Try(x: (Tables, Source), step: SourceStep): (Tables, Source)
  {
    var effect := SourceNext(x.0, x.1, step);
    if effect.None? then x else (Commit(x.0, effect.value.stmt), effect.value.next)
  }

  /** `GetCharacter`. */
  ghost function LookupCall(x: (Tables, Source), f: TokenFortune): (Tables, Source)
  {
    Try(Try(x, FindProfile(f.profileFound)), FindCharacter(f.characterFound))
  }

  /** The cache is filled, if it is empty. */
  ghost function LoadCall(x: (Tables, Source), f: TokenFortune): (Tables, Source)
  {
    Try(LookupCall(Try(x, Call), f), LoadToken(f.loaded, f.parses))
  }

  function AnswerStep(answer: Answer): SourceStep
  {
    match answer
    case Reused => Reuse
    case Granted(access, rotated) => Refresh(access, rotated)
    case RetrieveError => RefreshRejected
    case OtherError => RefreshFailed
  }

  /** oauth2 answers; an answer without an access token is an error. */
  ghost function AnswerCall(x: (Tables, Source), f: TokenFortune): (Tables, Source)
  {
    Try(Try(Try(x, AnswerStep(f.answer)), RefreshFailed), MarkInactive(f.at, f.marked))
  }

  /** What is left to do with a token received. */
  ghost function EndingCall(x: (Tables, Source), f: TokenFortune): (Tables, Source)
  {
    Try(Try(Try(x, StoreRefresh(f.at, f.refreshStored)), Validate(f.valid)), StoreAccess(f.at, f.accessStored))
  }

  /** The rest of a call that oauth2 gave the token `got`. */
  ghost function Ending(t: Tables, src: Source, got: Token, f: TokenFortune): (Tables, Source)
  {
    EndingCall((t, src.(pc := Received(got))), f)
  }

  ghost function UseCall(x: (Tables, Source), f: TokenFortune): (Tables, Source)
  {
    EndingCall(AnswerCall(x, f), f)
  }

  ghost function TokenCall(t: Tables, src: Source, f: TokenFortune): (Tables, Source)
  {
    UseCall(LoadCall((t, src), f), f)
  }

  /** A call that has returned does nothing more. */
  lemma NothingLeft(x: (Tables, Source), f: TokenFortune)
    requires x.1.pc == Idle
    ensures AnswerCall(x, f) == x && EndingCall(x, f) == x && UseCall(x, f) == x
  {
  }

  lemma PlayTry(t: Tables, src: Source, steps: seq<SourceStep>, x: (Tables, Source), step: SourceStep)
    returns (steps': seq<SourceStep>, x': (Tables, Source))
    requires SourcePlay(t, src, steps) == Some(x)
    ensures x' == Try(x, step) && SourcePlay(t, src, steps') == Some(x')
  {
    steps', x' := steps, Try(x, step);
    if SourceNext(x.0, x.1, step).Some? {
      PlayOne(SourceNext, t, src, steps, x, step, SourceNext(x.0, x.1, step).value);
      steps' := steps + [step];
    }
  }

  lemma EndingPlays(t: Tables, src: Source, steps: seq<SourceStep>, x: (Tables, Source), f: TokenFortune)
    returns (steps': seq<SourceStep>)
    requires SourcePlay(t, src, steps) == Some(x)
    ensures SourcePlay(t, src, steps') == Some(EndingCall(x, f))
  {
    var x': (Tables, Source);
    steps', x' := PlayTry(t, src, steps, x, StoreRefresh(f.at, f.refreshStored));
    steps', x' := PlayTry(t, src, steps', x', Validate(f.valid));
    steps', x' := PlayTry(t, src, steps', x', StoreAccess(f.at, f.accessStored));
  }

  lemma AnswerPlays(t: Tables, src: Source, steps: seq<SourceStep>, x: (Tables, Source), f: TokenFortune)
    returns (steps': seq<SourceStep>)
    requires SourcePlay(t, src, steps) == Some(x)
    ensures SourcePlay(t, src, steps') == Some(AnswerCall(x, f))
  {
    var x': (Tables, Source);
    steps', x' := PlayTry(t, src, steps, x, AnswerStep(f.answer));
    steps', x' := PlayTry(t, src, steps', x', RefreshFailed);
    steps', x' := PlayTry(t, src, steps', x', MarkInactive(f.at, f.marked));
  }

  lemma LoadPlays(t: Tables, src: Source, f: TokenFortune) returns (steps: seq<SourceStep>)
    ensures SourcePlay(t, src, steps) == Some(LoadCall((t, src), f))
  {
    var x: (Tables, Source);
    steps, x := PlayTry(t, src, [], (t, src), Call);
    steps, x := PlayTry(t, src, steps, x, FindProfile(f.profileFound));
    steps, x := PlayTry(t, src, steps, x, FindCharacter(f.characterFound));
    steps, x := PlayTry(t, src, steps, x, LoadToken(f.loaded, f.parses));
  }

  /** A call is a play: its steps are steps of the protocol. */
  lemma TokenCallPlays(t: Tables, src: Source, f: TokenFortune) returns (steps: seq<SourceStep>)
    ensures SourcePlay(t, src, steps) == Some(TokenCall(t, src, f))
  {
    var loaded := LoadCall((t, src), f);
    steps := LoadPlays(t, src, f);
    steps := AnswerPlays(t, src, steps, loaded, f);
    steps := EndingPlays(t, src, steps, AnswerCall(loaded, f), f);
  }

  // ---- What a call of Token returns ----

  /** The handle a call with an empty cache works with. */
  ghost function HandleOf(t: Tables, src: Source, f: TokenFortune): Option<Id>
  {
    if src.character.Some? then src.character
    else if f.profileFound && src.profile in t.profiles && f.characterFound then
      TheOnly(ProfileMatches(t, Criteria(0, src.name, ""), src.profile, src.scopes))
    else None
  }

  /**
   A source without a handle finds the one active row of its own profile with its character name
   and, among non-null scopes, all of its scopes; or none.
   */
  lemma HandleFound(t: Tables, src: Source, f: TokenFortune, c: Id)
    requires src.character.None?
    ensures HandleOf(t, src, f) == Some(c) <==>
            && f.profileFound && src.profile in t.profiles && f.characterFound && c in t.characters
            && forall d :: d in t.characters ==>
                 (d == c <==>
                   && t.characters[d].profileRef == src.profile && t.characters[d].active
                   && t.characters[d].scopes.Some? && src.scopes.Some?
                   && (forall x :: x in src.scopes.value ==> x in t.characters[d].scopes.value)
                   && !(src.name != "" && t.characters[d].name != src.name))
  {
    CharacterInProfile(t, Criteria(0, src.name, ""), src.profile, src.scopes, c);
  }

  /** The token a call starts from. */
  ghost function CacheOf(t: Tables, src: Source, f: TokenFortune): Option<Token>
  {
    if src.token.Some? then src.token
    else
      var c := HandleOf(t, src, f);
      if c.Some? && c.value in t.characters && f.loaded then Some(LoadedToken(t.characters[c.value], f.parses)) else None
  }

  /** What oauth2 hands out for a token. */
  function Given(token: Token, answer: Answer): Option<Token>
  {
    match answer
    case Reused => if token.access == "" then None else Some(token)
    case Granted(access, rotated) => if access == "" then None else Some(Refreshed(token, access, rotated))
    case _ => None
  }

  lemma LookupResult(t: Tables, src: Source, f: TokenFortune)
    requires src.pc == Lookup && src.character.None?
    ensures LookupCall((t, src), f) ==
      (t, if HandleOf(t, src, f).None? then Return(src, None) else src.(pc := Loading, character := HandleOf(t, src, f)))
  {
    var found := Try((t, src), FindProfile(f.profileFound));
    var c := TheOnly(ProfileMatches(t, Criteria(0, src.name, ""), src.profile, src.scopes));
    assert Try(found, FindCharacter(f.characterFound)) ==
           if found.1.pc == Idle then found
           else if f.characterFound && c.Some? then (t, found.1.(pc := Loading, character := c))
           else (t, Return(found.1, None));
  }

  lemma LoadResult(t: Tables, src: Source, f: TokenFortune)
    requires src.pc == Idle
    ensures var cache := CacheOf(t, src, f);
      LoadCall((t, src), f) ==
        (t, src.(pc := if cache.Some? then Exchanging else Idle, token := cache, returned := None,
                 character := if src.token.Some? then src.character else HandleOf(t, src, f)))
  {
    var called := Try((t, src), Call);
    if src.token.None? && src.character.None? {
      LookupResult(t, called.1, f);
    } else {
      assert LookupCall(called, f) == called;
    }
  }

  lemma AnswerResult(x: (Tables, Source), f: TokenFortune)
    requires x.1.pc == Exchanging && x.1.token.Some? && x.1.returned.None?
    ensures var y := AnswerCall(x, f); var got := Given(x.1.token.value, f.answer);
      && (got.Some? ==> y == (x.0, x.1.(pc := Received(got.value))))
      && (got.None? ==> y.1 == x.1.(pc := Idle))
      && y.0 == if f.answer == RetrieveError && f.marked && x.1.character.Some?
                then Commit(x.0, Some(SetActive(x.1.character.value, false, f.at))) else x.0
  {
  }

  /** The token a call returns, if it succeeds. */
  function ReturnOf(cache: Token, got: Token, held: bool, f: TokenFortune): Option<Token>
  {
    if got.refresh != cache.refresh && !(f.refreshStored && held) then None
    else if got.access == cache.access then Some(cache)
    else if f.valid && f.accessStored && held then Some(got)
    else None
  }

  lemma EndingResult(t: Tables, src: Source, got: Token, f: TokenFortune)
    requires src.token.Some?
    ensures var r := ReturnOf(src.token.value, got, src.character.Some?, f);
      Ending(t, src, got, f).1 == src.(pc := Idle, returned := r, token := if r.Some? then r else src.token)
  {
  }

  /**
   When `Token` succeeds, and what it returns: there is a token to start from, oauth2 answers
   with one, a changed refresh token is stored, and a changed access token is accepted and
   stored; a handle is needed for either write.  A success is what is cached afterwards, and a
   failure leaves the cache as it was loaded.
   */
  lemma TokenReturns(t: Tables, src: Source, f: TokenFortune)
    requires src.pc == Idle
    ensures var cache := CacheOf(t, src, f); var src' := TokenCall(t, src, f).1;
      && src'.pc == Idle
      && src'.character == (if src.token.Some? then src.character else HandleOf(t, src, f))
      && src'.returned == (if cache.None? || Given(cache.value, f.answer).None? then None
                           else ReturnOf(cache.value, Given(cache.value, f.answer).value, src'.character.Some?, f))
      && src'.token == (if src'.returned.Some? then src'.returned else cache)
  {
    LoadResult(t, src, f);
    var loaded := LoadCall((t, src), f);
    if loaded.1.pc == Idle {
      NothingLeft(loaded, f);
    } else {
      AnswerResult(loaded, f);
      var answered := AnswerCall(loaded, f);
      if answered.1.pc == Idle {
        NothingLeft(answered, f);
      } else {
        EndingResult(t, loaded.1, answered.1.pc.got, f);
      }
    }
  }

  /** What the ending of a call writes to the row of the handle. */
  ghost function EndingWrites(t: Tables, src: Source, got: Token, f: TokenFortune): Tables
    requires src.token.Some?
  {
    var cache, held := src.token.value, src.character.Some?;
    var t1 := if got.refresh != cache.refresh && f.refreshStored && held
              then Commit(t, Some(SetRefreshToken(src.character.value, got.refresh, f.at))) else t;
    if got.access != cache.access && held && ReturnOf(cache, got, held, f).Some?
    then Commit(t1, Some(SetAccessToken(src.character.value, got.access, f.at))) else t1
  }

  lemma EndingTables(t: Tables, src: Source, got: Token, f: TokenFortune)
    requires src.token.Some?
    ensures Ending(t, src, got, f).0 == EndingWrites(t, src, got, f)
  {
  }

  /**
   All a call writes: a rejected token marks the row inactive; otherwise a changed refresh token
   comes first, and a changed access token after it and only if the call succeeds.
   */
  lemma TokenWrites(t: Tables, src: Source, f: TokenFortune)
    requires src.pc == Idle
    ensures var cache := CacheOf(t, src, f); var (t', src') := TokenCall(t, src, f);
      t' == if cache.None? then t
            else if Given(cache.value, f.answer).Some? then
              EndingWrites(t, src'.(token := cache), Given(cache.value, f.answer).value, f)
            else if f.answer == RetrieveError && f.marked && src'.character.Some? then
              Commit(t, Some(SetActive(src'.character.value, false, f.at)))
            else t
  {
    LoadResult(t, src, f);
    TokenReturns(t, src, f);
    var loaded := LoadCall((t, src), f);
    if loaded.1.pc == Idle {
      NothingLeft(loaded, f);
    } else {
      AnswerResult(loaded, f);
      var answered := AnswerCall(loaded, f);
      if answered.1.pc == Idle {
        NothingLeft(answered, f);
      } else {
        EndingTables(t, loaded.1, answered.1.pc.got, f);
      }
    }
  }

  // ---- A call from a filled cache, in columns ----

  /** A cached token that is still valid is returned as it is, and nothing is written. */
  lemma ReusedCall(t: Tables, src: Source, f: TokenFortune)
    requires src.pc == Idle && src.token.Some? && src.token.value.access != "" && f.answer == Reused
    ensures TokenCall(t, src, f) == (t, src.(returned := src.token))
  {
    TokenReturns(t, src, f);
    TokenWrites(t, src, f);
    AnswerResult(LoadCall((t, src), f), f);
    LoadResult(t, src, f);
    EndingResult(t, LoadCall((t, src), f).1, src.token.value, f);
  }

  /** A rejection marks the row inactive if that write succeeds, and any other error writes nothing. */
  lemma FailedCall(t: Tables, src: Source, c: Id, f: TokenFortune)
    requires src.pc == Idle && src.token.Some? && src.character == Some(c) && c in t.characters
    requires f.answer == RetrieveError || f.answer == OtherError
    ensures var (t', src') := TokenCall(t, src, f);
      && src'.returned.None? && src'.token == src.token
      && t' == if f.answer == RetrieveError && f.marked
               then t.(characters := t.characters[c := t.characters[c].(active := false, updatedAt := f.at)]) else t
  {
    TokenReturns(t, src, f);
    TokenWrites(t, src, f);
  }

  /**
   New tokens: the call succeeds exactly if a changed refresh token was stored and a changed access
   token was valid and stored, and the row has exactly what was stored.
   */
  lemma GrantedCall(t: Tables, src: Source, c: Id, access: string, rotated: Option<string>, f: TokenFortune)
    requires src.pc == Idle && src.token.Some? && src.character == Some(c) && c in t.characters
    requires f.answer == Granted(access, rotated) && access != ""
    ensures var (t', src') := TokenCall(t, src, f); var cache, row := src.token.value, t.characters[c];
      var refresh := if rotated.Some? then rotated.value else cache.refresh;
      var kept := refresh == cache.refresh || f.refreshStored;
      && (src'.returned.Some? <==> kept && (access == cache.access || (f.valid && f.accessStored)))
      && (src'.returned.Some? ==> src'.returned.value == if access == cache.access then cache else Token(access, refresh))
      && c in t'.characters
      && t'.characters[c].refreshToken == (if refresh != cache.refresh && f.refreshStored then refresh else row.refreshToken)
      && t'.characters[c].accessToken ==
           (if kept && access != cache.access && f.valid && f.accessStored then access else row.accessToken)
      && t'.characters[c].active == row.active && Identity(t'.characters[c]) == Identity(row)
      && (forall d :: d in t.characters && d != c ==> d in t'.characters && t'.characters[d] == t.characters[d])
      && t'.profiles == t.profiles && t'.pkces == t.pkces
  {
    TokenReturns(t, src, f);
    TokenWrites(t, src, f);
  }

  // ---- Save ----

  ghost function SaveCall(t: Tables, src: Source, token: Token, data: Data, f: SaveFortune): (Tables, Source)
  {
    Try(Try(Try((t, src), Save(token, f.jt, data)), SaveFindProfile(f.profileFound)), SaveCreate(f.uuid, f.at, f.stored))
  }

  lemma SaveCallPlays(t: Tables, src: Source, token: Token, data: Data, f: SaveFortune) returns (steps: seq<SourceStep>)
    ensures SourcePlay(t, src, steps) == Some(SaveCall(t, src, token, data, f))
  {
    var x: (Tables, Source);
    steps, x := PlayTry(t, src, [], (t, src), Save(token, f.jt, data));
    steps, x := PlayTry(t, src, steps, x, SaveFindProfile(f.profileFound));
    steps, x := PlayTry(t, src, steps, x, SaveCreate(f.uuid, f.at, f.stored));
  }

  /** The row a `Save` stores, if the token has passed validation and has an identity. */
  function RowToSave(src: Source, token: Token, data: Data, f: SaveFortune): Option<CharacterRow>
  {
    if f.jt.Some? && ClaimsOf(f.jt.value).Ok? then Some(NewRow(src.profile, ClaimsOf(f.jt.value).value, token, data, f.at))
    else None
  }

  /** When `Save` succeeds, and all it does: the upsert and the cache; the handle stays as it is. */
  lemma SaveStores(t: Tables, src: Source, token: Token, data: Data, f: SaveFortune)
    requires src.pc == Idle
    ensures var row := RowToSave(src, token, data, f);
      SaveCall(t, src, token, data, f) ==
        if row.Some? && f.profileFound && src.profile in t.profiles && f.stored
           && Exec(t, UpsertCharacter(f.uuid, row.value)).Ok?
        then (Exec(t, UpsertCharacter(f.uuid, row.value)).value, src.(token := Some(token)))
        else (t, src)
  {
    var saved := Try((t, src), Save(token, f.jt, data));
    var located := Try(saved, SaveFindProfile(f.profileFound));
    assert located.0 == t;
    assert located.1.pc.SaveLocated? <==> saved.1.pc.SaveAccepted? && f.profileFound && src.profile in t.profiles;
  }

  // ---- Callbacks ----

  ghost function TryMove(x: (Tables, Handler), step: HandlerStep): (Tables, Handler)
  {
    var effect := HandlerMove(x.0, x.1, step);
    if effect.None? then x else (Commit(x.0, effect.value.stmt), effect.value.next)
  }

  /** The part before anything is trusted. */
  ghost function ClaimCall(x: (Tables, Handler), f: CallbackFortune): (Tables, Handler)
  {
    TryMove(TryMove(TryMove(x, Find(f.findAsOf, f.found)), GetProfile(f.profileFound)), Destroy(f.destroyed))
  }

  ghost function RedeemCall(x: (Tables, Handler), f: CallbackFortune): (Tables, Handler)
  {
    TryMove(TryMove(x, CheckAge(f.checkedAt)), Exchange(f.reply))
  }

  ghost function IdentifyCall(x: (Tables, Handler), f: CallbackFortune): (Tables, Handler)
  {
    TryMove(TryMove(x, Verify(f.jt)), ReadClaims)
  }

  ghost function LandCall(x: (Tables, Handler), f: CallbackFortune): (Tables, Handler)
  {
    TryMove(TryMove(x, Create(f.uuid, f.createdAt, f.created)), Clean(f.cleanAsOf, f.cleaned))
  }

  ghost function ServeCall(t: Tables, code: string, state: Id, f: CallbackFortune): (Tables, Handler)
  {
    LandCall(IdentifyCall(RedeemCall(ClaimCall((t, NewHandler(code, state)), f), f), f), f)
  }

  /** A callback that has answered does nothing more. */
  lemma Answered(x: (Tables, Handler), f: CallbackFortune)
    requires x.1.pc.Finished?
    ensures RedeemCall(x, f) == x && IdentifyCall(x, f) == x && LandCall(x, f) == x
  {
  }

  lemma PlayMove(t: Tables, h: Handler, steps: seq<HandlerStep>, x: (Tables, Handler), step: HandlerStep)
    returns (steps': seq<HandlerStep>, x': (Tables, Handler))
    requires HandlerPlay(t, h, steps) == Some(x)
    ensures x' == TryMove(x, step) && HandlerPlay(t, h, steps') == Some(x')
  {
    steps', x' := steps, TryMove(x, step);
    if HandlerMove(x.0, x.1, step).Some? {
      PlayOne(HandlerMove, t, h, steps, x, step, HandlerMove(x.0, x.1, step).value);
      steps' := steps + [step];
    }
  }

  /** A callback is a play: its steps are steps of the protocol. */
  lemma ServeCallPlays(t: Tables, code: string, state: Id, f: CallbackFortune) returns (steps: seq<HandlerStep>)
    ensures HandlerPlay(t, NewHandler(code, state), steps) == Some(ServeCall(t, code, state, f))
  {
    var h, x := NewHandler(code, state), (t, NewHandler(code, state));
    steps, x := PlayMove(t, h, [], x, Find(f.findAsOf, f.found));
    steps, x := PlayMove(t, h, steps, x, GetProfile(f.profileFound));
    steps, x := PlayMove(t, h, steps, x, Destroy(f.destroyed));
    steps, x := PlayMove(t, h, steps, x, CheckAge(f.checkedAt));
    steps, x := PlayMove(t, h, steps, x, Exchange(f.reply));
    steps, x := PlayMove(t, h, steps, x, Verify(f.jt));
    steps, x := PlayMove(t, h, steps, x, ReadClaims);
    steps, x := PlayMove(t, h, steps, x, Create(f.uuid, f.createdAt, f.created));
    steps, x := PlayMove(t, h, steps, x, Clean(f.cleanAsOf, f.cleaned));
  }

  // ---- What a callback comes to ----

  /** The PKCE row a callback gets hold of, and so deletes. */
  ghost function ClaimedRow(t: Tables, state: Id, f: CallbackFortune): Option<Id>
  {
    var row := FindPkceRow(t, state, f.findAsOf);
    if f.found && row.Some? && row.value in t.pkces
       && f.profileFound && t.pkces[row.value].profileRef in t.profiles && f.destroyed
    then row else None
  }

  /** The character a callback stores if it comes that far. */
  function RowToLand(pkce: PkceRow, f: CallbackFortune): CharacterRow
    requires f.reply.Some? && f.jt.Some? && ClaimsOf(f.jt.value).Ok?
  {
    NewRow(pkce.profileRef, ClaimsOf(f.jt.value).value, ReplyToken(f.reply.value), pkce.referenceData, f.createdAt)
  }

  /** What becomes of a callback that got hold of this PKCE row. */
  ghost function OutcomeWith(t: Tables, pkce: PkceRow, f: CallbackFortune): Outcome
  {
    if f.checkedAt - pkce.createdAt > PKCE_LIFETIME then TimedOut
    else if f.reply.None? then ExchangeFailed
    else if f.jt.None? then NotVerified
    else if ClaimsOf(f.jt.value).Err? then BadClaims
    else if f.created && Exec(t, UpsertCharacter(f.uuid, RowToLand(pkce, f))).Ok? then Completed
    else NotStored
  }

  ghost function OutcomeOf(t: Tables, state: Id, f: CallbackFortune): Outcome
  {
    var p := ClaimedRow(t, state, f);
    if p.None? || p.value !in t.pkces then Refused else OutcomeWith(t, t.pkces[p.value], f)
  }

  lemma ClaimResult(t: Tables, code: string, state: Id, f: CallbackFortune)
    ensures var x := ClaimCall((t, NewHandler(code, state)), f); var p := ClaimedRow(t, state, f);
      if p.None? then x.0 == t && x.1.pc == Finished(Refused)
      else
        && p.value in t.pkces && x.0 == t.(pkces := t.pkces - {p.value})
        && x.1 == NewHandler(code, state).(pc := Destroyed, pkceId := p.value, pkce := t.pkces[p.value])
  {
    var found := TryMove((t, NewHandler(code, state)), Find(f.findAsOf, f.found));
    var located := TryMove(found, GetProfile(f.profileFound));
    assert found.1.pc in {Found, Finished(Refused)};
    assert located.1.pc in {Located, Finished(Refused)};
  }

  lemma AuthenticateResult(x: (Tables, Handler), f: CallbackFortune)
    requires x.1.pc == Destroyed
    ensures var y := IdentifyCall(RedeemCall(x, f), f); var outcome := OutcomeWith(x.0, x.1.pkce, f);
      && y.0 == x.0 && y.1.pkce == x.1.pkce && y.1.pkceId == x.1.pkceId
      && (if outcome in {TimedOut, ExchangeFailed, NotVerified, BadClaims} then y.1.pc == Finished(outcome)
          else y.1.pc == Identified && f.reply.Some? && f.jt.Some? && ClaimsOf(f.jt.value) == Ok(y.1.claims)
               && y.1.token == ReplyToken(f.reply.value))
  {
    var redeemed := RedeemCall(x, f);
    assert redeemed.0 == x.0 && redeemed.1.pkce == x.1.pkce;
    if redeemed.1.pc.Finished? {
      Answered(redeemed, f);
    } else {
      assert redeemed.1.pc == Exchanged && redeemed.1.token == ReplyToken(f.reply.value);
    }
  }

  lemma LandResult(x: (Tables, Handler), f: CallbackFortune)
    requires x.1.pc == Identified
    ensures var y := LandCall(x, f);
      var q := UpsertCharacter(f.uuid, NewRow(x.1.pkce.profileRef, x.1.claims, x.1.token, x.1.pkce.referenceData, f.createdAt));
      if f.created && Exec(x.0, q).Ok? then
        && y.1.pc == Finished(Completed) && y.1.landed == Some(UpsertTarget(x.0, f.uuid, q.row))
        && y.0 == (if f.cleaned then Exec(Exec(x.0, q).value, CleanStmt(f.cleanAsOf)).value else Exec(x.0, q).value)
      else y.1.pc == Finished(NotStored) && y.0 == x.0
  {
  }

  /** The rest of a callback that has deleted its PKCE row. */
  lemma RestResult(x: (Tables, Handler), f: CallbackFortune)
    requires x.1.pc == Destroyed
    ensures var y := LandCall(IdentifyCall(RedeemCall(x, f), f), f); var outcome := OutcomeWith(x.0, x.1.pkce, f);
      && y.1.pc == Finished(outcome)
      && (outcome != Completed ==> y.0 == x.0)
      && (outcome == Completed ==>
            y.0.characters == Exec(x.0, UpsertCharacter(f.uuid, RowToLand(x.1.pkce, f))).value.characters)
      && y.0.profiles == x.0.profiles && (forall p :: p in y.0.pkces ==> p in x.0.pkces)
  {
    AuthenticateResult(x, f);
    var identified := IdentifyCall(RedeemCall(x, f), f);
    if identified.1.pc.Finished? {
      Answered(identified, f);
    } else {
      LandResult(identified, f);
    }
  }

  /** Deleting PKCE rows changes nothing about the rest. */
  lemma SameOutcome(t: Tables, t': Tables, pkce: PkceRow, f: CallbackFortune)
    requires t' == t.(pkces := t'.pkces)
    ensures OutcomeWith(t', pkce, f) == OutcomeWith(t, pkce, f)
    ensures OutcomeWith(t, pkce, f) == Completed ==>
      Exec(t', UpsertCharacter(f.uuid, RowToLand(pkce, f))).value.characters
      == Exec(t, UpsertCharacter(f.uuid, RowToLand(pkce, f))).value.characters
  {
    if f.reply.Some? && f.jt.Some? && ClaimsOf(f.jt.value).Ok? {
      UpsertIgnoresPkces(t, t', f.uuid, RowToLand(pkce, f));
    }
  }

  /**
   What a callback comes to, for every state and fortune: its outcome is the first failure in the
   order of the code; the PKCE row is gone exactly if it got hold of one; and the characters
   change exactly if it completes, by the upsert of the identity it verified.
   */
  lemma ServeResult(t: Tables, code: string, state: Id, f: CallbackFortune)
    ensures var (t', h) := ServeCall(t, code, state, f);
      var outcome := OutcomeOf(t, state, f); var p := ClaimedRow(t, state, f);
      && h.pc == Finished(outcome)
      && t'.profiles == t.profiles
      && (outcome == Completed ==>
            t'.characters == Exec(t, UpsertCharacter(f.uuid, RowToLand(t.pkces[p.value], f))).value.characters)
      && (outcome != Completed ==> t'.characters == t.characters)
      && (outcome != Completed ==> t'.pkces == if p.Some? then t.pkces - {p.value} else t.pkces)
      && (p.Some? ==> p.value !in t'.pkces)
  {
    ClaimResult(t, code, state, f);
    var claimed := ClaimCall((t, NewHandler(code, state)), f);
    var p := ClaimedRow(t, state, f);
    if p.None? {
      Answered(claimed, f);
    } else {
      RestResult(claimed, f);
      SameOutcome(t, claimed.0, t.pkces[p.value], f);
    }
  }

  lemma UpsertIgnoresPkces(t: Tables, t': Tables, id: Id, row: CharacterRow)
    requires t' == t.(pkces := t'.pkces)
    ensures Exec(t', UpsertCharacter(id, row)).Ok? <==> Exec(t, UpsertCharacter(id, row)).Ok?
    ensures Exec(t, UpsertCharacter(id, row)).Ok? ==>
      Exec(t', UpsertCharacter(id, row)).value.characters == Exec(t, UpsertCharacter(id, row)).value.characters
  {
  }
}

/**
 What goes wrong exactly when the conditions of module RefreshTokens are not met, and runs from the
 empty store that show what can happen.
 */
module Scenarios {
  import opened Wrappers
  import opened Claims
  import opened Tables
  import opened Protocol
  import opened Pkce
  import opened Base64Url
  import opened Calls
  import opened Sequential
  import opened Staging
  import Provenance
  import RefreshTokens
  import Handles
  import Subjects
  import Rows

  /** A source about to refresh with the live token of row `c`, whose handle it holds. */
  ghost predicate AboutToRefresh(s: System, k: nat, c: Id)
  {
    && k in s.sources && s.sources[k].pc == Exchanging && s.sources[k].character == Some(c)
    && s.sources[k].token.Some? && c in s.t.characters
    && s.sources[k].token.value.refresh == s.t.characters[c].refreshToken
  }

  /**
   After the server has rotated the token of a row, the row is usable again exactly when the
   write of the new one succeeds.  A failing write strands it for good, for a revoked token
   never comes back (RefreshTokens.RevokedForGood).
   */
  lemma StoringDecides(sha: Sha256, s: System, k: nat, c: Id, access: string, rotated: string, at: Instant, ok: bool)
    requires AboutToRefresh(s, k, c) && s.server.live <= s.server.issued
    requires Enabled(sha, s, SourceDoes(k, Refresh(access, Some(rotated))))
    requires at <= s.now
    ensures var s1 := Apply(sha, s, SourceDoes(k, Refresh(access, Some(rotated)))).value;
      && Enabled(sha, s1, SourceDoes(k, StoreRefresh(at, ok)))
      && var s2 := Apply(sha, s1, SourceDoes(k, StoreRefresh(at, ok))).value;
         c in s2.t.characters && (s2.t.characters[c].refreshToken in s2.server.live <==> ok)
  {
  }

  /** A response that is lost after the server rotated strands the row at once. */
  lemma LostResponseStrands(sha: Sha256, s: System, k: nat, c: Id, rotated: string)
    requires AboutToRefresh(s, k, c) && s.server.live <= s.server.issued
    requires Enabled(sha, s, SourceDoes(k, RefreshLost(Some(rotated))))
    ensures var s' := Apply(sha, s, SourceDoes(k, RefreshLost(Some(rotated)))).value;
      && s'.sources[k].pc == Idle
      && c in s'.t.characters && s'.t.characters[c].refreshToken !in s'.server.live
  {
  }

  // ---- A PKCE row used twice ----

  /**
   Overlapping is all it takes: whenever two handlers hold the same row, young enough and each
   with a fresh code of its own issued for it, both can still go to the server with it and both
   are answered.  That they must overlap is Provenance.UsersOverlap.
   */
  lemma BothCanUse(sha: Sha256, ss: seq<System>, es: seq<Event>, k: nat, m: nat, p: Id)
    returns (ss': seq<System>, es': seq<Event>, x: nat, y: nat)
    requires Run(sha, ss, es) && k != m && Ready(sha, ss[|es|], k, p) && Ready(sha, ss[|es|], m, p)
    requires ss[|es|].handlers[k].code != ss[|es|].handlers[m].code
    ensures Run(sha, ss', es') && |es| <= |es'| && es'[..|es|] == es
    ensures Provenance.Exchanges(ss', es', x, k, p) && Provenance.Exchanges(ss', es', y, m, p)
    ensures k in ss'[|es'|].handlers && ss'[|es'|].handlers[k].pc == Exchanged
    ensures m in ss'[|es'|].handlers && ss'[|es'|].handlers[m].pc == Exchanged
  {
    var ss1, es1;
    ss1, es1, x := UseRow(Anything, sha, ss, es, k, p, Reply("access", None), NO_JWT);
    ss', es', y := UseRow(Anything, sha, ss1, es1, m, p, Reply("access", None), NO_JWT);
    assert es'[x] == es'[..|es1|][x] && ss'[x] == ss'[..|es1| + 1][x];
    assert es'[..|es|] == es'[..|es1|][..|es|];
  }

  /** Two requests with the state of one URL, opened twice, each with its own code; both have found the row. */
  lemma TwoFinds(sha: Sha256, random: seq<Byte>) returns (ss: seq<System>, es: seq<Event>)
    requires |random| == VERIFIER_BYTES
    ensures Run(sha, ss, es) && Ready(sha, ss[|es|], 0, 2) && Ready(sha, ss[|es|], 1, 2)
    ensures ss[|es|].handlers[0].code != ss[|es|].handlers[1].code
  {
    ss, es := FirstProfile(Anything, sha);
    ss, es := Invite(Anything, sha, ss, es, random, 2, 3, "code");
    ss, es := Grow(Anything, sha, ss, es, Authorize("second code", Grant(Challenge(sha, Encode(random)), Some(2))));
    ss, es := ComesBack(Anything, sha, ss, es, 0, "code", 3, 2);
    ss, es := ComesBack(Anything, sha, ss, es, 1, "second code", 3, 2);
  }

  /**
   "A PKCE row is used at most once" is false of the code: two callbacks, for two codes granted
   through the same URL, that both find the row before either deletes it both go to the server
   with its verifier, and both are answered.
   `Destroy` does not look at the number of rows it deleted.
   */
  lemma PkceUsedTwice(sha: Sha256, random: seq<Byte>)
    returns (ss: seq<System>, es: seq<Event>, x: nat, y: nat)
    requires |random| == VERIFIER_BYTES
    ensures Run(sha, ss, es)
    ensures Provenance.Exchanges(ss, es, x, 0, 2) && Provenance.Exchanges(ss, es, y, 1, 2)
    ensures 0 in ss[|es|].handlers && ss[|es|].handlers[0].pc == Exchanged
    ensures 1 in ss[|es|].handlers && ss[|es|].handlers[1].pc == Exchanged
  {
    ss, es := TwoFinds(sha, random);
    ss, es, x, y := BothCanUse(sha, ss, es, 0, 1, 2);
  }

  // ---- Logins ----

  /** A row as a first login stores it. */
  function FirstRow(claims: CharacterClaims, token: Token): CharacterRow
  {
    NewRow(1, claims, token, "", 0)
  }

  /**
   From the empty store, for every verified identity and every answer of the server, the callback
   can run to its end and store a character with exactly that identity and those tokens in the
   profile the URL was built for.  Its refresh token is live if the answer had one; if not, the
   row has none.
   */
  lemma FirstLogin(rule: Rule, sha: Sha256, random: seq<Byte>, jt: VerifiedJwt, c: Id, reply: Reply)
    returns (ss: seq<System>, es: seq<Event>)
    requires |random| == VERIFIER_BYTES && ClaimsOf(jt).Ok? && c !in {1, 2, 3}
    requires reply.access != "" && reply.refresh != Some("") && Fits(rule, reply, jt)
    ensures Ruled(rule, sha, ss, es)
    ensures var s := ss[|es|]; var row := FirstRow(ClaimsOf(jt).value, ReplyToken(reply));
      && s.t.characters == map[c := row] && Provenance.InsertedByCallback(s, 0, c)
      && (row.refreshToken in s.server.live <==> reply.refresh.Some?)
      && s.now == 0 && 1 in s.t.profiles && s.sources == map[] && s.used == {1, 2, 3, c}
      && s.server.issued == {"", row.refreshToken}
      && s.server.live == (if reply.refresh.Some? then {reply.refresh.value} else {})
      && s.server.codes.Keys == {"code"} && s.server.spent == {"code"} && s.handlers.Keys == {0}
  {
    ss, es := FirstProfile(rule, sha);
    assert Conflict(ss[|es|].t.characters, FirstRow(ClaimsOf(jt).value, ReplyToken(reply))).None?;
    ss, es := Login(rule, sha, ss, es, Visit(random, 2, 3, "code", 0, c), jt, reply);
  }

  /** A login whose tokens are "access" and "refresh", and a source opened on its profile. */
  lemma LoggedIn(rule: Rule, sha: Sha256, random: seq<Byte>, jt: VerifiedJwt, c: Id, handle: Option<Id>)
    returns (ss: seq<System>, es: seq<Event>)
    requires |random| == VERIFIER_BYTES && ClaimsOf(jt).Ok? && c !in {1, 2, 3} && (handle.Some? ==> handle == Some(c))
    requires Fits(rule, Reply("access", Some("refresh")), jt)
    ensures Ruled(rule, sha, ss, es)
    ensures var s := ss[|es|];
      && s.t.characters == map[c := FirstRow(ClaimsOf(jt).value, Token("access", "refresh"))]
      && s.now == 0 && 1 in s.t.profiles && s.used == {1, 2, 3, c}
      && s.server.issued == {"", "refresh"} && s.server.live == {"refresh"}
      && s.server.codes.Keys == {"code"} && s.server.spent == {"code"} && s.handlers.Keys == {0}
      && s.sources == map[0 := Source(1, "", None, handle, None, Idle, None)]
  {
    ss, es := FirstLogin(rule, sha, random, jt, c, Reply("access", Some("refresh")));
    ss, es := OpenStep(rule, sha, ss, es, 0, handle);
  }

  /** A second login after LoggedIn, if its uuid is new. */
  function SecondVisit(random: seq<Byte>, c: Id, d: Id): Visit
  {
    Visit(random, c + d + 4, c + d + 5, "second code", 1, d)
  }

  /** Logging the same character in twice without scopes gives it two rows. */
  lemma UnscopedTwice(sha: Sha256, random: seq<Byte>, jt: VerifiedJwt, c: Id, d: Id)
    returns (ss: seq<System>, es: seq<Event>)
    requires |random| == VERIFIER_BYTES && ClaimsOf(jt).Ok? && ClaimsOf(jt).value.scopes.None?
    requires c !in {1, 2, 3} && d !in {1, 2, 3, c}
    ensures Run(sha, ss, es)
    ensures var rows := ss[|es|].t.characters;
      c in rows && d in rows && Identity(rows[c]) == Identity(rows[d]) && rows[c].profileRef == rows[d].profileRef
  {
    ss, es := LoggedIn(Anything, sha, random, jt, c, None);
    ss, es := Login(Anything, sha, ss, es, SecondVisit(random, c, d), jt, Reply("access", None));
  }

  // ---- What can happen to a row afterwards ----

  /** A call in which everything goes well and the server answers so. */
  function GoodFortune(answer: Answer): TokenFortune
  {
    TokenFortune(true, true, true, true, answer, true, true, true, true, 0)
  }

  lemma WritesBoth(t: Tables, src: Source, c: Id, got: Token, f: TokenFortune)
    requires src.character == Some(c) && c in t.characters && src.token.Some?
    requires got.access != src.token.value.access && got.refresh != src.token.value.refresh
    requires f.refreshStored && f.valid && f.accessStored
    ensures EndingWrites(t, src, got, f) ==
      t.(characters := t.characters[c := t.characters[c].(refreshToken := got.refresh, accessToken := got.access,
                                                          updatedAt := f.at)])
  {
  }

  /** A call that starts from `cache` and gets a new token, where everything goes well. */
  lemma RotatedCall(t: Tables, src: Source, c: Id, cache: Token, got: Token)
    requires src.pc == Idle && src.character == Some(c) && c in t.characters
    requires CacheOf(t, src, GoodFortune(Granted(got.access, Some(got.refresh)))) == Some(cache)
    requires got.access != "" && got.access != cache.access && got.refresh != cache.refresh
    ensures var (t', src') := TokenCall(t, src, GoodFortune(Granted(got.access, Some(got.refresh))));
      && src'.returned == Some(got) && src'.character == Some(c)
      && t' == t.(characters := t.characters[c := t.characters[c].(refreshToken := got.refresh, accessToken := got.access,
                                                                   updatedAt := 0)])
  {
    var f := GoodFortune(Granted(got.access, Some(got.refresh)));
    TokenReturns(t, src, f);
    TokenWrites(t, src, f);
    WritesBoth(t, TokenCall(t, src, f).1.(token := Some(cache)), c, got, f);
  }

  /** A call of `Token` that gets a rotated token, stores both its parts and returns it. */
  lemma RotationStored(sha: Sha256, random: seq<Byte>, jt: VerifiedJwt, c: Id) returns (ss: seq<System>, es: seq<Event>)
    requires |random| == VERIFIER_BYTES && ClaimsOf(jt).Ok? && c !in {1, 2, 3}
    ensures Run(sha, ss, es)
    ensures var s := ss[|es|]; var token := Token("new access", "new refresh");
      && 0 in s.sources && s.sources[0].returned == Some(token) && s.sources[0].character == Some(c)
      && c in s.t.characters && s.t.characters[c].accessToken == token.access && s.t.characters[c].refreshToken == token.refresh
      && token.refresh in s.server.live
  {
    ss, es := LoggedIn(Anything, sha, random, jt, c, Some(c));
    RotatedCall(ss[|es|].t, ss[|es|].sources[0], c, Token("access", "refresh"), Token("new access", "new refresh"));
    ss, es := TokenRuns(sha, ss, es, 0, GoodFortune(Granted("new access", Some("new refresh"))));
  }

  /**
   The row gets ahead of the cache: a rotated refresh token is stored, and then the new access
   token does not pass validation.
   */
  lemma RowAhead(rule: Rule, sha: Sha256, random: seq<Byte>, jt: VerifiedJwt, c: Id)
    returns (ss: seq<System>, es: seq<Event>)
    requires |random| == VERIFIER_BYTES && ClaimsOf(jt).Ok? && c !in {1, 2, 3} && !rule.Truthful?
    ensures Ruled(rule, sha, ss, es)
    ensures var s := ss[|es|];
      && s.now == 0 && 0 in s.sources && s.sources[0].pc == Idle && s.sources[0].character == Some(c)
      && s.sources[0].token == Some(Token("access", "refresh"))
      && s.t.characters == map[c := FirstRow(ClaimsOf(jt).value, Token("access", "new refresh"))]
      && s.server.live == {"new refresh"} && s.server.issued == {"", "refresh", "new refresh"}
      && 1 in s.t.profiles && s.used == {1, 2, 3, c}
      && s.server.codes.Keys == {"code"} && s.server.spent == {"code"} && s.handlers.Keys == {0}
  {
    ss, es := LoggedIn(rule, sha, random, jt, c, Some(c));
    ss, es := Caches(rule, sha, ss, es, 0, c);
    ss, es := Rotation(rule, sha, ss, es, 0, Token("new access", "new refresh"));
    ss, es := Stores(rule, sha, ss, es, 0, c);
    ss, es := Invalid(rule, sha, ss, es, 0);
  }

  // ---- Rows that lose `active` and not their token ----

  /** The row is inactive, and its token live, in a run with a server that rejects dead tokens only. */
  ghost predicate InactiveAndLive(sha: Sha256, ss: seq<System>, es: seq<Event>, c: Id)
  {
    && RefreshTokens.SmoothRun(sha, ss, es) && RefreshTokens.Justified(ss, es)
    && c in ss[|es|].t.characters && !ss[|es|].t.characters[c].active
    && ss[|es|].t.characters[c].refreshToken in ss[|es|].server.live
  }

  /**
   A single source does it to its own row: it stores a rotated refresh token, the new access token
   does not pass validation, and at its next call it is rejected with the token it still has.
   */
  lemma OwnRowDeactivated(sha: Sha256, random: seq<Byte>, jt: VerifiedJwt, c: Id)
    returns (ss: seq<System>, es: seq<Event>)
    requires |random| == VERIFIER_BYTES && ClaimsOf(jt).Ok? && c !in {1, 2, 3}
    ensures InactiveAndLive(sha, ss, es, c)
    ensures var s := ss[|es|];
      && s.t.characters == map[c := FirstRow(ClaimsOf(jt).value, Token("access", "new refresh")).(active := false)]
      && s.now == 0 && 1 in s.t.profiles && s.used == {1, 2, 3, c} && s.server.issued == {"", "refresh", "new refresh"}
      && s.server.codes.Keys == {"code"} && s.server.spent == {"code"} && s.handlers.Keys == {0}
  {
    ss, es := RowAhead(Gentle, sha, random, jt, c);
    ss, es := Deactivation(Gentle, sha, ss, es, 0, c);
    RuledIs(Gentle, sha, ss, es);
  }

  /** Two sources with the handle of the row, both with the row's token cached. */
  lemma TwoSources(rule: Rule, sha: Sha256, random: seq<Byte>, jt: VerifiedJwt, c: Id)
    returns (ss: seq<System>, es: seq<Event>)
    requires |random| == VERIFIER_BYTES && ClaimsOf(jt).Ok? && c !in {1, 2, 3} && !rule.Truthful?
    ensures Ruled(rule, sha, ss, es)
    ensures var s, cached := ss[|es|], Token("access", "refresh");
      && s.t.characters == map[c := FirstRow(ClaimsOf(jt).value, cached)]
      && s.now == 0 && s.server.issued == {"", "refresh"} && s.server.live == {"refresh"}
      && 0 in s.sources && s.sources[0].pc == Idle && s.sources[0].character == Some(c) && s.sources[0].token == Some(cached)
      && 1 in s.sources && s.sources[1].pc == Idle && s.sources[1].character == Some(c) && s.sources[1].token == Some(cached)
  {
    ss, es := LoggedIn(rule, sha, random, jt, c, Some(c));
    ss, es := Caches(rule, sha, ss, es, 0, c);
    ss, es := OpenStep(rule, sha, ss, es, 1, Some(c));
    ss, es := Caches(rule, sha, ss, es, 1, c);
  }

  /** One of two sources rotates and stores; the other is then rejected with the old token. */
  lemma LiveRowDeactivated(sha: Sha256, random: seq<Byte>, jt: VerifiedJwt, c: Id)
    returns (ss: seq<System>, es: seq<Event>)
    requires |random| == VERIFIER_BYTES && ClaimsOf(jt).Ok? && c !in {1, 2, 3}
    ensures InactiveAndLive(sha, ss, es, c)
  {
    ss, es := TwoSources(Gentle, sha, random, jt, c);
    ss, es := Rotation(Gentle, sha, ss, es, 1, Token("new access", "new refresh"));
    ss, es := Stores(Gentle, sha, ss, es, 1, c);
    ss, es := Deactivation(Gentle, sha, ss, es, 0, c);
    RuledIs(Gentle, sha, ss, es);
  }

  /**
   Or the other is rejected between the two: with the very token the row still has, which is dead
   when the row is marked; and then the new one is stored.
   */
  lemma DeactivatedInFlight(sha: Sha256, random: seq<Byte>, jt: VerifiedJwt, c: Id)
    returns (ss: seq<System>, es: seq<Event>)
    requires |random| == VERIFIER_BYTES && ClaimsOf(jt).Ok? && c !in {1, 2, 3}
    ensures InactiveAndLive(sha, ss, es, c) && 2 <= |es|
    ensures var before := ss[|es| - 2];
      && es[|es| - 2] == SourceDoes(0, MarkInactive(0, true)) && c in before.t.characters && 0 in before.sources
      && before.sources[0].token.Some? && before.sources[0].token.value.refresh == before.t.characters[c].refreshToken
      && before.t.characters[c].refreshToken !in before.server.live
  {
    ss, es := TwoSources(Gentle, sha, random, jt, c);
    ss, es := Rotation(Gentle, sha, ss, es, 1, Token("new access", "new refresh"));
    var marked, done := Deactivation(Gentle, sha, ss, es, 0, c);
    ss, es := Step(Gentle, sha, marked, done, 1, StoreRefresh(0, true));
    assert ss[|es| - 2] == ss[..|done| + 1][|done| - 1] == marked[|done| - 1];
    RuledIs(Gentle, sha, ss, es);
  }

  /** Logging an inactive character in again replaces its refresh token and leaves it inactive. */
  lemma StaysInactive(sha: Sha256, random: seq<Byte>, jt: VerifiedJwt, c: Id, d: Id)
    returns (ss: seq<System>, es: seq<Event>)
    requires |random| == VERIFIER_BYTES && ClaimsOf(jt).Ok? && ClaimsOf(jt).value.scopes.Some?
    requires c !in {1, 2, 3} && d !in {1, 2, 3, c}
    ensures Run(sha, ss, es)
    ensures var s := ss[|es|];
      && s.t.characters.Keys == {c} && !s.t.characters[c].active
      && s.t.characters[c].refreshToken == "third refresh" && "third refresh" in s.server.live
  {
    ss, es := OwnRowDeactivated(sha, random, jt, c);
    var s, reply := ss[|es|], Reply("third access", Some("third refresh"));
    var row := FirstRow(ClaimsOf(jt).value, ReplyToken(reply));
    assert Conflict(s.t.characters, row) == Some(c) by {
      assert SameIdentity(s.t.characters[c], row);
    }
    ss, es := Login(Anything, sha, ss, es, SecondVisit(random, c, d), jt, reply);
  }

  // ---- What `Save` can do ----

  /**
   `Save` without a handle strands the row: the source caches the saved token, has it rotated at
   the next call, cannot store the new one, and leaves a dead one in the row it saved.
   */
  lemma SavedRowStranded(sha: Sha256, random: seq<Byte>, jt: VerifiedJwt, c: Id, d: Id)
    returns (ss: seq<System>, es: seq<Event>, saved: Id)
    requires |random| == VERIFIER_BYTES && ClaimsOf(jt).Ok? && c !in {1, 2, 3} && d !in {1, 2, 3, c}
    ensures Run(sha, ss, es)
    ensures var s := ss[|es|];
      && 0 in s.sources && Handles.Handleless(s.sources[0])
      && saved in s.t.characters && s.t.characters[saved].refreshToken == "refresh" && "refresh" !in s.server.live
    ensures exists a :: 0 <= a < |es| && Handles.SavedWithout(ss, es, a, 0)
  {
    ss, es, saved := SavedWithoutHandle(sha, random, jt, c, d);
    var s, f := ss[|es|], GoodFortune(Granted("new access", Some("new refresh")));
    TokenReturns(s.t, s.sources[0], f);
    NoHandleNoWrites(s.t, s.sources[0], f);
    ss, es := TokenRuns(sha, ss, es, 0, f);
    Handles.HandlelessExactly(sha, ss, es, |es|, 0);
  }

  /** A call of a source without a handle writes nothing, whatever happens. */
  lemma NoHandleNoWrites(t: Tables, src: Source, f: TokenFortune)
    requires src.pc == Idle && Handles.Handleless(src)
    ensures TokenCall(t, src, f).0 == t
  {
    TokenReturns(t, src, f);
    TokenWrites(t, src, f);
  }

  lemma SavedWithoutHandle(sha: Sha256, random: seq<Byte>, jt: VerifiedJwt, c: Id, d: Id)
    returns (ss: seq<System>, es: seq<Event>, saved: Id)
    requires |random| == VERIFIER_BYTES && ClaimsOf(jt).Ok? && c !in {1, 2, 3} && d !in {1, 2, 3, c}
    ensures Run(sha, ss, es)
    ensures var s := ss[|es|];
      && s.now == 0 && 0 in s.sources && s.sources[0].pc == Idle
      && s.sources[0].token == Some(Token("access", "refresh")) && s.sources[0].character.None?
      && saved in s.t.characters && s.t.characters[saved].refreshToken == "refresh"
      && s.server.live == {"refresh"} && s.server.issued == {"", "refresh"}
  {
    ss, es := LoggedIn(Anything, sha, random, jt, c, None);
    var s := ss[|es|];
    var token, luck := Token("access", "refresh"), SaveFortune(Some(jt), true, d, 0, true);
    SaveStores(s.t, s.sources[0], token, "", luck);
    saved := UpsertTarget(s.t, d, FirstRow(ClaimsOf(jt).value, token));
    ss, es := SaveRuns(sha, ss, es, 0, token, "", luck);
  }

  /** The tokens of the two characters of the next run, by what they are called. */
  function TwoCharacters(first: Subjects.Subject, second: Subjects.Subject): Subjects.Grants
  {
    var whose := (token: string) => if token in {"access", "refresh"} then first else second;
    Subjects.Grants(whose, whose)
  }

  /** Two characters logged in, and a source with the handle of the first. */
  lemma TwoLogins(sha: Sha256, random: seq<Byte>, first: VerifiedJwt, second: VerifiedJwt, c: Id, d: Id)
    returns (rule: Rule, ss: seq<System>, es: seq<Event>)
    requires |random| == VERIFIER_BYTES && ClaimsOf(first).Ok? && ClaimsOf(second).Ok?
    requires c !in {1, 2, 3} && d !in {1, 2, 3, c}
    ensures rule == Truthful(TwoCharacters(Subjects.SubjectOf(ClaimsOf(first).value), Subjects.SubjectOf(ClaimsOf(second).value)))
    ensures Ruled(rule, sha, ss, es)
    ensures var s := ss[|es|];
      && s.now == 0 && 1 in s.t.profiles && s.used == {1, 2, 3, c, d, c + d + 4, c + d + 5}
      && c in s.t.characters && Identity(s.t.characters[c]) == ClaimsOf(first).value
      && s.server.issued == {"", "refresh", "second refresh"} && s.server.live == {"refresh", "second refresh"}
      && s.sources == map[0 := Source(1, "", None, Some(c), None, Idle, None)]
  {
    var one, two := Subjects.SubjectOf(ClaimsOf(first).value), Subjects.SubjectOf(ClaimsOf(second).value);
    rule := Truthful(TwoCharacters(one, two));
    ss, es := LoggedIn(rule, sha, random, first, c, Some(c));
    ss, es := SecondLogin(rule, sha, ss, es, random, second, c, d);
  }

  lemma SecondLogin(rule: Rule, sha: Sha256, ss: seq<System>, es: seq<Event>, random: seq<Byte>, jt: VerifiedJwt, c: Id, d: Id)
    returns (ss': seq<System>, es': seq<Event>)
    requires Ruled(rule, sha, ss, es) && |random| == VERIFIER_BYTES && ClaimsOf(jt).Ok? && d !in {1, 2, 3, c}
    requires Fits(rule, Reply("second access", Some("second refresh")), jt)
    requires var s := ss[|es|];
      && s.now == 0 && 1 in s.t.profiles && s.used == {1, 2, 3, c} && c in s.t.characters
      && s.server.issued == {"", "refresh"} && s.server.live == {"refresh"}
      && s.server.codes.Keys == {"code"} && s.server.spent == {"code"} && s.handlers.Keys == {0}
    ensures Ruled(rule, sha, ss', es')
    ensures var s, s' := ss[|es|], ss'[|es'|];
      && s'.now == 0 && s'.t.profiles == s.t.profiles && s'.used == {1, 2, 3, c, d, c + d + 4, c + d + 5}
      && c in s'.t.characters && Identity(s'.t.characters[c]) == Identity(s.t.characters[c])
      && s'.server.issued == {"", "refresh", "second refresh"} && s'.server.live == {"refresh", "second refresh"}
      && s'.sources == s.sources
  {
    var s, reply := ss[|es|], Reply("second access", Some("second refresh"));
    ss', es' := Login(rule, sha, ss, es, SecondVisit(random, c, d), jt, reply);
    IdentityStays(s.t, d, FirstRow(ClaimsOf(jt).value, ReplyToken(reply)), c);
  }

  lemma IdentityStays(t: Tables, id: Id, row: CharacterRow, c: Id)
    requires Exec(t, UpsertCharacter(id, row)).Ok? && c in t.characters
    ensures c in Exec(t, UpsertCharacter(id, row)).value.characters
    ensures Identity(Exec(t, UpsertCharacter(id, row)).value.characters[c]) == Identity(t.characters[c])
  {
  }

  /** A source has had the token it is to save accepted, and found its profile. */
  lemma Accepted(rule: Rule, sha: Sha256, ss: seq<System>, es: seq<Event>, k: nat, token: Token, jt: VerifiedJwt)
    returns (ss': seq<System>, es': seq<Event>)
    requires Ruled(rule, sha, ss, es) && k in ss[|es|].sources && ss[|es|].sources[k].pc == Idle
    requires ss[|es|].sources[k].profile in ss[|es|].t.profiles && ClaimsOf(jt).Ok?
    requires Keeps(rule, ss[|es|], SourceDoes(k, Save(token, Some(jt), ""))) && rule != Gentle
    ensures Ruled(rule, sha, ss', es')
    ensures var s, s' := ss[|es|], ss'[|es'|];
      && OnlySource(s, s', k) && s'.t == s.t && s'.server == s.server
      && s'.sources[k] == s.sources[k].(pc := SaveLocated(token, ClaimsOf(jt).value, ""))
  {
    ss', es' := Step(rule, sha, ss, es, k, Save(token, Some(jt), ""));
    ss', es' := Step(rule, sha, ss', es', k, SaveFindProfile(true));
  }

  /** A source completes a `Save`. */
  lemma Saving(rule: Rule, sha: Sha256, ss: seq<System>, es: seq<Event>, k: nat, token: Token, jt: VerifiedJwt, id: Id)
    returns (ss': seq<System>, es': seq<Event>)
    requires Ruled(rule, sha, ss, es) && k in ss[|es|].sources && ss[|es|].sources[k].pc == Idle && ss[|es|].now == 0
    requires ss[|es|].sources[k].profile == 1 && 1 in ss[|es|].t.profiles && id !in ss[|es|].used && ClaimsOf(jt).Ok?
    requires Keeps(rule, ss[|es|], SourceDoes(k, Save(token, Some(jt), ""))) && rule != Gentle
    ensures Ruled(rule, sha, ss', es')
    ensures var s, s' := ss[|es|], ss'[|es'|]; var q := UpsertCharacter(id, FirstRow(ClaimsOf(jt).value, token));
      && Exec(s.t, q).Ok? && s'.t == Exec(s.t, q).value
      && s'.sources == s.sources[k := s.sources[k].(token := Some(token))]
      && s'.server == s.server && s'.now == s.now
  {
    Rows.Known(sha, ss, es, |es|);
    ss', es' := Accepted(rule, sha, ss, es, k, token, jt);
    ss', es' := Step(rule, sha, ss', es', k, SaveCreate(id, 0, true));
  }

  /**
   `Save` of one character with a source that has the handle of another's row: the next rotation
   writes a token of the second character into the row of the first.  Everybody is honest.
   */
  lemma RowGetsForeignToken(sha: Sha256, random: seq<Byte>, first: VerifiedJwt, second: VerifiedJwt, c: Id, d: Id, e: Id)
    returns (g: Subjects.Grants, ss: seq<System>, es: seq<Event>)
    requires |random| == VERIFIER_BYTES && ClaimsOf(first).Ok? && ClaimsOf(second).Ok?
    requires Subjects.SubjectOf(ClaimsOf(first).value) != Subjects.SubjectOf(ClaimsOf(second).value)
    requires c !in {1, 2, 3} && d !in {1, 2, 3, c} && e !in {1, 2, 3, c, d, c + d + 4, c + d + 5}
    ensures Subjects.HonestRun(sha, g, ss, es)
    ensures var rows := ss[|es|].t.characters;
      && c in rows && Identity(rows[c]) == ClaimsOf(first).value
      && rows[c].refreshToken != "" && g.refresh(rows[c].refreshToken) != Subjects.RowSubject(rows[c])
  {
    var rule;
    rule, ss, es := TwoLogins(sha, random, first, second, c, d);
    g := rule.g;
    var s, token := ss[|es|], Token("second access", "second refresh");
    ss, es := Saving(rule, sha, ss, es, 0, token, second, e);
    IdentityStays(s.t, e, FirstRow(ClaimsOf(second).value, token), c);
    ss, es := Rotation(rule, sha, ss, es, 0, Token("third access", "third refresh"));
    ss, es := Stores(rule, sha, ss, es, 0, c);
    RuledIs(rule, sha, ss, es);
  }
}

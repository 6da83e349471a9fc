# evesso: proofs about the authorization flow and the token store

evesso logs EVE Online characters in through the SSO and keeps their tokens in PostgreSQL. This
project models the parts whose correctness depends on order and interleaving, and proves what
holds of them in every run.

* **The store** (`Tables`, `Effects`, `Store`). Three tables with their keys, unique constraints, foreign
  keys and cascades, and every statement and query the library issues, as an atomic step that
  commits or fails without effect. `Effects` says in rows and columns what each statement does and
  which row each lookup yields. `Store` is the same code in imperative form: the classes
  `PGStore`, `Profile` and `Character`, each method proved against the statement it issues and
  against its effect in columns.
* **The protocol** (`Protocol`). Any number of callback handlers (`ServeHTTP` and its twin in
  `LocalhostAuth`), any number of token sources, all other store calls, the clock and the
  authorization server, interleaved step by step. `HandlerNext` and `SourceNext` are the two
  program-counter machines, `Apply` is one event of the system, `Run` a run from the empty store.
  Whatever the code does not decide (a failing query, an answer of the server, a uuid, a clock
  reading) is an argument of the event, so a statement about all runs is one about all of these.
* **What runs keep** (`Rows`, `Provenance`, `Identities`, `Verification`, `RefreshTokens`,
  `Handles`, `Subjects`, `Coherence`, `Collection`, `Scenarios`). Integrity, row history,
  provenance of rows, the order in which a callback may do things, liveness of stored refresh
  tokens, what a saved token is good for, whose tokens a row holds, cache coherence, and a
  simulation that makes garbage collection of PKCE rows invisible. `Scenarios` has runs that show
  what can happen, put together from the steps in `Staging`.
* **The imperative code is that protocol** (`Calls`, `TokenSource`, `Callback`, `Plays`,
  `Sequential`). `TokenCall`, `SaveCall` and `ServeCall` say what one call comes to, as functions
  of the state and of everything the code does not decide; the methods `Token`, `Save` and
  `ServeHTTP` are proved to do that. Such a call is a play, a sequence of the protocol's own
  steps; a stretch of a run that one party has for itself is a play (`Sequential.SourceAlone`,
  `Sequential.HandlerAlone`); and a play that clock, uuids and server go along with extends a run
  (`Sequential.SourcePlayRuns`, `Sequential.HandlerPlayRuns`). So the calls can be made in any run
  (`Sequential.TokenRuns`, `Sequential.SaveRuns`, `Sequential.ServeRuns`), and what is proved of
  all runs holds of them.
* **Algorithms** (`ScopeMatch`, `StringOrder`, `SubjectScan`, `Claims`, `Base64Url`, `Pkce`,
  `DialRace`). Scope matching, canonical scope order, the scan of a token's subject, base64url
  and PKCE material, and the race in `dialContext`.

## Findings

Places where a claim one might read into the code, or its documentation makes, does not hold of
the code. The model follows the code; each has a lemma that says exactly when the claim does hold.

* *A PKCE row is used at most once.* False: `Destroy` ignores how many rows it deleted
  (`pkg/datastore/evessopg/PKCE.go:77-83`), so two callbacks that both find the row before either
  deletes it both exchange a code (`Scenarios.PkceUsedTwice`; each needs a code of its own, since
  the server redeems a code once). Overlapping is enough (`Scenarios.BothCanUse`) and necessary
  (`Provenance.UsersOverlap`).
* *Re-authorizing reactivates a character* (`README.md:477-478`). False: the upsert sets only the
  refresh token. The lookups consider the row afterwards exactly if it was new or still active
  (`Tables.UpsertKeepsInactive`, which also says when the store's lookup selects it;
  `Scenarios.StaysInactive` is a run).
* *The cached token is the stored one.* Not after a call that stored a new refresh token and then
  did not get as far as storing a new access token: the row is ahead of the cache. That happens
  when the validation or the second write fails, and also when the new access token is the old
  one (`Scenarios.RowAhead` is a run). From a cache in step with its row, a call that nobody
  disturbs ends like this exactly then (`TokenSource.CacheAfterCall`); a callback or another source
  that writes the row during the call also puts it ahead. A cache left behind is never reloaded:
  a source whose cached refresh token has been revoked gets no other until it completes a `Save`
  (`Handles.StuckForGood`).
* *A cached token implies a handle.* False after `Save`, which fills the cache but not the handle
  (`token.go:195`): a source has a token and no handle exactly if it ever completed a `Save`
  without one (`Handles.HandlelessExactly`). It then never updates a row again
  (`Handles.HandlelessUpdatesNothing`), so the next rotation strands the row it saved
  (`Scenarios.SavedRowStranded`). With anything interleaved that spares the saved row and does not
  use up the new token, the next rotation keeps a saved row usable exactly if the source already
  held the handle of that row (`Handles.SaveNeedsItsHandle`).
* *A row holds its own character's tokens.* True of every run with an honest server in which no
  source with the handle of one character's row completes a `Save` of another character
  (`Subjects.RowsHoldTheirOwnTokens`), although `Token` reads no claims. Without that condition a
  rotation follows the handle, so the row gets a token of its own character exactly if the one
  presented was (`Subjects.RotationFollowsTheHandle`; `Scenarios.RowGetsForeignToken` is a run).
* *An inactive character has lost its authorization.* False, even if the server rejects dead tokens
  only and nothing else goes wrong: another source has rotated the token and stored the new one
  (`Scenarios.LiveRowDeactivated`), or stores it right after the row is marked
  (`Scenarios.DeactivatedInFlight`), or the source itself did and then failed to validate
  (`Scenarios.OwnRowDeactivated`). A row that loses `active` keeps a live token exactly if nobody
  has had that very token rotated (`RefreshTokens.DeactivatedExactly`); and at any moment of any
  run that is when an issued token is live (`RefreshTokens.LiveExactly`).
* *One row per character and scope set.* Holds of non-empty scope lists
  (`Rows.OneRowPerScopeSet`); an empty list is stored as NULL, to which the unique constraint does
  not apply, and every login adds a row (`Tables.UnscopedRowsRepeat`; `Scenarios.UnscopedTwice` is
  a run).
* *A connection returned without error is open.* False: `DialTimeout` cancels on return
  (`DialRace.ReturnedConnectionMayBeClosed`). The connection ends up closed exactly if the context
  was cancelled before the goroutine looked at it (`DialRace.ClosedExactly`).
* *A caller gets a connection or an error.* False: the goroutine can write `err` over the context's
  error after the caller has read a nil `conn` (`DialRace.EmptySuccessHappens`); the exact orders
  are in `DialRace.EmptySuccessExactly`.
* *A dialed connection is closed, or returned without error.* False: a goroutine that looks at the
  context just before it is cancelled leaves the connection open, and the caller gets it along
  with the context's error, upon which Go callers drop it (`DialRace.OpenConnectionWithError`). It
  holds exactly if the select saw `done`, or the context was cancelled before the goroutine looked
  (`DialRace.TakenCareOfExactly`).
* *Expired PKCE rows are collected without anybody noticing.* True, thanks to the extra second,
  exactly as long as no lookup works with a clock reading more than that second (and one
  microsecond) older than the collection's (`Tables.CleanMarginExact`).

## Assumptions

* scany's `Get` succeeds on exactly one row. oauth2 never returns an empty access token, keeps the
  old refresh token when a response has none, and returns a valid cached token unchanged. Whether a
  cached token is still valid is left open: a source may reuse or refresh at every call.
* Generated uuids are fresh. SHA-256 is an arbitrary function; only the last clause of
  `Provenance.CodeBinding` needs that verifiers do not repeat and their digests do not collide.
* The server redeems a code once (section 4.1.2 of RFC 6749; `Provenance.CodeRedeemedOnce` checks
  that the model's does) and only for the challenge it was
  issued against (section 4.6 of RFC 7636), and answers a refresh only for a live refresh token;
  rotating revokes the one presented (section 6 of RFC 6749). Nothing else revokes. It may reject
  any refresh, except where a lemma says otherwise.
* A clock never goes back. A reading that goes into a query is taken before the query; the age
  check of a callback is the reading itself. Instants are microseconds, as in PostgreSQL.
* Go compares strings by bytes, the model by code points; on valid UTF-8 the two orders agree.

## Model

| member | source | states |
|---|---|---|
| `Tables.ExecKeepsIntegrity` | pkg/datastore/evessopg/migrations/1_init.up.sql:3-59 | every statement that commits keeps references, unique profile names, unique states and unique character identities |
| `Tables.NoOrphans` | pkg/datastore/evessopg/migrations/1_init.up.sql:30-58 | a deleted profile accepts neither a PKCE row nor a character |
| `Tables.RowAfterExec` | pkg/datastore/evessopg/Profile.go:136-140 | a character row that is there after a statement kept its identity columns, or is the row of an upsert that met no conflict |
| `Tables.ExecRowHistory` | pkg/datastore/evessopg/Profile.go:136-139 | a surviving row keeps identity, reference data and creation time; an upsert changes at most the refresh token; only the statement that sets `active` changes it |
| `Tables.LookupAgreement` | pkg/datastore/evessopg/PGStore.go:324-349 | the store's lookup selects the only active row that meets the criteria given, its profile exists, and the profile's lookup with the same criteria selects it too if and only if the wanted scopes are among the row's non-null scopes |
| `Effects.CharacterInProfile` | pkg/datastore/evessopg/Profile.go:92-114 | in every table, a profile's lookup yields a row if and only if it is the one row of that profile that is active, has non-null scopes with every wanted one, and differs in no criterion given |
| `Effects.CharacterInStore` | pkg/datastore/evessopg/PGStore.go:324-349 | in every table, the store's lookup yields a row if and only if it is the one active row that differs in no criterion given |
| `Effects.PkceByState` | pkg/datastore/evessopg/PGStore.go:368-384 | `FindPKCE` yields a row if and only if it is the one with this state less than 300 seconds old |
| `Effects.PkceById` | pkg/datastore/evessopg/PGStore.go:351-366 | `GetPKCE` yields the row of this id if and only if it is less than 300 seconds old |
| `Effects.InsertedProfile` | pkg/datastore/evessopg/PGStore.go:256-280 | the insert commits if and only if the name is free, and then adds exactly this row |
| `Effects.RenamedProfile` | pkg/datastore/evessopg/Profile.go:76-90 | the rename fails if and only if the profile exists and another one has the name; otherwise it changes the name and the time of the update, of this row only |
| `Effects.DeletedProfile` | pkg/datastore/evessopg/migrations/1_init.up.sql:30-58 | the profile is gone with exactly the PKCE rows and characters that refer to it |
| `Effects.InsertedPkce` | pkg/datastore/evessopg/Profile.go:147-165 | the insert commits if and only if the state is free and the profile exists, and then adds exactly this row |
| `Effects.DeletedPkce` | pkg/datastore/evessopg/PKCE.go:77-83 | exactly this PKCE row is gone, and the statement succeeds if there was none |
| `Effects.CollectedPkces` | pkg/datastore/evessopg/PGStore.go:386-395 | exactly the PKCE rows more than 301 seconds old are gone |
| `Effects.Upserted` | pkg/datastore/evessopg/Profile.go:136-140 | an upsert meets a row if and only if it has the same profile, character, name, owner and non-null scopes, and then replaces its refresh token and nothing else |
| `Effects.UpsertedNew` | pkg/datastore/evessopg/Profile.go:136-140 | an upsert that meets none commits if and only if the profile exists, and adds exactly its row |
| `Effects.UpdatedCharacter` | pkg/datastore/evessopg/Character.go:63-136 | each of the three updates changes its own column and the time of the update, of this row only |
| `Effects.DeletedCharacter` | pkg/datastore/evessopg/Character.go:170-176 | exactly this character row is gone |
| `Tables.UpsertKeepsInactive` | pkg/datastore/evessopg/Profile.go:136-140 | after an upsert both lookups consider the row it landed on exactly if it is new or was active before (and, for the profile's, has the wanted scopes), and the store's selects it exactly if besides no other active row answers to it: re-authorizing does not reactivate |
| `Tables.UnscopedRowsRepeat` | pkg/datastore/evessopg/migrations/1_init.up.sql:54-55 | a character with NULL scopes meets no conflict and adds a row at every authorization |
| `Tables.CleanMarginExact` | pkg/datastore/evessopg/PGStore.go:351-395 | collecting PKCE rows changes no later `FindPKCE`, and no later `GetPKCE`, in any table, if and only if the lookup's clock reading is at most one second and one microsecond behind the collection's |
| `Rows.Reachable` | pkg/datastore/evessopg/migrations/1_init.up.sql:3-59 | every state of every run has integrity, stores scopes only sorted and non-empty or NULL, and never reuses a uuid |
| `Rows.DeletedProfileRefuses` | pkg/datastore/evessopg/Profile.go:116-145 | in every run, a callback whose profile was deleted meanwhile stores nothing and fails |
| `Rows.DeletedForGood` | pkg/datastore/evessopg/PGStore.go:316-322 | in every run, a deleted profile is in no later state, nor is a PKCE row or a character of it |
| `Rows.RenameTakesEffect` | pkg/datastore/evessopg/Profile.go:76-90 | in every run, a rename that is carried out gives the profile its new name and changes no other |
| `Rows.OneRowPerScopeSet` | pkg/datastore/evessopg/migrations/1_init.up.sql:54-55 | no reachable profile holds two rows with the same character, name and owner whose non-null scopes are permutations of each other |
| `Rows.RowHistory` | pkg/datastore/evessopg/Profile.go:116-145 | between any two moments of a run at which a row exists, identity, reference data and creation time are unchanged and it was not reactivated |
| `Rows.DeactivationHasACause` | token.go:133-146 | a row loses `active` only when a source holding it marks it, whose refresh the server rejected with a RetrieveError and which did nothing in between |
| `Rows.ReauthorizationTouchesRefreshOnly` | pkg/datastore/evessopg/Profile.go:136-140 | a callback's `CreateCharacter` leaves every existing row alone but the one it lands on, of which it replaces the refresh token only |
| `Rows.LookupsAgree` | pkg/datastore/evessopg/Profile.go:92-114 | `Tables.LookupAgreement` holds in every state of every run |
| `Provenance.TrailIsTrue` | autoconfig.go:159-218 | at every moment of every run, a handler that has come to a stage has taken all earlier steps in order, with the data it now holds |
| `Provenance.DestroyedIsGone` | pkg/datastore/evessopg/PKCE.go:77-83 | after a committed `Destroy` the PKCE row is in no later state of the run |
| `Provenance.CallbackProvenance` | autoconfig.go:168-210 | a row inserted by a callback has the profile and reference data of a PKCE row that callback found for its state, deleted for good, then found at most five minutes old, and only then exchanged the code for; and the identity in the token it then validated |
| `Provenance.PkcesAreWellMade` | pkg/datastore/evessopg/PKCE.go:89-106 | in every run, every PKCE row has a 43-character verifier that decodes to 32 bytes and a challenge that decodes to the digest of the verifier |
| `Provenance.CodeBinding` | autoconfig.go:151-158 | the code behind such a row was issued against the challenge of a PKCE row of that very profile, and if a URL of the library was used, it was built from that PKCE row |
| `Provenance.LateCallbackRefused` | autoconfig.go:168-193 | whoever exchanges a code for a PKCE row was given it by `FindPKCE` before any `Destroy` of it |
| `Provenance.UsesAreBounded` | autoconfig.go:168-193 | at most as many handlers use a PKCE row as found it before its first committed `Destroy` |
| `Provenance.UsersOverlap` | autoconfig.go:168-193 | of two handlers that use one PKCE row each found it before the other deleted it, so callbacks one after the other use it at most once |
| `Scenarios.BothCanUse` | pkg/datastore/evessopg/PKCE.go:77-83 | whenever two handlers hold the same young PKCE row, each with an unspent code of its own, the run can go on so that both exchange their code with it and are answered |
| `Scenarios.PkceUsedTwice` | pkg/datastore/evessopg/PKCE.go:77-83 | a run from the empty store in which a PKCE row is used twice, for two codes granted through its URL |
| `Staging.Login` | autoconfig.go:159-218 | in every run, for every verified identity and every answer of the server, a new callback can run to the point where it has stored that identity and those tokens, by the upsert |
| `Scenarios.FirstLogin` | autoconfig.go:159-218 | for every verified identity and every answer of the server there is a run from the empty store that ends with exactly that character in the profile of the PKCE row; its refresh token is live if and only if the answer had one |
| `Scenarios.UnscopedTwice` | pkg/datastore/evessopg/migrations/1_init.up.sql:54-55 | a run from the empty store after which a character logged in twice without scopes has two rows |
| `Scenarios.StaysInactive` | pkg/datastore/evessopg/Profile.go:136-140 | a run from the empty store in which an inactive character logs in again, gets a live refresh token and stays inactive |
| `Identities.StoredIdentitiesWereVerified` | DataStore.go:19-28 | in every run, the identity and scopes of every character row are those of a token validated at an earlier moment, by a callback or by `Save` |
| `Verification.StoredTokensWereValidated` | token.go:154-164 | in every run, the access token in a row passed validation at an earlier moment |
| `Verification.ReturnedTokensWereValidated` | token.go:116-167 | in every run, so did every token `Token` returned, although rows are read back with an unverified parse |
| `RefreshTokens.RowTokenIsLive` | token.go:147-153 | with a rotating server and any number of sources and callbacks, at every moment of a run in which no rotating response is lost, no refresh-token write fails, every code exchange gives a refresh token and nobody calls `Save`, a row's refresh token is live if and only if no source of that row has presented it, received its successor and not stored that yet |
| `RefreshTokens.HeldStays` | token.go:147-153 | one event of such a run: a refresh token stays in the hands of the one handler, source or row that has it, unless that one takes the step |
| `RefreshTokens.LiveStays` | token.go:133-134 | at any event of any run, a live refresh token dies if and only if a source presents it and is to get another one, whether or not the response arrives |
| `RefreshTokens.RevokedForGood` | token.go:133-146 | in every run, a refresh token once revoked never becomes live again and no later refresh presenting it succeeds |
| `Handles.RotatedThenWritten` | pkg/datastore/evessopg/Character.go:111-123 | a row whose token a source has had rotated is usable after the write of the new one, with anything in between that spares the row and the new token, if and only if the write succeeded and went to this row |
| `Scenarios.StoringDecides` | pkg/datastore/evessopg/Character.go:111-123 | right after a rotation the write can both succeed and fail, and the row is usable again if and only if it succeeds |
| `Scenarios.LostResponseStrands` | token.go:133-146 | a rotating response that gets lost leaves the row with a dead refresh token |
| `RefreshTokens.LiveExactly` | token.go:133-134 | in every run, a refresh token is live if and only if it was issued and no source has presented it and had it rotated |
| `RefreshTokens.DeactivatedExactly` | token.go:133-146 | in every run with a server that rejects dead tokens only, a row that loses `active` keeps a live refresh token if and only if that token was issued and nobody has had it rotated; the token rejected was never issued or has been rotated |
| `Handles.StuckForGood` | token.go:116-132 | in every run, a source whose cached refresh token has been revoked, and which has no other on its way, is given no other until it completes a `Save` |
| `Handles.HandlelessExactly` | token.go:176-197 | in every run, a source has a token cached and no handle if and only if it ever completed a `Save` without one |
| `Handles.HandlelessStays` | token.go:116-132 | such a source gets no handle for the rest of the run |
| `Handles.HandlelessUpdatesNothing` | token.go:147-164 | and commits nothing for the rest of the run but further saves |
| `Handles.SaveNeedsItsHandle` | token.go:191-196 | in every run, whatever else happens that spares the saved row and the new token, the row is usable after the next rotation of the saved token if and only if the source held the handle of that row when it saved it |
| `Scenarios.SavedRowStranded` | token.go:191-196 | a run from the empty store in which a saved row is left with a dead refresh token |
| `Scenarios.LiveRowDeactivated` | token.go:135-146 | a run from the empty store, with a server that rejects dead tokens only and under the conditions of `RefreshTokens.RowTokenIsLive`, in which one of two sources rotates and stores and the other then marks the row, whose token is live, inactive |
| `Scenarios.DeactivatedInFlight` | token.go:135-153 | such a run in which the row is marked after a rejection of the very token it has, between the rotation and its storing |
| `Scenarios.OwnRowDeactivated` | token.go:135-159 | such a run with a single source, which stores a rotated token, fails to validate and is rejected at its next call |
| `Scenarios.RowAhead` | token.go:147-159 | a run from the empty store after which the row has a newer refresh token than the cache of its source |
| `Subjects.RowsHoldTheirOwnTokens` | token.go:147-164 | in every run with an honest server in which no source holding one character's row completes a `Save` of another, both tokens of every row belong to the row's own character |
| `Subjects.RotationFollowsTheHandle` | token.go:147-153 | a rotation stored by a source goes to the row of its handle, and belongs to that row's character if and only if the token presented did |
| `Scenarios.RowGetsForeignToken` | token.go:191-196 | a run from the empty store, with an honest server, that ends with another character's refresh token in a row |
| `Scenarios.RotationStored` | token.go:147-166 | a run from the empty store in which `Token` gets a rotated token, stores both parts and returns it |
| `Coherence.ReturnedTokenIsStored` | token.go:119-166 | for a sole source without `Save`, failed writes, failed validations or repeated access tokens, every token returned is the cached one and equals both token columns of the row |
| `Collection.GcUnobservable` | pkg/datastore/evessopg/PGStore.go:386-395 | every run in which no lookup works with a clock reading too far behind an earlier collection's is matched by the run in which no collection happens: same answers to all PKCE lookups, same handlers, sources, server, profiles and characters at every moment |
| `Collection.ClockAtQueryIsPrompt` | pkg/datastore/evessopg/PGStore.go:368-395 | lookups and collections that read the clock at the query meet the hypothesis of `Collection.GcUnobservable`, because the clock does not go back |
| `Store.Get` | pkg/datastore/evessopg/PGStore.go:85-88 | a single-row query succeeds exactly on one row |
| `Store.PGStore.constructor` | pkg/datastore/evessopg/PGStore.go:211-254 | a new store is empty |
| `Store.PGStore.NewProfile` | pkg/datastore/evessopg/PGStore.go:256-280 | succeeds exactly if the database answers and the name is free; then the row has this name, data and times, and everything else is as before |
| `Store.PGStore.GetProfile` | pkg/datastore/evessopg/PGStore.go:296-304 | a handle of the profile exactly if it exists |
| `Store.PGStore.AllProfiles` | pkg/datastore/evessopg/PGStore.go:282-294 | lists every profile once |
| `Store.PGStore.DeleteProfile` | pkg/datastore/evessopg/PGStore.go:316-322 | after success the profile and exactly the rows that refer to it are gone, and all others unchanged |
| `Store.PGStore.FindCharacter` | pkg/datastore/evessopg/PGStore.go:324-349 | the only active row that meets the criteria, with its profile; with integrity the second lookup adds no failure |
| `Store.PGStore.FindPKCE` | pkg/datastore/evessopg/PGStore.go:368-384 | the one row with this state created less than 300 seconds before the clock reading |
| `Store.PGStore.GetPKCE` | pkg/datastore/evessopg/PGStore.go:351-366 | the row with this id under the same age condition |
| `Store.PGStore.CleanPKCE` | pkg/datastore/evessopg/PGStore.go:386-395 | deletes the rows more than 301 seconds old and nothing else |
| `Store.PGStore.Destroy` | pkg/datastore/evessopg/PKCE.go:77-83 | succeeds whenever the database answers, whether or not the row was there |
| `Store.Profile.Rename` | pkg/datastore/evessopg/Profile.go:76-90 | on success handle and row have the new name and the rest of the row and all other rows are unchanged; it fails exactly if the database does not answer or another profile has the name, and then handle and row keep the old one |
| `Store.Profile.Delete` | pkg/datastore/evessopg/Profile.go:167-173 | removes the profile with exactly its rows |
| `Store.Profile.AllCharacters` | pkg/datastore/evessopg/Profile.go:42-53 | lists every character of the profile once |
| `Store.Profile.FindCharacter` | pkg/datastore/evessopg/Profile.go:92-114 | a handle that shows a row, exactly if that is the one active row of this profile with non-null scopes that hold every wanted one and no criterion differing |
| `Store.Profile.CreateCharacter` | pkg/datastore/evessopg/Profile.go:116-145 | in columns: replaces the refresh token of the row with this identity, or else inserts the whole row; the handle claims the new access token and to be active even when the row keeps its old values |
| `Store.Profile.CreatePKCE` | pkg/datastore/evessopg/Profile.go:147-165 | inserts a row whose verifier decodes to the random bytes and whose challenge decodes to the digest of the verifier, or fails on a taken state or a missing profile |
| `Store.Character.UpdateAccessToken` | pkg/datastore/evessopg/Character.go:63-77 | handle first, then row: a handle that showed its row still does exactly if the write succeeded or changed nothing |
| `Store.Character.UpdateRefreshToken` | pkg/datastore/evessopg/Character.go:111-123 | the same for the refresh token |
| `Store.Character.UpdateActiveState` | pkg/datastore/evessopg/Character.go:125-136 | a failed write is rolled back, so a handle that showed its row always still does |
| `Store.Character.Token` | pkg/datastore/evessopg/Character.go:138-168 | reloads both tokens; an access token that does not parse is dropped from the result, not from the handle |
| `Store.Character.Delete` | pkg/datastore/evessopg/Character.go:170-176 | removes this row only |
| `Store.VisitAll` | cmd/tokengen/main.go:53-71 | all profiles, then all characters of each: visits every character row exactly once |
| `TokenSource.SsoTokenSource.constructor` | autoconfig.go:124-150 | a source starts with an empty cache and the handle it was given, if any |
| `TokenSource.SsoTokenSource.GetCharacter` | token.go:33-43 | the handle, or the failure, that the two lookups lead to in this state; nothing changes |
| `Calls.HandleFound` | token.go:33-43 | a source without a handle finds a row if and only if it is the one active row of the source's own profile with its character name and non-null scopes that hold all of its scopes |
| `TokenSource.SsoTokenSource.Load` | token.go:119-132 | fills an empty cache from the row, looked up first if need be, and leaves a filled one alone, exactly as `Calls.LoadCall` says |
| `TokenSource.SsoTokenSource.Use` | token.go:133-166 | what each of oauth2's answers leads to, exactly as `Calls.UseCall` says |
| `TokenSource.SsoTokenSource.Finish` | token.go:147-166 | refresh token, validation, access token, cache, in this order; a failure keeps the old cache |
| `TokenSource.SsoTokenSource.Token` | token.go:116-167 | for every fortune, store, source and result are those of `Calls.TokenCall`; what it returns is what it caches, and a failing call leaves a filled cache as it was |
| `TokenSource.SsoTokenSource.Save` | token.go:176-197 | for every fortune, store and source are those of `Calls.SaveCall`; it succeeds if and only if the token has a verified identity, the profile is found and the upsert commits; the row stored has that identity, the two parts of the token and the data passed; the cache becomes the saved token exactly then, and the handle never changes |
| `Calls.TokenReturns` | token.go:116-167 | when a call of `Token` succeeds and what it returns and caches, in terms of the state and of what the code does not decide |
| `Calls.TokenWrites` | token.go:133-164 | all a call of `Token` writes: `active` after a rejection, else a changed refresh token and after it, only on success, a changed access token |
| `Calls.ReusedCall` | token.go:133-166 | a cached token that is still valid is returned as it is, and nothing is written or validated |
| `Calls.FailedCall` | token.go:133-146 | a rejection marks exactly this row inactive if that write succeeds, any other error writes nothing, and the cache stays |
| `Calls.GrantedCall` | token.go:147-166 | in columns, when a call that is given new tokens succeeds, what it returns, and what each column of the row and every other row hold afterwards |
| `Calls.SaveStores` | token.go:176-197 | when a call of `Save` succeeds and all it does; otherwise nothing changes |
| `Calls.ServeResult` | autoconfig.go:159-218 | for every state and fortune: the outcome of a callback is the first failure in the order of the code; its PKCE row is gone exactly if it got hold of one; characters change exactly if it completes, by the upsert of the identity it verified |
| `Calls.TokenCallPlays` | token.go:116-167 | a call of `Token` is a sequence of the protocol's steps |
| `Calls.SaveCallPlays` | token.go:176-197 | so is a call of `Save` |
| `Calls.ServeCallPlays` | autoconfig.go:159-218 | and so is a callback |
| `TokenSource.CacheAfterCall` | token.go:147-166 | from a cache equal to its row, a call leaves them equal if and only if it stored no new refresh token or went all the way |
| `TokenSource.RefreshTokenComesFirst` | token.go:147-164 | a refresh token whose write succeeds is in the row whatever fails later, and a new access token is never in the row without it |
| `Callback.ServeHTTP` | autoconfig.go:159-218 | for every state and fortune, the tables are those of `Calls.ServeCall` and the outcome is the first failure in the order of the code, or completion; completion means a PKCE row of this state, young enough at both checks and gone now, and the character stored with its profile and data, the identity validated and the tokens exchanged |
| `Callback.Claim` | autoconfig.go:247-262 | the PKCE row is found, its profile found, then the row deleted, exactly as `Calls.ClaimCall` says; a profile is returned if and only if all three succeed |
| `Callback.Redeem` | autoconfig.go:264-277 | the age check, then the exchange |
| `Callback.Identify` | autoconfig.go:278-287 | the validation, then the identity, or the failure of either |
| `Callback.Land` | autoconfig.go:288-294 | the character is stored or the callback fails, exactly as `Calls.LandCall` says; a failing collection is ignored |
| `Sequential.SourceAlone` | token.go:116-167 | steps one source takes in a run without anybody in between are a play |
| `Sequential.SourcePlayRuns` | token.go:116-167 | a play of a source that clock, uuids and server go along with extends the run by exactly its steps, and ends where the play ends |
| `Sequential.HandlerAlone` | autoconfig.go:159-218 | steps one handler takes in a run without anybody in between are a play |
| `Sequential.HandlerPlayRuns` | autoconfig.go:159-218 | a play of a handler that clock, uuids and server go along with extends the run by exactly its steps, and ends where the play ends |
| `Sequential.TokenRuns` | token.go:116-167 | `Token` can be called at the end of every run and takes it to what `Calls.TokenCall` says |
| `Sequential.SaveRuns` | token.go:176-197 | the same for `Save` |
| `Sequential.ServeRuns` | autoconfig.go:159-218 | the same for a callback, from its arrival on |
| `ScopeMatch.ElementsMatchByLoop` | DataStore.go:118-140 | true if and only if the first list is a sub-multiset of the second, whatever their lengths |
| `ScopeMatch.ElementsMatchByMap` | DataStore.go:141-159 | true if and only if the two lists are equal as multisets |
| `ScopeMatch.MatchScopes` | DataStore.go:105-116 | decides multiset equality of any two lists, so the threshold of 20 cannot be observed |
| `StringOrder.SortStrings` | token.go:104 | the same strings, in order |
| `StringOrder.LeqIsLexicographic` | token.go:104 | the order is the ascending lexicographic one: up to the first difference alike, and there smaller or at its end |
| `StringOrder.SortIsCanonical` | token.go:104 | two lists are equal as multisets if and only if sorting makes them the same list |
| `Claims.NewCharacterClaims` | token.go:72-106 | the identity as specified, or the first of the four errors met, read from the JSON of the token |
| `Claims.ClaimsFromJson` | token.go:72-106 | a string `scp` gives exactly that scope, an array of strings each string as often as it is listed, sorted, or no scopes if it is empty; anything else, an absent name, an absent owner and an unreadable subject give their errors, in this order |
| `Claims.ClaimsAreTheTokens` | token.go:72-106 | an identity has the token's own name, owner, int32 id and scopes, sorted, each as often as granted |
| `Claims.IdentityIgnoresScopeOrder` | token.go:79-104 | two tokens give the same identity if and only if they agree on id, name and owner and on their scopes up to order |
| `SubjectScan.SubjectRoundTrip` | token.go:100-103 | the decimal form of an int32 scans back to itself, that of any other integer is refused and not wrapped |
| `SubjectScan.ScanExample` | token.go:100-103 | the digits are decimal |
| `SubjectScan.ScanLooseExample` | token.go:100-103 | a blank and a sign may stand before the digits, and other text behind |
| `SubjectScan.ScanFails` | token.go:100-103 | a newline after the prefix, or nothing, is refused |
| `SubjectScan.ScanAccepts` | token.go:100-103 | a subject yields `n` if and only if it is the prefix, blanks, an optional sign, digits denoting the int32 `n`, and anything not going on with a digit |
| `Base64Url.RoundTrip` | pkg/datastore/evessopg/PKCE.go:95-97 | decoding undoes encoding for every byte string |
| `Base64Url.EncodeInjective` | pkg/datastore/evessopg/PKCE.go:95-97 | two byte strings have the same encoding if and only if they are equal |
| `Base64Url.EncodingShape` | pkg/datastore/evessopg/PKCE.go:95-97 | three bytes become four characters, rounded up, all of them unreserved |
| `Base64Url.Alphabet` | pkg/datastore/evessopg/PKCE.go:95-97 | the 64 symbols are those of section 5 of RFC 4648, in their order |
| `Base64Url.SameBits` | pkg/datastore/evessopg/PKCE.go:95-97 | the four sextets of three bytes are their 24 bits in order |
| `Base64Url.TestVectors` | pkg/datastore/evessopg/PKCE.go:95-97 | a test vector of section 10 of RFC 4648, and one with the two symbols of section 5 |
| `Pkce.MadePkceIsWellFormed` | pkg/datastore/evessopg/PKCE.go:89-106 | verifier and challenge have the 43 unreserved characters section 4.1 of RFC 7636 asks for, and the verifier decodes to the random bytes |
| `Pkce.ChallengeIsTheDigest` | pkg/datastore/evessopg/PKCE.go:96-97 | for every verifier, the challenge decodes to the SHA-256 digest of its characters |
| `Pkce.ChallengeNamesVerifier` | pkg/datastore/evessopg/PKCE.go:95-97 | two verifiers have the same challenge if and only if they are equal, unless SHA-256 collides on them |
| `DialRace.NoConnectionLeaks` | internal/utils/sshproxy.go:35-56 | in every interleaving a dialed connection ends up closed or with the caller, perhaps along with an error; it is closed only after a cancellation, and no caller gets a connection nobody dialed |
| `DialRace.TakenCareOfExactly` | internal/utils/sshproxy.go:42-55 | a dialed connection ends up closed or returned without error if and only if the select saw `done` or the context was cancelled before the goroutine looked at it; otherwise it is returned open along with the context's error |
| `DialRace.DoneReportsDial` | internal/utils/sshproxy.go:50-55 | a caller whose select saw `done` gets exactly what `Dial` gave, open unless cancelled |
| `DialRace.ClosedExactly` | internal/utils/sshproxy.go:42-48 | a dialed connection ends up closed if and only if the context was cancelled before the goroutine looked at it |
| `DialRace.EmptySuccessExactly` | internal/utils/sshproxy.go:42-55 | a caller gets neither connection nor error if and only if `Dial` succeeded, `conn` was read before it was written, and `err` was written between the caller's assignment to it and the caller's reading of it |
| `DialRace.EmptySuccessIsClosed` | internal/utils/sshproxy.go:50-55 | whoever gets neither connection nor error chose the context, and the connection it does not see is closed |
| `DialRace.ReturnedConnectionMayBeClosed` | internal/utils/sshproxy.go:21-25 | an interleaving in which a connection returned without error is closed |
| `DialRace.EmptySuccessHappens` | internal/utils/sshproxy.go:50-55 | an interleaving in which the caller gets neither connection nor error |
| `DialRace.OpenConnectionWithError` | internal/utils/sshproxy.go:42-55 | an interleaving in which a connection stays open and is returned along with the context's error |

## Left out

- HTTP serving, TLS, autocert, shutdown and browser launching: plumbing around the callback body.
- Parsing of `code` and `state` from the request: a malformed state ends the request before any store call.
- Metadata, key sets and JWT cryptography: `validateAccessToken` is an outcome, together with the claims it yields.
- Token expiry: a source may reuse or refresh a non-empty cached token at any call.
- SQL text, reflection, pools and transactions of `PGStore.Query`: their meaning is a statement that commits or fails; a statement that commits although its caller is told it failed is not modelled.
- `GLock` and `GUnlock`: they have no caller, and mean PostgreSQL session locks.
- Migrations, configuration and logging: input and output.
- JSON encoding of profile and reference data: opaque text; a value that cannot be encoded is not modelled.
- Mutexes of sources and handles: a call of one source is a sequence of its steps, so two calls of it never interleave.
- A handle shared by two sources: in the protocol a source knows its row by id only, so handle fields that run ahead of the row appear in `Store` alone.
- The panic of a source that uses a missing handle after `Save`: the call ends there and nothing is written.
- What happens to tokens when a code is presented again: the server refuses, and does not revoke what it issued for the code.
- `MakePKCE` when the random source fails: it would return nil.
- `FindProfile`, `Profile.GetCharacter` and the getters: they would only add easy members.
- `AuthUrl` and `AuthURL`: building a URL is a string operation; what counts is that the server issues a code against the challenge in it, which is the event `Authorize`.
- The column `code_challange_method`: it is always S256, which is how the model makes and checks challenges.
- SSH keys, known hosts and PEM handling: wrappers over libraries.
- The scope generator and its constants: a corollary of the sorting lemma.
- RefreshTokens.RowTokenIsLive: assumes the conditions named in its row, each of which is needed: `Scenarios.StoringDecides` (a failing write), `Scenarios.LostResponseStrands` (a lost response), `Scenarios.SavedRowStranded` (`Save`) and `Scenarios.FirstLogin` without a refresh token in the answer (a row with none).
- RefreshTokens.DeactivatedExactly: assumes that the server rejects dead refresh tokens only; a server may reject any, and the code marks the row inactive after every rejection.
- Subjects.RowsHoldTheirOwnTokens: assumes that the server answers with tokens of the right character and that callers of `Save` pass the two parts of one answer, and asks nothing of rows without a refresh token.
- Handles.SaveNeedsItsHandle: leaves out runs in which somebody else writes the saved row in between; a callback that does so gives it a token of its own.
- RefreshTokens.HeldStays: is about one event, given the invariant that `RefreshTokens.Smoothly` proves of the same runs.
- Collection.GcUnobservable: assumes the clock readings that `Collection.ClockAtQueryIsPrompt` shows lookups and collections to have if they read the clock at the query.
- Coherence.ReturnedTokenIsStored: assumes a refresh always yields a new access token, because the code writes the access token only if it changed.
- Callback.ServeHTTP: `LocalhostAuth` differs only in what it writes to the response, which is not modelled.
- Store.PGStore.FindCharacter: returns the row's id in place of a second handle.
- Store.PGStore.AllProfiles: returns ids in place of handles, as does Store.Profile.AllCharacters.
- Store.PGStore.constructor: opens no database; it starts from empty tables.

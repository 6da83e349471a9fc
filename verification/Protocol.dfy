/**
 The authorization flow over the store as a step relation: any number of callback handlers
 (autoconfig.go) and token sources (token.go) interleave with the library's own store calls,
 the clock and the authorization server.  Every query, every exchange with the server and
 every validation is one step; a query commits or fails as a whole.

 Steps are data, so a run is a sequence of events, and the state after a run is a function
 of it.  Every outcome the code does not control (a failing query, the server's answer, a
 fresh uuid, a clock reading) is an argument of the event.
 */
module Protocol {
  import opened Wrappers
  import opened Claims
  import opened Tables
  import opened Base64Url
  import opened Pkce

  datatype Token = Token(access: string, refresh: string)

  /** A row as `CreateCharacter` builds it. */
  function NewRow(profile: Id, claims: CharacterClaims, token: Token, data: Data, at: Instant): CharacterRow
  {
    CharacterRow(profile, claims.characterId, claims.characterName, claims.owner, claims.scopes,
                 token.refresh, token.access, true, data, at, at)
  }

  /** What a step does: the statement it commits, if any, and the new state of whoever took it. */
  datatype Effect<+S> = Effect(stmt: Option<Stmt>, next: S)

  /** The tables after an optional statement. */
  ghost function Commit(t: Tables, stmt: Option<Stmt>): Tables
  {
    if stmt.Some? && Exec(t, stmt.value).Ok? then Exec(t, stmt.value).value else t
  }

  // ---- Callback handlers ----

  datatype Outcome = Refused | TimedOut | ExchangeFailed | NotVerified | BadClaims | NotStored | Completed

  datatype HandlerPc =
    | Started | Found | Located | Destroyed | Young | Exchanged | Verified | Identified | Landed
    | Finished(outcome: Outcome)

  /** The numbers of the steps a handler took; no step reads them. */
  datatype Trail = Trail(found: nat, destroyed: nat, checked: nat, exchanged: nat, verified: nat, identified: nat, stored: nat)

  /**
   `pkceId` and `pkce` are the row `FindPKCE` returned, `jt` is what validation made of the access
   token, `landed` the id `CreateCharacter` returned.
   */
  datatype Handler = Handler(
    pc: HandlerPc, code: string, state: Id,
    pkceId: Id, pkce: PkceRow,
    token: Token, jt: VerifiedJwt, claims: CharacterClaims, landed: Option<Id>,
    trail: Trail)

  const NO_TRAIL := Trail(0, 0, 0, 0, 0, 0, 0)
  const NO_PKCE := PkceRow(0, 0, [], [], None, "", 0)
  const NO_JWT := VerifiedJwt(None, None, None, "")
  const NO_CLAIMS := CharacterClaims(0, "", "", None)

  function NewHandler(code: string, state: Id): Handler
  {
    Handler(Started, code, state, 0, NO_PKCE, Token("", ""), NO_JWT, NO_CLAIMS, None, NO_TRAIL)
  }

  /** The server's answer to a code exchange; the refresh token may be missing. */
  datatype Reply = Reply(access: string, refresh: Option<string>)

  datatype HandlerStep =
    | Find(asOf: Instant, ok: bool)
    | GetProfile(ok: bool)
    | Destroy(ok: bool)
    | CheckAge(at: Instant)
    | Exchange(reply: Option<Reply>)
    | Verify(jt: Option<VerifiedJwt>)
    | ReadClaims
    | Create(id: Id, at: Instant, ok: bool)
    | Clean(asOf: Instant, ok: bool)

  /** A reply without a refresh token leaves the field empty. */
  function ReplyToken(reply: Reply): Token
  {
    Token(reply.access, if reply.refresh.Some? then reply.refresh.value else "")
  }

  function Abandon(h: Handler, outcome: Outcome): Handler
  {
    h.(pc := Finished(outcome))
  }

  function Quiet<S>(next: S): Option<Effect<S>>
  {
    Some(Effect(None, next))
  }

  /** One step of a handler; `n` is the number of the step. */
  ghost function HandlerNext(t: Tables, h: Handler, n: nat, step: HandlerStep): Option<Effect<Handler>>
  {
    match step
    case Find(asOf, ok) =>
      if h.pc != Started then None
      else
        var row := FindPkceRow(t, h.state, asOf);
        Quiet(if ok && row.Some? && row.value in t.pkces then
                h.(pc := Found, pkceId := row.value, pkce := t.pkces[row.value], trail := h.trail.(found := n))
              else Abandon(h, Refused))
    case GetProfile(ok) =>
      if h.pc != Found then None
      else Quiet(if ok && h.pkce.profileRef in t.profiles then h.(pc := Located) else Abandon(h, Refused))
    case Destroy(ok) =>
      if h.pc != Located then None
      else if ok then Some(Effect(Some(DeletePkce(h.pkceId)), h.(pc := Destroyed, trail := h.trail.(destroyed := n))))
      else Quiet(Abandon(h, Refused))
    case CheckAge(at) =>
      if h.pc != Destroyed then None
      else
        Quiet(if at - h.pkce.createdAt > PKCE_LIFETIME then Abandon(h, TimedOut)
              else h.(pc := Young, trail := h.trail.(checked := n)))
    case Exchange(reply) =>
      if h.pc != Young then None
      else
        Quiet(if reply.Some? then
                h.(pc := Exchanged, token := ReplyToken(reply.value), trail := h.trail.(exchanged := n))
              else Abandon(h, ExchangeFailed))
    case Verify(jt) =>
      if h.pc != Exchanged then None
      else
        Quiet(if jt.Some? then h.(pc := Verified, jt := jt.value, trail := h.trail.(verified := n))
              else Abandon(h, NotVerified))
    case ReadClaims =>
      if h.pc != Verified then None
      else
        var claims := ClaimsOf(h.jt);
        Quiet(if claims.Ok? then h.(pc := Identified, claims := claims.value, trail := h.trail.(identified := n))
              else Abandon(h, BadClaims))
    case Create(id, at, ok) =>
      if h.pc != Identified then None
      else
        var row := NewRow(h.pkce.profileRef, h.claims, h.token, h.pkce.referenceData, at);
        if ok && Exec(t, UpsertCharacter(id, row)).Ok? then
          Some(Effect(Some(UpsertCharacter(id, row)),
                      h.(pc := Landed, landed := Some(UpsertTarget(t, id, row)), trail := h.trail.(stored := n))))
        else Quiet(Abandon(h, NotStored))
    case Clean(asOf, ok) =>
      if h.pc != Landed then None
      else Some(Effect(if ok then Some(CleanStmt(asOf)) else None, Abandon(h, Completed)))
  }

  // ---- Token sources ----

  datatype SourcePc =
    | Idle | Lookup | ProfileKnown | Loading | Exchanging | Rejected
    | Received(got: Token) | Stored(got: Token) | Accepted(got: Token)
    | SaveAccepted(got: Token, claims: CharacterClaims, data: Data)
    | SaveLocated(got: Token, claims: CharacterClaims, data: Data)

  /** `character` is the row id of the handle the source holds; `returned` what the last call of Token gave back. */
  datatype Source = Source(
    profile: Id, name: string, scopes: ScopeList,
    character: Option<Id>, token: Option<Token>,
    pc: SourcePc, returned: Option<Token>)

  datatype SourceStep =
    | Call
    | FindProfile(ok: bool)
    | FindCharacter(ok: bool)
    | LoadToken(ok: bool, parses: bool)
    | Reuse
    | Refresh(access: string, rotated: Option<string>)
    | RefreshFailed
    | RefreshLost(rotated: Option<string>)
    | RefreshRejected
    | MarkInactive(at: Instant, ok: bool)
    | StoreRefresh(at: Instant, ok: bool)
    | Validate(ok: bool)
    | StoreAccess(at: Instant, ok: bool)
    | Save(token: Token, jt: Option<VerifiedJwt>, data: Data)
    | SaveFindProfile(ok: bool)
    | SaveCreate(id: Id, at: Instant, ok: bool)

  function Return(src: Source, token: Option<Token>): Source
  {
    src.(pc := Idle, returned := token)
  }

  /** The cached token as `Character.Token` reads it from a row: an access token that does not parse is dropped. */
  function LoadedToken(row: CharacterRow, parses: bool): Token
  {
    Token(if |row.accessToken| > 1 && !parses then "" else row.accessToken, row.refreshToken)
  }

  /** The token oauth2 hands out after a refresh: the old refresh token survives a response without one. */
  function Refreshed(token: Token, access: string, rotated: Option<string>): Token
  {
    Token(access, if rotated.Some? then rotated.value else token.refresh)
  }

  function EntryPc(src: Source): SourcePc
  {
    if src.token.Some? then Exchanging else if src.character.Some? then Loading else Lookup
  }

  /**
   One step of a source.  Updates go through the handle it holds; where the code would
   dereference a nil handle, it panics, the lock is released and nothing is written.
   */
  ghost function SourceNext(t: Tables, src: Source, step: SourceStep): Option<Effect<Source>>
  {
    match step
    case Call =>
      if src.pc != Idle then None else Quiet(src.(pc := EntryPc(src), returned := None))
    case FindProfile(ok) =>
      if src.pc != Lookup then None
      else Quiet(if ok && src.profile in t.profiles then src.(pc := ProfileKnown) else Return(src, None))
    case FindCharacter(ok) =>
      if src.pc != ProfileKnown then None
      else
        var c := TheOnly(ProfileMatches(t, Criteria(0, src.name, ""), src.profile, src.scopes));
        Quiet(if ok && c.Some? then src.(pc := Loading, character := c) else Return(src, None))
    case LoadToken(ok, parses) =>
      if src.pc != Loading then None
      else
        Quiet(if ok && src.character.Some? && src.character.value in t.characters then
                src.(pc := Exchanging, token := Some(LoadedToken(t.characters[src.character.value], parses)))
              else Return(src, None))
    case Reuse =>
      if src.pc != Exchanging || src.token.None? || src.token.value.access == "" then None
      else Quiet(src.(pc := Received(src.token.value)))
    case Refresh(access, rotated) =>
      if src.pc != Exchanging || src.token.None? || access == "" then None
      else Quiet(src.(pc := Received(Refreshed(src.token.value, access, rotated))))
    case RefreshFailed =>
      if src.pc != Exchanging then None else Quiet(Return(src, None))
    case RefreshLost(_) =>
      if src.pc != Exchanging then None else Quiet(Return(src, None))
    case RefreshRejected =>
      if src.pc != Exchanging then None else Quiet(src.(pc := Rejected))
    case MarkInactive(at, ok) =>
      if src.pc != Rejected then None
      else
        Some(Effect(if ok && src.character.Some? then Some(SetActive(src.character.value, false, at)) else None,
                    Return(src, None)))
    case StoreRefresh(at, ok) =>
      if !src.pc.Received? then None
      else if src.token.Some? && src.token.value.refresh == src.pc.got.refresh then
        Quiet(src.(pc := Stored(src.pc.got)))
      else if ok && src.character.Some? then
        Some(Effect(Some(SetRefreshToken(src.character.value, src.pc.got.refresh, at)), src.(pc := Stored(src.pc.got))))
      else Quiet(Return(src, None))
    case Validate(ok) =>
      if !src.pc.Stored? then None
      else
        Quiet(if src.token.Some? && src.token.value.access == src.pc.got.access then Return(src, src.token)
              else if ok then src.(pc := Accepted(src.pc.got))
              else Return(src, None))
    case StoreAccess(at, ok) =>
      if !src.pc.Accepted? then None
      else if ok && src.character.Some? then
        Some(Effect(Some(SetAccessToken(src.character.value, src.pc.got.access, at)),
                    Return(src.(token := Some(src.pc.got)), Some(src.pc.got))))
      else Quiet(Return(src, None))
    case Save(token, jt, data) =>
      if src.pc != Idle then None
      else
        Quiet(if jt.Some? && ClaimsOf(jt.value).Ok? then
                src.(pc := SaveAccepted(token, ClaimsOf(jt.value).value, data))
              else src)
    case SaveFindProfile(ok) =>
      if !src.pc.SaveAccepted? then None
      else
        Quiet(src.(pc := if ok && src.profile in t.profiles then SaveLocated(src.pc.got, src.pc.claims, src.pc.data)
                         else Idle))
    case SaveCreate(id, at, ok) =>
      if !src.pc.SaveLocated? then None
      else
        var q := UpsertCharacter(id, NewRow(src.profile, src.pc.claims, src.pc.got, src.pc.data, at));
        if ok && Exec(t, q).Ok? then Some(Effect(Some(q), src.(pc := Idle, token := Some(src.pc.got))))
        else Quiet(src.(pc := Idle))
  }

  // ---- The whole system ----

  /** An authorization code: the challenge it was issued against, and the PKCE row its URL was built from, if ours. */
  datatype Grant = Grant(challenge: Text, builtFrom: Option<Id>)

  /** Codes granted and those redeemed; every refresh token ever issued, and those still honoured. */
  datatype Server = Server(codes: map<string, Grant>, spent: set<string>, issued: set<string>, live: set<string>)

  datatype Origin = ByCallback(handler: nat) | BySave(source: nat)

  /** Where a refresh token is: in the hands of whoever the server sent it to, or written to a row. */
  datatype Holder = WithHandler(handler: nat) | WithSource(source: nat) | AtRow(row: Id)

  /**
   What has happened so far; no step reads it.  `pkces` holds every PKCE row ever inserted,
   `verified` every access token `validateAccessToken` accepted, `holders` where each refresh
   token is, `origins` who inserted each character row.
   */
  datatype History = History(
    pkces: map<Id, PkceRow>, verified: set<string>, holders: map<string, Holder>, origins: map<Id, Origin>)

  datatype System = System(
    t: Tables, now: Instant, steps: nat, used: set<Id>,
    handlers: map<nat, Handler>, sources: map<nat, Source>,
    server: Server, hist: History)

  const INIT := System(EMPTY, 0, 0, {}, map[], map[], Server(map[], {}, {""}, {}), History(map[], {}, map[], map[]))

  datatype Event =
    | Tick(d: nat)
    | NewProfile(id: Id, name: string, data: Data, at: Instant)
    | Rename(id: Id, name: string, at: Instant)
    | DropProfile(id: Id)
    | DropCharacter(id: Id)
    | CreatePkce(id: Id, profile: Id, state: Id, random: seq<Byte>, scopes: ScopeList, data: Data, at: Instant)
    | CleanPkce(asOf: Instant)
    | GetPkce(id: Id, asOf: Instant)
    | Authorize(code: string, grant: Grant)
    | Arrive(h: nat, code: string, state: Id)
    | Open(s: nat, profile: Id, name: string, scopes: ScopeList, character: Option<Id>)
    | HandlerDoes(h: nat, hstep: HandlerStep)
    | SourceDoes(s: nat, sstep: SourceStep)

  /** The store call an environment event makes, if it makes one; a call that fails changes nothing and is no event. */
  function Statement(sha: Sha256, e: Event): Option<Stmt>
  {
    match e
    case NewProfile(id, name, data, at) => Some(InsertProfile(id, ProfileRow(name, data, at, at)))
    case Rename(id, name, at) => Some(UpdateProfileName(id, name, at))
    case DropProfile(id) => Some(DeleteProfile(id))
    case DropCharacter(id) => Some(DeleteCharacter(id))
    case CreatePkce(id, profile, state, random, scopes, data, at) =>
      var verifier := Encode(random);
      Some(InsertPkce(id, PkceRow(profile, state, verifier, Challenge(sha, verifier), scopes, data, at)))
    case CleanPkce(asOf) => Some(CleanStmt(asOf))
    case _ => None
  }

  /** Uuids an event makes the database generate. */
  function FreshIds(e: Event): set<Id>
  {
    match e
    case NewProfile(id, _, _, _) => {id}
    case CreatePkce(id, _, state, _, _, _, _) => {id, state}
    case HandlerDoes(_, Create(id, _, _)) => {id}
    case SourceDoes(_, SaveCreate(id, _, _)) => {id}
    case _ => {}
  }

  /** `MakePKCE` draws 32 random bytes, and a row's two uuids differ. */
  predicate DrawOk(e: Event)
  {
    e.CreatePkce? ==> |e.random| == VERIFIER_BYTES && e.id != e.state
  }

  /** A clock is read before the query it goes into; the age check is the reading itself. */
  predicate ClockOk(now: Instant, e: Event)
  {
    match e
    case NewProfile(_, _, _, at) => at <= now
    case Rename(_, _, at) => at <= now
    case CreatePkce(_, _, _, _, _, _, at) => at <= now
    case CleanPkce(asOf) => asOf <= now
    case GetPkce(_, asOf) => asOf <= now
    case HandlerDoes(_, Find(asOf, _)) => asOf <= now
    case HandlerDoes(_, CheckAge(at)) => at == now
    case HandlerDoes(_, Create(_, at, _)) => at <= now
    case HandlerDoes(_, Clean(asOf, _)) => asOf <= now
    case SourceDoes(_, MarkInactive(at, _)) => at <= now
    case SourceDoes(_, StoreRefresh(at, _)) => at <= now
    case SourceDoes(_, StoreAccess(at, _)) => at <= now
    case SourceDoes(_, SaveCreate(_, at, _)) => at <= now
    case _ => true
  }

  /**
   What the authorization server does at a handler's step; None when it would not answer so.  A
   code is good for one exchange (section 4.1.2 of RFC 6749), with the verifier it was issued
   against (section 4.6 of RFC 7636).
   */
  function ServeHandler(sha: Sha256, v: Server, h: Handler, step: HandlerStep): Option<Server>
  {
    match step
    case Exchange(Some(Reply(access, refresh))) =>
      if access == "" || h.code !in v.codes || h.code in v.spent then None
      else if Challenge(sha, h.pkce.verifier) != v.codes[h.code].challenge then None
      else if refresh.None? then Some(v.(spent := v.spent + {h.code}))
      else if refresh.value in v.issued then None
      else
        Some(v.(spent := v.spent + {h.code}, issued := v.issued + {refresh.value}, live := v.live + {refresh.value}))
    case _ => Some(v)
  }

  /** A refresh succeeds only with a live refresh token; rotating it revokes the old one. */
  function ServeRefresh(v: Server, presented: string, rotated: Option<string>): Option<Server>
  {
    if presented !in v.live then None
    else if rotated.None? then Some(v)
    else if rotated.value in v.issued then None
    else Some(v.(issued := v.issued + {rotated.value}, live := v.live - {presented} + {rotated.value}))
  }

  function ServeSource(v: Server, src: Source, step: SourceStep): Option<Server>
  {
    match step
    case Refresh(_, rotated) => if src.token.None? then None else ServeRefresh(v, src.token.value.refresh, rotated)
    case RefreshLost(rotated) => if src.token.None? then None else ServeRefresh(v, src.token.value.refresh, rotated)
    case _ => Some(v)
  }

  /** The access token a step's `validateAccessToken` accepted, if it did. */
  function HandlerVerifies(h: Handler, step: HandlerStep): set<string>
  {
    if step.Verify? && step.jt.Some? then {h.token.access} else {}
  }

  function SourceVerifies(src: Source, step: SourceStep): set<string>
  {
    match step
    case Validate(ok) =>
      if ok && src.pc.Stored? && !(src.token.Some? && src.token.value.access == src.pc.got.access) then {src.pc.got.access}
      else {}
    case Save(token, jt, _) => if jt.Some? then {token.access} else {}
    case _ => {}
  }

  /** What the event demands of the state; a store call that would fail changes nothing and is no event. */
  ghost predicate Enabled(sha: Sha256, s: System, e: Event)
  {
    && ClockOk(s.now, e) && FreshIds(e) !! s.used && DrawOk(e)
    && match e
       case HandlerDoes(k, step) =>
         && k in s.handlers
         && HandlerNext(s.t, s.handlers[k], s.steps, step).Some?
         && ServeHandler(sha, s.server, s.handlers[k], step).Some?
       case SourceDoes(k, step) =>
         && k in s.sources
         && SourceNext(s.t, s.sources[k], step).Some?
         && ServeSource(s.server, s.sources[k], step).Some?
       case Arrive(k, _, _) => k !in s.handlers
       case Open(k, _, _, _, character) => k !in s.sources && (character.Some? ==> character.value in s.hist.origins)
       case Authorize(code, grant) =>
         && code !in s.server.codes
         && (grant.builtFrom.Some? ==>
               && grant.builtFrom.value in s.hist.pkces
               && s.hist.pkces[grant.builtFrom.value].challenge == grant.challenge)
       case _ => Statement(sha, e).Some? ==> Exec(s.t, Statement(sha, e).value).Ok?
  }

  /** The statement an event commits, if it commits one. */
  ghost function Committed(sha: Sha256, s: System, e: Event): Option<Stmt>
    requires Enabled(sha, s, e)
  {
    match e
    case HandlerDoes(k, step) => HandlerNext(s.t, s.handlers[k], s.steps, step).value.stmt
    case SourceDoes(k, step) => SourceNext(s.t, s.sources[k], step).value.stmt
    case _ => Statement(sha, e)
  }

  ghost function NextHandlers(sha: Sha256, s: System, e: Event): map<nat, Handler>
    requires Enabled(sha, s, e)
  {
    match e
    case HandlerDoes(k, step) => s.handlers[k := HandlerNext(s.t, s.handlers[k], s.steps, step).value.next]
    case Arrive(k, code, state) => s.handlers[k := NewHandler(code, state)]
    case _ => s.handlers
  }

  ghost function NextSources(sha: Sha256, s: System, e: Event): map<nat, Source>
    requires Enabled(sha, s, e)
  {
    match e
    case SourceDoes(k, step) => s.sources[k := SourceNext(s.t, s.sources[k], step).value.next]
    case Open(k, profile, name, scopes, character) =>
      s.sources[k := Source(profile, name, scopes, character, None, Idle, None)]
    case _ => s.sources
  }

  ghost function NextServer(sha: Sha256, s: System, e: Event): Server
    requires Enabled(sha, s, e)
  {
    match e
    case HandlerDoes(k, step) => ServeHandler(sha, s.server, s.handlers[k], step).value
    case SourceDoes(k, step) => ServeSource(s.server, s.sources[k], step).value
    case Authorize(code, grant) => s.server.(codes := s.server.codes[code := grant])
    case _ => s.server
  }

  /** The access token validated by an event, if one was. */
  ghost function Verifies(sha: Sha256, s: System, e: Event): set<string>
    requires Enabled(sha, s, e)
  {
    match e
    case HandlerDoes(k, step) => HandlerVerifies(s.handlers[k], step)
    case SourceDoes(k, step) => SourceVerifies(s.sources[k], step)
    case _ => {}
  }

  function OriginOf(e: Event): Origin
  {
    match e
    case HandlerDoes(k, _) => ByCallback(k)
    case SourceDoes(k, _) => BySave(k)
    case _ => BySave(0)
  }

  /** The refresh token the server sends out at an event, and to whom. */
  function SentTo(e: Event): map<string, Holder>
  {
    match e
    case HandlerDoes(k, Exchange(Some(Reply(_, Some(refresh))))) => map[refresh := WithHandler(k)]
    case SourceDoes(k, Refresh(_, Some(refresh))) => map[refresh := WithSource(k)]
    case _ => map[]
  }

  /** The refresh token a statement writes, and to which row. */
  ghost function WrittenTo(t: Tables, stmt: Option<Stmt>): map<string, Holder>
  {
    match stmt
    case Some(SetRefreshToken(c, refresh, _)) => map[refresh := AtRow(c)]
    case Some(UpsertCharacter(id, row)) => map[row.refreshToken := AtRow(UpsertTarget(t, id, row))]
    case _ => map[]
  }

  ghost function NextOrigins(origins: map<Id, Origin>, t: Tables, stmt: Option<Stmt>, e: Event): map<Id, Origin>
  {
    match stmt
    case Some(UpsertCharacter(id, row)) =>
      if Conflict(t.characters, row).Some? then origins else origins[id := OriginOf(e)]
    case _ => origins
  }

  ghost function NextHistory(sha: Sha256, s: System, e: Event): History
    requires Enabled(sha, s, e)
  {
    var stmt := Committed(sha, s, e);
    History(
      match stmt { case Some(InsertPkce(id, pkce)) => s.hist.pkces[id := pkce] case _ => s.hist.pkces },
      s.hist.verified + Verifies(sha, s, e),
      s.hist.holders + SentTo(e) + WrittenTo(s.t, stmt),
      NextOrigins(s.hist.origins, s.t, stmt, e))
  }

  /** One event; None when it cannot happen in this state. */
  ghost function Apply(sha: Sha256, s: System, e: Event): Option<System>
  {
    if !Enabled(sha, s, e) then None
    else
      Some(System(
        Commit(s.t, Committed(sha, s, e)),
        if e.Tick? then s.now + e.d else s.now,
        s.steps + 1,
        s.used + FreshIds(e),
        NextHandlers(sha, s, e),
        NextSources(sha, s, e),
        NextServer(sha, s, e),
        NextHistory(sha, s, e)))
  }

  /** Marks a moment of a run one wants to look at; it is what the definition of a run is keyed to. */
  ghost predicate Moment(i: int)
  {
    true
  }

  /** A run from the empty store: `ss[i]` is the state before event `es[i]`, the last state ends it. */
  ghost predicate Run(sha: Sha256, ss: seq<System>, es: seq<Event>)
  {
    && |ss| == |es| + 1 && ss[0] == INIT
    && forall i {:trigger Moment(i)} :: Moment(i) && 0 <= i < |es| ==> Apply(sha, ss[i], es[i]) == Some(ss[i + 1])
  }

  lemma RunStep(sha: Sha256, ss: seq<System>, es: seq<Event>, i: nat)
    requires Run(sha, ss, es) && i < |es|
    ensures Apply(sha, ss[i], es[i]) == Some(ss[i + 1])
  {
    assert Moment(i);
  }

  /** A run goes on with any event that is possible in its last state. */
  lemma Extend(sha: Sha256, ss: seq<System>, es: seq<Event>, e: Event) returns (ss': seq<System>, es': seq<Event>)
    requires Run(sha, ss, es) && Apply(sha, ss[|es|], e).Some?
    ensures Run(sha, ss', es')
    ensures es' == es + [e] && ss' == ss + [Apply(sha, ss[|es|], e).value]
  {
    ss', es' := ss + [Apply(sha, ss[|es|], e).value], es + [e];
    forall i | Moment(i) && 0 <= i < |es'| ensures Apply(sha, ss'[i], es'[i]) == Some(ss'[i + 1]) {
      if i < |es| {
        RunStep(sha, ss, es, i);
      }
    }
  }
}

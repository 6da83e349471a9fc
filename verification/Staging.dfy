/**
 The building blocks of the runs in module Scenarios: single steps, logins, and the stages of a
 call of `Token`, each of which prolongs a run that keeps a rule by events that keep it too.
 */
module Staging {
  import opened Wrappers
  import opened Claims
  import opened Tables
  import opened Protocol
  import opened Pkce
  import opened Base64Url
  import Rows
  import Provenance
  import RefreshTokens
  import Subjects

  /**
   What every event of a run has to keep: nothing; the conditions of RefreshTokens.SmoothRun and
   RefreshTokens.Justified; or those of Subjects.HonestRun.
   */
  datatype Rule = Anything | Gentle | Truthful(g: Subjects.Grants)

  ghost predicate Keeps(rule: Rule, s: System, e: Event)
  {
    match rule
    case Anything => true
    case Gentle => RefreshTokens.Smooth(e) && RefreshTokens.Rightly(s, e)
    case Truthful(g) => Subjects.Honest(g, s, e)
  }

  ghost predicate Ruled(rule: Rule, sha: Sha256, ss: seq<System>, es: seq<Event>)
  {
    Run(sha, ss, es) && forall i :: 0 <= i < |es| ==> Keeps(rule, ss[i], es[i])
  }

  lemma RuledIs(rule: Rule, sha: Sha256, ss: seq<System>, es: seq<Event>)
    requires Ruled(rule, sha, ss, es)
    ensures rule == Gentle ==> RefreshTokens.SmoothRun(sha, ss, es) && RefreshTokens.Justified(ss, es)
    ensures rule.Truthful? ==> Subjects.HonestRun(sha, rule.g, ss, es)
  {
    if rule == Gentle {
      forall i | 0 <= i < |es| ensures RefreshTokens.Smooth(es[i]) && RefreshTokens.Rightly(ss[i], es[i]) {
        assert Keeps(rule, ss[i], es[i]);
      }
    } else if rule.Truthful? {
      forall i | 0 <= i < |es| ensures Subjects.Honest(rule.g, ss[i], es[i]) {
        assert Keeps(rule, ss[i], es[i]);
      }
    }
  }

  /** One more event. */
  lemma Grow(rule: Rule, sha: Sha256, ss: seq<System>, es: seq<Event>, e: Event) returns (ss': seq<System>, es': seq<Event>)
    requires Ruled(rule, sha, ss, es) && Apply(sha, ss[|es|], e).Some? && Keeps(rule, ss[|es|], e)
    ensures Ruled(rule, sha, ss', es')
    ensures es' == es + [e] && ss' == ss + [Apply(sha, ss[|es|], e).value]
  {
    ss', es' := Extend(sha, ss, es, e);
    forall i | 0 <= i < |es'| ensures Keeps(rule, ss'[i], es'[i]) {
      assert i < |es| ==> Keeps(rule, ss[i], es[i]);
    }
  }

  // ---- Steps of a handler ----

  /** A handler step without statement, server action or validation changes the handler only. */
  lemma QuietStep(rule: Rule, sha: Sha256, ss: seq<System>, es: seq<Event>, k: nat, step: HandlerStep)
    returns (ss': seq<System>, es': seq<Event>)
    requires Ruled(rule, sha, ss, es) && Enabled(sha, ss[|es|], HandlerDoes(k, step))
    requires HandlerNext(ss[|es|].t, ss[|es|].handlers[k], ss[|es|].steps, step).value.stmt.None?
    requires ServeHandler(sha, ss[|es|].server, ss[|es|].handlers[k], step) == Some(ss[|es|].server)
    requires FreshIds(HandlerDoes(k, step)) == {} && Keeps(rule, ss[|es|], HandlerDoes(k, step))
    ensures Ruled(rule, sha, ss', es') && es' == es + [HandlerDoes(k, step)] && ss'[..|es| + 1] == ss
    ensures var s, s' := ss[|es|], ss'[|es'|];
      && s'.t == s.t && s'.now == s.now && s'.server == s.server && s'.sources == s.sources && s'.used == s.used
      && s'.handlers == s.handlers[k := HandlerNext(s.t, s.handlers[k], s.steps, step).value.next]
  {
    ss', es' := Grow(rule, sha, ss, es, HandlerDoes(k, step));
  }

  lemma FindStep(rule: Rule, sha: Sha256, ss: seq<System>, es: seq<Event>, k: nat, p: Id)
    returns (ss': seq<System>, es': seq<Event>)
    requires Ruled(rule, sha, ss, es) && k in ss[|es|].handlers && ss[|es|].handlers[k].pc == Started
    requires Findable(ss[|es|].t, ss[|es|].handlers[k].state, ss[|es|].now) == {p}
    ensures Ruled(rule, sha, ss', es') && es' == es + [HandlerDoes(k, Find(ss[|es|].now, true))] && ss'[..|es| + 1] == ss
    ensures var s, s' := ss[|es|], ss'[|es'|]; var h := s.handlers[k];
      && s'.t == s.t && s'.now == s.now && s'.server == s.server && s'.used == s.used && p in s.t.pkces
      && s'.sources == s.sources
      && s'.handlers == s.handlers[k := h.(pc := Found, pkceId := p, pkce := s.t.pkces[p], trail := h.trail.(found := s.steps))]
  {
    assert p in Findable(ss[|es|].t, ss[|es|].handlers[k].state, ss[|es|].now);
    ss', es' := QuietStep(rule, sha, ss, es, k, Find(ss[|es|].now, true));
  }

  lemma DestroyStep(rule: Rule, sha: Sha256, ss: seq<System>, es: seq<Event>, k: nat)
    returns (ss': seq<System>, es': seq<Event>)
    requires Ruled(rule, sha, ss, es) && k in ss[|es|].handlers && ss[|es|].handlers[k].pc == Located
    ensures Ruled(rule, sha, ss', es') && es' == es + [HandlerDoes(k, Destroy(true))] && ss'[..|es| + 1] == ss
    ensures var s, s' := ss[|es|], ss'[|es'|]; var h := s.handlers[k];
      && s'.t.profiles == s.t.profiles && s'.t.characters == s.t.characters
      && s'.now == s.now && s'.server == s.server && s'.used == s.used && s'.sources == s.sources
      && s'.handlers == s.handlers[k := h.(pc := Destroyed, trail := h.trail.(destroyed := s.steps))]
  {
    ss', es' := Grow(rule, sha, ss, es, HandlerDoes(k, Destroy(true)));
  }

  lemma ExchangeStep(rule: Rule, sha: Sha256, ss: seq<System>, es: seq<Event>, k: nat, reply: Reply)
    returns (ss': seq<System>, es': seq<Event>)
    requires Ruled(rule, sha, ss, es) && k in ss[|es|].handlers && ss[|es|].handlers[k].pc == Young
    requires ServeHandler(sha, ss[|es|].server, ss[|es|].handlers[k], Exchange(Some(reply))).Some?
    requires Keeps(rule, ss[|es|], HandlerDoes(k, Exchange(Some(reply))))
    ensures Ruled(rule, sha, ss', es') && es' == es + [HandlerDoes(k, Exchange(Some(reply)))] && ss'[..|es| + 1] == ss
    ensures var s, s' := ss[|es|], ss'[|es'|]; var h := s.handlers[k];
      && s'.t == s.t && s'.now == s.now && s'.sources == s.sources && s'.used == s.used
      && s'.server == ServeHandler(sha, s.server, h, Exchange(Some(reply))).value
      && s'.handlers == s.handlers[k := h.(pc := Exchanged, token := ReplyToken(reply), trail := h.trail.(exchanged := s.steps))]
  {
    ss', es' := Grow(rule, sha, ss, es, HandlerDoes(k, Exchange(Some(reply))));
  }

  /** A handler that holds a PKCE row young enough, with a fresh code issued for it, can go to the server with it. */
  ghost predicate Ready(sha: Sha256, s: System, k: nat, p: Id)
  {
    && k in s.handlers && s.handlers[k].pc == Found && s.handlers[k].pkceId == p
    && s.handlers[k].pkce.profileRef in s.t.profiles
    && s.now - s.handlers[k].pkce.createdAt <= PKCE_LIFETIME
    && s.handlers[k].code in s.server.codes && s.handlers[k].code !in s.server.spent
    && s.server.codes[s.handlers[k].code].challenge == Challenge(sha, s.handlers[k].pkce.verifier)
  }

  /** An answer of the server and what validation reads in it, as the rule wants them. */
  predicate Fits(rule: Rule, reply: Reply, jt: VerifiedJwt)
  {
    match rule
    case Anything => true
    case Gentle => reply.refresh.Some?
    case Truthful(g) => Subjects.Pair(g, ReplyToken(reply)) && Subjects.Names(g, reply.access, jt)
  }

  /** A handler that is ready finds the profile, deletes the row and passes the age check. */
  lemma Prepares(rule: Rule, sha: Sha256, ss: seq<System>, es: seq<Event>, k: nat, p: Id)
    returns (ss': seq<System>, es': seq<Event>)
    requires Ruled(rule, sha, ss, es) && Ready(sha, ss[|es|], k, p)
    ensures Ruled(rule, sha, ss', es') && |es| <= |es'| && ss'[..|es| + 1] == ss && es'[..|es|] == es
    ensures var s, s' := ss[|es|], ss'[|es'|]; var h := s.handlers[k];
      && k in s'.handlers && s'.handlers == s.handlers[k := s'.handlers[k]]
      && s'.handlers[k] == h.(pc := Young, trail := s'.handlers[k].trail)
      && s'.t.profiles == s.t.profiles && s'.t.characters == s.t.characters
      && s'.now == s.now && s'.used == s.used && s'.sources == s.sources && s'.server == s.server
  {
    ss', es' := QuietStep(rule, sha, ss, es, k, GetProfile(true));
    ss', es' := DestroyStep(rule, sha, ss', es', k);
    ss', es' := QuietStep(rule, sha, ss', es', k, CheckAge(ss[|es|].now));
  }

  /** And is given a token. */
  lemma UseRow(rule: Rule, sha: Sha256, ss: seq<System>, es: seq<Event>, k: nat, p: Id, reply: Reply, jt: VerifiedJwt)
    returns (ss': seq<System>, es': seq<Event>, x: nat)
    requires Ruled(rule, sha, ss, es) && Ready(sha, ss[|es|], k, p) && Fits(rule, reply, jt)
    requires reply.access != "" && (reply.refresh.Some? ==> reply.refresh.value !in ss[|es|].server.issued)
    ensures Ruled(rule, sha, ss', es') && |es| <= |es'| && ss'[..|es| + 1] == ss && es'[..|es|] == es
    ensures |es| <= x && Provenance.Redeems(ss', es', x, k, ss[|es|].handlers[k].code) && Provenance.Exchanges(ss', es', x, k, p)
    ensures k in ss'[|es'|].handlers && ss'[|es'|].handlers[k].pc == Exchanged
    ensures ss'[|es'|].handlers[k].pkce == ss[|es|].handlers[k].pkce
    ensures ss'[|es'|].handlers[k].token == ReplyToken(reply)
    ensures var s, s' := ss[|es|], ss'[|es'|];
      && s'.t.profiles == s.t.profiles && s'.t.characters == s.t.characters
      && s'.now == s.now && s'.used == s.used && s'.sources == s.sources
      && s'.server == ServeHandler(sha, s.server, s.handlers[k], Exchange(Some(reply))).value
      && s'.handlers == s.handlers[k := s'.handlers[k]]
  {
    var before, done := Prepares(rule, sha, ss, es, k, p);
    x := |done|;
    ss', es' := ExchangeStep(rule, sha, before, done, k, reply);
    assert ss'[x] == ss'[..x + 1][x] == before[x];
    assert ss'[..|es| + 1] == ss'[..x + 1][..|es| + 1];
  }

  lemma VerifyStep(rule: Rule, sha: Sha256, ss: seq<System>, es: seq<Event>, k: nat, jt: VerifiedJwt)
    returns (ss': seq<System>, es': seq<Event>)
    requires Ruled(rule, sha, ss, es) && k in ss[|es|].handlers && ss[|es|].handlers[k].pc == Exchanged
    requires rule.Truthful? ==> Subjects.Names(rule.g, ss[|es|].handlers[k].token.access, jt)
    ensures Ruled(rule, sha, ss', es')
    ensures var s, s' := ss[|es|], ss'[|es'|]; var h := s.handlers[k];
      && s'.t == s.t && s'.now == s.now && s'.server == s.server && s'.used == s.used && s'.sources == s.sources
      && s'.handlers == s.handlers[k := h.(pc := Verified, jt := jt, trail := h.trail.(verified := s.steps))]
  {
    ss', es' := Grow(rule, sha, ss, es, HandlerDoes(k, Verify(Some(jt))));
  }

  /** The row a handler stores now. */
  function RowNow(s: System, k: nat): CharacterRow
    requires k in s.handlers
  {
    var h := s.handlers[k];
    NewRow(h.pkce.profileRef, h.claims, h.token, h.pkce.referenceData, s.now)
  }

  lemma CreateStep(rule: Rule, sha: Sha256, ss: seq<System>, es: seq<Event>, k: nat, c: Id)
    returns (ss': seq<System>, es': seq<Event>)
    requires Ruled(rule, sha, ss, es) && k in ss[|es|].handlers && ss[|es|].handlers[k].pc == Identified
    requires c !in ss[|es|].used && Exec(ss[|es|].t, UpsertCharacter(c, RowNow(ss[|es|], k))).Ok?
    ensures Ruled(rule, sha, ss', es')
    ensures var s, s' := ss[|es|], ss'[|es'|]; var h := s.handlers[k];
      && s'.t == Exec(s.t, UpsertCharacter(c, RowNow(s, k))).value
      && s'.now == s.now && s'.server == s.server && s'.sources == s.sources && s'.used == s.used + {c}
      && s'.handlers.Keys == s.handlers.Keys
      && (Conflict(s.t.characters, RowNow(s, k)).None? ==> Provenance.InsertedByCallback(s', k, c))
  {
    ss', es' := Grow(rule, sha, ss, es, HandlerDoes(k, Create(c, ss[|es|].now, true)));
    assert k in ss[|es|].handlers.Keys;
  }

  // ---- Logins ----

  /** The PKCE row of an invitation into profile 1. */
  function Invitation(sha: Sha256, random: seq<Byte>, state: Id, now: Instant): PkceRow
  {
    PkceRow(1, state, Encode(random), Challenge(sha, Encode(random)), None, "", now)
  }

  lemma FirstProfile(rule: Rule, sha: Sha256) returns (ss: seq<System>, es: seq<Event>)
    ensures Ruled(rule, sha, ss, es)
    ensures var s := ss[|es|];
      && s.now == 0 && 1 in s.t.profiles && s.t.pkces == map[] && s.t.characters == map[]
      && s.used == {1} && s.handlers == map[] && s.sources == map[] && s.server == INIT.server
  {
    ss, es := Grow(rule, sha, [INIT], [], NewProfile(1, "main", "", 0));
  }

  /** A PKCE row `p` with this state, and a code granted through the URL built from it. */
  lemma Invite(rule: Rule, sha: Sha256, ss: seq<System>, es: seq<Event>, random: seq<Byte>, p: Id, state: Id, code: string)
    returns (ss': seq<System>, es': seq<Event>)
    requires Ruled(rule, sha, ss, es) && |random| == VERIFIER_BYTES
    requires var s := ss[|es|]; 1 in s.t.profiles && {p, state} !! s.used && p != state && code !in s.server.codes
    ensures Ruled(rule, sha, ss', es')
    ensures var s, s' := ss[|es|], ss'[|es'|]; var row := Invitation(sha, random, state, s.now);
      && s'.t == s.t.(pkces := s.t.pkces[p := row]) && Findable(s'.t, state, s.now) == {p}
      && s'.now == s.now && s'.used == s.used + {p, state} && s'.handlers == s.handlers && s'.sources == s.sources
      && s'.server == s.server.(codes := s.server.codes[code := Grant(row.challenge, Some(p))])
      && p in s'.hist.pkces && s'.hist.pkces[p] == row
  {
    Rows.Known(sha, ss, es, |es|);
    var now, verifier := ss[|es|].now, Encode(random);
    ss', es' := Grow(rule, sha, ss, es, CreatePkce(p, 1, state, random, None, "", now));
    ss', es' := Grow(rule, sha, ss', es', Authorize(code, Grant(Challenge(sha, verifier), Some(p))));
    assert forall q :: q in Findable(ss'[|es'|].t, state, now) <==> q == p;
  }

  /** A callback of that code and state has found the row. */
  lemma ComesBack(rule: Rule, sha: Sha256, ss: seq<System>, es: seq<Event>, k: nat, code: string, state: Id, p: Id)
    returns (ss': seq<System>, es': seq<Event>)
    requires Ruled(rule, sha, ss, es) && k !in ss[|es|].handlers && Findable(ss[|es|].t, state, ss[|es|].now) == {p}
    ensures Ruled(rule, sha, ss', es')
    ensures var s, s' := ss[|es|], ss'[|es'|];
      && s'.t == s.t && s'.now == s.now && s'.used == s.used && s'.server == s.server && s'.sources == s.sources
      && k in s'.handlers && s'.handlers == s.handlers[k := s'.handlers[k]] && p in s.t.pkces
      && s'.handlers[k].pc == Found && s'.handlers[k].code == code
      && s'.handlers[k].pkceId == p && s'.handlers[k].pkce == s.t.pkces[p]
  {
    ss', es' := Grow(rule, sha, ss, es, Arrive(k, code, state));
    ss', es' := FindStep(rule, sha, ss', es', k, p);
  }

  /** The callback of a login, with its token verified and its identity read. */
  lemma Identifies(rule: Rule, sha: Sha256, ss: seq<System>, es: seq<Event>, k: nat, p: Id, jt: VerifiedJwt, reply: Reply)
    returns (ss': seq<System>, es': seq<Event>)
    requires Ruled(rule, sha, ss, es) && Ready(sha, ss[|es|], k, p) && Fits(rule, reply, jt) && ClaimsOf(jt).Ok?
    requires reply.access != "" && (reply.refresh.Some? ==> reply.refresh.value !in ss[|es|].server.issued)
    ensures Ruled(rule, sha, ss', es')
    ensures var s, s' := ss[|es|], ss'[|es'|];
      && s'.t.profiles == s.t.profiles && s'.t.characters == s.t.characters
      && s'.now == s.now && s'.used == s.used && s'.sources == s.sources
      && s'.server == ServeHandler(sha, s.server, s.handlers[k], Exchange(Some(reply))).value
      && k in s'.handlers && s'.handlers.Keys == s.handlers.Keys
      && s'.handlers[k].pc == Identified && s'.handlers[k].claims == ClaimsOf(jt).value
      && s'.handlers[k].pkce == s.handlers[k].pkce && s'.handlers[k].token == ReplyToken(reply)
  {
    var x;
    ss', es', x := UseRow(rule, sha, ss, es, k, p, reply, jt);
    ss', es' := VerifyStep(rule, sha, ss', es', k, jt);
    ss', es' := QuietStep(rule, sha, ss', es', k, ReadClaims);
  }

  /** The uuids, the code and the handler of a login, all new. */
  datatype Visit = Visit(random: seq<Byte>, p: Id, state: Id, code: string, k: nat, c: Id)

  ghost predicate NewTo(v: Visit, s: System)
  {
    && |v.random| == VERIFIER_BYTES && {v.p, v.state, v.c} !! s.used
    && v.p != v.state && v.c != v.p && v.c != v.state
    && v.code !in s.server.codes && v.code !in s.server.spent && v.k !in s.handlers
  }

  /** The server after it has answered the exchange of a login. */
  function Answered(v: Server, reply: Reply): Server
  {
    if reply.refresh.None? then v
    else v.(issued := v.issued + {reply.refresh.value}, live := v.live + {reply.refresh.value})
  }

  /** The callback of a login, about to store its character. */
  lemma Arrives(rule: Rule, sha: Sha256, ss: seq<System>, es: seq<Event>, v: Visit, jt: VerifiedJwt, reply: Reply)
    returns (ss': seq<System>, es': seq<Event>)
    requires Ruled(rule, sha, ss, es) && 1 in ss[|es|].t.profiles && NewTo(v, ss[|es|])
    requires ClaimsOf(jt).Ok? && Fits(rule, reply, jt)
    requires reply.access != "" && (reply.refresh.Some? ==> reply.refresh.value !in ss[|es|].server.issued)
    ensures Ruled(rule, sha, ss', es')
    ensures var s, s' := ss[|es|], ss'[|es'|];
      && s'.t.characters == s.t.characters && s'.t.profiles == s.t.profiles
      && s'.now == s.now && s'.sources == s.sources && s'.used == s.used + {v.p, v.state}
      && s'.server.issued == Answered(s.server, reply).issued && s'.server.live == Answered(s.server, reply).live
      && s'.server.codes.Keys == s.server.codes.Keys + {v.code} && s'.server.spent == s.server.spent + {v.code}
      && v.k in s'.handlers && s'.handlers.Keys == s.handlers.Keys + {v.k} && s'.handlers[v.k].pc == Identified
      && RowNow(s', v.k) == NewRow(1, ClaimsOf(jt).value, ReplyToken(reply), "", s.now)
  {
    ss', es' := Invite(rule, sha, ss, es, v.random, v.p, v.state, v.code);
    ss', es' := ComesBack(rule, sha, ss', es', v.k, v.code, v.state, v.p);
    ss', es' := Identifies(rule, sha, ss', es', v.k, v.p, jt, reply);
  }

  /**
   In every run, for every verified identity and every answer of the server, a new callback can
   run to the point where it has stored that identity and those tokens in profile 1.
   */
  lemma Login(rule: Rule, sha: Sha256, ss: seq<System>, es: seq<Event>, v: Visit, jt: VerifiedJwt, reply: Reply)
    returns (ss': seq<System>, es': seq<Event>)
    requires Ruled(rule, sha, ss, es) && 1 in ss[|es|].t.profiles && NewTo(v, ss[|es|])
    requires ClaimsOf(jt).Ok? && Fits(rule, reply, jt)
    requires reply.access != "" && (reply.refresh.Some? ==> reply.refresh.value !in ss[|es|].server.issued)
    ensures Ruled(rule, sha, ss', es')
    ensures var s, s' := ss[|es|], ss'[|es'|]; var row := NewRow(1, ClaimsOf(jt).value, ReplyToken(reply), "", s.now);
      && Exec(s.t, UpsertCharacter(v.c, row)).Ok?
      && s'.t.characters == Exec(s.t, UpsertCharacter(v.c, row)).value.characters && s'.t.profiles == s.t.profiles
      && s'.now == s.now && s'.sources == s.sources && s'.used == s.used + {v.p, v.state, v.c}
      && s'.server.issued == Answered(s.server, reply).issued && s'.server.live == Answered(s.server, reply).live
      && s'.server.codes.Keys == s.server.codes.Keys + {v.code} && s'.server.spent == s.server.spent + {v.code}
      && s'.handlers.Keys == s.handlers.Keys + {v.k}
      && (Conflict(s.t.characters, row).None? ==> Provenance.InsertedByCallback(s', v.k, v.c))
  {
    Rows.Known(sha, ss, es, |es|);
    ss', es' := Arrives(rule, sha, ss, es, v, jt, reply);
    var s, s1 := ss[|es|], ss'[|es'|];
    SameUpsert(s.t, s1.t, v.c, RowNow(s1, v.k));
    ss', es' := CreateStep(rule, sha, ss', es', v.k, v.c);
  }

  lemma SameUpsert(t: Tables, t': Tables, id: Id, row: CharacterRow)
    requires t'.characters == t.characters && t'.profiles == t.profiles
    requires id !in t.characters && row.profileRef in t.profiles
    ensures Exec(t, UpsertCharacter(id, row)).Ok? && Exec(t', UpsertCharacter(id, row)).Ok?
    ensures Exec(t', UpsertCharacter(id, row)).value.characters == Exec(t, UpsertCharacter(id, row)).value.characters
    ensures Exec(t', UpsertCharacter(id, row)).value.profiles == t.profiles
  {
  }

  // ---- Stages of a call of Token ----

  lemma OpenStep(rule: Rule, sha: Sha256, ss: seq<System>, es: seq<Event>, k: nat, handle: Option<Id>)
    returns (ss': seq<System>, es': seq<Event>)
    requires Ruled(rule, sha, ss, es) && k !in ss[|es|].sources && (handle.Some? ==> handle.value in ss[|es|].t.characters)
    ensures Ruled(rule, sha, ss', es')
    ensures var s, s' := ss[|es|], ss'[|es'|];
      && s'.t == s.t && s'.now == s.now && s'.server == s.server && s'.used == s.used && s'.handlers == s.handlers
      && s'.sources == s.sources[k := Source(1, "", None, handle, None, Idle, None)]
  {
    Rows.Known(sha, ss, es, |es|);
    ss', es' := Grow(rule, sha, ss, es, Open(k, 1, "", None, handle));
  }

  /** One more step of a source. */
  lemma Step(rule: Rule, sha: Sha256, ss: seq<System>, es: seq<Event>, k: nat, step: SourceStep)
    returns (ss': seq<System>, es': seq<Event>)
    requires Ruled(rule, sha, ss, es) && Enabled(sha, ss[|es|], SourceDoes(k, step))
    requires Keeps(rule, ss[|es|], SourceDoes(k, step))
    ensures Ruled(rule, sha, ss', es') && es' == es + [SourceDoes(k, step)] && ss'[..|es| + 1] == ss
    ensures var s, s' := ss[|es|], ss'[|es'|];
      var effect := SourceNext(s.t, s.sources[k], step).value;
      && s'.t == Commit(s.t, effect.stmt) && s'.sources == s.sources[k := effect.next]
      && s'.server == ServeSource(s.server, s.sources[k], step).value
      && s'.used == s.used + FreshIds(SourceDoes(k, step))
      && s'.now == s.now && s'.handlers == s.handlers
  {
    ss', es' := Grow(rule, sha, ss, es, SourceDoes(k, step));
  }

  /** Nothing but source `k` has changed. */
  ghost predicate OnlySource(s: System, s': System, k: nat)
  {
    && s'.now == s.now && s'.used == s.used && s'.handlers == s.handlers
    && k in s'.sources && s'.sources == s.sources[k := s'.sources[k]]
  }

  lemma Loads(rule: Rule, sha: Sha256, ss: seq<System>, es: seq<Event>, k: nat, c: Id)
    returns (ss': seq<System>, es': seq<Event>)
    requires Ruled(rule, sha, ss, es) && k in ss[|es|].sources && c in ss[|es|].t.characters
    requires var src := ss[|es|].sources[k]; src.pc == Idle && src.token.None? && src.character == Some(c)
    ensures Ruled(rule, sha, ss', es')
    ensures var s, s' := ss[|es|], ss'[|es'|]; var row := s.t.characters[c];
      && OnlySource(s, s', k) && s'.t == s.t && s'.server == s.server
      && s'.sources[k] == s.sources[k].(pc := Exchanging, returned := None,
                                        token := Some(Token(row.accessToken, row.refreshToken)))
  {
    ss', es' := Step(rule, sha, ss, es, k, Call);
    ss', es' := Step(rule, sha, ss', es', k, LoadToken(true, true));
  }

  /** A source with an empty cache and the handle of row `c` caches the row's token, and finds it valid. */
  lemma Caches(rule: Rule, sha: Sha256, ss: seq<System>, es: seq<Event>, k: nat, c: Id)
    returns (ss': seq<System>, es': seq<Event>)
    requires Ruled(rule, sha, ss, es) && k in ss[|es|].sources && c in ss[|es|].t.characters
    requires var src := ss[|es|].sources[k]; src.pc == Idle && src.token.None? && src.character == Some(c)
    requires ss[|es|].t.characters[c].accessToken != "" && ss[|es|].now >= 0
    ensures Ruled(rule, sha, ss', es')
    ensures var s, s' := ss[|es|], ss'[|es'|]; var row := s.t.characters[c];
      && OnlySource(s, s', k) && s'.t == s.t && s'.server == s.server
      && s'.sources[k].pc == Idle && s'.sources[k].character == Some(c)
      && s'.sources[k].token == Some(Token(row.accessToken, row.refreshToken))
  {
    ss', es' := Loads(rule, sha, ss, es, k, c);
    ss', es' := Step(rule, sha, ss', es', k, Reuse);
    ss', es' := Step(rule, sha, ss', es', k, StoreRefresh(0, true));
    ss', es' := Step(rule, sha, ss', es', k, Validate(true));
  }

  /** A source presents its cached token and is given another one. */
  lemma Rotation(rule: Rule, sha: Sha256, ss: seq<System>, es: seq<Event>, k: nat, got: Token)
    returns (ss': seq<System>, es': seq<Event>)
    requires Ruled(rule, sha, ss, es) && k in ss[|es|].sources
    requires ss[|es|].sources[k].pc == Idle && ss[|es|].sources[k].token.Some?
    requires got.access != "" && got.refresh !in ss[|es|].server.issued
    requires ss[|es|].sources[k].token.value.refresh in ss[|es|].server.live
    requires rule.Truthful? ==>
      var who := rule.g.refresh(ss[|es|].sources[k].token.value.refresh);
      rule.g.access(got.access) == who && rule.g.refresh(got.refresh) == who
    ensures Ruled(rule, sha, ss', es') && |es| < |es'| && ss'[..|es| + 1] == ss && es'[..|es|] == es
    ensures var s, s' := ss[|es|], ss'[|es'|]; var presented := s.sources[k].token.value.refresh;
      && OnlySource(s, s', k) && s'.t == s.t
      && s'.sources[k] == s.sources[k].(pc := Received(got), returned := None)
      && s'.server == s.server.(issued := s.server.issued + {got.refresh}, live := s.server.live - {presented} + {got.refresh})
  {
    ss', es' := Step(rule, sha, ss, es, k, Call);
    ss', es' := Step(rule, sha, ss', es', k, Refresh(got.access, Some(got.refresh)));
  }

  /** It stores the new refresh token through its handle. */
  lemma Stores(rule: Rule, sha: Sha256, ss: seq<System>, es: seq<Event>, k: nat, c: Id)
    returns (ss': seq<System>, es': seq<Event>)
    requires Ruled(rule, sha, ss, es) && k in ss[|es|].sources && ss[|es|].now >= 0
    requires var src := ss[|es|].sources[k];
      && src.pc.Received? && src.token.Some? && src.character == Some(c) && src.pc.got.refresh != src.token.value.refresh
    requires c in ss[|es|].t.characters
    ensures Ruled(rule, sha, ss', es')
    ensures var s, s' := ss[|es|], ss'[|es'|]; var got := s.sources[k].pc.got;
      && OnlySource(s, s', k) && s'.server == s.server && s'.sources[k] == s.sources[k].(pc := Stored(got))
      && s'.t == s.t.(characters := s.t.characters[c := s.t.characters[c].(refreshToken := got.refresh, updatedAt := 0)])
  {
    ss', es' := Step(rule, sha, ss, es, k, StoreRefresh(0, true));
  }

  /** The new access token does not pass validation. */
  lemma Invalid(rule: Rule, sha: Sha256, ss: seq<System>, es: seq<Event>, k: nat)
    returns (ss': seq<System>, es': seq<Event>)
    requires Ruled(rule, sha, ss, es) && k in ss[|es|].sources
    requires var src := ss[|es|].sources[k]; src.pc.Stored? && src.token.Some? && src.pc.got.access != src.token.value.access
    ensures Ruled(rule, sha, ss', es')
    ensures var s, s' := ss[|es|], ss'[|es'|];
      && OnlySource(s, s', k) && s'.server == s.server && s'.t == s.t
      && s'.sources[k] == s.sources[k].(pc := Idle, returned := None)
  {
    ss', es' := Step(rule, sha, ss, es, k, Validate(false));
  }

  lemma Rejection(rule: Rule, sha: Sha256, ss: seq<System>, es: seq<Event>, k: nat)
    returns (ss': seq<System>, es': seq<Event>)
    requires Ruled(rule, sha, ss, es) && k in ss[|es|].sources
    requires ss[|es|].sources[k].pc == Idle && ss[|es|].sources[k].token.Some?
    requires ss[|es|].sources[k].token.value.refresh !in ss[|es|].server.live
    ensures Ruled(rule, sha, ss', es') && |es| < |es'|
    ensures var s, s' := ss[|es|], ss'[|es'|];
      && OnlySource(s, s', k) && s'.server == s.server && s'.t == s.t
      && s'.sources[k] == s.sources[k].(pc := Rejected, returned := None)
  {
    ss', es' := Step(rule, sha, ss, es, k, Call);
    ss', es' := Step(rule, sha, ss', es', k, RefreshRejected);
  }

  /** It is rejected with a dead token, and marks the row inactive. */
  lemma Deactivation(rule: Rule, sha: Sha256, ss: seq<System>, es: seq<Event>, k: nat, c: Id)
    returns (ss': seq<System>, es': seq<Event>)
    requires Ruled(rule, sha, ss, es) && k in ss[|es|].sources && ss[|es|].now >= 0
    requires var src := ss[|es|].sources[k]; src.pc == Idle && src.token.Some? && src.character == Some(c)
    requires c in ss[|es|].t.characters && ss[|es|].sources[k].token.value.refresh !in ss[|es|].server.live
    ensures Ruled(rule, sha, ss', es') && |es| < |es'| && es'[|es'| - 1] == SourceDoes(k, MarkInactive(0, true))
    ensures var s, before, s' := ss[|es|], ss'[|es'| - 1], ss'[|es'|];
      && OnlySource(s, s', k) && s'.server == s.server && s'.sources[k] == s.sources[k].(returned := None)
      && s'.t == s.t.(characters := s.t.characters[c := s.t.characters[c].(active := false, updatedAt := 0)])
      && before.t == s.t && before.server == s.server
      && k in before.sources && before.sources[k].token == s.sources[k].token
  {
    var before, done := Rejection(rule, sha, ss, es, k);
    ss', es' := Step(rule, sha, before, done, k, MarkInactive(0, true));
    assert ss'[|done|] == ss'[..|done| + 1][|done|] == before[|done|];
  }
}

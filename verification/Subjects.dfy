/**
 Whose tokens are in a row.  `Token` validates a refreshed access token and discards its claims
 (token.go), and `Save` keeps the handle of whatever row the source had; so that a row holds the
 tokens of its own character is a property of runs, and it has a condition.
 */
module Subjects {
  import opened Wrappers
  import opened Claims
  import opened Tables
  import opened Protocol
  import opened Pkce
  import Rows
  import RefreshTokens
  import Handles
  import Coherence

  /** A character, whatever the scopes. */
  datatype Subject = Subject(characterId: int, name: string, owner: string)

  function SubjectOf(claims: CharacterClaims): Subject
  {
    Subject(claims.characterId, claims.characterName, claims.owner)
  }

  function RowSubject(row: CharacterRow): Subject
  {
    SubjectOf(Identity(row))
  }

  /** Whom the server granted each refresh token for, and whom each access token, being a JWT, names. */
  datatype Grants = Grants(refresh: string -> Subject, access: string -> Subject)

  /** The two parts of a token belong to one character; a missing refresh token belongs to anybody. */
  predicate Pair(g: Grants, token: Token)
  {
    token.refresh != "" ==> g.refresh(token.refresh) == g.access(token.access)
  }

  predicate Names(g: Grants, access: string, jt: VerifiedJwt)
  {
    ClaimsOf(jt).Ok? ==> SubjectOf(ClaimsOf(jt).value) == g.access(access)
  }

  /**
   The server answers an exchange with a pair of tokens for one character and a refresh with
   tokens for the character of the token presented; validation reads what the access token says;
   and callers of `Save` pass the two parts of one answer.
   */
  predicate Honest(g: Grants, s: System, e: Event)
  {
    match e
    case HandlerDoes(_, Exchange(Some(reply))) => Pair(g, ReplyToken(reply))
    case HandlerDoes(k, Verify(Some(jt))) => k in s.handlers ==> Names(g, s.handlers[k].token.access, jt)
    case SourceDoes(k, Refresh(access, rotated)) =>
      k in s.sources && s.sources[k].token.Some? ==>
        var presented := s.sources[k].token.value.refresh;
        g.access(access) == g.refresh(presented) && (rotated.Some? ==> g.refresh(rotated.value) == g.refresh(presented))
    case SourceDoes(_, Save(token, Some(jt), _)) => Names(g, token.access, jt) && Pair(g, token)
    case _ => true
  }

  /** A source that completes a `Save` has no handle, or the handle of a row of the same character. */
  ghost predicate SavesOwn(s: System, e: Event)
  {
    e.SourceDoes? && Handles.Saves(s, e, e.s) ==>
      var src := s.sources[e.s];
      src.character.Some? && src.character.value in s.t.characters ==>
        RowSubject(s.t.characters[src.character.value]) == SubjectOf(src.pc.claims)
  }

  ghost predicate HonestRun(sha: Sha256, g: Grants, ss: seq<System>, es: seq<Event>)
  {
    Run(sha, ss, es) && forall i :: 0 <= i < |es| ==> Honest(g, ss[i], es[i])
  }

  // ---- The invariant ----

  predicate RowOwns(g: Grants, row: CharacterRow)
  {
    && g.access(row.accessToken) == RowSubject(row)
    && (row.refreshToken != "" ==> g.refresh(row.refreshToken) == RowSubject(row))
  }

  predicate HandlerOwns(g: Grants, h: Handler)
  {
    && (h.pc in {Exchanged, Verified, Identified} ==> Pair(g, h.token))
    && (h.pc == Verified ==> Names(g, h.token.access, h.jt))
    && (h.pc == Identified ==> SubjectOf(h.claims) == g.access(h.token.access))
  }

  /** The tokens of a source that has a handle are those of the character `who` of its row. */
  predicate TokensOf(g: Grants, src: Source, who: Subject)
  {
    && (src.token.Some? && src.token.value.refresh != "" ==> g.refresh(src.token.value.refresh) == who)
    && (src.pc.Received? || src.pc.Stored? || src.pc.Accepted? ==>
          && src.token.Some?
          && (src.pc.got.refresh != "" ==> g.refresh(src.pc.got.refresh) == who)
          && (src.pc.got.access != src.token.value.access ==> g.access(src.pc.got.access) == who))
    && (src.pc.Accepted? ==> src.pc.got.access != src.token.value.access)
  }

  predicate SavesPair(g: Grants, pc: SourcePc)
  {
    pc.SaveAccepted? || pc.SaveLocated? ==> Pair(g, pc.got) && SubjectOf(pc.claims) == g.access(pc.got.access)
  }

  predicate SourceOwns(g: Grants, t: Tables, src: Source)
  {
    && SavesPair(g, src.pc)
    && (src.character.Some? && src.character.value in t.characters ==>
          TokensOf(g, src, RowSubject(t.characters[src.character.value])))
    && (src.pc == Exchanging || src.pc.Received? || src.pc.Stored? || src.pc.Accepted? ==> src.token.Some?)
  }

  ghost predicate AllOwn(g: Grants, s: System)
  {
    && (forall c :: c in s.t.characters ==> RowOwns(g, s.t.characters[c]))
    && (forall k :: k in s.handlers ==> HandlerOwns(g, s.handlers[k]))
    && (forall k :: k in s.sources ==> SourceOwns(g, s.t, s.sources[k]))
    && (forall k :: k in s.sources && s.sources[k].character.Some? ==> s.sources[k].character.value in s.used)
  }

  // ---- One event ----

  lemma HandlerStepOwns(g: Grants, s: System, k: nat, step: HandlerStep)
    requires k in s.handlers && HandlerNext(s.t, s.handlers[k], s.steps, step).Some?
    requires HandlerOwns(g, s.handlers[k]) && Honest(g, s, HandlerDoes(k, step))
    ensures HandlerOwns(g, HandlerNext(s.t, s.handlers[k], s.steps, step).value.next)
  {
  }

  /** Who the row of a handle is does not change, and a row of a known uuid is not new. */
  lemma SameSubject(sha: Sha256, s: System, e: Event, c: Id)
    requires Enabled(sha, s, e) && c in s.used && c in Apply(sha, s, e).value.t.characters
    ensures c in s.t.characters
    ensures RowSubject(Apply(sha, s, e).value.t.characters[c]) == RowSubject(s.t.characters[c])
  {
    Rows.RowWasThere(sha, s, e, c);
    Rows.RowStep(sha, s, e, c);
  }

  lemma FetchOwns(g: Grants, s: System, k: nat, step: SourceStep)
    requires k in s.sources && SourceNext(s.t, s.sources[k], step).Some? && Coherence.Fetches(step)
    requires SourceOwns(g, s.t, s.sources[k]) && Handles.LooksUpNothing(s.sources[k]) && Honest(g, s, SourceDoes(k, step))
    requires forall c :: c in s.t.characters ==> RowOwns(g, s.t.characters[c])
    requires step.Refresh? && s.sources[k].token.Some? ==> s.sources[k].token.value.refresh != ""
    ensures SourceOwns(g, s.t, SourceNext(s.t, s.sources[k], step).value.next)
  {
  }

  lemma RestOwns(g: Grants, s: System, k: nat, step: SourceStep)
    requires k in s.sources && SourceNext(s.t, s.sources[k], step).Some? && !Coherence.Fetches(step)
    requires SourceOwns(g, s.t, s.sources[k]) && Honest(g, s, SourceDoes(k, step)) && SavesOwn(s, SourceDoes(k, step))
    ensures SourceOwns(g, s.t, SourceNext(s.t, s.sources[k], step).value.next)
  {
  }

  /** The ownership of a source depends on nothing an event does to the tables. */
  lemma StillOwns(sha: Sha256, g: Grants, s: System, e: Event, src: Source)
    requires Enabled(sha, s, e) && SourceOwns(g, s.t, src)
    requires src.character.Some? ==> src.character.value in s.used
    ensures SourceOwns(g, Apply(sha, s, e).value.t, src)
  {
    if src.character.Some? && src.character.value in Apply(sha, s, e).value.t.characters {
      SameSubject(sha, s, e, src.character.value);
    }
  }

  /** A source gets a handle only by finding a row. */
  lemma HandleIsKnown(t: Tables, src: Source, step: SourceStep)
    requires SourceNext(t, src, step).Some?
    ensures var src' := SourceNext(t, src, step).value.next;
      src'.character == src.character || (src'.character.Some? && src'.character.value in t.characters)
  {
    if step.FindCharacter? {
      var rows := ProfileMatches(t, Criteria(0, src.name, ""), src.profile, src.scopes);
      assert TheOnly(rows).Some? ==> TheOnly(rows).value in rows;
    }
  }

  /** A state of a run, and what is known of every such state. */
  ghost predicate Sound(s: System)
  {
    && Rows.HistoryKnows(s) && "" !in s.server.live
    && forall k :: k in s.sources ==> Handles.LooksUpNothing(s.sources[k])
  }

  lemma PresentedIsLive(sha: Sha256, s: System, k: nat, step: SourceStep)
    requires Enabled(sha, s, SourceDoes(k, step)) && step.Refresh? && "" !in s.server.live
    ensures s.sources[k].token.Some? && s.sources[k].token.value.refresh != ""
  {
  }

  lemma StepSourceOwns(sha: Sha256, g: Grants, s: System, e: Event, k: nat)
    requires Enabled(sha, s, e) && AllOwn(g, s) && Sound(s) && Honest(g, s, e) && SavesOwn(s, e)
    requires k in Apply(sha, s, e).value.sources
    ensures var s' := Apply(sha, s, e).value;
      && SourceOwns(g, s'.t, s'.sources[k])
      && (s'.sources[k].character.Some? ==> s'.sources[k].character.value in s'.used)
  {
    var src' := Apply(sha, s, e).value.sources[k];
    Rows.SourceMoves(sha, s, e, k);
    if e.SourceDoes? && e.s == k {
      if Coherence.Fetches(e.sstep) {
        if e.sstep.Refresh? {
          PresentedIsLive(sha, s, k, e.sstep);
        }
        FetchOwns(g, s, k, e.sstep);
      } else {
        RestOwns(g, s, k, e.sstep);
      }
      HandleIsKnown(s.t, s.sources[k], e.sstep);
      StillOwns(sha, g, s, e, src');
    } else if k in s.sources {
      StillOwns(sha, g, s, e, src');
    } else {
      OpenedOwns(sha, g, s, e, k);
    }
  }

  /** A source that has just been opened has no token. */
  lemma OpenedOwns(sha: Sha256, g: Grants, s: System, e: Event, k: nat)
    requires Enabled(sha, s, e) && Sound(s) && k !in s.sources && k in Apply(sha, s, e).value.sources
    ensures var s' := Apply(sha, s, e).value;
      && SourceOwns(g, s'.t, s'.sources[k])
      && (s'.sources[k].character.Some? ==> s'.sources[k].character.value in s'.used)
  {
  }

  /** What is written is the row's own. */
  lemma StepRowOwns(sha: Sha256, g: Grants, s: System, e: Event, c: Id)
    requires Enabled(sha, s, e) && AllOwn(g, s) && c in Apply(sha, s, e).value.t.characters
    ensures RowOwns(g, Apply(sha, s, e).value.t.characters[c])
  {
    if Committed(sha, s, e).Some? {
      var q := Committed(sha, s, e).value;
      Rows.CommittedSucceeds(sha, s, e);
      Rows.WhoWrites(sha, s, e);
      TokensAfter(s.t, q, c);
      if q.UpsertCharacter? {
        UpsertOwns(sha, g, s, e);
      } else if e.SourceDoes? {
        assert SourceOwns(g, s.t, s.sources[e.s]);
      }
    }
  }

  lemma UpsertOwns(sha: Sha256, g: Grants, s: System, e: Event)
    requires Enabled(sha, s, e) && AllOwn(g, s)
    requires Committed(sha, s, e).Some? && Committed(sha, s, e).value.UpsertCharacter?
    ensures RowOwns(g, Committed(sha, s, e).value.row)
  {
    Rows.WhoWrites(sha, s, e);
    if e.HandlerDoes? {
      assert HandlerOwns(g, s.handlers[e.h]);
    } else {
      assert SourceOwns(g, s.t, s.sources[e.s]);
    }
  }

  /** The tokens of a row after a statement, and whose row it is. */
  lemma TokensAfter(t: Tables, q: Stmt, c: Id)
    requires Exec(t, q).Ok? && c in Exec(t, q).value.characters
    ensures var row := Exec(t, q).value.characters[c];
      if c !in t.characters then q.UpsertCharacter? && row == q.row
      else
        && RowSubject(row) == RowSubject(t.characters[c])
        && (row.accessToken == t.characters[c].accessToken || (q.SetAccessToken? && q.id == c && row.accessToken == q.token))
        && (row.refreshToken == t.characters[c].refreshToken
            || (q.SetRefreshToken? && q.id == c && row.refreshToken == q.token)
            || (q.UpsertCharacter? && RowSubject(q.row) == RowSubject(row) && row.refreshToken == q.row.refreshToken))
  {
  }

  lemma StepOwns(sha: Sha256, g: Grants, s: System, e: Event)
    requires Enabled(sha, s, e) && AllOwn(g, s) && Sound(s) && Honest(g, s, e) && SavesOwn(s, e)
    ensures AllOwn(g, Apply(sha, s, e).value)
  {
    var s' := Apply(sha, s, e).value;
    forall c | c in s'.t.characters ensures RowOwns(g, s'.t.characters[c]) {
      StepRowOwns(sha, g, s, e, c);
    }
    forall k | k in s'.handlers ensures HandlerOwns(g, s'.handlers[k]) {
      if e.HandlerDoes? && e.h == k {
        HandlerStepOwns(g, s, k, e.hstep);
      }
    }
    forall k | k in s'.sources
      ensures SourceOwns(g, s'.t, s'.sources[k])
      ensures s'.sources[k].character.Some? ==> s'.sources[k].character.value in s'.used
    {
      StepSourceOwns(sha, g, s, e, k);
    }
  }

  lemma RunIsSound(sha: Sha256, ss: seq<System>, es: seq<Event>, i: nat)
    requires Run(sha, ss, es) && i <= |es|
    ensures Sound(ss[i])
  {
    Rows.Known(sha, ss, es, i);
    RefreshTokens.ServerIsSound(sha, ss, es, i);
    forall k | k in ss[i].sources ensures Handles.LooksUpNothing(ss[i].sources[k]) {
      Handles.LooksUpEmpty(sha, ss, es, i, k);
    }
  }

  lemma {:induction false} Owned(sha: Sha256, g: Grants, ss: seq<System>, es: seq<Event>, i: nat)
    requires HonestRun(sha, g, ss, es) && i <= |es|
    requires forall n :: 0 <= n < i ==> SavesOwn(ss[n], es[n])
    ensures AllOwn(g, ss[i])
  {
    if i > 0 {
      Owned(sha, g, ss, es, i - 1);
      RunIsSound(sha, ss, es, i - 1);
      RunStep(sha, ss, es, i - 1);
      StepOwns(sha, g, ss[i - 1], es[i - 1]);
    }
  }

  /**
   As long as nobody completes a `Save` of one character with a source that has the handle of
   another's row, both tokens in every row are those of the row's own character, whoever stored
   them and however often they were refreshed, although a refresh reads no claims.
   */
  lemma RowsHoldTheirOwnTokens(sha: Sha256, g: Grants, ss: seq<System>, es: seq<Event>, i: nat, c: Id)
    requires HonestRun(sha, g, ss, es) && i <= |es| && c in ss[i].t.characters
    requires forall n :: 0 <= n < i ==> SavesOwn(ss[n], es[n])
    ensures g.access(ss[i].t.characters[c].accessToken) == RowSubject(ss[i].t.characters[c])
    ensures ss[i].t.characters[c].refreshToken != "" ==>
      g.refresh(ss[i].t.characters[c].refreshToken) == RowSubject(ss[i].t.characters[c])
  {
    Owned(sha, g, ss, es, i);
  }

  /**
   And without that condition: a rotation is stored through the handle whatever it is of, so the
   row of the handle gets a token of its own character exactly if the one presented was.
   */
  lemma RotationFollowsTheHandle(sha: Sha256, g: Grants, ss: seq<System>, es: seq<Event>, b: nat, d: nat, k: nat, c: Id,
                                 access: string, rotated: string, at: Instant)
    requires HonestRun(sha, g, ss, es) && b < d < |es|
    requires es[b] == SourceDoes(k, Refresh(access, Some(rotated))) && es[d] == SourceDoes(k, StoreRefresh(at, true))
    requires forall n :: b < n < d ==> !(es[n].SourceDoes? && es[n].s == k)
    requires k in ss[b].sources && ss[b].sources[k].token.Some? && ss[b].sources[k].character == Some(c)
    requires c in ss[d].t.characters
    ensures c in ss[d + 1].t.characters && ss[d + 1].t.characters[c].refreshToken == rotated
    ensures g.refresh(rotated) == RowSubject(ss[d + 1].t.characters[c]) <==>
            g.refresh(ss[b].sources[k].token.value.refresh) == RowSubject(ss[d].t.characters[c])
  {
    Handles.RotationRevokes(sha, ss, es, b, k, access, rotated);
    Handles.Waits(sha, ss, es, b + 1, d, k);
    StoredInRow(sha, ss, es, d, k, at, c);
    assert Honest(g, ss[b], es[b]);
  }

  lemma StoredInRow(sha: Sha256, ss: seq<System>, es: seq<Event>, d: nat, k: nat, at: Instant, c: Id)
    requires Run(sha, ss, es) && d < |es| && es[d] == SourceDoes(k, StoreRefresh(at, true))
    requires k in ss[d].sources && ss[d].sources[k].pc.Received? && ss[d].sources[k].token.Some?
    requires ss[d].sources[k].character == Some(c) && c in ss[d].t.characters
    requires ss[d].sources[k].pc.got.refresh != ss[d].sources[k].token.value.refresh
    ensures c in ss[d + 1].t.characters
    ensures ss[d + 1].t.characters[c] == ss[d].t.characters[c].(refreshToken := ss[d].sources[k].pc.got.refresh, updatedAt := at)
  {
    RunStep(sha, ss, es, d);
  }
}

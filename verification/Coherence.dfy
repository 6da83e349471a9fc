/**
 The token a source caches against the row it came from (token.go, Character.go): when the two
 agree, and what a failing step leaves behind.
 */
module Coherence {
  import opened Wrappers
  import opened Tables
  import opened Protocol
  import opened Pkce
  import Rows

  // ---- A sole source over its row ----

  /** A statement that removes row `c` or writes one of its tokens. */
  ghost predicate Concerns(t: Tables, q: Stmt, c: Id)
  {
    match q
    case SetAccessToken(id, _, _) => id == c
    case SetRefreshToken(id, _, _) => id == c
    case UpsertCharacter(id, row) => UpsertTarget(t, id, row) == c
    case DeleteCharacter(id) => id == c
    case DeleteProfile(id) => c in t.characters && t.characters[c].profileRef == id
    case _ => false
  }

  /**
   Event `e` respects source `k` as the only user of row `c`: nobody else removes the row or
   writes its tokens, the source does not `Save`, its writes and validations succeed, and a
   refresh gives it a new access token.
   */
  ghost predicate Alone(sha: Sha256, s: System, e: Event, k: nat, c: Id)
    requires Enabled(sha, s, e)
  {
    && (Committed(sha, s, e).Some? && Concerns(s.t, Committed(sha, s, e).value, c) ==> e.SourceDoes? && e.s == k)
    && (e.SourceDoes? && e.s == k ==>
          match e.sstep
          case Save(_, _, _) => false
          case StoreRefresh(_, ok) => ok
          case Validate(ok) => ok
          case StoreAccess(_, ok) => ok
          case Refresh(access, _) => s.sources[k].token.Some? ==> access != s.sources[k].token.value.access
          case _ => true)
  }

  /** What is cached is in the row; an access token that did not parse was dropped on the way in. */
  predicate Cached(row: CharacterRow, token: Token)
  {
    row.refreshToken == token.refresh && (row.accessToken == token.access || token.access == "")
  }

  /** Between two calls cache and row agree; inside a call the difference is the part not written yet. */
  predicate Coherent(row: CharacterRow, src: Source)
  {
    && (src.pc == Exchanging || src.pc.Received? || src.pc.Stored? || src.pc.Accepted? ==> src.token.Some?)
    && (src.returned.Some? ==> src.token == src.returned && src.returned.value.access != "" && src.pc == Idle)
    && !src.pc.SaveAccepted? && !src.pc.SaveLocated?
    && (src.token.Some? ==>
          var token := src.token.value;
          match src.pc
          case Received(got) =>
            Cached(row, token) && got.access != "" && (got == token || got.access != token.access)
          case Stored(got) =>
            && Cached(row.(refreshToken := token.refresh), token) && row.refreshToken == got.refresh
            && got.access != "" && (got == token || got.access != token.access)
          case Accepted(got) =>
            && Cached(row.(refreshToken := token.refresh), token) && row.refreshToken == got.refresh
            && got.access != "" && got.access != token.access
          case _ => Cached(row, token))
  }

  ghost predicate CoherentAt(s: System, k: nat, c: Id)
  {
    && c in s.t.characters && k in s.sources
    && (s.sources[k].character == Some(c) ==> Coherent(s.t.characters[c], s.sources[k]))
    && (s.sources[k].character.None? ==> Fresh(s.sources[k]))
    && (s.sources[k].pc in {Lookup, ProfileKnown} ==> s.sources[k].character.None?)
  }

  /** A source that has not found its row yet. */
  predicate Fresh(src: Source)
  {
    src.token.None? && src.returned.None? && src.pc in {Idle, Lookup, ProfileKnown}
  }

  /** The steps by which a call gets at its token. */
  predicate Fetches(step: SourceStep)
  {
    step.Call? || step.FindProfile? || step.FindCharacter? || step.LoadToken? || step.Reuse? || step.Refresh?
  }

  lemma FetchStep(t: Tables, src: Source, step: SourceStep, c: Id)
    requires SourceNext(t, src, step).Some? && c in t.characters
    requires src.character == Some(c) ==> Coherent(t.characters[c], src)
    requires src.character.None? ==> Fresh(src)
    requires src.pc in {Lookup, ProfileKnown} ==> src.character.None?
    requires match step
      case Save(_, _, _) => false
      case StoreRefresh(_, ok) => ok
      case Validate(ok) => ok
      case StoreAccess(_, ok) => ok
      case Refresh(access, _) => src.token.Some? ==> access != src.token.value.access
      case _ => true
    requires Fetches(step)
    ensures var effect := SourceNext(t, src, step).value; var t' := Commit(t, effect.stmt);
      && c in t'.characters
      && (effect.next.character == Some(c) ==> Coherent(t'.characters[c], effect.next))
      && (effect.next.character.None? ==> Fresh(effect.next))
      && (effect.next.pc in {Lookup, ProfileKnown} ==> effect.next.character.None?)
  {
  }

  lemma RestStep(t: Tables, src: Source, step: SourceStep, c: Id)
    requires SourceNext(t, src, step).Some? && c in t.characters
    requires src.character == Some(c) ==> Coherent(t.characters[c], src)
    requires src.character.None? ==> Fresh(src)
    requires src.pc in {Lookup, ProfileKnown} ==> src.character.None?
    requires match step
      case Save(_, _, _) => false
      case StoreRefresh(_, ok) => ok
      case Validate(ok) => ok
      case StoreAccess(_, ok) => ok
      case Refresh(access, _) => src.token.Some? ==> access != src.token.value.access
      case _ => true
    requires !Fetches(step)
    ensures var effect := SourceNext(t, src, step).value; var t' := Commit(t, effect.stmt);
      && c in t'.characters
      && (effect.next.character == Some(c) ==> Coherent(t'.characters[c], effect.next))
      && (effect.next.character.None? ==> Fresh(effect.next))
      && (effect.next.pc in {Lookup, ProfileKnown} ==> effect.next.character.None?)
  {
  }

  /** The source's own step, seen from its row. */
  lemma OwnStep(t: Tables, src: Source, step: SourceStep, c: Id)
    requires SourceNext(t, src, step).Some? && c in t.characters
    requires src.character == Some(c) ==> Coherent(t.characters[c], src)
    requires src.character.None? ==> Fresh(src)
    requires src.pc in {Lookup, ProfileKnown} ==> src.character.None?
    requires match step
      case Save(_, _, _) => false
      case StoreRefresh(_, ok) => ok
      case Validate(ok) => ok
      case StoreAccess(_, ok) => ok
      case Refresh(access, _) => src.token.Some? ==> access != src.token.value.access
      case _ => true
    ensures var effect := SourceNext(t, src, step).value; var t' := Commit(t, effect.stmt);
      && c in t'.characters
      && (effect.next.character == Some(c) ==> Coherent(t'.characters[c], effect.next))
      && (effect.next.character.None? ==> Fresh(effect.next))
      && (effect.next.pc in {Lookup, ProfileKnown} ==> effect.next.character.None?)
  {
    if Fetches(step) {
      FetchStep(t, src, step, c);
    } else {
      RestStep(t, src, step, c);
    }
  }

  lemma Unconcerned(t: Tables, q: Stmt, c: Id)
    requires Exec(t, q).Ok? && c in t.characters && !Concerns(t, q, c)
    ensures c in Exec(t, q).value.characters
    ensures Exec(t, q).value.characters[c].accessToken == t.characters[c].accessToken
    ensures Exec(t, q).value.characters[c].refreshToken == t.characters[c].refreshToken
  {
  }

  /** Everybody else's step leaves row and source as they are, as far as tokens go. */
  lemma OtherStep(sha: Sha256, s: System, e: Event, k: nat, c: Id)
    requires Enabled(sha, s, e) && Alone(sha, s, e, k, c) && !(e.SourceDoes? && e.s == k)
    requires c in s.t.characters && k in s.sources
    ensures var s' := Apply(sha, s, e).value;
      && c in s'.t.characters
      && s'.t.characters[c].accessToken == s.t.characters[c].accessToken
      && s'.t.characters[c].refreshToken == s.t.characters[c].refreshToken
      && k in s'.sources && s'.sources[k] == s.sources[k]
  {
    if Committed(sha, s, e).Some? {
      Rows.CommittedSucceeds(sha, s, e);
      Unconcerned(s.t, Committed(sha, s, e).value, c);
    }
  }

  lemma CoherentStep(sha: Sha256, s: System, e: Event, k: nat, c: Id)
    requires Enabled(sha, s, e) && Alone(sha, s, e, k, c) && CoherentAt(s, k, c)
    ensures CoherentAt(Apply(sha, s, e).value, k, c)
  {
    if e.SourceDoes? && e.s == k {
      OwnStep(s.t, s.sources[k], e.sstep, c);
    } else {
      OtherStep(sha, s, e, k, c);
    }
  }

  lemma {:induction false} StaysCoherent(sha: Sha256, ss: seq<System>, es: seq<Event>, m: nat, i: nat, k: nat, c: Id)
    requires Run(sha, ss, es) && m <= i <= |es| && CoherentAt(ss[m], k, c)
    requires forall j :: m <= j < i ==> Enabled(sha, ss[j], es[j]) && Alone(sha, ss[j], es[j], k, c)
    ensures CoherentAt(ss[i], k, c)
  {
    if m < i {
      StaysCoherent(sha, ss, es, m, i - 1, k, c);
      RunStep(sha, ss, es, i - 1);
      CoherentStep(sha, ss[i - 1], es[i - 1], k, c);
    }
  }

  /**
   Cache coherence: from a moment at which source `k` has nothing cached and row `c` exists, as
   long as `k` is the only user of the row, every token `Token` returns is the cached one and
   both of its parts are those of the row.
   */
  lemma ReturnedTokenIsStored(sha: Sha256, ss: seq<System>, es: seq<Event>, m: nat, i: nat, k: nat, c: Id)
    requires Run(sha, ss, es) && m <= i <= |es|
    requires c in ss[m].t.characters && k in ss[m].sources
    requires ss[m].sources[k].token.None? && ss[m].sources[k].returned.None?
    requires ss[m].sources[k].pc == Idle
    requires forall j :: m <= j < i ==> Enabled(sha, ss[j], es[j]) && Alone(sha, ss[j], es[j], k, c)
    requires k in ss[i].sources && ss[i].sources[k].returned.Some? && ss[i].sources[k].character == Some(c)
    ensures ss[i].sources[k].token == ss[i].sources[k].returned
    ensures c in ss[i].t.characters
    ensures ss[i].sources[k].returned.value == Token(ss[i].t.characters[c].accessToken, ss[i].t.characters[c].refreshToken)
  {
    StaysCoherent(sha, ss, es, m, i, k, c);
  }
}

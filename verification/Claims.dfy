/**
 Identity read out of a verified access token (token.go, DataStore.go).
 */
module Claims {
  import opened Wrappers
  import opened StringOrder
  import SubjectScan

  /** A JSON value, as far as the `scp` claim looks into it. */
  datatype Json = JString(text: string) | JArray(items: seq<Json>) | JOther

  /**
   The claims of a token that passed validation.  An absent `name` or `owner`, or one that
   is not a string, is None; an absent subject reads as the empty string.
   */
  datatype VerifiedJwt = VerifiedJwt(scp: Option<Json>, name: Option<string>, owner: Option<string>, subject: string)

  datatype ClaimError = ErrTokenScope | ErrTokenName | ErrTokenOwner | ErrTokenId

  /** A scope list as PostgreSQL stores it; None is Go's nil slice and SQL's NULL. */
  type ScopeList = Option<seq<string>>

  datatype CharacterClaims = CharacterClaims(
    characterId: int,
    characterName: string,
    owner: string,
    scopes: ScopeList)

  /** Identity as a specification: scopes in canonical order, the four errors in the order they are met. */
  function ClaimsOf(jt: VerifiedJwt): Result<CharacterClaims, ClaimError>
  {
    var scopes := ScopesOf(jt.scp);
    if scopes.None? then Err(ErrTokenScope)
    else if jt.name.None? then Err(ErrTokenName)
    else if jt.owner.None? then Err(ErrTokenOwner)
    else
      var id := SubjectScan.ScanSubject(jt.subject);
      if id.None? then Err(ErrTokenId)
      else Ok(CharacterClaims(id.value, jt.name.value, jt.owner.value, Canonical(scopes.value)))
  }

  /** The strings of the `scp` claim in the order given; None when the claim is malformed. */
  function ScopesOf(scp: Option<Json>): Option<seq<string>>
  {
    match scp
    case Some(JString(text)) => Some([text])
    case Some(JArray(items)) =>
      if forall x :: x in items ==> x.JString? then
        Some(seq(|items|, i requires 0 <= i < |items| => assert items[i] in items; items[i].text))
      else None
    case _ => None
  }

  /** An empty list leaves the slice nil, so it is stored as NULL; any other list is sorted. */
  function Canonical(scopes: seq<string>): ScopeList
  {
    if scopes == [] then None else Some(SortStrings(scopes))
  }

  ghost predicate CanonicalScopes(scopes: ScopeList)
  {
    scopes.Some? ==> scopes.value != [] && Sorted(scopes.value)
  }

  /** The `scp` claim is a string, or an array of nothing but strings. */
  predicate ReadableScopes(scp: Option<Json>)
  {
    scp.Some? && (scp.value.JString? || (scp.value.JArray? && forall x :: x in scp.value.items ==> x.JString?))
  }

  /**
   The claims as they are in the token: which error the first unreadable one gives, and otherwise
   the scopes of the `scp` claim, each as often as it is listed there.
   */
  ghost predicate Reads(jt: VerifiedJwt, r: Result<CharacterClaims, ClaimError>)
  {
    if !ReadableScopes(jt.scp) then r == Err(ErrTokenScope)
    else if jt.name.None? then r == Err(ErrTokenName)
    else if jt.owner.None? then r == Err(ErrTokenOwner)
    else if SubjectScan.ScanSubject(jt.subject).None? then r == Err(ErrTokenId)
    else
      && r.Ok?
      && Some(r.value.characterId) == SubjectScan.ScanSubject(jt.subject)
      && Some(r.value.characterName) == jt.name && Some(r.value.owner) == jt.owner
      && match jt.scp.value
         case JString(text) => r.value.scopes == Some([text])
         case JArray(items) =>
           && (r.value.scopes.None? <==> items == [])
           && (r.value.scopes.Some? ==>
                 && Sorted(r.value.scopes.value)
                 && forall x :: multiset(r.value.scopes.value)[x] == multiset(items)[JString(x)])
         case JOther => false
  }

  /** The texts of an array of strings are its items, one for one. */
  lemma {:induction false} TextsOf(items: seq<Json>, texts: seq<string>, x: string)
    requires |items| == |texts| && forall i :: 0 <= i < |items| ==> items[i] == JString(texts[i])
    ensures multiset(texts)[x] == multiset(items)[JString(x)]
  {
    if items != [] {
      TextsOf(items[1..], texts[1..], x);
      assert items == [items[0]] + items[1..] && texts == [texts[0]] + texts[1..];
    }
  }

  lemma SingleScope(text: string)
    ensures Canonical([text]) == Some([text])
  {
    SortedUnique(SortStrings([text]), [text]);
  }

  /** The specification reads the token's own claims. */
  lemma ClaimsFromJson(jt: VerifiedJwt)
    ensures Reads(jt, ClaimsOf(jt))
  {
    match jt.scp
    case Some(JString(text)) =>
      SingleScope(text);
    case Some(JArray(items)) =>
      if forall x :: x in items ==> x.JString? {
        var texts := ScopesOf(jt.scp).value;
        forall i | 0 <= i < |items| ensures items[i] == JString(texts[i]) {
          assert items[i] in items;
        }
        forall x ensures multiset(texts)[x] == multiset(items)[JString(x)] {
          TextsOf(items, texts, x);
        }
      }
    case _ =>
  }

  method NewCharacterClaims(jt: VerifiedJwt) returns (r: Result<CharacterClaims, ClaimError>)
    ensures r == ClaimsOf(jt)
    ensures Reads(jt, r)
  {
    ClaimsFromJson(jt);
    var scopes: seq<string> := [];
    match jt.scp {
      case Some(JString(text)) =>
        scopes := [text];
      case Some(JArray(items)) =>
        var i := 0;
        while i < |items|
          invariant 0 <= i <= |items| && |scopes| == i
          invariant forall k :: 0 <= k < i ==> items[k] == JString(scopes[k])
        {
          if !items[i].JString? {
            assert items[i] in items;
            return Err(ErrTokenScope);
          }
          scopes := scopes + [items[i].text];
          i := i + 1;
        }
        assert forall x :: x in items ==> x.JString?;
        assert scopes == ScopesOf(jt.scp).value;
      case _ =>
        return Err(ErrTokenScope);
    }
    if jt.name.None? {
      return Err(ErrTokenName);
    }
    if jt.owner.None? {
      return Err(ErrTokenOwner);
    }
    var id := SubjectScan.ScanSubject(jt.subject);
    if id.None? {
      return Err(ErrTokenId);
    }
    var sorted := if scopes == [] then None else Some(SortStrings(scopes));
    return Ok(CharacterClaims(id.value, jt.name.value, jt.owner.value, sorted));
  }

  lemma CanonicalIgnoresOrder(x: seq<string>, y: seq<string>)
    ensures Canonical(x) == Canonical(y) <==> multiset(x) == multiset(y)
  {
    SortIsCanonical(x, y);
    assert |x| == |multiset(x)| && |y| == |multiset(y)|;
  }

  /**
   Two tokens that differ only in the order of their scopes give the same identity, and two
   that give the same identity grant the same scopes up to order.
   */
  lemma IdentityIgnoresScopeOrder(a: VerifiedJwt, b: VerifiedJwt)
    requires ClaimsOf(a).Ok? && ClaimsOf(b).Ok?
    ensures ClaimsOf(a) == ClaimsOf(b) <==>
              && SubjectScan.ScanSubject(a.subject) == SubjectScan.ScanSubject(b.subject)
              && a.name == b.name && a.owner == b.owner
              && multiset(ScopesOf(a.scp).value) == multiset(ScopesOf(b.scp).value)
  {
    var x, y := ScopesOf(a.scp).value, ScopesOf(b.scp).value;
    var idA, idB := SubjectScan.ScanSubject(a.subject), SubjectScan.ScanSubject(b.subject);
    assert ClaimsOf(a).value == CharacterClaims(idA.value, a.name.value, a.owner.value, Canonical(x));
    assert ClaimsOf(b).value == CharacterClaims(idB.value, b.name.value, b.owner.value, Canonical(y));
    CanonicalIgnoresOrder(x, y);
  }

  /**
   The identity of a token is the token's own: its name, its owner, the int32 its subject
   denotes, and its scopes, each as often as it was granted, in canonical order.
   */
  lemma ClaimsAreTheTokens(jt: VerifiedJwt)
    requires ClaimsOf(jt).Ok?
    ensures var claims := ClaimsOf(jt).value;
      && jt.name == Some(claims.characterName) && jt.owner == Some(claims.owner)
      && SubjectScan.ScanSubject(jt.subject) == Some(claims.characterId) && SubjectScan.IsInt32(claims.characterId)
      && CanonicalScopes(claims.scopes)
      && multiset(ScopesOf(jt.scp).value) == (if claims.scopes.Some? then multiset(claims.scopes.value) else multiset{})
  {
  }
}

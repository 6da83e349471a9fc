/**
 The order `sort.Strings` puts a scope list into (token.go).  Go compares strings byte by
 byte; on valid UTF-8 that is the order of the code points, used here.
 */
module StringOrder {

  predicate Leq(a: string, b: string)
  {
    || a == []
    || (b != [] && a[0] < b[0])
    || (b != [] && a[0] == b[0] && Leq(a[1..], b[1..]))
  }

  /** The two strings are alike up to `i`, and there `a` ends or has the smaller character. */
  ghost predicate SmallerAt(a: string, b: string, i: nat)
  {
    i <= |a| && i <= |b| && a[..i] == b[..i] && (i == |a| || (i < |b| && a[i] < b[i]))
  }

  /** The order is the lexicographic one, ascending. */
  lemma {:induction false} LeqIsLexicographic(a: string, b: string)
    ensures Leq(a, b) <==> exists i: nat :: SmallerAt(a, b, i)
  {
    if a == [] {
      assert SmallerAt(a, b, 0);
    } else if b != [] && a[0] == b[0] {
      LeqIsLexicographic(a[1..], b[1..]);
      TailsSmaller(a, b);
    } else if b != [] && a[0] < b[0] {
      assert SmallerAt(a, b, 0);
    } else {
      forall i: nat ensures !SmallerAt(a, b, i) {
        if SmallerAt(a, b, i) {
          FirstCharacters(a, b, i);
        }
      }
    }
  }

  lemma FirstCharacters(a: string, b: string, i: nat)
    requires a != [] && SmallerAt(a, b, i)
    ensures b != [] && (a[0] < b[0] || a[0] == b[0])
  {
    if i > 0 {
      assert a[0] == a[..i][0] && b[0] == b[..i][0];
    }
  }

  lemma TailsSmaller(a: string, b: string)
    requires a != [] && b != [] && a[0] == b[0]
    ensures (exists i: nat :: SmallerAt(a, b, i)) <==> (exists i: nat :: SmallerAt(a[1..], b[1..], i))
  {
    if i: nat :| SmallerAt(a, b, i) {
      assert i > 0;
      assert a[1..][..i - 1] == a[..i][1..] && b[1..][..i - 1] == b[..i][1..];
      assert SmallerAt(a[1..], b[1..], i - 1);
    }
    if i: nat :| SmallerAt(a[1..], b[1..], i) {
      assert a[..i + 1] == [a[0]] + a[1..][..i] && b[..i + 1] == [b[0]] + b[1..][..i];
      assert SmallerAt(a, b, i + 1);
    }
  }

  lemma {:induction false} LeqTotal(a: string, b: string)
    ensures Leq(a, b) || Leq(b, a)
  {
    if a != [] && b != [] {
      LeqTotal(a[1..], b[1..]);
    }
  }

  lemma {:induction false} LeqTransitive(a: string, b: string, c: string)
    requires Leq(a, b) && Leq(b, c)
    ensures Leq(a, c)
  {
    if a != [] && a[0] == b[0] == c[0] {
      LeqTransitive(a[1..], b[1..], c[1..]);
    }
  }

  lemma {:induction false} LeqAntisymmetric(a: string, b: string)
    requires Leq(a, b) && Leq(b, a)
    ensures a == b
  {
    if a != [] {
      LeqAntisymmetric(a[1..], b[1..]);
      assert a == [a[0]] + a[1..] && b == [b[0]] + b[1..];
    }
  }

  ghost predicate Sorted(s: seq<string>)
  {
    forall i, j :: 0 <= i < j < |s| ==> Leq(s[i], s[j])
  }

  /** Puts `e` in front of the first element that is not smaller. */
  function Insert(e: string, s: seq<string>): (r: seq<string>)
    ensures multiset(r) == multiset{e} + multiset(s)
    ensures Sorted(s) ==> Sorted(r)
  {
    if s == [] then [e]
    else if Leq(e, s[0]) then
      assert Sorted(s) ==> Sorted([e] + s) by { InsertInFront(e, s); }
      [e] + s
    else
      var rest := Insert(e, s[1..]);
      assert s == [s[0]] + s[1..];
      assert Sorted(s) ==> Sorted([s[0]] + rest) by {
        InsertBehind(e, s, rest);
      }
      [s[0]] + rest
  }

  lemma InsertInFront(e: string, s: seq<string>)
    requires s != [] && Leq(e, s[0])
    ensures Sorted(s) ==> Sorted([e] + s)
  {
    if Sorted(s) {
      forall i | 0 < i < |s| ensures Leq(e, s[i]) {
        LeqTransitive(e, s[0], s[i]);
      }
    }
  }

  lemma InsertBehind(e: string, s: seq<string>, rest: seq<string>)
    requires s != [] && !Leq(e, s[0])
    requires multiset(rest) == multiset{e} + multiset(s[1..])
    requires Sorted(s[1..]) ==> Sorted(rest)
    ensures Sorted(s) ==> Sorted([s[0]] + rest)
  {
    if Sorted(s) {
      LeqTotal(e, s[0]);
      forall i | 0 <= i < |rest| ensures Leq(s[0], rest[i]) {
        assert rest[i] in multiset(rest);
        assert rest[i] == e || rest[i] in s[1..];
      }
    }
  }

  /** What `sort.Strings` leaves behind: the same strings, in order. */
  function SortStrings(s: seq<string>): (r: seq<string>)
    ensures Sorted(r)
    ensures multiset(r) == multiset(s)
    ensures |r| == |s|
  {
    if s == [] then []
    else
      assert s == [s[0]] + s[1..];
      var r := Insert(s[0], SortStrings(s[1..]));
      assert |multiset(r)| == |multiset(s)|;
      r
  }

  lemma TailMultiset(s: seq<string>)
    requires s != []
    ensures s == [s[0]] + s[1..]
    ensures multiset(s[1..]) == multiset(s) - multiset{s[0]}
  {
    assert s == [s[0]] + s[1..];
  }

  /** There is only one sorted list with given elements. */
  lemma {:induction false} SortedUnique(a: seq<string>, b: seq<string>)
    requires Sorted(a) && Sorted(b)
    requires multiset(a) == multiset(b)
    ensures a == b
  {
    assert |a| == |multiset(a)| == |multiset(b)| == |b|;
    if a != [] {
      assert a[0] in multiset(b) && b[0] in multiset(a);
      assert Leq(a[0], b[0]) by { FirstIsLeast(a, b[0]); }
      assert Leq(b[0], a[0]) by { FirstIsLeast(b, a[0]); }
      LeqAntisymmetric(a[0], b[0]);
      TailMultiset(a);
      TailMultiset(b);
      SortedUnique(a[1..], b[1..]);
    }
  }

  lemma LeqReflexive(a: string)
    ensures Leq(a, a)
  {
    LeqTotal(a, a);
  }

  lemma FirstIsLeast(s: seq<string>, e: string)
    requires Sorted(s) && e in s
    ensures Leq(s[0], e)
  {
    LeqReflexive(e);
  }

  /**
   Canonical form: two lists are equal as multisets, which is what `MatchScopes` decides,
   exactly when sorting makes them the same list.  This is why an SQL array comparison of
   sorted scopes identifies a scope set.
   */
  lemma SortIsCanonical(a: seq<string>, b: seq<string>)
    ensures multiset(a) == multiset(b) <==> SortStrings(a) == SortStrings(b)
  {
    if multiset(a) == multiset(b) {
      SortedUnique(SortStrings(a), SortStrings(b));
    }
  }
}

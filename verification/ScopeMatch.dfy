/**
 Scope matching (DataStore.go).  Two algorithms sit behind a size threshold; both are
 proved to decide the same relation, so the threshold cannot be observed.
 */
module ScopeMatch {

  /** The elements of `y` that the loop algorithm has not paired off yet. */
  ghost function Unvisited<T>(y: seq<T>, visited: seq<bool>): multiset<T>
    requires |y| == |visited|
  {
    if y == [] then multiset{}
    else
      (if visited[0] then multiset{} else multiset{y[0]}) + Unvisited(y[1..], visited[1..])
  }

  /** Marking one element takes exactly that occurrence out of the unvisited ones. */
  lemma {:induction false} VisitOne<T>(y: seq<T>, visited: seq<bool>, j: nat)
    requires |y| == |visited|
    requires j < |y| && !visited[j]
    ensures Unvisited(y, visited) == Unvisited(y, visited[j := true]) + multiset{y[j]}
  {
    if j > 0 {
      VisitOne(y[1..], visited[1..], j - 1);
      assert visited[j := true][1..] == visited[1..][j - 1 := true];
    } else {
      assert visited[j := true][1..] == visited[1..];
    }
  }

  lemma {:induction false} UnvisitedMember<T>(y: seq<T>, visited: seq<bool>, e: T)
    requires |y| == |visited|
    requires e in Unvisited(y, visited)
    ensures exists j :: 0 <= j < |y| && !visited[j] && y[j] == e
  {
    if visited[0] || y[0] != e {
      UnvisitedMember(y[1..], visited[1..], e);
      var j :| 0 <= j < |y[1..]| && !visited[1..][j] && y[1..][j] == e;
      assert !visited[j + 1] && y[j + 1] == e;
    }
  }

  lemma {:induction false} NothingVisited<T>(y: seq<T>, visited: seq<bool>)
    requires |y| == |visited|
    requires forall j :: 0 <= j < |y| ==> !visited[j]
    ensures Unvisited(y, visited) == multiset(y)
  {
    if y != [] {
      NothingVisited(y[1..], visited[1..]);
      assert y == [y[0]] + y[1..];
    }
  }

  /** One more element of a prefix adds one occurrence, and a prefix never outnumbers the whole. */
  lemma PrefixCounts<T>(s: seq<T>, i: nat)
    requires i < |s|
    ensures multiset(s[..i + 1]) == multiset(s[..i]) + multiset{s[i]}
    ensures multiset(s[..i + 1]) <= multiset(s)
  {
    assert s[..i + 1] == s[..i] + [s[i]];
    assert s == s[..i + 1] + s[i + 1..];
  }

  /** Once an element of `x` has no partner left, `x` is no sub-multiset of `y`. */
  lemma NoPartner<T>(x: seq<T>, y: seq<T>, i: nat, rest: multiset<T>)
    requires i < |x|
    requires multiset(x[..i]) + rest == multiset(y)
    requires x[i] !in rest
    ensures !(multiset(x) <= multiset(y))
  {
    PrefixCounts(x, i);
    var e := x[i];
    assert multiset(y)[e] == multiset(x[..i])[e];
    assert multiset(x[..i + 1])[e] == multiset(x[..i])[e] + 1;
    assert multiset(x)[e] >= multiset(x[..i + 1])[e];
  }

  lemma AllVisited<T>(y: seq<T>, visited: seq<bool>, e: T)
    requires |y| == |visited|
    requires forall k :: 0 <= k < |y| ==> visited[k] || y[k] != e
    ensures e !in Unvisited(y, visited)
  {
    if e in Unvisited(y, visited) {
      UnvisitedMember(y, visited, e);
    }
  }

  /** The first `i` elements of `x` are paired off with the visited elements of `y`. */
  ghost predicate PairedOff<T>(x: seq<T>, y: seq<T>, i: nat, visited: seq<bool>)
    requires i <= |x| && |y| == |visited|
  {
    multiset(x[..i]) + Unvisited(y, visited) == multiset(y)
  }

  lemma PairOne<T>(x: seq<T>, y: seq<T>, i: nat, visited: seq<bool>, j: nat)
    requires i < |x| && |y| == |visited| && PairedOff(x, y, i, visited)
    requires j < |y| && !visited[j] && y[j] == x[i]
    ensures PairedOff(x, y, i + 1, visited[j := true])
  {
    VisitOne(y, visited, j);
    PrefixCounts(x, i);
  }

  lemma PairNone<T>(x: seq<T>, y: seq<T>, i: nat, visited: seq<bool>)
    requires i < |x| && |y| == |visited| && PairedOff(x, y, i, visited)
    requires forall k :: 0 <= k < |y| ==> visited[k] || y[k] != x[i]
    ensures !(multiset(x) <= multiset(y))
  {
    AllVisited(y, visited, x[i]);
    NoPartner(x, y, i, Unvisited(y, visited));
  }

  lemma NothingPaired<T>(x: seq<T>, y: seq<T>, visited: seq<bool>)
    requires |y| == |visited|
    requires forall j :: 0 <= j < |y| ==> !visited[j]
    ensures PairedOff(x, y, 0, visited)
  {
    NothingVisited(y, visited);
  }

  lemma PairAll<T>(x: seq<T>, y: seq<T>, visited: seq<bool>)
    requires |y| == |visited| && PairedOff(x, y, |x|, visited)
    ensures multiset(x) <= multiset(y)
  {
    assert x[..|x|] == x;
  }

  /**
   Pairs every element of `x` with a distinct equal element of `y`: true exactly when `x`
   is a sub-multiset of `y`, whatever the two lengths are.
   */
  method ElementsMatchByLoop<T(==)>(x: seq<T>, y: seq<T>) returns (matched: bool)
    ensures matched <==> multiset(x) <= multiset(y)
  {
    var visited := new bool[|y|](_ => false);
    NothingPaired(x, y, visited[..]);
    var i := 0;
    while i < |x|
      invariant 0 <= i <= |x|
      invariant PairedOff(x, y, i, visited[..])
    {
      var found := false;
      var element := x[i];
      ghost var marks := visited[..];
      var j := 0;
      while j < |y|
        invariant 0 <= j <= |y|
        invariant !found && visited[..] == marks
        invariant forall k :: 0 <= k < j ==> marks[k] || y[k] != element
      {
        if !visited[j] && element == y[j] {
          visited[j] := true;
          found := true;
          break;
        }
        j := j + 1;
      }
      if found {
        PairOne(x, y, i, marks, j);
        assert visited[..] == marks[j := true];
      } else {
        PairNone(x, y, i, marks);
        return false;
      }
      i := i + 1;
    }
    PairAll(x, y, visited[..]);
    return true;
  }

  /** The counters hold what `total` has left after `used`, and no counter is zero. */
  ghost predicate Counts<T>(diff: map<T, int>, total: multiset<T>, used: multiset<T>)
  {
    && (forall e :: e in diff ==> diff[e] > 0 && total[e] == used[e] + diff[e])
    && (forall e :: e in total && total[e] > used[e] ==> e in diff)
  }

  lemma CountUp<T>(diff: map<T, int>, total: multiset<T>, e: T)
    requires Counts(diff, total, multiset{})
    ensures Counts(diff[e := (if e in diff then diff[e] else 0) + 1], total + multiset{e}, multiset{})
  {
  }

  lemma CountDown<T>(diff: map<T, int>, total: multiset<T>, used: multiset<T>, e: T)
    requires Counts(diff, total, used) && used <= total && e in diff
    ensures used + multiset{e} <= total
    ensures diff[e] - 1 != 0 ==> Counts(diff[e := diff[e] - 1], total, used + multiset{e})
    ensures diff[e] - 1 == 0 ==> Counts(diff[e := diff[e] - 1] - {e}, total, used + multiset{e})
  {
  }

  lemma CountsEmpty<T>(diff: map<T, int>, total: multiset<T>, used: multiset<T>)
    requires Counts(diff, total, used) && used <= total
    ensures |diff| == 0 <==> total == used
  {
    if total == used {
      assert diff.Keys == {};
    }
  }

  /** Counts the elements of `x` up, those of `y` down, and drops a counter that reaches zero. */
  method ElementsMatchByMap<T(==)>(x: seq<T>, y: seq<T>) returns (matched: bool)
    ensures matched <==> multiset(x) == multiset(y)
  {
    var diff: map<T, int> := map[];
    var i := 0;
    while i < |x|
      invariant 0 <= i <= |x|
      invariant Counts(diff, multiset(x[..i]), multiset{})
    {
      PrefixCounts(x, i);
      CountUp(diff, multiset(x[..i]), x[i]);
      diff := diff[x[i] := (if x[i] in diff then diff[x[i]] else 0) + 1];
      i := i + 1;
    }
    assert x[..i] == x;
    var j := 0;
    while j < |y|
      invariant 0 <= j <= |y|
      invariant multiset(y[..j]) <= multiset(x)
      invariant Counts(diff, multiset(x), multiset(y[..j]))
    {
      PrefixCounts(y, j);
      if y[j] !in diff {
        assert multiset(y[..j + 1])[y[j]] > multiset(x)[y[j]];
        assert multiset(y)[y[j]] >= multiset(y[..j + 1])[y[j]];
        return false;
      }
      CountDown(diff, multiset(x), multiset(y[..j]), y[j]);
      diff := diff[y[j] := diff[y[j]] - 1];
      if diff[y[j]] == 0 {
        diff := diff - {y[j]};
      }
      j := j + 1;
    }
    assert y[..j] == y;
    CountsEmpty(diff, multiset(x), multiset(y));
    return |diff| == 0;
  }

  /** Up to and including this many elements the loop algorithm is used. */
  const LOOP_LIMIT := 20

  /** Decides multiset equality of the two lists, for every pair of lists. */
  method MatchScopes<T(==)>(x: seq<T>, y: seq<T>) returns (matched: bool)
    ensures matched <==> multiset(x) == multiset(y)
  {
    if |x| != |y| {
      assert |multiset(x)| != |multiset(y)|;
      return false;
    }
    if |x| > LOOP_LIMIT {
      matched := ElementsMatchByMap(x, y);
    } else {
      matched := ElementsMatchByLoop(x, y);
      if matched {
        SubMultisetOfEqualSize(multiset(x), multiset(y));
      }
    }
  }

  lemma SubMultisetOfEqualSize<T>(a: multiset<T>, b: multiset<T>)
    requires a <= b && |a| == |b|
    ensures a == b
  {
    assert b == a + (b - a);
    assert |b - a| == 0;
  }
}

// The iteration order of the source's `BTreeMap<String, _>`: key names in increasing
// lexicographic order. Loops over such a map are written over `SortedKeys` of its key set.
module KeyOrder {

  predicate Less(a: string, b: string) {
    |b| > 0 && (|a| == 0 || a[0] < b[0] || (a[0] == b[0] && Less(a[1..], b[1..])))
  }

  /** The strings agree on `n` characters, and then the first one ends or has the smaller character. */
  ghost predicate DifferAt(a: string, b: string, n: nat) {
    n <= |a| && n < |b| && a[..n] == b[..n] && (n == |a| || a[n] < b[n])
  }

  /** Lexicographic order: a proper prefix comes first, and else the smaller character where they differ. */
  lemma {:induction false} LessIsLexicographic(a: string, b: string)
    ensures Less(a, b) <==> exists n: nat :: DifferAt(a, b, n)
    decreases |a|
  {
    if |a| > 0 && |b| > 0 && a[0] == b[0] {
      LessIsLexicographic(a[1..], b[1..]);
      forall n: nat ensures DifferAt(a, b, n + 1) <==> DifferAt(a[1..], b[1..], n) { DifferFurther(a, b, n); }
      forall n: nat | DifferAt(a, b, n) ensures n > 0 && DifferAt(a[1..], b[1..], n - 1) { DifferFurther(a, b, n - 1); }
    } else if Less(a, b) {
      assert DifferAt(a, b, 0);
    } else {
      forall n: nat | DifferAt(a, b, n) ensures false {
        SameStart(a, b, n);
      }
    }
  }

  lemma SameStart(a: string, b: string, n: nat)
    requires DifferAt(a, b, n)
    ensures n > 0 ==> |a| > 0 && a[0] == b[0]
  {
    if n > 0 {
      assert a[..n][0] == a[0] && b[..n][0] == b[0];
    }
  }

  lemma DifferFurther(a: string, b: string, n: int)
    requires |a| > 0 && |b| > 0 && a[0] == b[0] && n >= -1
    ensures n >= 0 ==> (DifferAt(a, b, n + 1) <==> DifferAt(a[1..], b[1..], n))
    ensures n == -1 ==> !DifferAt(a, b, 0)
  {
    if n >= 0 && n + 1 <= |a| && n + 1 <= |b| {
      assert a[..n + 1] == [a[0]] + a[1..][..n] && b[..n + 1] == [b[0]] + b[1..][..n];
      assert a[1..][..n] == a[..n + 1][1..] && b[1..][..n] == b[..n + 1][1..];
    }
  }

  ghost predicate Increasing(keys: seq<string>) {
    forall i, j | 0 <= i < j < |keys| :: Less(keys[i], keys[j])
  }

  lemma LessTransitive(a: string, b: string, c: string)
    requires Less(a, b) && Less(b, c)
    ensures Less(a, c)
  {}

  lemma LessIrreflexive(a: string)
    ensures !Less(a, a)
  {}

  lemma {:induction false} LessTotal(a: string, b: string)
    ensures Less(a, b) || a == b || Less(b, a)
  {
    if |a| > 0 && |b| > 0 && a[0] == b[0] {
      LessTotal(a[1..], b[1..]);
      if a[1..] == b[1..] {
        assert a == [a[0]] + a[1..];
      }
    }
  }

  predicate IsFirst(k: string, keys: set<string>) {
    k in keys && forall j | j in keys && j != k :: Less(k, j)
  }

  lemma {:induction false} FirstExists(keys: set<string>)
    requires keys != {}
    ensures exists k :: IsFirst(k, keys)
    decreases |keys|
  {
    var x :| x in keys;
    var rest := keys - {x};
    if rest == {} {
      assert keys == rest + {x} == {x};
      assert IsFirst(x, keys);
    } else {
      FirstExists(rest);
      var m :| IsFirst(m, rest);
      LessTotal(x, m);
      if Less(x, m) {
        forall j | j in keys && j != x ensures Less(x, j) {
          assert j in rest;
          if j != m { LessTransitive(x, m, j); }
        }
        assert IsFirst(x, keys);
      } else {
        forall j | j in keys && j != m ensures Less(m, j) {
          assert j == x || j in rest;
        }
        assert IsFirst(m, keys);
      }
    }
  }

  lemma FirstUnique(k: string, l: string, keys: set<string>)
    requires IsFirst(k, keys) && IsFirst(l, keys)
    ensures k == l
  {
    if k != l {
      LessTransitive(k, l, k);
      LessIrreflexive(k);
    }
  }

  function First(keys: set<string>): (k: string)
    requires keys != {}
    ensures IsFirst(k, keys)
  {
    FirstExists(keys);
    assert forall k, l | IsFirst(k, keys) && IsFirst(l, keys) :: k == l by {
      forall k, l | IsFirst(k, keys) && IsFirst(l, keys) ensures k == l { FirstUnique(k, l, keys); }
    }
    var k :| k in keys && IsFirst(k, keys);
    k
  }

  lemma IncreasingCons(k: string, rest: seq<string>)
    requires Increasing(rest) && forall j | j in rest :: Less(k, j)
    ensures Increasing([k] + rest)
  {}

  /** The keys in iteration order: strictly increasing, each exactly once. */
  function SortedKeys(keys: set<string>): (s: seq<string>)
    ensures Increasing(s)
    ensures forall k :: k in s <==> k in keys
    ensures |s| == |keys|
    decreases |keys|
  {
    if keys == {} then []
    else
      var k := First(keys);
      var rest := SortedKeys(keys - {k});
      IncreasingCons(k, rest);
      [k] + rest
  }

  /** Taking the first key leaves the rest of the iteration. */
  lemma SortedTail(keys: set<string>)
    requires keys != {}
    ensures SortedKeys(keys)[0] == First(keys) && SortedKeys(keys)[1..] == SortedKeys(keys - {First(keys)})
  {}

  /** `keys` names the members of the set, first one first. */
  ghost predicate Lists(keys: seq<string>, all: set<string>) {
    if keys == [] then all == {}
    else all != {} && keys[0] == First(all) && Lists(keys[1..], all - {keys[0]})
  }

  lemma {:induction false} ListsExactly(keys: seq<string>, all: set<string>)
    requires Lists(keys, all)
    ensures |keys| == |all| && forall k :: k in keys <==> k in all
    decreases |keys|
  {
    if keys != [] {
      ListsExactly(keys[1..], all - {keys[0]});
      assert keys == [keys[0]] + keys[1..];
      assert all == (all - {keys[0]}) + {keys[0]};
    }
  }

  lemma {:induction false} SortedLists(all: set<string>)
    ensures Lists(SortedKeys(all), all)
    decreases |all|
  {
    if all != {} {
      SortedTail(all);
      SortedLists(all - {First(all)});
    }
  }

  lemma IncreasingInjective(s: seq<string>, i: nat, j: nat)
    requires Increasing(s) && i < |s| && j < |s| && s[i] == s[j]
    ensures i == j
  {
    assert i < j ==> Less(s[i], s[j]);
    assert j < i ==> Less(s[j], s[i]);
    LessIrreflexive(s[i]);
  }

  lemma IncreasingTail(s: seq<string>)
    requires Increasing(s) && s != []
    ensures Increasing(s[1..]) && s[0] !in s[1..]
    ensures forall k :: k in s <==> k == s[0] || k in s[1..]
  {
    assert s == [s[0]] + s[1..];
    if s[0] in s[1..] {
      var i :| 0 <= i < |s[1..]| && s[1..][i] == s[0];
      IncreasingInjective(s, 0, i + 1);
    }
  }

  /** There is only one increasing sequence of a set of keys. */
  lemma {:induction false} SortedUnique(s: seq<string>, keys: set<string>)
    requires Increasing(s)
    requires forall k :: k in s <==> k in keys
    ensures s == SortedKeys(keys)
    decreases |s|
  {
    if s == [] {
      assert forall k :: k !in keys;
    } else {
      assert s[0] in keys;
      assert IsFirst(s[0], keys) by {
        forall j | j in keys && j != s[0] ensures Less(s[0], j) {
          assert j in s;
        }
      }
      FirstUnique(s[0], First(keys), keys);
      IncreasingTail(s);
      SortedUnique(s[1..], keys - {s[0]});
      assert s == [s[0]] + s[1..];
    }
  }
}

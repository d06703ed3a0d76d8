/** Sequence operations behind the `filter`, `map` and `findIndex` calls that
    the editor, the templates and the dashboard apply to their lists. */
module Seqs {

  /** `s.filter(p)`: the elements satisfying `p`, in their original order. */
  function Filter<T(!new)>(p: T -> bool, s: seq<T>): (r: seq<T>)
    ensures |r| <= |s|
    ensures forall x :: x in r <==> x in s && p(x)
    decreases |s|
  {
    if s == [] then []
    else if p(s[0]) then [s[0]] + Filter(p, s[1..])
    else Filter(p, s[1..])
  }

  /** Filtering distributes over concatenation: nothing is reordered. */
  lemma {:induction false} FilterAppend<T(!new)>(p: T -> bool, a: seq<T>, b: seq<T>)
    ensures Filter(p, a + b) == Filter(p, a) + Filter(p, b)
    decreases |a|
  {
    if a == [] {
      assert a + b == b;
    } else {
      assert (a + b)[0] == a[0];
      assert (a + b)[1..] == a[1..] + b;
      FilterAppend(p, a[1..], b);
    }
  }

  lemma FilterSingleton<T(!new)>(p: T -> bool, x: T)
    ensures Filter(p, [x]) == if p(x) then [x] else []
  {
    assert [x][1..] == [];
  }

  /** When every element passes, the filter keeps the sequence as it is. */
  lemma {:induction false} FilterKeepsAll<T(!new)>(p: T -> bool, s: seq<T>)
    requires forall x :: x in s ==> p(x)
    ensures Filter(p, s) == s
    decreases |s|
  {
    if s != [] {
      assert s[0] in s;
      assert forall x :: x in s[1..] ==> x in s;
      FilterKeepsAll(p, s[1..]);
    }
  }

  /** When no element passes, nothing is kept. */
  lemma FilterNone<T(!new)>(p: T -> bool, s: seq<T>)
    requires forall x :: x in s ==> !p(x)
    ensures Filter(p, s) == []
  {
    if Filter(p, s) != [] {
      assert Filter(p, s)[0] in Filter(p, s);
    }
  }

  /** Two predicates that agree on every element of `s` filter it alike. */
  lemma {:induction false} FilterAgree<T(!new)>(p: T -> bool, q: T -> bool, s: seq<T>)
    requires forall x :: x in s ==> p(x) == q(x)
    ensures Filter(p, s) == Filter(q, s)
    decreases |s|
  {
    if s != [] {
      assert s[0] in s;
      assert forall x :: x in s[1..] ==> x in s;
      FilterAgree(p, q, s[1..]);
    }
  }

  /** `s.map(f)`. */
  function MapSeq<T, U>(f: T -> U, s: seq<T>): (r: seq<U>)
    ensures |r| == |s|
    ensures forall i :: 0 <= i < |s| ==> r[i] == f(s[i])
  {
    seq(|s|, i requires 0 <= i < |s| => f(s[i]))
  }

  lemma MapAppend<T, U>(f: T -> U, a: seq<T>, b: seq<T>)
    ensures MapSeq(f, a + b) == MapSeq(f, a) + MapSeq(f, b)
  {
    var l, r := MapSeq(f, a + b), MapSeq(f, a) + MapSeq(f, b);
    assert |l| == |r|;
    forall i | 0 <= i < |l| ensures l[i] == r[i] {
      if i < |a| { assert (a + b)[i] == a[i]; } else { assert (a + b)[i] == b[i - |a|]; }
    }
  }

  /** `s.findIndex(x => key(x) === k)`: the first index whose key is `k`, or -1. */
  function FirstIndex<T(!new), K(==)>(s: seq<T>, key: T -> K, k: K): (r: int)
    ensures -1 <= r < |s|
    ensures r == -1 <==> forall j :: 0 <= j < |s| ==> key(s[j]) != k
    ensures 0 <= r ==> key(s[r]) == k && forall j :: 0 <= j < r ==> key(s[j]) != k
    decreases |s|
  {
    if s == [] then -1
    else if key(s[0]) == k then 0
    else
      var i := FirstIndex(s[1..], key, k);
      if i == -1 then -1 else i + 1
  }

  /** `s.filter(x => key(x) !== k)`: the removal idiom shared by every list. */
  function Without<T(!new), K(==)>(s: seq<T>, key: T -> K, k: K): (r: seq<T>)
    ensures |r| <= |s|
    ensures forall x :: x in r <==> x in s && key(x) != k
  {
    Filter(x => key(x) != k, s)
  }

  /** Removing a key that no element carries changes nothing. */
  lemma WithoutAbsent<T(!new), K>(s: seq<T>, key: T -> K, k: K)
    requires forall x :: x in s ==> key(x) != k
    ensures Without(s, key, k) == s
  {
    FilterKeepsAll(x => key(x) != k, s);
  }

  /** Removal keeps the survivors in their original relative order. */
  lemma WithoutAppend<T(!new), K>(a: seq<T>, b: seq<T>, key: T -> K, k: K)
    ensures Without(a + b, key, k) == Without(a, key, k) + Without(b, key, k)
  {
    FilterAppend(x => key(x) != k, a, b);
  }

  /** Removing the key of an element just appended under a fresh key undoes
      the append. */
  lemma WithoutAfterAppend<T(!new), K>(s: seq<T>, key: T -> K, x: T)
    requires forall y :: y in s ==> key(y) != key(x)
    ensures Without(s + [x], key, key(x)) == s
  {
    WithoutAppend(s, [x], key, key(x));
    WithoutAbsent(s, key, key(x));
    FilterSingleton(y => key(y) != key(x), x);
  }

  /** `s.map(x => key(x) === k ? f(x) : x)`: rewrites every element carrying
      key `k` and keeps the others. */
  function UpdateWhere<T, K(==)>(s: seq<T>, key: T -> K, k: K, f: T -> T): (r: seq<T>)
    ensures |r| == |s|
    ensures forall i :: 0 <= i < |s| && key(s[i]) != k ==> r[i] == s[i]
    ensures forall i :: 0 <= i < |s| && key(s[i]) == k ==> r[i] == f(s[i])
  {
    seq(|s|, i requires 0 <= i < |s| => if key(s[i]) == k then f(s[i]) else s[i])
  }

  /** Updating a key that no element carries changes nothing. */
  lemma UpdateWhereAbsent<T(!new), K>(s: seq<T>, key: T -> K, k: K, f: T -> T)
    requires forall x :: x in s ==> key(x) != k
    ensures UpdateWhere(s, key, k, f) == s
  {
    var r := UpdateWhere(s, key, k, f);
    forall i | 0 <= i < |s| ensures r[i] == s[i] {
      assert s[i] in s;
    }
  }

  /** An update that keeps keys keeps the key of every position, so unique
      keys stay unique. */
  lemma UpdateWhereKeepsKeys<T, K>(s: seq<T>, key: T -> K, k: K, f: T -> T)
    requires forall x :: key(f(x)) == key(x)
    ensures MapSeq(key, UpdateWhere(s, key, k, f)) == MapSeq(key, s)
    ensures UniqueKeys(s, key) ==> UniqueKeys(UpdateWhere(s, key, k, f), key)
  {
    var r := UpdateWhere(s, key, k, f);
    assert forall i :: 0 <= i < |s| ==> key(r[i]) == key(s[i]);
  }

  /** No two positions carry the same key. */
  ghost predicate UniqueKeys<T, K>(s: seq<T>, key: T -> K)
  {
    forall i, j :: 0 <= i < j < |s| ==> key(s[i]) != key(s[j])
  }

  /** Number of elements carrying key `k`. */
  function CountKey<T(!new), K(==)>(s: seq<T>, key: T -> K, k: K): (n: nat)
    ensures n <= |s|
    ensures n == 0 <==> forall x :: x in s ==> key(x) != k
    decreases |s|
  {
    if s == [] then 0
    else (if key(s[0]) == k then 1 else 0) + CountKey(s[1..], key, k)
  }

  lemma {:induction false} CountKeyAppend<T(!new), K>(a: seq<T>, b: seq<T>, key: T -> K, k: K)
    ensures CountKey(a + b, key, k) == CountKey(a, key, k) + CountKey(b, key, k)
    decreases |a|
  {
    if a == [] {
      assert a + b == b;
    } else {
      assert (a + b)[0] == a[0];
      assert (a + b)[1..] == a[1..] + b;
      CountKeyAppend(a[1..], b, key, k);
    }
  }

  /** With unique keys, a key that occurs occurs exactly once. */
  lemma {:induction false} UniqueCountAtMostOne<T(!new), K>(s: seq<T>, key: T -> K, k: K)
    requires UniqueKeys(s, key)
    ensures CountKey(s, key, k) <= 1
    decreases |s|
  {
    if s != [] {
      assert UniqueKeys(s[1..], key) by {
        forall i, j | 0 <= i < j < |s[1..]| ensures key(s[1..][i]) != key(s[1..][j]) {
          assert s[1..][i] == s[i + 1] && s[1..][j] == s[j + 1];
        }
      }
      UniqueCountAtMostOne(s[1..], key, k);
      if key(s[0]) == k {
        forall x | x in s[1..] ensures key(x) != k {
          var j :| 0 <= j < |s[1..]| && s[1..][j] == x;
          assert s[j + 1] == x;
        }
      }
    }
  }

  /** Removal never introduces a duplicate key. */
  lemma {:induction false} WithoutKeepsUnique<T(!new), K>(s: seq<T>, key: T -> K, k: K)
    requires UniqueKeys(s, key)
    ensures UniqueKeys(Without(s, key, k), key)
    decreases |s|
  {
    if s != [] {
      var tail := s[1..];
      assert UniqueKeys(tail, key) by {
        forall i, j | 0 <= i < j < |tail| ensures key(tail[i]) != key(tail[j]) {
          assert tail[i] == s[i + 1] && tail[j] == s[j + 1];
        }
      }
      WithoutKeepsUnique(tail, key, k);
      assert s == [s[0]] + tail;
      WithoutAppend([s[0]], tail, key, k);
      var rest := Without(tail, key, k);
      if key(s[0]) != k {
        assert Without([s[0]], key, k) == [s[0]];
        forall x | x in rest ensures key(x) != key(s[0]) {
          var j :| 0 <= j < |tail| && tail[j] == x;
          assert s[j + 1] == x;
        }
      } else {
        assert Without([s[0]], key, k) == [];
        assert Without(s, key, k) == rest;
      }
    }
  }

  /** Appending an element whose key is new keeps keys unique. */
  lemma AppendFreshKeepsUnique<T(!new), K>(s: seq<T>, key: T -> K, x: T)
    requires UniqueKeys(s, key)
    requires forall y :: y in s ==> key(y) != key(x)
    ensures UniqueKeys(s + [x], key)
  {
    var t := s + [x];
    forall i, j | 0 <= i < j < |t| ensures key(t[i]) != key(t[j]) {
      if j == |s| { assert t[i] == s[i] && s[i] in s; }
      else { assert t[i] == s[i] && t[j] == s[j]; }
    }
  }
}

/** Small facts about sequences without repetitions, shared by the other modules. */
module Sequences {

  ghost predicate NoDup<T>(s: seq<T>) {
    s == [] || (s[0] !in s[1..] && NoDup(s[1..]))
  }

  /** The elements of `s` that are not in `drop`, in their original order. */
  function Without<T(==,!new)>(s: seq<T>, drop: set<T>): (r: seq<T>)
    ensures forall x :: x in r <==> x in s && x !in drop
  {
    if s == [] then []
    else if s[0] in drop then Without(s[1..], drop)
    else [s[0]] + Without(s[1..], drop)
  }

  /** The elements of `s` that are in `keep`, in their original order. */
  function Within<T(==,!new)>(s: seq<T>, keep: set<T>): (r: seq<T>)
    ensures forall x :: x in r <==> x in s && x in keep
  {
    if s == [] then []
    else if s[0] in keep then [s[0]] + Within(s[1..], keep)
    else Within(s[1..], keep)
  }

  function Reverse<T>(s: seq<T>): (r: seq<T>)
    ensures |r| == |s|
  {
    if s == [] then [] else Reverse(s[1..]) + [s[0]]
  }

  /** The index of the first element of `s` in `wanted`, or |s| when there is none. */
  function First<T(==,!new)>(s: seq<T>, wanted: set<T>): (i: nat)
    ensures i <= |s|
    ensures i < |s| ==> s[i] in wanted
    ensures forall k :: 0 <= k < i ==> s[k] !in wanted
  {
    if s == [] then 0 else if s[0] in wanted then 0 else 1 + First(s[1..], wanted)
  }

  function RemoveAt<T>(s: seq<T>, i: nat): seq<T>
    requires i < |s|
  {
    s[..i] + s[i + 1..]
  }

  lemma {:induction false} WithoutNoDup<T(!new)>(s: seq<T>, drop: set<T>)
    requires NoDup(s)
    ensures NoDup(Without(s, drop))
  {
    if s != [] {
      WithoutNoDup(s[1..], drop);
      assert s[0] !in drop ==> Without(s, drop)[1..] == Without(s[1..], drop);
    }
  }

  lemma {:induction false} WithinNoDup<T(!new)>(s: seq<T>, keep: set<T>)
    requires NoDup(s)
    ensures NoDup(Within(s, keep))
  {
    if s != [] {
      WithinNoDup(s[1..], keep);
      assert s[0] in keep ==> Within(s, keep)[1..] == Within(s[1..], keep);
    }
  }

  lemma {:induction false} AppendNoDup<T(!new)>(s: seq<T>, t: seq<T>)
    requires NoDup(s) && NoDup(t) && forall x :: x in s ==> x !in t
    ensures NoDup(s + t)
  {
    if s == [] {
      assert s + t == t;
    } else {
      assert (s + t)[1..] == s[1..] + t;
      AppendNoDup(s[1..], t);
    }
  }

  lemma {:induction false} RemoveAtMembers<T(!new)>(s: seq<T>, i: nat)
    requires NoDup(s) && i < |s|
    ensures NoDup(RemoveAt(s, i))
    ensures forall x :: x in RemoveAt(s, i) <==> x in s && x != s[i]
  {
    assert s == [s[0]] + s[1..];
    if i == 0 {
      assert RemoveAt(s, 0) == s[1..];
    } else {
      RemoveAtMembers(s[1..], i - 1);
      assert RemoveAt(s, i) == [s[0]] + RemoveAt(s[1..], i - 1);
      assert s[i] in s[1..];
    }
  }

  lemma PushNoDup<T(!new)>(s: seq<T>, x: T)
    requires NoDup(s) && x !in s
    ensures NoDup(s + [x])
  {
    assert [x][1..] == [];
    AppendNoDup(s, [x]);
  }

  lemma {:induction false} FirstIs<T(!new)>(s: seq<T>, wanted: set<T>, i: nat)
    requires i <= |s| && (i < |s| ==> s[i] in wanted)
    requires forall k :: 0 <= k < i ==> s[k] !in wanted
    ensures First(s, wanted) == i
  {
    if i > 0 {
      assert s[0] !in wanted;
      FirstIs(s[1..], wanted, i - 1);
    }
  }

  lemma {:induction false} WithoutAppend<T(!new)>(s: seq<T>, t: seq<T>, drop: set<T>)
    ensures Without(s + t, drop) == Without(s, drop) + Without(t, drop)
  {
    if s == [] {
      assert s + t == t;
    } else {
      assert (s + t)[1..] == s[1..] + t;
      WithoutAppend(s[1..], t, drop);
    }
  }

  lemma {:induction false} WithinAppend<T(!new)>(s: seq<T>, t: seq<T>, keep: set<T>)
    ensures Within(s + t, keep) == Within(s, keep) + Within(t, keep)
  {
    if s == [] {
      assert s + t == t;
    } else {
      assert (s + t)[1..] == s[1..] + t;
      WithinAppend(s[1..], t, keep);
    }
  }

  lemma {:induction false} WithoutReverse<T(!new)>(s: seq<T>, drop: set<T>)
    ensures Without(Reverse(s), drop) == Reverse(Without(s, drop))
  {
    if s != [] {
      WithoutReverse(s[1..], drop);
      WithoutAppend(Reverse(s[1..]), [s[0]], drop);
    }
  }

  lemma {:induction false} WithinReverse<T(!new)>(s: seq<T>, keep: set<T>)
    ensures Within(Reverse(s), keep) == Reverse(Within(s, keep))
  {
    if s != [] {
      WithinReverse(s[1..], keep);
      WithinAppend(Reverse(s[1..]), [s[0]], keep);
    }
  }

  lemma {:induction false} ReverseAppend<T>(s: seq<T>, t: seq<T>)
    ensures Reverse(s + t) == Reverse(t) + Reverse(s)
  {
    if s == [] {
      assert s + t == t;
    } else {
      assert (s + t)[1..] == s[1..] + t;
      ReverseAppend(s[1..], t);
    }
  }

  lemma {:induction false} ReverseTwice<T>(s: seq<T>)
    ensures Reverse(Reverse(s)) == s
  {
    if s != [] {
      ReverseTwice(s[1..]);
      ReverseAppend(Reverse(s[1..]), [s[0]]);
      assert Reverse([s[0]]) == [s[0]];
    }
  }

  lemma {:induction false} ReverseMembers<T(!new)>(s: seq<T>)
    ensures forall x :: x in Reverse(s) <==> x in s
  {
    if s != [] {
      ReverseMembers(s[1..]);
      assert s == [s[0]] + s[1..];
    }
  }

  lemma {:induction false} ReverseNoDup<T(!new)>(s: seq<T>)
    requires NoDup(s)
    ensures NoDup(Reverse(s))
  {
    if s != [] {
      ReverseNoDup(s[1..]);
      ReverseMembers(s[1..]);
      PushNoDup(Reverse(s[1..]), s[0]);
    }
  }

  lemma {:induction false} NoDupAt<T(!new)>(s: seq<T>, i: nat, j: nat)
    requires NoDup(s) && i < j < |s|
    ensures s[i] != s[j]
  {
    if i == 0 {
      assert s[j] in s[1..];
    } else {
      NoDupAt(s[1..], i - 1, j - 1);
    }
  }

  lemma IndexOf<T>(s: seq<T>, x: T) returns (k: nat)
    requires x in s
    ensures k < |s| && s[k] == x
  {
    k :| k < |s| && s[k] == x;
  }

  lemma PrefixStep<T(!new)>(s: seq<T>, n: nat, x: T)
    requires NoDup(s) && n < |s|
    ensures x in s[..n + 1] <==> x in s[..n] || s[n] == x
    ensures s[n] == x ==> x !in s[..n]
  {
    assert s[..n + 1] == s[..n] + [s[n]];
    NotBefore(s, n);
  }

  /** One step of scanning `s` and splicing out what is in `out`: `rest` holds what was kept of
      the first `n` elements, followed by the others. */
  lemma SpliceStep<T(!new)>(s: seq<T>, n: nat, out: set<T>, rest: seq<T>, i: nat)
    requires NoDup(s) && n < |s|
    requires rest == Without(s[..n], out) + s[n..] && i == |Without(s[..n], out)|
    ensures i < |rest| && rest[i] == s[n] && s[n] !in s[..n]
    ensures s[n] in out ==>
              && RemoveAt(rest, i) == Without(s[..n + 1], out) + s[n + 1..]
              && i == |Without(s[..n + 1], out)|
              && Within(s[..n + 1], out) == Within(s[..n], out) + [s[n]]
    ensures s[n] !in out ==>
              && rest == Without(s[..n + 1], out) + s[n + 1..]
              && i + 1 == |Without(s[..n + 1], out)|
              && Within(s[..n + 1], out) == Within(s[..n], out)
  {
    NotBefore(s, n);
    SplitAt(s, n, out);
    assert s[n..] == [s[n]] + s[n + 1..];
    hide *;
    Cut(Without(s[..n], out), s[n], s[n + 1..]);
  }

  lemma Cut<T>(before: seq<T>, x: T, after: seq<T>)
    ensures var s := before + ([x] + after);
      |before| < |s| && s[|before|] == x && RemoveAt(s, |before|) == before + after && s == before + [x] + after
    ensures |before + [x]| == |before| + 1 && before + [] == before
  {
  }

  lemma NotBefore<T(!new)>(s: seq<T>, n: nat)
    requires NoDup(s) && n < |s|
    ensures s[n] !in s[..n]
  {
    if s[n] in s[..n] {
      var k: nat :| k < n && s[..n][k] == s[n];
      NoDupAt(s, k, n);
    }
  }

  lemma SplitAt<T(!new)>(s: seq<T>, n: nat, out: set<T>)
    requires n < |s|
    ensures Without(s[..n + 1], out) == Without(s[..n], out) + if s[n] in out then [] else [s[n]]
    ensures Within(s[..n + 1], out) == Within(s[..n], out) + if s[n] in out then [s[n]] else []
  {
    assert s[..n + 1] == s[..n] + [s[n]];
    WithoutAppend(s[..n], [s[n]], out);
    WithinAppend(s[..n], [s[n]], out);
    assert [s[n]][1..] == [];
  }

  lemma {:induction false} WithoutNothing<T(!new)>(s: seq<T>)
    ensures Without(s, {}) == s
  {
    if s != [] {
      WithoutNothing(s[1..]);
    }
  }
}

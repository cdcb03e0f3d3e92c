/** Text order by code point, and the two sorts the generator uses: of a list, and of a list taken as a set. */
module Sorting {
  import opened Prelude

  predicate Less(a: string, b: string) {
    if b == "" then false
    else if a == "" then true
    else a[0] < b[0] || (a[0] == b[0] && Less(a[1..], b[1..]))
  }

  lemma {:induction false} LessIsStrict(a: string, b: string)
    ensures !(Less(a, b) && Less(b, a))
    ensures Less(a, b) || Less(b, a) || a == b
    ensures a == b ==> !Less(a, b)
  {
    if a != "" && b != "" {
      LessIsStrict(a[1..], b[1..]);
      assert a == [a[0]] + a[1..] && b == [b[0]] + b[1..];
    }
  }

  lemma {:induction false} LessTransitive(a: string, b: string, c: string)
    requires Less(a, b) && Less(b, c)
    ensures Less(a, c)
  {
    if a != "" && a[0] == b[0] == c[0] {
      LessTransitive(a[1..], b[1..], c[1..]);
    }
  }

  /** A text is less than another if a proper prefix of it, or by the smaller character where they first differ. */
  lemma {:induction false} LessExactly(a: string, b: string)
    ensures Less(a, b) <==> a < b || exists i :: FirstDifference(a, b, i) && a[i] < b[i]
  {
    if a != "" && b != "" {
      LessExactly(a[1..], b[1..]);
      assert a == [a[0]] + a[1..] && b == [b[0]] + b[1..];
      if a[0] == b[0] {
        if i :| FirstDifference(a[1..], b[1..], i) && a[1..][i] < b[1..][i] {
          assert FirstDifference(a, b, i + 1);
        }
        if i :| FirstDifference(a, b, i) && a[i] < b[i] {
          assert FirstDifference(a[1..], b[1..], i - 1);
        }
      } else {
        assert FirstDifference(a, b, 0);
      }
    }
  }

  ghost predicate FirstDifference(a: string, b: string, i: int) {
    0 <= i < |a| && i < |b| && a[i] != b[i] && forall j | 0 <= j < i :: a[j] == b[j]
  }

  ghost predicate Sorted(s: seq<string>) {
    forall i, j :: 0 <= i < j < |s| ==> !Less(s[j], s[i])
  }

  ghost predicate StrictlySorted(s: seq<string>) {
    forall i, j :: 0 <= i < j < |s| ==> Less(s[i], s[j])
  }

  // ---------------------------------------------------------------- sorting a list

  function Insert(x: string, s: seq<string>): seq<string> {
    if s == [] || !Less(s[0], x) then [x] + s else [s[0]] + Insert(x, s[1..])
  }

  function Sort(xs: seq<string>): seq<string> {
    if xs == [] then [] else Insert(xs[0], Sort(xs[1..]))
  }

  lemma {:induction false} InsertKeeps(x: string, s: seq<string>)
    ensures multiset(Insert(x, s)) == multiset(s) + multiset{x}
  {
    if s != [] && Less(s[0], x) {
      InsertKeeps(x, s[1..]);
      assert s == [s[0]] + s[1..];
    }
  }

  lemma {:induction false} InsertSorts(x: string, s: seq<string>)
    requires Sorted(s)
    ensures Sorted(Insert(x, s))
  {
    var r := Insert(x, s);
    if s == [] {
    } else if !Less(s[0], x) {
      forall i, j | 0 <= i < j < |r|
        ensures !Less(r[j], r[i])
      {
        if i == 0 {
          LessIsStrict(s[0], x);
          if Less(r[j], x) && j > 1 {
            LessIsStrict(s[0], s[j - 1]);
            if Less(s[0], s[j - 1]) {
              LessTransitive(s[0], s[j - 1], x);
            }
          }
        }
      }
    } else {
      InsertSorts(x, s[1..]);
      InsertKeeps(x, s[1..]);
      var rest := Insert(x, s[1..]);
      forall i, j | 0 <= i < j < |r|
        ensures !Less(r[j], r[i])
      {
        if i == 0 {
          assert rest[j - 1] in multiset(rest);
          LessIsStrict(s[0], x);
          if rest[j - 1] != x {
            var k :| 0 <= k < |s[1..]| && s[1..][k] == rest[j - 1];
            assert s[k + 1] == rest[j - 1];
          }
        }
      }
    }
  }

  lemma {:induction false} SortLength(xs: seq<string>)
    ensures |Sort(xs)| == |xs|
    ensures multiset(Sort(xs)) == multiset(xs)
  {
    if xs != [] {
      SortLength(xs[1..]);
      InsertKeeps(xs[0], Sort(xs[1..]));
      assert xs == [xs[0]] + xs[1..];
      assert |multiset(Sort(xs))| == |Sort(xs)| && |multiset(xs)| == |xs|;
    }
  }

  lemma {:induction false} SortSorts(xs: seq<string>)
    ensures Sorted(Sort(xs)) && multiset(Sort(xs)) == multiset(xs)
    ensures Elems(Sort(xs)) == Elems(xs)
  {
    SortLength(xs);
    if xs != [] {
      SortSorts(xs[1..]);
      InsertSorts(xs[0], Sort(xs[1..]));
    }
    forall x: string
      ensures x in Sort(xs) <==> x in xs
    {
      assert x in multiset(Sort(xs)) <==> x in multiset(xs);
    }
  }

  // ---------------------------------------------------------------- sorting a list as a set

  function Dedup(xs: seq<string>): seq<string> {
    if xs == [] then []
    else if xs[0] in xs[1..] then Dedup(xs[1..])
    else [xs[0]] + Dedup(xs[1..])
  }

  lemma {:induction false} DedupKeeps(xs: seq<string>)
    ensures NoDup(Dedup(xs)) && forall x :: x in Dedup(xs) <==> x in xs
  {
    if xs != [] {
      DedupKeeps(xs[1..]);
      assert forall x :: x in xs <==> x == xs[0] || x in xs[1..];
    }
  }

  function SortedSet(xs: seq<string>): seq<string> {
    Sort(Dedup(xs))
  }

  lemma {:induction false} CountIn(s: seq<string>, x: string)
    requires NoDup(s)
    ensures multiset(s)[x] == if x in s then 1 else 0
  {
    if s != [] {
      var init, last := s[..|s| - 1], s[|s| - 1];
      assert s == init + [last];
      assert NoDup(init) && last !in init;
      CountIn(init, x);
    }
  }

  lemma TwiceCounts(s: seq<string>, i: nat, j: nat)
    requires i < j < |s| && s[i] == s[j]
    ensures multiset(s)[s[i]] >= 2
  {
    assert s == s[..j] + s[j..];
    assert s[i] in s[..j] && s[j] in s[j..] by {
      assert s[..j][i] == s[i] && s[j..][0] == s[j];
    }
    assert multiset(s) == multiset(s[..j]) + multiset(s[j..]);
    assert s[i] in multiset(s[..j]) && s[i] in multiset(s[j..]);
  }

  lemma SortKeepsDistinct(xs: seq<string>)
    requires NoDup(xs)
    ensures NoDup(Sort(xs))
  {
    SortSorts(xs);
    var r := Sort(xs);
    forall i, j | 0 <= i < j < |r|
      ensures r[i] != r[j]
    {
      CountIn(xs, r[i]);
      if r[i] == r[j] {
        TwiceCounts(r, i, j);
      }
    }
  }

  lemma DistinctSortsStrictly(xs: seq<string>)
    requires NoDup(xs)
    ensures StrictlySorted(Sort(xs)) && Elems(Sort(xs)) == Elems(xs)
  {
    SortSorts(xs);
    SortKeepsDistinct(xs);
    var r := Sort(xs);
    forall i, j | 0 <= i < j < |r|
      ensures Less(r[i], r[j])
    {
      LessIsStrict(r[i], r[j]);
    }
  }

  lemma SortedSetSorts(xs: seq<string>)
    ensures StrictlySorted(SortedSet(xs)) && Elems(SortedSet(xs)) == Elems(xs)
  {
    DedupKeeps(xs);
    DistinctSortsStrictly(Dedup(xs));
  }

  lemma StrictImpliesNoDup(s: seq<string>)
    requires StrictlySorted(s)
    ensures NoDup(s)
  {
    forall i, j | 0 <= i < j < |s|
      ensures s[i] != s[j]
    {
      LessIsStrict(s[i], s[j]);
    }
  }

  lemma NeitherEmpty(a: seq<string>, b: seq<string>)
    requires Elems(a) == Elems(b) && b != []
    ensures a != []
  {
    assert b[0] in Elems(a);
  }

  lemma SameHead(a: seq<string>, b: seq<string>)
    requires StrictlySorted(a) && StrictlySorted(b) && Elems(a) == Elems(b) && a != []
    ensures b != [] && a[0] == b[0]
  {
    assert a[0] in Elems(b);
    var k :| 0 <= k < |b| && b[k] == a[0];
    assert b[0] in Elems(a);
    var m :| 0 <= m < |a| && a[m] == b[0];
    LessIsStrict(a[0], b[0]);
  }

  lemma SameTail(a: seq<string>, b: seq<string>, x: string)
    requires StrictlySorted(a) && StrictlySorted(b) && Elems(a) == Elems(b) && a != [] && b != [] && a[0] == b[0]
    ensures x in a[1..] <==> x in b[1..]
  {
    LessIsStrict(a[0], x);
    StrictImpliesNoDup(a);
    StrictImpliesNoDup(b);
    assert x in Elems(a) <==> x in Elems(b);
    assert x in a <==> x == a[0] || x in a[1..];
    assert x in b <==> x == b[0] || x in b[1..];
  }

  /** A strictly sorted list is determined by its set of elements: the order in which a set was listed is forgotten. */
  lemma {:induction false} StrictlySortedUnique(a: seq<string>, b: seq<string>)
    requires StrictlySorted(a) && StrictlySorted(b) && Elems(a) == Elems(b)
    ensures a == b
  {
    if a != [] || b != [] {
      if b != [] {
        NeitherEmpty(a, b);
      }
      SameHead(a, b);
      forall x: string
        ensures x in a[1..] <==> x in b[1..]
      {
        SameTail(a, b, x);
      }
      assert Elems(a[1..]) == Elems(b[1..]);
      StrictlySortedUnique(a[1..], b[1..]);
    }
  }

  /** `sorted(list(s))` for a set: whatever order the set is listed in, the result is this one list. */
  ghost function SortedOf(s: set<string>): (r: seq<string>)
    ensures StrictlySorted(r) && Elems(r) == s
  {
    Listable(s);
    var xs: seq<string> :| Elems(xs) == s;
    SortedSetSorts(xs);
    SortedSet(xs)
  }

  lemma {:induction false} Listable(s: set<string>)
    ensures exists xs: seq<string> :: Elems(xs) == s
    decreases s
  {
    if s == {} {
      assert Elems([]) == s;
    } else {
      var x :| x in s;
      Listable(s - {x});
      var xs: seq<string> :| Elems(xs) == s - {x};
      assert Elems(xs + [x]) == s;
    }
  }

  /** Listing a set in any order and sorting the list. */
  method SortedList(s: set<string>) returns (r: seq<string>)
    ensures r == SortedOf(s)
  {
    var xs: seq<string> := [];
    var rest := s;
    while rest != {}
      invariant rest <= s && NoDup(xs) && Elems(xs) == s - rest
      decreases rest
    {
      var x :| x in rest;
      assert x !in Elems(xs);
      xs := xs + [x];
      rest := rest - {x};
    }
    DistinctSortsStrictly(xs);
    r := Sort(xs);
    StrictlySortedUnique(r, SortedOf(s));
  }
}

/** Small datatypes and sequence facts shared by the whole project. */
module Prelude {

  datatype Option<+T> = None | Some(value: T)

  /** The elements of a list as a set. */
  function Elems<T(!new)>(s: seq<T>): (r: set<T>)
    ensures forall x :: x in r <==> x in s
  {
    set x | x in s
  }

  ghost predicate NoDup<T>(s: seq<T>) {
    forall i, j :: 0 <= i < j < |s| ==> s[i] != s[j]
  }

  /** Concatenation of a list of lists. */
  function Flatten<T>(ss: seq<seq<T>>): seq<T> {
    if ss == [] then [] else Flatten(ss[..|ss| - 1]) + ss[|ss| - 1]
  }

  lemma {:induction false} FlattenMembers<T(!new)>(ss: seq<seq<T>>)
    ensures forall x :: x in Flatten(ss) <==> exists i :: 0 <= i < |ss| && x in ss[i]
  {
    if ss != [] {
      var init := ss[..|ss| - 1];
      FlattenMembers(init);
      forall x
        ensures x in Flatten(ss) <==> exists i :: 0 <= i < |ss| && x in ss[i]
      {
        if x in Flatten(init) {
          var i :| 0 <= i < |init| && x in init[i];
          assert x in ss[i];
        }
        if i :| 0 <= i < |ss| && x in ss[i] {
          if i < |init| {
            assert x in init[i];
          }
        }
      }
    }
  }

  lemma {:induction false} FlattenFront<T>(ss: seq<seq<T>>)
    requires ss != []
    ensures Flatten(ss) == ss[0] + Flatten(ss[1..])
  {
    var last := |ss| - 1;
    if last > 0 {
      FlattenFront(ss[..last]);
      assert ss[..last][1..] == ss[1..][..last - 1];
    }
  }

  lemma ConcatAssociates<T>(a: seq<T>, b: seq<T>, c: seq<T>)
    ensures (a + b) + c == a + (b + c)
  {
  }

  lemma PrefixOfConcat<T>(a: seq<T>, b: seq<T>, n: nat)
    requires n <= |a| + |b|
    ensures n <= |a| ==> (a + b)[..n] == a[..n]
    ensures n > |a| ==> (a + b)[..n] == a + b[..n - |a|]
  {
  }
}

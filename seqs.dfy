/** Sequence helpers standing for the JavaScript array methods the page uses:
    `filter(x => x !== v)`, `filter((_, i) => i !== k)`, `splice(i, 0, x)`
    and `join(sep)`. */
module Seqs {

  /** Every element of `a` occurs in `b`, in the same order. */
  predicate IsSubseq<T(==)>(a: seq<T>, b: seq<T>)
    decreases |b|
  {
    if a == [] then true
    else if b == [] then false
    else if a[0] == b[0] then IsSubseq(a[1..], b[1..])
    else IsSubseq(a, b[1..])
  }

  /** No element occurs twice. */
  predicate NoDups<T(==)>(s: seq<T>) {
    forall i, j :: 0 <= i < j < |s| ==> s[i] != s[j]
  }

  /** `s.filter(x => x !== v)`: every occurrence of `v` goes, every other
      element stays, with its multiplicity and in its order. */
  function Without<T(==)>(s: seq<T>, v: T): (r: seq<T>)
    ensures multiset(r) == multiset(s)[v := 0]
    ensures IsSubseq(r, s)
  {
    if s == [] then []
    else if s[0] == v then
      var rest := Without(s[1..], v);
      assert s == [s[0]] + s[1..];
      assert v !in multiset(rest);
      rest
    else
      var rest := Without(s[1..], v);
      assert s == [s[0]] + s[1..];
      [s[0]] + rest
  }

  /** Filtering out an element that was just appended to a sequence not
      holding it gives the sequence back. */
  lemma {:induction false} WithoutUndoesAppend<T>(s: seq<T>, v: T)
    requires v !in s
    ensures Without(s + [v], v) == s
  {
    if s != [] {
      assert (s + [v])[1..] == s[1..] + [v];
      WithoutUndoesAppend(s[1..], v);
    } else {
      assert Without([v][1..], v) == [];
    }
  }

  lemma {:induction false} WithoutKeepsNoDups<T>(s: seq<T>, v: T)
    ensures NoDups(s) ==> NoDups(Without(s, v))
  {
    if s != [] && NoDups(s) {
      var tail := s[1..];
      assert NoDups(tail) by {
        forall i, j | 0 <= i < j < |tail| ensures tail[i] != tail[j] {
          assert tail[i] == s[i + 1] && tail[j] == s[j + 1];
        }
      }
      WithoutKeepsNoDups(tail, v);
      var rest := Without(tail, v);
      if s[0] != v {
        assert s[0] !in rest by {
          forall j | 0 <= j < |tail| ensures tail[j] != s[0] {
            assert tail[j] == s[j + 1];
          }
          assert s[0] !in multiset(tail);
          assert s[0] !in multiset(rest);
        }
        var r := [s[0]] + rest;
        forall i, j | 0 <= i < j < |r| ensures r[i] != r[j] {
          assert r[j] == rest[j - 1];
          if i > 0 { assert r[i] == rest[i - 1]; }
        }
      }
    }
  }

  /** Appending an element that is not there yet keeps the sequence free of
      duplicates. */
  lemma AppendFreshKeepsNoDups<T>(s: seq<T>, x: T)
    requires NoDups(s) && x !in s
    ensures NoDups(s + [x])
  {
  }

  /** `s.filter((_, j) => j !== i)`: the element at `i` goes, when there is one. */
  function RemoveAt<T>(s: seq<T>, i: nat): (r: seq<T>)
    ensures i < |s| ==> |r| == |s| - 1
    ensures i >= |s| ==> r == s
    ensures forall j :: 0 <= j < |r| ==> r[j] == (if j < i then s[j] else s[j + 1])
  {
    if i < |s| then s[..i] + s[i + 1..] else s
  }

  /** `copy.splice(i, 0, x)` on a copy of `s`. */
  function InsertAt<T>(s: seq<T>, i: nat, x: T): (r: seq<T>)
    requires i <= |s|
    ensures |r| == |s| + 1 && r[i] == x
    ensures r[..i] == s[..i] && r[i + 1..] == s[i..]
    ensures RemoveAt(r, i) == s
    ensures forall j :: 0 <= j < |r| ==> r[j] == (if j < i then s[j] else if j == i then x else s[j - 1])
  {
    var r := s[..i] + [x] + s[i..];
    assert RemoveAt(r, i) == s;
    r
  }

  /** `ss.join(sep)`. */
  function Join(ss: seq<string>, sep: string): string {
    if ss == [] then ""
    else if |ss| == 1 then ss[0]
    else ss[0] + sep + Join(ss[1..], sep)
  }

  /** With a non-empty separator the joined text is empty exactly when there
      is nothing to join or the only item is itself empty. */
  lemma {:induction false} JoinIsEmpty(ss: seq<string>, sep: string)
    requires sep != ""
    ensures Join(ss, sep) == "" <==> ss == [] || ss == [""]
  {
    if |ss| > 1 {
      assert |Join(ss, sep)| >= |sep|;
    }
  }

  /** `s.filter(p)`: exactly the elements satisfying `p`, in their order. */
  function Filter<T(!new)>(s: seq<T>, p: T -> bool): (r: seq<T>)
    ensures forall x :: x in r <==> x in s && p(x)
    ensures IsSubseq(r, s)
    ensures |r| <= |s|
  {
    if s == [] then []
    else
      var rest := Filter(s[1..], p);
      if p(s[0]) then [s[0]] + rest else rest
  }

  /** Filtering yields distinct elements when no kept element recurs later
      in the input. */
  lemma {:induction false} FilterNoDups<T(!new)>(s: seq<T>, p: T -> bool)
    requires forall i, j :: 0 <= i < j < |s| && p(s[i]) ==> s[i] != s[j]
    ensures NoDups(Filter(s, p))
  {
    if s != [] {
      var rest := Filter(s[1..], p);
      forall i, j | 0 <= i < j < |s[1..]| && p(s[1..][i]) ensures s[1..][i] != s[1..][j] {
        assert s[1..][i] == s[i + 1] && s[1..][j] == s[j + 1];
      }
      FilterNoDups(s[1..], p);
      if p(s[0]) {
        forall j | 0 <= j < |s[1..]| ensures s[1..][j] != s[0] {
          assert s[1..][j] == s[j + 1];
        }
        assert s[0] !in rest;
        var r := [s[0]] + rest;
        forall i, j | 0 <= i < j < |r| ensures r[i] != r[j] {
          assert r[j] == rest[j - 1];
          if i > 0 { assert r[i] == rest[i - 1]; }
        }
      }
    }
  }

  /** Growing a prefix by one adds exactly the next element. */
  lemma PrefixGrows<T>(s: seq<T>, i: nat)
    requires i < |s|
    ensures s[..i + 1][..i] == s[..i] && s[..i + 1][i] == s[i]
  {
  }
}

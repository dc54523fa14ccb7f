/** Identifiers, and the order on client ids that selection and paging rely on
    (src/domain/mod.rs, src/domain/messages/mod.rs). */
module Ids {

  datatype Option<+T> = None | Some(value: T)

  datatype ClientId = ClientId(name: string)
  datatype QueryId = QueryId(name: string)
  datatype RequestId = RequestId(uuid: nat)
  datatype EventId = EventId(uuid: nat)

  /** The sending half of a client's channel. */
  datatype Tx = Tx(channel: nat)

  newtype byte = x: int | 0 <= x < 256

  // ---------- the derived order on client ids ----------

  /** Lexicographic order on text. */
  predicate TextLe(a: string, b: string) {
    a == [] || (b != [] && (a[0] < b[0] || (a[0] == b[0] && TextLe(a[1..], b[1..]))))
  }

  predicate Le(a: ClientId, b: ClientId) {
    TextLe(a.name, b.name)
  }

  /** `a` comes before `b` at index `i`, the first one at which they differ. */
  predicate FirstDiffers(a: string, b: string, i: nat) {
    i < |a| && i < |b| && a[..i] == b[..i] && a[i] < b[i]
  }

  /** The order is that of the dictionary: a text comes before those it is a prefix of, and otherwise the first
      differing character decides. */
  lemma {:induction false} TextLeIsLexicographic(a: string, b: string)
    ensures TextLe(a, b) <==> a <= b || exists i: nat :: FirstDiffers(a, b, i)
  {
    if a != [] && b != [] {
      assert a == [a[0]] + a[1..] && b == [b[0]] + b[1..];
      TextLeIsLexicographic(a[1..], b[1..]);
      if a[0] == b[0] {
        if i: nat :| FirstDiffers(a[1..], b[1..], i) {
          assert a[..i + 1] == [a[0]] + a[1..][..i] && b[..i + 1] == [b[0]] + b[1..][..i];
          assert FirstDiffers(a, b, i + 1);
        }
        if i: nat :| FirstDiffers(a, b, i) {
          assert i > 0 && a[1..][..i - 1] == a[..i][1..] && b[1..][..i - 1] == b[..i][1..];
          assert FirstDiffers(a[1..], b[1..], i - 1);
        }
        assert a <= b <==> a[1..] <= b[1..];
      } else if a[0] < b[0] {
        assert FirstDiffers(a, b, 0);
      } else {
        forall i: nat ensures !FirstDiffers(a, b, i) {
          assert i > 0 && i <= |a| && i <= |b| ==> a[..i][0] == a[0] && b[..i][0] == b[0];
        }
      }
    }
  }

  /** Client ids are ordered as their texts are in a dictionary. */
  lemma LeIsLexicographic(a: ClientId, b: ClientId)
    ensures Le(a, b) <==> a.name <= b.name || exists i: nat :: FirstDiffers(a.name, b.name, i)
  {
    TextLeIsLexicographic(a.name, b.name);
  }

  lemma {:induction false} TextTotal(a: string, b: string)
    ensures TextLe(a, b) || TextLe(b, a)
  {
    if a != [] && b != [] {
      TextTotal(a[1..], b[1..]);
    }
  }

  lemma {:induction false} TextAntisymmetric(a: string, b: string)
    requires TextLe(a, b) && TextLe(b, a)
    ensures a == b
  {
    if a != [] && b != [] {
      TextAntisymmetric(a[1..], b[1..]);
      assert a == [a[0]] + a[1..] && b == [b[0]] + b[1..];
    }
  }

  lemma {:induction false} TextTransitive(a: string, b: string, c: string)
    requires TextLe(a, b) && TextLe(b, c)
    ensures TextLe(a, c)
  {
    if a != [] && a[0] == b[0] && b[0] == c[0] {
      TextTransitive(a[1..], b[1..], c[1..]);
    }
  }

  /** The order on client ids is a total order. */
  lemma LeIsTotalOrder(a: ClientId, b: ClientId, c: ClientId)
    ensures Le(a, b) || Le(b, a)
    ensures Le(a, b) && Le(b, a) ==> a == b
    ensures Le(a, b) && Le(b, c) ==> Le(a, c)
  {
    TextTotal(a.name, b.name);
    if Le(a, b) && Le(b, a) {
      TextAntisymmetric(a.name, b.name);
    }
    if Le(a, b) && Le(b, c) {
      TextTransitive(a.name, b.name, c.name);
    }
  }

  // ---------- sorting ----------

  ghost predicate Sorted(xs: seq<ClientId>) {
    forall i, j :: 0 <= i < j < |xs| ==> Le(xs[i], xs[j])
  }

  ghost predicate Distinct<T>(xs: seq<T>) {
    forall i, j :: 0 <= i < j < |xs| ==> xs[i] != xs[j]
  }

  /** `xs` names every element of `s` exactly once, in some order: what iterating a hash table gives. */
  ghost predicate Lists<T(!new)>(xs: seq<T>, s: set<T>) {
    Distinct(xs) && forall x :: x in xs <==> x in s
  }

  lemma {:induction false} SomeListing<T(!new)>(s: set<T>) returns (xs: seq<T>)
    ensures Lists(xs, s)
  {
    if s == {} {
      xs := [];
    } else {
      var x :| x in s;
      var rest := SomeListing(s - {x});
      ListsExtend(rest, s - {x}, x, s);
      xs := rest + [x];
    }
  }

  lemma ListsExtend<T(!new)>(xs: seq<T>, s: set<T>, x: T, s': set<T>)
    requires Lists(xs, s) && x !in s && s' == s + {x}
    ensures Lists(xs + [x], s')
  {
  }

  lemma Regroup<T>(xs: seq<T>, ys: seq<T>, zs: seq<T>)
    ensures (xs + ys) + zs == xs + (ys + zs)
  {
  }

  function Insert(x: ClientId, xs: seq<ClientId>): (ys: seq<ClientId>)
    ensures |ys| == |xs| + 1
  {
    if xs == [] then [x]
    else if Le(x, xs[0]) then [x] + xs
    else [xs[0]] + Insert(x, xs[1..])
  }

  function Sort(xs: seq<ClientId>): (ys: seq<ClientId>)
    ensures |ys| == |xs|
  {
    if xs == [] then [] else Insert(xs[0], Sort(xs[1..]))
  }

  lemma {:induction false} InsertPermutes(x: ClientId, xs: seq<ClientId>)
    ensures multiset(Insert(x, xs)) == multiset{x} + multiset(xs)
  {
    if xs != [] {
      assert xs == [xs[0]] + xs[1..];
      if !Le(x, xs[0]) {
        InsertPermutes(x, xs[1..]);
      }
    }
  }

  lemma {:induction false} InsertSorts(x: ClientId, xs: seq<ClientId>)
    requires Sorted(xs)
    ensures Sorted(Insert(x, xs))
  {
    if xs != [] {
      LeIsTotalOrder(x, xs[0], x);
      if Le(x, xs[0]) {
        forall j | 0 <= j < |xs| ensures Le(x, xs[j]) {
          LeIsTotalOrder(x, xs[0], xs[j]);
        }
      } else {
        InsertSorts(x, xs[1..]);
        var rest := Insert(x, xs[1..]);
        InsertPermutes(x, xs[1..]);
        forall j | 0 <= j < |rest| ensures Le(xs[0], rest[j]) {
          assert rest[j] in multiset(rest);
          assert rest[j] == x || rest[j] in xs[1..];
        }
      }
    }
  }

  /** `Sort` returns a sorted permutation. */
  lemma {:induction false} SortSorts(xs: seq<ClientId>)
    ensures Sorted(Sort(xs)) && multiset(Sort(xs)) == multiset(xs)
  {
    if xs != [] {
      SortSorts(xs[1..]);
      InsertPermutes(xs[0], Sort(xs[1..]));
      InsertSorts(xs[0], Sort(xs[1..]));
      assert xs == [xs[0]] + xs[1..];
    }
  }

  lemma HeadIsLeast(xs: seq<ClientId>, x: ClientId)
    requires Sorted(xs) && x in multiset(xs)
    ensures Le(xs[0], x)
  {
    var i :| 0 <= i < |xs| && xs[i] == x;
    LeIsTotalOrder(x, x, x);
  }

  lemma TailCounts(xs: seq<ClientId>)
    requires xs != []
    ensures multiset(xs[1..]) == multiset(xs) - multiset{xs[0]}
  {
    assert xs == [xs[0]] + xs[1..];
  }

  /** There is only one sorted arrangement of a collection of ids. */
  lemma {:induction false} SortedIsUnique(xs: seq<ClientId>, ys: seq<ClientId>)
    requires Sorted(xs) && Sorted(ys) && multiset(xs) == multiset(ys)
    ensures xs == ys
  {
    assert |xs| == |multiset(xs)| && |ys| == |multiset(ys)|;
    if xs != [] {
      HeadIsLeast(xs, ys[0]);
      HeadIsLeast(ys, xs[0]);
      LeIsTotalOrder(xs[0], ys[0], xs[0]);
      TailCounts(xs);
      TailCounts(ys);
      SortedIsUnique(xs[1..], ys[1..]);
      assert xs == [xs[0]] + xs[1..] && ys == [ys[0]] + ys[1..];
    }
  }

  /** Sorting forgets the order of its argument. */
  lemma SortForgetsOrder(xs: seq<ClientId>, ys: seq<ClientId>)
    requires multiset(xs) == multiset(ys)
    ensures Sort(xs) == Sort(ys)
  {
    SortSorts(xs);
    SortSorts(ys);
    SortedIsUnique(Sort(xs), Sort(ys));
  }

  /** Two listings of the same set are permutations of each other. */
  lemma {:induction false} ListingsPermute<T(!new)>(xs: seq<T>, ys: seq<T>, s: set<T>)
    requires Lists(xs, s) && Lists(ys, s)
    ensures multiset(xs) == multiset(ys)
  {
    forall x ensures multiset(xs)[x] == multiset(ys)[x] {
      DistinctCounts(xs, x);
      DistinctCounts(ys, x);
    }
  }

  lemma {:induction false} DistinctCounts<T>(xs: seq<T>, x: T)
    requires Distinct(xs)
    ensures multiset(xs)[x] == if x in xs then 1 else 0
  {
    if xs != [] {
      assert xs == [xs[0]] + xs[1..];
      DistinctCounts(xs[1..], x);
    }
  }

  /** A repeated element counts at least twice. */
  lemma RepeatCounts<T>(xs: seq<T>, i: nat, j: nat)
    requires i < j < |xs| && xs[i] == xs[j]
    ensures multiset(xs)[xs[i]] >= 2
  {
    assert xs == xs[..j] + [xs[j]] + xs[j + 1..];
    assert xs[i] in xs[..j];
  }

  /** Sorting a repeat-free list leaves it repeat-free, with the same members. */
  lemma SortKeepsDistinct(xs: seq<ClientId>)
    requires Distinct(xs)
    ensures Distinct(Sort(xs))
    ensures forall x :: x in Sort(xs) <==> x in xs
  {
    SortSorts(xs);
    forall x ensures multiset(Sort(xs))[x] <= 1 && (x in Sort(xs) <==> x in xs) {
      DistinctCounts(xs, x);
      assert x in Sort(xs) <==> x in multiset(Sort(xs));
      assert x in xs <==> x in multiset(xs);
    }
    forall i: nat, j: nat | i < j < |xs| ensures Sort(xs)[i] != Sort(xs)[j] {
      if Sort(xs)[i] == Sort(xs)[j] {
        RepeatCounts(Sort(xs), i, j);
      }
    }
  }
}

/** String identifiers in the order in which std::map iterates over them. */
module Ids {

  type Id = string

  // Lexicographic order, as std::string compares.
  predicate AtMost(a: Id, b: Id) {
    a == [] || (b != [] && (a[0] < b[0] || (a[0] == b[0] && AtMost(a[1..], b[1..]))))
  }

  // A beginning of a string is at most the string, and otherwise the first difference decides.
  lemma {:induction false} FirstDifferenceDecides(common: Id, x: char, y: char, a: Id, b: Id)
    requires x != y
    ensures AtMost(common + [x] + a, common + [y] + b) <==> x < y
    ensures AtMost(common, common + [x] + a) && !AtMost(common + [x] + a, common)
  {
    var u, v := common + [x] + a, common + [y] + b;
    if common != [] {
      FirstDifferenceDecides(common[1..], x, y, a, b);
      assert u[1..] == common[1..] + [x] + a && v[1..] == common[1..] + [y] + b;
    }
  }

  lemma {:induction false} Total(a: Id, b: Id)
    ensures AtMost(a, b) || AtMost(b, a)
  {
    if a != [] && b != [] && a[0] == b[0] { Total(a[1..], b[1..]); }
  }

  lemma {:induction false} Antisymmetric(a: Id, b: Id)
    requires AtMost(a, b) && AtMost(b, a)
    ensures a == b
  {
    if a != [] && b != [] {
      Antisymmetric(a[1..], b[1..]);
      assert a == [a[0]] + a[1..] && b == [b[0]] + b[1..];
    }
  }

  lemma {:induction false} Transitive(a: Id, b: Id, c: Id)
    requires AtMost(a, b) && AtMost(b, c)
    ensures AtMost(a, c)
  {
    if a != [] && a[0] == b[0] == c[0] { Transitive(a[1..], b[1..], c[1..]); }
  }

  ghost predicate IsLeast(m: Id, s: set<Id>) {
    m in s && forall x :: x in s ==> AtMost(m, x)
  }

  lemma {:induction false} LeastExists(s: set<Id>) returns (m: Id)
    requires s != {}
    ensures IsLeast(m, s)
    decreases s
  {
    var x :| x in s;
    var rest := s - {x};
    Total(x, x);
    if rest == {} {
      assert s == {x};
      m := x;
    } else {
      var least := LeastExists(rest);
      Total(x, least);
      m := if AtMost(x, least) then x else least;
      forall y | y in s ensures AtMost(m, y) {
        if y != x && m == x { Transitive(x, least, y); }
      }
    }
  }

  function Least(s: set<Id>): (m: Id)
    requires s != {}
    ensures IsLeast(m, s)
  {
    ghost var w := LeastOf(s);
    LeastUnique(s, w);
    var m :| m in s && forall x :: x in s ==> AtMost(m, x);
    m
  }

  ghost function LeastOf(s: set<Id>): (m: Id)
    requires s != {}
    ensures IsLeast(m, s)
  {
    assert exists m :: IsLeast(m, s) by { var m := LeastExists(s); }
    var m :| IsLeast(m, s);
    m
  }

  lemma LeastUnique(s: set<Id>, m: Id)
    requires IsLeast(m, s)
    ensures forall x :: x in s && (forall y :: y in s ==> AtMost(x, y)) ==> x == m
  {
    forall x | x in s && (forall y :: y in s ==> AtMost(x, y)) ensures x == m {
      Antisymmetric(x, m);
    }
  }

  // The keys of a map, in iteration order.
  function Sorted(s: set<Id>): (keys: seq<Id>)
    decreases |s|
  {
    if s == {} then [] else
      var m := Least(s);
      [m] + Sorted(s - {m})
  }

  lemma {:induction false} SortedElements(s: set<Id>)
    ensures forall x :: x in Sorted(s) <==> x in s
    decreases |s|
  {
    if s != {} { SortedElements(s - {Least(s)}); }
  }

  lemma {:induction false} SortedDistinct(s: set<Id>, i: nat, j: nat)
    requires i < j < |Sorted(s)|
    ensures Sorted(s)[i] != Sorted(s)[j]
    decreases |s|
  {
    var rest := s - {Least(s)};
    if i == 0 {
      SortedElements(rest);
      assert Sorted(s)[j] == Sorted(rest)[j - 1];
    } else {
      SortedDistinct(rest, i - 1, j - 1);
    }
  }

  // Something above everything else comes last.
  lemma {:induction false} SortedAppend(s: set<Id>, x: Id)
    requires x !in s && forall y :: y in s ==> AtMost(y, x)
    ensures Sorted(s + {x}) == Sorted(s) + [x]
    decreases |s|
  {
    var t := s + {x};
    if s == {} {
      assert t == {x} && Least(t) == x && t - {x} == {};
    } else {
      var m := Least(s);
      LeastUnique(t, m);
      assert Least(t) == m;
      assert t - {m} == (s - {m}) + {x};
      SortedAppend(s - {m}, x);
    }
  }

  // The keys come in order.
  lemma {:induction false} SortedInOrder(s: set<Id>, i: nat, j: nat)
    requires i < j < |Sorted(s)|
    ensures AtMost(Sorted(s)[i], Sorted(s)[j])
    decreases |s|
  {
    var rest := s - {Least(s)};
    if i == 0 {
      SortedElements(s);
      assert Sorted(s)[j] in Sorted(s);
    } else {
      SortedInOrder(rest, i - 1, j - 1);
    }
  }

  // What does not come before a key comes after it.
  lemma SortedAfter(s: set<Id>, k: nat, t: Id)
    requires k < |Sorted(s)| && t in s && t !in Sorted(s)[..k]
    ensures AtMost(Sorted(s)[k], t)
  {
    SortedElements(s);
    var keys := Sorted(s);
    assert keys == keys[..k] + keys[k..];
    var m :| 0 <= m < |keys[k..]| && keys[k..][m] == t;
    if m == 0 { Total(t, t); } else { SortedInOrder(s, k, k + m); }
  }

  // Walking the keys in order and keeping some gives those keys in order.
  lemma SortedStep(s: set<Id>, kept: set<Id>, i: nat)
    requires i < |Sorted(s)| && kept <= set k | k in Sorted(s)[..i]
    ensures Sorted(kept + {Sorted(s)[i]}) == Sorted(kept) + [Sorted(s)[i]]
  {
    var x := Sorted(s)[i];
    forall y | y in kept ensures AtMost(y, x) && y != x {
      var j :| 0 <= j < i && Sorted(s)[j] == y;
      SortedInOrder(s, j, i);
      SortedDistinct(s, j, i);
    }
    SortedAppend(kept, x);
  }
}

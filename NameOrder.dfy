/**
 The order in which a folder's subfolders are enumerated.

 Directory.GetDirectories returns names in an order fixed by the file
 system. The model fixes one such order: ordinal (character-code)
 lexicographic order on names. "The first subfolder" is the least child
 name in that order.
 */
module NameOrder {

  type Name = string

  /** Ordinal lexicographic order on names: `a` is a prefix of `b`, or
      they differ first at a character where `a`'s is smaller. */
  predicate NameLessEq(a: Name, b: Name)
  {
    a == [] || (b != [] && (a[0] < b[0] || (a[0] == b[0] && NameLessEq(a[1..], b[1..]))))
  }

  lemma {:induction false} NameLessEqReflexive(a: Name)
    ensures NameLessEq(a, a)
  {
    if a != [] {
      NameLessEqReflexive(a[1..]);
    }
  }

  lemma {:induction false} NameLessEqAntisymmetric(a: Name, b: Name)
    requires NameLessEq(a, b) && NameLessEq(b, a)
    ensures a == b
  {
    if a != [] && b != [] {
      NameLessEqAntisymmetric(a[1..], b[1..]);
      assert a == [a[0]] + a[1..];
      assert b == [b[0]] + b[1..];
    }
  }

  lemma {:induction false} NameLessEqTotal(a: Name, b: Name)
    ensures NameLessEq(a, b) || NameLessEq(b, a)
  {
    if a != [] && b != [] && a[0] == b[0] {
      NameLessEqTotal(a[1..], b[1..]);
    }
  }

  lemma {:induction false} NameLessEqTransitive(a: Name, b: Name, c: Name)
    requires NameLessEq(a, b) && NameLessEq(b, c)
    ensures NameLessEq(a, c)
  {
    if a != [] && b != [] && c != [] && a[0] == b[0] && b[0] == c[0] {
      NameLessEqTransitive(a[1..], b[1..], c[1..]);
    }
  }

  /** `n` is the least name of `s`. */
  predicate IsLeast(n: Name, s: set<Name>)
  {
    n in s && forall m :: m in s ==> NameLessEq(n, m)
  }

  /** Every finite non-empty set of names has a least element. */
  lemma LeastExists(s: set<Name>)
    requires s != {}
    ensures exists n :: IsLeast(n, s)
    decreases |s|
  {
    var x :| x in s;
    if s == {x} {
      NameLessEqReflexive(x);
      assert IsLeast(x, s);
    } else {
      LeastExists(s - {x});
      var m :| IsLeast(m, s - {x});
      NameLessEqTotal(x, m);
      if NameLessEq(x, m) {
        forall y | y in s
          ensures NameLessEq(x, y)
        {
          if y == x {
            NameLessEqReflexive(x);
          } else {
            NameLessEqTransitive(x, m, y);
          }
        }
        assert IsLeast(x, s);
      } else {
        assert IsLeast(m, s);
      }
    }
  }

  /** A set has at most one least element. */
  lemma LeastUnique(s: set<Name>)
    ensures forall a, b :: IsLeast(a, s) && IsLeast(b, s) ==> a == b
  {
    forall a, b | IsLeast(a, s) && IsLeast(b, s)
      ensures a == b
    {
      NameLessEqAntisymmetric(a, b);
    }
  }

  /** The name enumerated first among `s`. */
  function FirstName(s: set<Name>): (n: Name)
    requires s != {}
    ensures n in s
    ensures forall m :: m in s ==> NameLessEq(n, m)
  {
    LeastExists(s);
    LeastUnique(s);
    var n :| IsLeast(n, s);
    n
  }

  /** Moving one name from the names still to visit to the names visited
      keeps the two apart and their union the same. */
  lemma VisitOne(done: set<Name>, todo: set<Name>, n: Name)
    requires done !! todo && n in todo
    ensures (done + {n}) + (todo - {n}) == done + todo
    ensures (done + {n}) !! (todo - {n})
  {
  }

  /** The names a loop keeps after visiting `n`: `n` leaves them unless it
      is the name `kept` that is always kept. */
  lemma VisitKept(kept: Name, todo: set<Name>, n: Name)
    ensures n != kept ==> ({kept} + todo) - {n} == {kept} + (todo - {n})
    ensures n == kept ==> {kept} + todo == {kept} + (todo - {n})
  {
  }
}

/** The orders maps are walked in: strings byte by byte, and keys made of three strings. */
module Orders {

  predicate Lex(a: string, b: string) {
    b != [] && (a == [] || a[0] < b[0] || (a[0] == b[0] && Lex(a[1..], b[1..])))
  }

  lemma {:induction false} LexIrreflexive(a: string, b: string)
    ensures !(Lex(a, b) && Lex(b, a))
    decreases |a|
  {
    if a != [] && b != [] { LexIrreflexive(a[1..], b[1..]); }
  }

  lemma {:induction false} LexTotal(a: string, b: string)
    requires a != b
    ensures Lex(a, b) || Lex(b, a)
    decreases |a|
  {
    if a != [] && b != [] && a[0] == b[0] {
      assert a == [a[0]] + a[1..] && b == [b[0]] + b[1..];
      LexTotal(a[1..], b[1..]);
    }
  }

  lemma {:induction false} LexTransitive(a: string, b: string, c: string)
    requires Lex(a, b) && Lex(b, c)
    ensures Lex(a, c)
    decreases |a|
  {
    if a != [] && a[0] == b[0] == c[0] { LexTransitive(a[1..], b[1..], c[1..]); }
  }

  ghost predicate IsOrder<T(!new)>(less: (T, T) -> bool) {
    && (forall x, y :: x == y || less(x, y) || less(y, x))
    && (forall x, y :: !(less(x, y) && less(y, x)))
    && forall x, y, z :: less(x, y) && less(y, z) ==> less(x, z)
  }

  lemma LexIsOrder()
    ensures IsOrder(Lex)
  {
    forall x, y | x != y ensures Lex(x, y) || Lex(y, x) { LexTotal(x, y); }
    forall x, y ensures !(Lex(x, y) && Lex(y, x)) { LexIrreflexive(x, y); }
    forall x, y, z | Lex(x, y) && Lex(y, z) ensures Lex(x, z) { LexTransitive(x, y, z); }
  }

  type Triple = (string, string, string)

  predicate TripleLess(a: Triple, b: Triple) {
    Lex(a.0, b.0) || (a.0 == b.0 && (Lex(a.1, b.1) || (a.1 == b.1 && Lex(a.2, b.2))))
  }

  lemma TripleIsOrder()
    ensures IsOrder(TripleLess)
  {
    LexIsOrder();
    hide Lex;
    assert forall x: Triple, y: Triple :: x == y || TripleLess(x, y) || TripleLess(y, x);
    assert forall x: Triple, y: Triple :: !(TripleLess(x, y) && TripleLess(y, x));
    forall x: Triple, y: Triple, z: Triple | TripleLess(x, y) && TripleLess(y, z) ensures TripleLess(x, z) {
      if Lex(x.0, y.0) && Lex(y.0, z.0) { assert Lex(x.0, z.0); }
    }
  }

  predicate IsLeast<T(==,!new)>(s: set<T>, less: (T, T) -> bool, least: T) {
    least in s && forall x | x in s && x != least :: less(least, x)
  }

  lemma {:induction false} LeastExists<T(!new)>(s: set<T>, less: (T, T) -> bool)
    requires s != {} && IsOrder(less)
    ensures exists least :: IsLeast(s, less, least)
    decreases |s|
  {
    var some :| some in s;
    if s == {some} {
      assert IsLeast(s, less, some);
    } else {
      LeastExists(s - {some}, less);
      var least :| IsLeast(s - {some}, less, least);
      if less(some, least) {
        assert IsLeast(s, less, some);
      } else {
        assert IsLeast(s, less, least);
      }
    }
  }
}

/** The maximum of a finite set of integers and sums over finite sets. */
module FiniteSets {

  lemma Pick<T>(s: set<T>) returns (x: T)
    requires s != {}
    ensures x in s
  {
    x :| x in s;
  }

  lemma {:induction false} MaxExists(s: set<int>)
    requires s != {}
    ensures exists m :: m in s && forall x :: x in s ==> x <= m
  {
    var x := Pick(s);
    if s != {x} {
      MaxExists(s - {x});
      var m :| m in s - {x} && forall y :: y in s - {x} ==> y <= m;
      assert forall y :: y in s ==> y == x || y in s - {x};
      var top := if m < x then x else m;
      assert top in s && forall y :: y in s ==> y <= top;
    } else {
      assert x in s && forall y :: y in s ==> y <= x;
    }
  }

  function Max(s: set<int>): int
    requires s != {}
  {
    MaxExists(s);
    var m :| m in s && forall x :: x in s ==> x <= m;
    m
  }

  /** The sum of f over the elements of a finite set, visited in some order. */
  ghost function Sum<T>(s: set<T>, f: T -> int): int {
    if s == {} then 0
    else
      var x :| x in s;
      f(x) + Sum(s - {x}, f)
  }

  /** The order of the visit does not matter: any element can be taken out first. */
  lemma {:induction false} SumTakes<T>(s: set<T>, f: T -> int, x: T)
    requires x in s
    ensures Sum(s, f) == f(x) + Sum(s - {x}, f)
  {
    var y :| y in s && Sum(s, f) == f(y) + Sum(s - {y}, f);
    if y != x {
      SumTakes(s - {y}, f, x);
      SumTakes(s - {x}, f, y);
      assert s - {y} - {x} == s - {x} - {y};
    }
  }

  /** Functions that agree on the set have the same sum. */
  lemma {:induction false} SumAgrees<T>(s: set<T>, f: T -> int, g: T -> int)
    requires forall x :: x in s ==> f(x) == g(x)
    ensures Sum(s, f) == Sum(s, g)
  {
    if s != {} {
      var x :| x in s;
      SumTakes(s, f, x);
      SumTakes(s, g, x);
      SumAgrees(s - {x}, f, g);
    }
  }

  /** Changing the value of one element changes the sum by as much. */
  lemma SumChanges<T>(s: set<T>, f: T -> int, g: T -> int, x: T, change: int)
    requires x in s && g(x) == f(x) + change
    requires forall y :: y in s && y != x ==> g(y) == f(y)
    ensures Sum(s, g) == Sum(s, f) + change
  {
    SumTakes(s, f, x);
    SumTakes(s, g, x);
    SumAgrees(s - {x}, f, g);
  }

  lemma {:induction false} SumOfDifference<T>(s: set<T>, f: T -> int, g: T -> int, h: T -> int)
    requires forall x :: x in s ==> h(x) == f(x) - g(x)
    ensures Sum(s, h) == Sum(s, f) - Sum(s, g)
  {
    if s != {} {
      var x :| x in s;
      SumTakes(s, f, x);
      SumTakes(s, g, x);
      SumTakes(s, h, x);
      SumOfDifference(s - {x}, f, g, h);
    }
  }

  lemma {:induction false} SumOfZeros<T>(s: set<T>, f: T -> int)
    requires forall x :: x in s ==> f(x) == 0
    ensures Sum(s, f) == 0
  {
    if s != {} {
      var x :| x in s;
      SumTakes(s, f, x);
      SumOfZeros(s - {x}, f);
    }
  }
}

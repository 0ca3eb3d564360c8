/** Names side by side in the order Python sorts them: by their last component, character
    by character. */
module Ordering {
  import opened Replication

  predicate StringLe(a: string, b: string) {
    a == "" || (b != "" && (a[0] < b[0] || (a[0] == b[0] && StringLe(a[1..], b[1..]))))
  }

  lemma {:induction false} StringTotal(a: string, b: string)
    ensures StringLe(a, b) || StringLe(b, a)
  {
    if a != "" && b != "" && a[0] == b[0] {
      StringTotal(a[1..], b[1..]);
    }
  }

  lemma {:induction false} StringTransitive(a: string, b: string, c: string)
    requires StringLe(a, b) && StringLe(b, c)
    ensures StringLe(a, c)
  {
    if a != "" && a[0] == b[0] && b[0] == c[0] {
      StringTransitive(a[1..], b[1..], c[1..]);
    }
  }

  lemma {:induction false} StringSame(a: string, b: string)
    requires StringLe(a, b) && StringLe(b, a)
    ensures a == b
  {
    if a != "" && b != "" && a[0] == b[0] {
      StringSame(a[1..], b[1..]);
      assert a == [a[0]] + a[1..] && b == [b[0]] + b[1..];
    }
  }

  predicate NameLe(x: Name, y: Name) {
    |x| >= 1 && |y| >= 1 && StringLe(x[|x| - 1], y[|y| - 1])
  }

  method Least(left: set<Name>) returns (x: Name)
    requires left != {} && forall y :: y in left ==> |y| >= 1
    ensures x in left && forall y :: y in left ==> NameLe(x, y)
  {
    x :| x in left;
    var rest := left - {x};
    StringTotal(x[|x| - 1], x[|x| - 1]);
    while rest != {}
      invariant rest <= left && x in left
      invariant forall y :: y in left - rest ==> NameLe(x, y)
    {
      var y :| y in rest;
      rest := rest - {y};
      StringTotal(x[|x| - 1], y[|y| - 1]);
      StringTotal(y[|y| - 1], y[|y| - 1]);
      if !NameLe(x, y) {
        forall z | z in left && NameLe(x, z)
          ensures NameLe(y, z)
        {
          StringTransitive(y[|y| - 1], x[|x| - 1], z[|z| - 1]);
        }
        x := y;
      }
    }
  }

  /** Some of the names, none of which sorts after one that is not among them. */
  ghost predicate ComeFirst(some: set<Name>, names: set<Name>) {
    some <= names && forall x, y :: x in some && y in names - some ==> NameLe(x, y)
  }
}

/** Identifiers of the in-memory engine: how they are printed, how they are ordered, and how a
    namespace and an idempotency key are joined into one map key. */
module Ids {
  import opened Machine

  // ---------------------------------------------------------------- string order

  /** The byte order that the engine sorts ids by. */
  predicate Before(x: string, y: string) {
    if y == [] then false
    else if x == [] then true
    else if x[0] != y[0] then x[0] < y[0]
    else Before(x[1..], y[1..])
  }

  lemma {:induction false} BeforeIrreflexive(x: string)
    ensures !Before(x, x)
  {
    if x != [] { BeforeIrreflexive(x[1..]); }
  }

  lemma {:induction false} BeforeTransitive(x: string, y: string, z: string)
    requires Before(x, y) && Before(y, z)
    ensures Before(x, z)
  {
    if x != [] && x[0] == y[0] == z[0] { BeforeTransitive(x[1..], y[1..], z[1..]); }
  }

  lemma {:induction false} BeforeTotal(x: string, y: string)
    requires x != y
    ensures Before(x, y) || Before(y, x)
  {
    if x != [] && y != [] && x[0] == y[0] {
      assert x == [x[0]] + x[1..] && y == [y[0]] + y[1..];
      BeforeTotal(x[1..], y[1..]);
    }
  }

  ghost predicate IsLeast(i: Id, ids: set<Id>) {
    i in ids && forall j :: j in ids && j != i ==> Before(i, j)
  }

  lemma {:induction false} LeastExists(ids: set<Id>)
    requires ids != {}
    ensures exists i :: IsLeast(i, ids)
  {
    var x :| x in ids;
    var rest := ids - {x};
    if rest == {} {
      assert forall j :: j in ids && j != x ==> j in rest;
      assert IsLeast(x, ids);
    } else {
      LeastExists(rest);
      var y :| IsLeast(y, rest);
      BeforeTotal(x, y);
      if Before(y, x) {
        assert IsLeast(y, ids);
      } else {
        forall j | j in ids && j != x ensures Before(x, j) {
          if j != y { BeforeTransitive(x, y, j); }
        }
        assert IsLeast(x, ids);
      }
    }
  }

  ghost function Least(ids: set<Id>): (i: Id)
    requires ids != {}
    ensures IsLeast(i, ids)
  {
    LeastExists(ids);
    var i :| IsLeast(i, ids);
    i
  }

  lemma LeastUnique(i: Id, j: Id, ids: set<Id>)
    requires IsLeast(i, ids) && IsLeast(j, ids)
    ensures i == j
  {
    if i != j {
      BeforeTransitive(i, j, i);
      BeforeIrreflexive(i);
    }
  }

  ghost predicate Ascending(xs: seq<Id>) {
    forall j, k :: 0 <= j < k < |xs| ==> Before(xs[j], xs[k])
  }

  /** The ids of a set in ascending order. */
  ghost function Sorted(ids: set<Id>): seq<Id> {
    if ids == {} then [] else [Least(ids)] + Sorted(ids - {Least(ids)})
  }

  lemma {:induction false} SortedLists(ids: set<Id>)
    ensures Ascending(Sorted(ids)) && Lists(Sorted(ids), ids)
  {
    if ids != {} {
      var i := Least(ids);
      SortedLists(ids - {i});
      var xs := Sorted(ids);
      assert xs[1..] == Sorted(ids - {i});
      forall x ensures x in xs <==> x in ids {
        if x in ids && x != i { assert x in xs[1..]; }
      }
    }
  }

  /** There is only one ascending listing. */
  lemma {:induction false} SortedUnique(xs: seq<Id>, ids: set<Id>)
    requires Ascending(xs) && Lists(xs, ids)
    ensures xs == Sorted(ids)
  {
    hide Before;
    if xs == [] {
      assert forall x :: x in ids ==> x in xs;
      assert ids == {};
    } else {
      FirstOfAscending(xs, ids);
      hide Least, IsLeast;
      SortedUnique(xs[1..], ids - {xs[0]});
    }
  }

  lemma FirstOfAscending(xs: seq<Id>, ids: set<Id>)
    requires Ascending(xs) && Lists(xs, ids) && xs != []
    ensures ids != {} && Least(ids) == xs[0]
    ensures Ascending(xs[1..]) && Lists(xs[1..], ids - {xs[0]})
  {
    hide Before, Least;
    assert xs[0] in ids;
    forall j | j in ids && j != xs[0] ensures Before(xs[0], j) {
      assert j in xs;
      var k :| 0 <= k < |xs| && xs[k] == j;
    }
    LeastUnique(xs[0], Least(ids), ids);
    var rest := xs[1..];
    forall x ensures x in rest <==> x in ids - {xs[0]} {
      if x in ids && x != xs[0] {
        assert x in xs;
        var k :| 0 <= k < |xs| && xs[k] == x;
        assert rest[k - 1] == x;
      }
    }
  }

  // ---------------------------------------------------------------- printed numbers

  function Digit(d: nat): char
    requires d < 10
  {
    '0' + d as char
  }

  function Decimal(n: nat): string {
    if n < 10 then [Digit(n)] else Decimal(n / 10) + [Digit(n % 10)]
  }

  function Zeros(k: int): string
    decreases k
  {
    if k <= 0 then "" else Zeros(k - 1) + "0"
  }

  /** The number with at least six digits. */
  function Padded(n: nat): string {
    Zeros(6 - |Decimal(n)|) + Decimal(n)
  }

  function ActivityId(n: nat): Id {
    "act_" + Padded(n)
  }

  function WorkflowId(n: nat): Id {
    "wf_" + Padded(n)
  }

  predicate AllDigits(x: string) {
    forall k :: 0 <= k < |x| ==> '0' <= x[k] <= '9'
  }

  function Value(x: string): nat
    requires AllDigits(x)
  {
    if x == [] then 0 else 10 * Value(x[..|x| - 1]) + (x[|x| - 1] - '0') as nat
  }

  function Power10(k: nat): nat {
    if k == 0 then 1 else 10 * Power10(k - 1)
  }

  lemma ValueSnoc(x: string, c: char)
    requires AllDigits(x) && '0' <= c <= '9'
    ensures AllDigits(x + [c]) && Value(x + [c]) == 10 * Value(x) + (c - '0') as nat
  {
    assert (x + [c])[..|x|] == x;
  }

  lemma {:induction false} ValueOfDecimal(n: nat)
    ensures AllDigits(Decimal(n)) && Value(Decimal(n)) == n && |Decimal(n)| > 0
  {
    if n < 10 {
      ValueSnoc("", Digit(n));
      assert "" + [Digit(n)] == [Digit(n)];
    } else {
      ValueOfDecimal(n / 10);
      ValueSnoc(Decimal(n / 10), Digit(n % 10));
    }
  }

  lemma {:induction false} ValueOfZeros(k: int, x: string)
    requires AllDigits(x)
    ensures AllDigits(Zeros(k) + x) && Value(Zeros(k) + x) == Value(x)
    ensures |Zeros(k)| == if k <= 0 then 0 else k
    decreases |x|, k
  {
    if x == [] {
      assert Zeros(k) + x == Zeros(k);
      if k > 0 {
        ValueOfZeros(k - 1, "");
        assert Zeros(k - 1) + "" == Zeros(k - 1);
        ValueSnoc(Zeros(k - 1), '0');
      }
    } else {
      var n := |x| - 1;
      ValueOfZeros(k, x[..n]);
      assert Zeros(k) + x == (Zeros(k) + x[..n]) + [x[n]];
      ValueSnoc(Zeros(k) + x[..n], x[n]);
    }
  }

  /** Reading a printed number gives the number back. */
  lemma ValueOfPadded(n: nat)
    ensures AllDigits(Padded(n)) && Value(Padded(n)) == n
    ensures |Padded(n)| == if |Decimal(n)| < 6 then 6 else |Decimal(n)|
  {
    ValueOfDecimal(n);
    ValueOfZeros(6 - |Decimal(n)|, Decimal(n));
  }

  /** Ids as they are printed: a prefix, and the number with at least six digits. */
  lemma PrintedIds(n: nat)
    ensures WorkflowId(n)[..3] == "wf_" && ActivityId(n)[..4] == "act_"
    ensures var w, a := WorkflowId(n)[3..], ActivityId(n)[4..];
      a == w && |w| >= 6 && AllDigits(w) && Value(w) == n
  {
    ValueOfPadded(n);
    assert WorkflowId(n)[3..] == Padded(n) && ActivityId(n)[4..] == Padded(n);
  }

  /** Different numbers print as different ids. */
  lemma IdsInjective(a: nat, b: nat)
    ensures ActivityId(a) == ActivityId(b) ==> a == b
    ensures WorkflowId(a) == WorkflowId(b) ==> a == b
  {
    ValueOfPadded(a);
    ValueOfPadded(b);
    assert ActivityId(a)[4..] == Padded(a) && ActivityId(b)[4..] == Padded(b);
    assert WorkflowId(a)[3..] == Padded(a) && WorkflowId(b)[3..] == Padded(b);
  }

  lemma {:induction false} DecimalLength(n: nat, k: nat)
    requires k > 0
    ensures |Decimal(n)| <= k <==> n < Power10(k)
  {
    if n >= 10 {
      if k == 1 {
        ValueOfDecimal(n / 10);
      } else {
        DecimalLength(n / 10, k - 1);
      }
    } else {
      PowerPositive(k - 1);
    }
  }

  lemma {:induction false} PowerPositive(k: nat)
    ensures Power10(k) >= 1
  {
    if k > 0 { PowerPositive(k - 1); }
  }

  lemma {:induction false} BeforeSnoc(x: string, y: string, c: char, d: char)
    requires |x| == |y|
    ensures Before(x + [c], y + [d]) <==> Before(x, y) || (x == y && c < d)
  {
    if x != [] {
      assert (x + [c])[1..] == x[1..] + [c] && (y + [d])[1..] == y[1..] + [d];
      BeforeSnoc(x[1..], y[1..], c, d);
      assert x == [x[0]] + x[1..] && y == [y[0]] + y[1..];
    }
  }

  /** Digit strings of one length are ordered like their values. */
  lemma {:induction false} SameLengthOrder(x: string, y: string)
    requires AllDigits(x) && AllDigits(y) && |x| == |y| && Value(x) < Value(y)
    ensures Before(x, y)
  {
    var n := |x| - 1;
    var u, v := x[..n], y[..n];
    assert x == u + [x[n]] && y == v + [y[n]];
    BeforeSnoc(u, v, x[n], y[n]);
    if Value(u) < Value(v) {
      SameLengthOrder(u, v);
    } else {
      SameValueSameString(u, v);
    }
  }

  lemma {:induction false} SameValueSameString(x: string, y: string)
    requires AllDigits(x) && AllDigits(y) && |x| == |y| && Value(x) == Value(y)
    ensures x == y
  {
    if x != [] {
      var n := |x| - 1;
      assert x == x[..n] + [x[n]] && y == y[..n] + [y[n]];
      SameValueSameString(x[..n], y[..n]);
    }
  }

  lemma {:induction false} BeforePrefix(p: string, x: string, y: string)
    ensures Before(p + x, p + y) <==> Before(x, y)
  {
    if p == [] {
      assert p + x == x && p + y == y;
    } else {
      assert (p + x)[1..] == p[1..] + x && (p + y)[1..] == p[1..] + y;
      BeforePrefix(p[1..], x, y);
    }
  }

  lemma SixDigitsInOrder(a: nat, b: nat)
    requires a < b <= 999_999
    ensures Before(ActivityId(a), ActivityId(b))
  {
    assert Power10(6) == 1_000_000;
    DecimalLength(a, 6);
    DecimalLength(b, 6);
    ValueOfPadded(a);
    ValueOfPadded(b);
    SameLengthOrder(Padded(a), Padded(b));
    BeforePrefix("act_", Padded(a), Padded(b));
  }

  /** The millionth activity sorts before the one created just before it. */
  lemma MillionthOutOfOrder()
    ensures Before(ActivityId(1_000_000), ActivityId(999_999))
  {
    assert Decimal(10) == "10" && Decimal(100) == "100" && Decimal(1_000) == "1000";
    assert Decimal(10_000) == "10000" && Decimal(100_000) == "100000" && Decimal(1_000_000) == "1000000";
    assert Decimal(99) == "99" && Decimal(999) == "999" && Decimal(9_999) == "9999";
    assert Decimal(99_999) == "99999" && Decimal(999_999) == "999999";
    assert Padded(1_000_000) == "1000000" && Padded(999_999) == "999999";
    BeforePrefix("act_", Padded(1_000_000), Padded(999_999));
  }

  /** The order of the ids is the order of creation exactly as long as at most 999,999 activities
      have been created. */
  lemma IdOrderIsCreationOrder(n: nat)
    ensures (forall a, b {:trigger ActivityId(a), ActivityId(b)} :: 1 <= a < b <= n ==>
               Before(ActivityId(a), ActivityId(b)))
            <==> n <= 999_999
  {
    if n <= 999_999 {
      forall a, b {:trigger ActivityId(a), ActivityId(b)} | 1 <= a < b <= n
        ensures Before(ActivityId(a), ActivityId(b))
      {
        SixDigitsInOrder(a, b);
      }
    } else {
      MillionthOutOfOrder();
      var x, y := ActivityId(999_999), ActivityId(1_000_000);
      if Before(x, y) {
        BeforeTransitive(x, y, x);
        BeforeIrreflexive(x);
      }
    }
  }

  // ---------------------------------------------------------------- joined keys

  const NUL: string := "\0"

  /** The map key under which the engine files an idempotency key. */
  function Join(namespace: string, key: string): string {
    namespace + NUL + key
  }

  /** Keys of two namespaces can clash exactly when the namespaces are equal or one of them, followed
      by a NUL, starts the other. */
  lemma JoinsClash(m: string, n: string)
    ensures (exists j, k :: j != "" && k != "" && Join(m, j) == Join(n, k))
            <==> m == n || m + NUL <= n || n + NUL <= m
  {
    if m == n {
      assert Join(m, "a") == Join(n, "a");
    } else if m + NUL <= n {
      var rest := n[|m| + 1..];
      assert n == m + NUL + rest;
      assert Join(n, "a") == Join(m, rest + NUL + "a");
      assert rest + NUL + "a" != "" && "a" != "";
    } else if n + NUL <= m {
      var rest := m[|n| + 1..];
      assert m == n + NUL + rest;
      assert Join(m, "a") == Join(n, rest + NUL + "a");
      assert rest + NUL + "a" != "" && "a" != "";
    }
    forall j, k | Join(m, j) == Join(n, k) ensures m == n || m + NUL <= n || n + NUL <= m {
      SplitPoint(m, n, j, k);
    }
  }

  lemma SplitPoint(m: string, n: string, j: string, k: string)
    requires Join(m, j) == Join(n, k)
    ensures m == n || m + NUL <= n || n + NUL <= m
  {
    var x := Join(m, j);
    assert x[..|m|] == m && x[..|n|] == n;
    if |m| < |n| {
      assert x[..|m| + 1] == m + NUL;
      assert x[..|n|][..|m| + 1] == x[..|m| + 1];
    } else if |n| < |m| {
      assert Join(n, k)[..|n| + 1] == n + NUL;
      assert x[..|m|][..|n| + 1] == x[..|n| + 1];
    }
  }

  lemma StartHasNul(m: string, n: string)
    requires m + NUL <= n
    ensures '\0' in n
  {
    assert n[|m|] == '\0';
  }

  /** Without NUL in the namespaces the join loses nothing. */
  lemma JoinInjective(m: string, n: string, j: string, k: string)
    requires '\0' !in m && '\0' !in n && Join(m, j) == Join(n, k)
    ensures m == n && j == k
  {
    SplitPoint(m, n, j, k);
    if m + NUL <= n {
      StartHasNul(m, n);
    } else if n + NUL <= m {
      StartHasNul(n, m);
    }
    assert Join(m, j)[|m| + 1..] == j && Join(n, k)[|n| + 1..] == k;
  }
}

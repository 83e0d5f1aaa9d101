/**
 * Insertion-ordered accumulation, the way the pages total amounts by a key:
 * `d[k] = d.get(k, 0) + x` on a Python dict, and pandas `groupby(...).sum()`
 * on a frame whose rows are yearly vectors. An association list keeps the
 * keys in first-occurrence order.
 */
module Ledger {
  import opened Common

  type Entry = (string, real)

  /** A frame: named rows, each a vector of yearly amounts. */
  type Table = seq<(string, seq<real>)>

  function Amounts(a: seq<Entry>): (r: seq<real>)
    ensures |r| == |a| && forall i :: 0 <= i < |a| ==> r[i] == a[i].1
  {
    seq(|a|, i requires 0 <= i < |a| => a[i].1)
  }

  function Total(a: seq<Entry>): real
  {
    Sum(Amounts(a))
  }

  predicate HasName(a: seq<Entry>, k: string)
  {
    exists i :: 0 <= i < |a| && a[i].0 == k
  }

  predicate Distinct(a: seq<Entry>)
  {
    forall i, j :: 0 <= i < j < |a| ==> a[i].0 != a[j].0
  }

  /** `d.get(k, 0)`: the amount stored under k, 0 when k is absent. */
  function Lookup(a: seq<Entry>, k: string): real
  {
    if a == [] then 0.0 else if a[0].0 == k then a[0].1 else Lookup(a[1..], k)
  }

  /** Sum of the amounts of every row named k. */
  function SumFor(rows: seq<Entry>, k: string): real
  {
    if rows == [] then 0.0
    else SumFor(rows[..|rows| - 1], k) + (if rows[|rows| - 1].0 == k then rows[|rows| - 1].1 else 0.0)
  }

  lemma TotalCons(e: Entry, a: seq<Entry>)
    ensures Total([e] + a) == e.1 + Total(a)
  {
    assert Amounts([e] + a)[1..] == Amounts(a);
  }

  lemma TotalSnoc(a: seq<Entry>, e: Entry)
    ensures Total(a + [e]) == Total(a) + e.1
  {
    assert Amounts(a + [e]) == Amounts(a) + [e.1];
    SumAppend(Amounts(a), e.1);
  }

  lemma HasNameTail(a: seq<Entry>, k: string)
    requires a != [] && a[0].0 != k
    ensures HasName(a, k) <==> HasName(a[1..], k)
  {
    if HasName(a, k) {
      var i :| 0 <= i < |a| && a[i].0 == k;
      assert a[1..][i - 1].0 == k;
    }
    if HasName(a[1..], k) {
      var i :| 0 <= i < |a[1..]| && a[1..][i].0 == k;
      assert a[i + 1].0 == k;
    }
  }

  lemma DistinctTail(a: seq<Entry>)
    requires a != [] && Distinct(a)
    ensures Distinct(a[1..])
  {
    forall i, j | 0 <= i < j < |a[1..]| ensures a[1..][i].0 != a[1..][j].0 {
      assert a[1..][i] == a[i + 1] && a[1..][j] == a[j + 1];
    }
  }

  /** `d[k] = d.get(k, 0) + x`: an existing key keeps its place and the others are untouched; a new key goes last. */
  function AddTo(a: seq<Entry>, k: string, x: real): (r: seq<Entry>)
    ensures HasName(a, k) ==> |r| == |a|
    ensures !HasName(a, k) ==> r == a + [(k, x)]
    ensures forall i :: 0 <= i < |a| ==> r[i].0 == a[i].0
  {
    if a == [] then [(k, x)]
    else if a[0].0 == k then [(k, a[0].1 + x)] + a[1..]
    else
      HasNameTail(a, k);
      assert a == [a[0]] + a[1..];
      [a[0]] + AddTo(a[1..], k, x)
  }

  /** After the update, k holds x more and every other key holds what it held. */
  lemma {:induction false} AddToLookup(a: seq<Entry>, k: string, x: real, n: string)
    ensures Lookup(AddTo(a, k, x), n) == Lookup(a, n) + (if n == k then x else 0.0)
  {
    if a != [] && a[0].0 != k {
      var r := AddTo(a, k, x);
      assert r[1..] == AddTo(a[1..], k, x);
      AddToLookup(a[1..], k, x, n);
    } else if a != [] {
      assert AddTo(a, k, x)[1..] == a[1..];
    }
  }

  /** The update adds exactly x to the total. */
  lemma {:induction false} AddToTotal(a: seq<Entry>, k: string, x: real)
    ensures Total(AddTo(a, k, x)) == Total(a) + x
  {
    var r := AddTo(a, k, x);
    if a == [] {
      TotalCons((k, x), []);
      assert [(k, x)] + [] == r;
    } else {
      assert a == [a[0]] + a[1..];
      TotalCons(a[0], a[1..]);
      if a[0].0 == k {
        assert r == [r[0]] + a[1..];
        TotalCons(r[0], a[1..]);
      } else {
        var t := AddTo(a[1..], k, x);
        assert r == [a[0]] + t;
        TotalCons(a[0], t);
        AddToTotal(a[1..], k, x);
      }
    }
  }

  /** The update keeps keys distinct. */
  lemma {:induction false} AddToDistinct(a: seq<Entry>, k: string, x: real)
    requires Distinct(a)
    ensures Distinct(AddTo(a, k, x))
  {
    var r := AddTo(a, k, x);
    if a != [] && a[0].0 != k {
      DistinctTail(a);
      AddToDistinct(a[1..], k, x);
      var t := AddTo(a[1..], k, x);
      assert r == [a[0]] + t;
      HasNameTail(a, k);
      forall j | 0 < j < |r| ensures r[0].0 != r[j].0 {
        if j - 1 < |a[1..]| {
          assert r[j].0 == t[j - 1].0 == a[1..][j - 1].0 == a[j].0;
        } else {
          assert r[j].0 == k;
        }
      }
    } else if a != [] {
      forall i, j | 0 <= i < j < |r| ensures r[i].0 != r[j].0 {
        assert r[i].0 == a[i].0 && r[j].0 == a[j].0;
      }
    }
  }

  /** The dict obtained by adding every row's amount under its name, in order. */
  function Group(rows: seq<Entry>): (g: seq<Entry>)
    ensures Distinct(g)
  {
    if rows == [] then []
    else
      var g := Group(rows[..|rows| - 1]);
      AddToDistinct(g, rows[|rows| - 1].0, rows[|rows| - 1].1);
      AddTo(g, rows[|rows| - 1].0, rows[|rows| - 1].1)
  }

  /** Every name of the rows, and only those, is a key of the grouped dict. */
  lemma {:induction false} GroupNames(rows: seq<Entry>, k: string)
    ensures HasName(Group(rows), k) <==> HasName(rows, k)
  {
    if rows != [] {
      var init, last := rows[..|rows| - 1], rows[|rows| - 1];
      assert rows == init + [last];
      GroupNames(init, k);
      AddToNames(Group(init), last.0, last.1, k);
      HasNameSnoc(init, last, k);
    }
  }

  /** The keys after `d[k] = d.get(k, 0) + x` are the old keys and k. */
  lemma AddToNames(a: seq<Entry>, k: string, x: real, n: string)
    ensures HasName(AddTo(a, k, x), n) <==> HasName(a, n) || n == k
  {
    var r := AddTo(a, k, x);
    if HasName(a, k) {
      var m :| 0 <= m < |a| && a[m].0 == k;
      assert r[m].0 == k;
      if HasName(r, n) {
        var i :| 0 <= i < |r| && r[i].0 == n;
        assert a[i].0 == n;
      }
      if HasName(a, n) {
        var i :| 0 <= i < |a| && a[i].0 == n;
        assert r[i].0 == n;
      }
    } else {
      assert r[|a|].0 == k;
      if HasName(r, n) && n != k {
        var i :| 0 <= i < |r| && r[i].0 == n;
        assert a[i].0 == n;
      }
      if HasName(a, n) {
        var i :| 0 <= i < |a| && a[i].0 == n;
        assert r[i].0 == n;
      }
    }
  }

  lemma HasNameSnoc(a: seq<Entry>, e: Entry, n: string)
    ensures HasName(a + [e], n) <==> HasName(a, n) || e.0 == n
  {
    var r := a + [e];
    assert r[|a|].0 == e.0;
    if HasName(r, n) && e.0 != n {
      var i :| 0 <= i < |r| && r[i].0 == n;
      assert a[i].0 == n;
    }
    if HasName(a, n) {
      var i :| 0 <= i < |a| && a[i].0 == n;
      assert r[i].0 == n;
    }
  }

  /** The grouped amount under k is the sum of the rows named k. */
  lemma {:induction false} GroupLookup(rows: seq<Entry>, k: string)
    ensures Lookup(Group(rows), k) == SumFor(rows, k)
  {
    if rows != [] {
      GroupLookup(rows[..|rows| - 1], k);
      AddToLookup(Group(rows[..|rows| - 1]), rows[|rows| - 1].0, rows[|rows| - 1].1, k);
    }
  }

  /** Grouping neither creates nor loses money. */
  lemma {:induction false} GroupConserves(rows: seq<Entry>)
    ensures Total(Group(rows)) == Total(rows)
  {
    if rows != [] {
      var init, last := rows[..|rows| - 1], rows[|rows| - 1];
      assert Group(rows) == AddTo(Group(init), last.0, last.1);
      GroupConserves(init);
      AddToTotal(Group(init), last.0, last.1);
      assert rows == init + [last];
      TotalSnoc(init, last);
    }
  }

  /** Rows whose names are already distinct group to themselves. */
  lemma {:induction false} GroupOfDistinct(rows: seq<Entry>)
    requires Distinct(rows)
    ensures Group(rows) == rows
  {
    if rows != [] {
      var init, last := rows[..|rows| - 1], rows[|rows| - 1];
      assert Distinct(init);
      GroupOfDistinct(init);
      assert !HasName(init, last.0);
      assert rows == init + [last];
    }
  }

  /** The shape of the grouped dict (its keys and their order) depends only on the names of the rows. */
  lemma {:induction false} GroupShape(r1: seq<Entry>, r2: seq<Entry>)
    requires |r1| == |r2| && forall j :: 0 <= j < |r1| ==> r1[j].0 == r2[j].0
    ensures |Group(r1)| == |Group(r2)|
    ensures forall j :: 0 <= j < |Group(r1)| ==> Group(r1)[j].0 == Group(r2)[j].0
  {
    if r1 != [] {
      var n := |r1| - 1;
      GroupShape(r1[..n], r2[..n]);
      var g1, g2 := Group(r1[..n]), Group(r2[..n]);
      var k := r1[n].0;
      assert HasName(g1, k) <==> HasName(g2, k) by {
        if HasName(g1, k) {
          var i :| 0 <= i < |g1| && g1[i].0 == k;
          assert g2[i].0 == k;
        }
        if HasName(g2, k) {
          var i :| 0 <= i < |g2| && g2[i].0 == k;
          assert g1[i].0 == k;
        }
      }
    }
  }

  /** In a dict with distinct keys, looking a key up finds its own entry. */
  lemma {:induction false} LookupDistinct(a: seq<Entry>, j: nat)
    requires Distinct(a) && j < |a|
    ensures Lookup(a, a[j].0) == a[j].1
  {
    if j > 0 {
      assert a[1..][j - 1] == a[j];
      assert Distinct(a[1..]) by {
        forall p, q | 0 <= p < q < |a[1..]| ensures a[1..][p].0 != a[1..][q].0 {
          assert a[1..][p] == a[p + 1] && a[1..][q] == a[q + 1];
        }
      }
      LookupDistinct(a[1..], j - 1);
    }
  }

  /** Total of the amounts under a list of keys, looked up in a dict. */
  function SumLookups(a: seq<Entry>, keys: seq<string>): real
  {
    if keys == [] then 0.0 else Lookup(a, keys[0]) + SumLookups(a, keys[1..])
  }

  lemma {:induction false} SumLookupsOwnKeys(a: seq<Entry>, keys: seq<string>, from: nat)
    requires Distinct(a) && from <= |a|
    requires |keys| == |a| - from && forall j :: 0 <= j < |keys| ==> keys[j] == a[from + j].0
    ensures SumLookups(a, keys) == Total(a[from..])
  {
    if keys != [] {
      LookupDistinct(a, from);
      SumLookupsOwnKeys(a, keys[1..], from + 1);
      assert a[from..] == [a[from]] + a[from + 1..];
      TotalCons(a[from], a[from + 1..]);
    } else {
      assert a[from..] == [];
    }
  }

  /** The keys of a list of rows, in the order the grouped dict holds them. */
  function GroupKeys(rows: seq<Entry>): (ks: seq<string>)
    ensures |ks| == |Group(rows)| && forall j :: 0 <= j < |ks| ==> ks[j] == Group(rows)[j].0
  {
    var g := Group(rows);
    seq(|g|, j requires 0 <= j < |g| => g[j].0)
  }

  /** Adding up the sum of every key gives the total of all rows. */
  lemma {:induction false} GroupSumsAddUp(rows: seq<Entry>)
    ensures SumLookups(Group(rows), GroupKeys(rows)) == Total(rows)
  {
    var g := Group(rows);
    var ks := GroupKeys(rows);
    assert forall j :: 0 <= j < |ks| ==> ks[j] == g[0 + j].0;
    SumLookupsOwnKeys(g, ks, 0);
    assert g[0..] == g;
    GroupConserves(rows);
  }

  /** The value of year i in a row, 0 past its end. */
  function Cell(v: seq<real>, i: nat): real
  {
    if i < |v| then v[i] else 0.0
  }

  /** Column i of a frame, as (row name, amount) entries. */
  function Column(t: Table, i: nat): (c: seq<Entry>)
    ensures |c| == |t| && forall j :: 0 <= j < |t| ==> c[j] == (t[j].0, Cell(t[j].1, i))
  {
    seq(|t|, j requires 0 <= j < |t| => (t[j].0, Cell(t[j].1, i)))
  }

  /** The total of column i (pandas' `.sum()` down the rows). */
  function ColumnTotal(t: Table, i: nat): real
  {
    Total(Column(t, i))
  }

  /** A column whose cells are the amounts of g scaled by f totals Total(g) × f. */
  lemma ScaledColumnTotal(g: seq<Entry>, t: Table, i: nat, f: real)
    requires |t| == |g|
    requires forall j :: 0 <= j < |t| ==> Cell(t[j].1, i) == g[j].1 * f
    ensures ColumnTotal(t, i) == Total(g) * f
  {
    var xs, ys := Amounts(g), Amounts(Column(t, i));
    forall j | 0 <= j < |xs| ensures ys[j] == xs[j] * f {
      assert ys[j] == Cell(t[j].1, i);
    }
    SumScale(xs, ys, f);
  }

  /** A column whose cells are the amounts of g carried by a factor totals Total(g) carried by it. */
  lemma InflatedColumnTotal(g: seq<Entry>, t: Table, i: nat, f: real)
    requires |t| == |g|
    requires forall j :: 0 <= j < |t| ==> Cell(t[j].1, i) == Inflated(g[j].1, f)
    ensures ColumnTotal(t, i) == Inflated(Total(g), f)
  {
    ScaledColumnTotal(g, t, i, f);
  }

  /** Rows whose amounts are those of g carried by a factor give, under every name, g's sum carried by it. */
  lemma {:induction false} SumForScale(rows: seq<Entry>, g: seq<Entry>, f: real, k: string)
    requires |rows| == |g|
    requires forall j :: 0 <= j < |rows| ==> rows[j].0 == g[j].0 && rows[j].1 == Inflated(g[j].1, f)
    ensures SumFor(rows, k) == Inflated(SumFor(g, k), f)
  {
    if rows != [] {
      var n := |rows| - 1;
      SumForScale(rows[..n], g[..n], f, k);
      var x := if g[n].0 == k then g[n].1 else 0.0;
      assert SumFor(rows, k) == SumFor(g[..n], k) * f + x * f;
      assert SumFor(g[..n], k) * f + x * f == (SumFor(g[..n], k) + x) * f;
    }
  }

  predicate HasRow(t: Table, k: string)
  {
    exists j :: 0 <= j < |t| && t[j].0 == k
  }

  predicate DistinctRows(t: Table)
  {
    forall i, j :: 0 <= i < j < |t| ==> t[i].0 != t[j].0
  }

  predicate HasWidth(t: Table, w: nat)
  {
    forall j :: 0 <= j < |t| ==> |t[j].1| == w
  }

  /** The row names of a frame in first-occurrence order, once each. */
  function RowKeys(t: Table): seq<string>
  {
    GroupKeys(Column(t, 0))
  }

  lemma {:induction false} ColumnShape(t: Table, i: nat, i': nat)
    ensures |RowKeys(t)| == |Group(Column(t, i'))|
    ensures forall j :: 0 <= j < |RowKeys(t)| ==> RowKeys(t)[j] == Group(Column(t, i'))[j].0
  {
    GroupShape(Column(t, 0), Column(t, i'));
  }

  /** pandas `groupby(level=0).sum()` over w yearly columns: one row per distinct name, each year summed. */
  function GroupTable(t: Table, w: nat): (g: Table)
    ensures |g| == |RowKeys(t)| && HasWidth(g, w)
    ensures forall j :: 0 <= j < |g| ==> g[j].0 == RowKeys(t)[j]
  {
    var keys := RowKeys(t);
    seq(|keys|, j requires 0 <= j < |keys| => (keys[j], seq(w, (i: int) requires 0 <= i < w => Lookup(Group(Column(t, i)), keys[j]))))
  }

  /** The grouped frame has one row per name of the input, and no name twice. */
  lemma {:induction false} GroupTableRows(t: Table, w: nat, k: string)
    ensures DistinctRows(GroupTable(t, w))
    ensures HasRow(GroupTable(t, w), k) <==> HasRow(t, k)
  {
    var g, c := GroupTable(t, w), Column(t, 0);
    var gc := Group(c);
    assert forall j :: 0 <= j < |g| ==> g[j].0 == gc[j].0;
    GroupNames(c, k);
    if HasRow(g, k) {
      var j :| 0 <= j < |g| && g[j].0 == k;
      assert gc[j].0 == k;
      assert HasName(c, k);
      var m :| 0 <= m < |c| && c[m].0 == k;
      assert t[m].0 == k;
    }
    if HasRow(t, k) {
      var m :| 0 <= m < |t| && t[m].0 == k;
      assert c[m].0 == k;
      var j :| 0 <= j < |gc| && gc[j].0 == k;
      assert g[j].0 == k;
    }
  }

  /** Year i of the row named k is the sum of year i over every input row named k. */
  lemma GroupTableCell(t: Table, w: nat, j: nat, i: nat)
    requires j < |GroupTable(t, w)| && i < w
    ensures GroupTable(t, w)[j].1[i] == SumFor(Column(t, i), GroupTable(t, w)[j].0)
  {
    GroupLookup(Column(t, i), GroupTable(t, w)[j].0);
  }

  lemma {:induction false} TotalOfLookups(a: seq<Entry>, keys: seq<string>, es: seq<Entry>)
    requires |es| == |keys| && forall j :: 0 <= j < |es| ==> es[j].1 == Lookup(a, keys[j])
    ensures Total(es) == SumLookups(a, keys)
  {
    if es != [] {
      TotalOfLookups(a, keys[1..], es[1..]);
      assert es == [es[0]] + es[1..];
      TotalCons(es[0], es[1..]);
    }
  }

  /** Grouping a frame keeps every year's column total. */
  lemma GroupTableColumnTotal(t: Table, w: nat, i: nat)
    requires i < w
    ensures ColumnTotal(GroupTable(t, w), i) == ColumnTotal(t, i)
  {
    var g, keys := GroupTable(t, w), RowKeys(t);
    var ci := Column(t, i);
    ColumnShape(t, 0, i);
    assert keys == GroupKeys(ci);
    TotalOfLookups(Group(ci), keys, Column(g, i));
    GroupSumsAddUp(ci);
  }

  lemma CellOfDistinct(t: Table, w: nat, j: nat, i: nat)
    requires DistinctRows(t) && HasWidth(t, w) && j < |t| && i < w
    ensures Lookup(Group(Column(t, i)), t[j].0) == t[j].1[i]
  {
    var ci := Column(t, i);
    assert Distinct(ci);
    GroupOfDistinct(ci);
    LookupDistinct(ci, j);
  }

  /** A frame whose names are already distinct groups to itself. */
  lemma {:induction false} GroupTableOfDistinct(t: Table, w: nat)
    requires DistinctRows(t) && HasWidth(t, w)
    ensures GroupTable(t, w) == t
  {
    var g := GroupTable(t, w);
    var c0 := Column(t, 0);
    assert Distinct(c0);
    GroupOfDistinct(c0);
    var keys := RowKeys(t);
    assert |keys| == |t| && forall j :: 0 <= j < |t| ==> keys[j] == t[j].0;
    assert |g| == |t|;
    forall j | 0 <= j < |t| ensures g[j] == t[j] {
      assert g[j].0 == t[j].0;
      assert |g[j].1| == |t[j].1| == w;
      forall i | 0 <= i < w ensures g[j].1[i] == t[j].1[i] {
        CellOfDistinct(t, w, j, i);
      }
      assert g[j].1 == t[j].1;
    }
  }
}

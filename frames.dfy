/**
 * The frame operations the cash-flow page applies to the stored expense flow:
 * dropping rows by name, assigning a whole row with `.loc[name] = values`,
 * reading a row with `.loc[name]`, and stripping the row names. A frame is a
 * Ledger.Table: rows in order, each a name and its yearly values.
 */
module Frames {
  import opened Common
  import opened Ledger

  /** `df.loc[k]` for a row that exists (the first row so named); the empty row when there is none, where pandas raises KeyError. */
  function RowValue(t: Table, k: string): seq<real>
  {
    if t == [] then [] else if t[0].0 == k then t[0].1 else RowValue(t[1..], k)
  }

  /** `df.drop(names, errors="ignore")`: every row whose name is listed goes, the others keep their order. */
  function DropRows(t: Table, names: set<string>): (r: Table)
    ensures |r| <= |t|
  {
    if t == [] then [] else (if t[0].0 in names then [] else [t[0]]) + DropRows(t[1..], names)
  }

  /** Every row named k gets the values v; the other rows are untouched. */
  function Replace(t: Table, k: string, v: seq<real>): (r: Table)
    ensures |r| == |t|
    ensures forall j :: 0 <= j < |t| ==> r[j].0 == t[j].0 && r[j].1 == (if t[j].0 == k then v else t[j].1)
  {
    seq(|t|, j requires 0 <= j < |t| => if t[j].0 == k then (k, v) else t[j])
  }

  /** `df.loc[k] = v`: overwrite the row named k, or append it at the bottom when the frame has none. */
  function SetRow(t: Table, k: string, v: seq<real>): Table
  {
    if HasRow(t, k) then Replace(t, k, v) else t + [(k, v)]
  }

  /** `df.index = df.index.astype(str).str.strip()`. */
  function StripNames(t: Table): (r: Table)
    ensures |r| == |t| && forall j :: 0 <= j < |t| ==> r[j] == (Trim(t[j].0), t[j].1)
  {
    seq(|t|, j requires 0 <= j < |t| => (Trim(t[j].0), t[j].1))
  }

  lemma {:induction false} DropRowsHas(t: Table, names: set<string>, k: string)
    ensures HasRow(DropRows(t, names), k) <==> HasRow(t, k) && k !in names
  {
    if t != [] {
      DropRowsHas(t[1..], names, k);
      var head: Table := if t[0].0 in names then [] else [t[0]];
      var r := DropRows(t[1..], names);
      if HasRow(head + r, k) {
        var j :| 0 <= j < |head + r| && (head + r)[j].0 == k;
        if j >= |head| {
          assert r[j - |head|].0 == k;
        }
      }
      if HasRow(t, k) && k !in names {
        var j :| 0 <= j < |t| && t[j].0 == k;
        if j == 0 {
          assert (head + r)[0].0 == k;
        } else {
          assert t[1..][j - 1].0 == k;
          var m :| 0 <= m < |r| && r[m].0 == k;
          assert (head + r)[|head| + m].0 == k;
        }
      }
      if HasRow(t[1..], k) {
        var j :| 0 <= j < |t[1..]| && t[1..][j].0 == k;
        assert t[j + 1].0 == k;
      }
    }
  }

  lemma {:induction false} DropRowsDistinct(t: Table, names: set<string>)
    requires DistinctRows(t)
    ensures DistinctRows(DropRows(t, names))
  {
    if t != [] {
      assert DistinctRows(t[1..]) by {
        forall a, b | 0 <= a < b < |t[1..]| ensures t[1..][a].0 != t[1..][b].0 {
          assert t[1..][a] == t[a + 1] && t[1..][b] == t[b + 1];
        }
      }
      DropRowsDistinct(t[1..], names);
      var r := DropRows(t[1..], names);
      if t[0].0 !in names {
        DropRowsHas(t[1..], names, t[0].0);
        assert !HasRow(t[1..], t[0].0) by {
          forall j | 0 <= j < |t[1..]| ensures t[1..][j].0 != t[0].0 {
            assert t[1..][j] == t[j + 1];
          }
        }
        forall a, b | 0 <= a < b < |[t[0]] + r| ensures ([t[0]] + r)[a].0 != ([t[0]] + r)[b].0 {
          if a == 0 {
            assert ([t[0]] + r)[b] == r[b - 1];
          } else {
            assert ([t[0]] + r)[a] == r[a - 1] && ([t[0]] + r)[b] == r[b - 1];
          }
        }
      }
    }
  }

  /** The rows kept are exactly the rows of t whose names are not listed. */
  lemma {:induction false} DropRowsMembers(t: Table, names: set<string>, row: (string, seq<real>))
    ensures row in DropRows(t, names) <==> row in t && row.0 !in names
  {
    if t != [] {
      DropRowsMembers(t[1..], names, row);
      assert t == [t[0]] + t[1..];
    }
  }

  lemma DropRowsWidth(t: Table, names: set<string>, w: nat)
    requires HasWidth(t, w)
    ensures HasWidth(DropRows(t, names), w)
  {
    forall j | 0 <= j < |DropRows(t, names)| ensures |DropRows(t, names)[j].1| == w {
      DropRowsMembers(t, names, DropRows(t, names)[j]);
    }
  }

  lemma {:induction false} DropRowsSnoc(t: Table, row: (string, seq<real>), names: set<string>)
    ensures DropRows(t + [row], names) == DropRows(t, names) + (if row.0 in names then [] else [row])
  {
    if t == [] {
      assert [row][1..] == [];
    } else {
      assert (t + [row])[1..] == t[1..] + [row];
      DropRowsSnoc(t[1..], row, names);
    }
  }

  /** Listing a name no row has changes nothing. */
  lemma {:induction false} DropRowsIgnoresAbsent(t: Table, names: set<string>, k: string)
    requires !HasRow(t, k)
    ensures DropRows(t, names + {k}) == DropRows(t, names)
  {
    if t != [] {
      assert !HasRow(t[1..], k) by {
        forall j | 0 <= j < |t[1..]| ensures t[1..][j].0 != k {
          assert t[1..][j] == t[j + 1];
        }
      }
      DropRowsIgnoresAbsent(t[1..], names, k);
    }
  }

  lemma {:induction false} DropRowsReplace(t: Table, k: string, v: seq<real>, names: set<string>)
    requires k in names
    ensures DropRows(Replace(t, k, v), names) == DropRows(t, names)
  {
    if t != [] {
      assert Replace(t, k, v)[1..] == Replace(t[1..], k, v);
      DropRowsReplace(t[1..], k, v, names);
    }
  }

  /** Assigning a row and then dropping it is dropping it. */
  lemma DropSetRowListed(t: Table, k: string, v: seq<real>, names: set<string>)
    requires k in names
    ensures DropRows(SetRow(t, k, v), names) == DropRows(t, names)
  {
    if HasRow(t, k) {
      DropRowsReplace(t, k, v, names);
    } else {
      DropRowsSnoc(t, (k, v), names);
    }
  }

  /** A row assigned under a new name that is not dropped ends the dropped frame. */
  lemma DropSetRowNew(t: Table, k: string, v: seq<real>, names: set<string>)
    requires k !in names && !HasRow(t, k)
    ensures DropRows(SetRow(t, k, v), names) == DropRows(t, names) + [(k, v)]
  {
    DropRowsSnoc(t, (k, v), names);
  }

  lemma {:induction false} RowValueReplace(t: Table, k: string, v: seq<real>, n: string)
    requires HasRow(t, k)
    ensures RowValue(Replace(t, k, v), n) == if n == k then v else RowValue(t, n)
  {
    var r := Replace(t, k, v);
    assert r[1..] == Replace(t[1..], k, v);
    if t[0].0 != k {
      assert HasRow(t[1..], k) by {
        var j :| 0 <= j < |t| && t[j].0 == k;
        assert t[1..][j - 1].0 == k;
      }
      RowValueReplace(t[1..], k, v, n);
    } else if t[0].0 != n && HasRow(t[1..], k) {
      RowValueReplace(t[1..], k, v, n);
    } else if t[0].0 != n {
      RowValueUnnamed(t[1..], k, v, n);
    }
  }

  lemma {:induction false} RowValueUnnamed(t: Table, k: string, v: seq<real>, n: string)
    requires !HasRow(t, k) && n != k
    ensures RowValue(Replace(t, k, v), n) == RowValue(t, n)
  {
    if t != [] {
      assert Replace(t, k, v)[1..] == Replace(t[1..], k, v);
      assert !HasRow(t[1..], k) by {
        forall j | 0 <= j < |t[1..]| ensures t[1..][j].0 != k {
          assert t[1..][j] == t[j + 1];
        }
      }
      RowValueUnnamed(t[1..], k, v, n);
    }
  }

  lemma {:induction false} RowValueAppend(a: Table, b: Table, k: string)
    ensures RowValue(a + b, k) == if HasRow(a, k) then RowValue(a, k) else RowValue(b, k)
  {
    if a == [] {
      assert a + b == b;
    } else {
      assert (a + b)[1..] == a[1..] + b;
      RowValueAppend(a[1..], b, k);
      if a[0].0 != k && HasRow(a, k) {
        var j :| 0 <= j < |a| && a[j].0 == k;
        assert a[1..][j - 1].0 == k;
      }
      if HasRow(a[1..], k) {
        var j :| 0 <= j < |a[1..]| && a[1..][j].0 == k;
        assert a[j + 1].0 == k;
      }
    }
  }

  /** `.loc[n]` after `.loc[k] = v`: v under k, the old row under any other name. */
  lemma RowValueSet(t: Table, k: string, v: seq<real>, n: string)
    ensures RowValue(SetRow(t, k, v), n) == if n == k then v else RowValue(t, n)
  {
    if HasRow(t, k) {
      RowValueReplace(t, k, v, n);
    } else {
      RowValueAppend(t, [(k, v)], n);
      if n != k {
        assert RowValue(t, n) == [] || HasRow(t, n) by {
          RowValueFound(t, n);
        }
      }
    }
  }

  /** A name with a non-empty row is present. */
  lemma {:induction false} RowValueFound(t: Table, n: string)
    ensures RowValue(t, n) != [] ==> HasRow(t, n)
  {
    if t != [] && t[0].0 != n {
      RowValueFound(t[1..], n);
      if RowValue(t, n) != [] {
        var j :| 0 <= j < |t[1..]| && t[1..][j].0 == n;
        assert t[j + 1].0 == n;
      }
    }
  }

  lemma {:induction false} RowValueDrop(t: Table, names: set<string>, k: string)
    requires k !in names
    ensures RowValue(DropRows(t, names), k) == RowValue(t, k)
  {
    if t != [] {
      RowValueDrop(t[1..], names, k);
      if t[0].0 !in names {
        assert ([t[0]] + DropRows(t[1..], names))[1..] == DropRows(t[1..], names);
      } else {
        assert DropRows(t, names) == DropRows(t[1..], names);
      }
    }
  }

  /** In a frame with unique names, `.loc` of a row's own name gives that row. */
  lemma {:induction false} RowValueAt(t: Table, j: nat)
    requires DistinctRows(t) && j < |t|
    ensures RowValue(t, t[j].0) == t[j].1
  {
    if j > 0 {
      assert DistinctRows(t[1..]) by {
        forall a, b | 0 <= a < b < |t[1..]| ensures t[1..][a].0 != t[1..][b].0 {
          assert t[1..][a] == t[a + 1] && t[1..][b] == t[b + 1];
        }
      }
      RowValueAt(t[1..], j - 1);
    }
  }

  lemma SetRowHas(t: Table, k: string, v: seq<real>, n: string)
    ensures HasRow(SetRow(t, k, v), n) <==> HasRow(t, n) || n == k
  {
    var r := SetRow(t, k, v);
    if HasRow(t, k) {
      if n == k {
        var j :| 0 <= j < |t| && t[j].0 == k;
        assert r[j].0 == k;
      }
      if HasRow(t, n) {
        var j :| 0 <= j < |t| && t[j].0 == n;
        assert r[j].0 == n;
      }
    } else {
      assert r[|t|].0 == k;
      if HasRow(t, n) {
        var j :| 0 <= j < |t| && t[j].0 == n;
        assert r[j].0 == n;
      }
    }
  }

  lemma SetRowDistinct(t: Table, k: string, v: seq<real>)
    requires DistinctRows(t)
    ensures DistinctRows(SetRow(t, k, v))
  {
  }

  lemma SetRowWidth(t: Table, k: string, v: seq<real>, w: nat)
    requires HasWidth(t, w) && |v| == w
    ensures HasWidth(SetRow(t, k, v), w)
  {
  }

  lemma HasRowAppend(a: Table, b: Table, k: string)
    ensures HasRow(a + b, k) <==> HasRow(a, k) || HasRow(b, k)
  {
    if HasRow(a + b, k) {
      var j :| 0 <= j < |a + b| && (a + b)[j].0 == k;
      if j >= |a| {
        assert b[j - |a|].0 == k;
      }
    }
    if HasRow(b, k) {
      var j :| 0 <= j < |b| && b[j].0 == k;
      assert (a + b)[|a| + j].0 == k;
    }
    if HasRow(a, k) {
      var j :| 0 <= j < |a| && a[j].0 == k;
      assert (a + b)[j].0 == k;
    }
  }

  /** Two frames with unique names and no name in common make a frame with unique names. */
  lemma DistinctAppend(a: Table, b: Table)
    requires DistinctRows(a) && DistinctRows(b)
    requires forall j :: 0 <= j < |b| ==> !HasRow(a, b[j].0)
    ensures DistinctRows(a + b)
  {
    forall x, y | 0 <= x < y < |a + b| ensures (a + b)[x].0 != (a + b)[y].0 {
      if x < |a| && y >= |a| {
        assert (a + b)[y] == b[y - |a|];
        assert !HasRow(a, b[y - |a|].0);
      } else if x >= |a| {
        assert (a + b)[x] == b[x - |a|] && (a + b)[y] == b[y - |a|];
      }
    }
  }

  lemma {:induction false} ColumnTotalSnoc(t: Table, row: (string, seq<real>), i: nat)
    ensures ColumnTotal(t + [row], i) == ColumnTotal(t, i) + Cell(row.1, i)
  {
    assert Column(t + [row], i) == Column(t, i) + [(row.0, Cell(row.1, i))];
    TotalSnoc(Column(t, i), (row.0, Cell(row.1, i)));
  }

  lemma StripNamesHas(t: Table, k: string)
    ensures HasRow(StripNames(t), k) <==> exists j :: 0 <= j < |t| && Trim(t[j].0) == k
  {
    if HasRow(StripNames(t), k) {
      var j :| 0 <= j < |t| && StripNames(t)[j].0 == k;
      assert Trim(t[j].0) == k;
    }
  }

  lemma StripNamesOfStripped(t: Table)
    requires forall j :: 0 <= j < |t| ==> Trim(t[j].0) == t[j].0
    ensures StripNames(t) == t
  {
  }
}

/**
 * The expense page: a session list of expenses with add / edit / cancel /
 * delete / clear-all, the submission check of the expense form, and the
 * projection of the expenses over the horizon, grouped by trimmed name and
 * compounded with inflation.
 */
module Expenses {
  import opened Common
  import opened Ledger

  /** The categories the expense form offers. */
  const Categories: seq<string> := ["Operacional", "RH", "Administrativa", "Extra Operacional", "Dividendos", "Impostos"]

  datatype Expense = Expense(name: string, amount: real, category: string)

  /** The form refuses a submission with an empty name or a non-positive amount. */
  predicate Rejected(name: string, amount: real)
  {
    name == [] || amount <= 0.0
  }

  /** What the form widgets let through: an offered category and no negative amount. */
  predicate AcceptedByForm(amount: real, category: string)
  {
    amount >= 0.0 && category in Categories
  }

  /** The record a successful submission stores: the name is trimmed, the rest kept. */
  function Submitted(name: string, amount: real, category: string): (e: Expense)
    ensures e.name == Trim(name) && e.amount == amount && e.category == category
    ensures e.name == Trim(e.name) && |e.name| <= |name|
  {
    TrimIdempotent(name);
    Expense(Trim(name), amount, category)
  }

  /**
   * The check is made on the name as typed, and the stored name is the trimmed
   * one: a name made only of blanks is accepted and stored empty.
   */
  lemma BlankNameStoredEmpty(name: string, amount: real, category: string)
    requires name != [] && forall k :: 0 <= k < |name| ==> IsSpace(name[k])
    requires amount > 0.0
    ensures !Rejected(name, amount)
    ensures Submitted(name, amount, category).name == []
  {
    TrimAllBlank(name);
  }

  /** `list.pop(i)`: entry i is gone and the others keep their order. */
  function RemoveAt(s: seq<Expense>, i: nat): (r: seq<Expense>)
    requires i < |s|
    ensures |r| == |s| - 1
    ensures forall j :: 0 <= j < i ==> r[j] == s[j]
    ensures forall j :: i <= j < |r| ==> r[j] == s[j + 1]
  {
    s[..i] + s[i + 1..]
  }

  /** The expenses as (trimmed name, amount) entries, the key the projection groups on. */
  function ByName(es: seq<Expense>): (r: seq<Entry>)
    ensures |r| == |es| && forall j :: 0 <= j < |es| ==> r[j] == (Trim(es[j].name), es[j].amount)
  {
    seq(|es|, j requires 0 <= j < |es| => (Trim(es[j].name), es[j].amount))
  }

  /** A grouped amount carried over the horizon: year i is the amount times that year's factor. */
  function Compounded(amount: real, factors: seq<real>): (v: seq<real>)
    requires |factors| == Horizon
    ensures |v| == Horizon && forall i :: 0 <= i < Horizon ==> v[i] == amount * factors[i]
  {
    [amount * factors[0], amount * factors[1], amount * factors[2], amount * factors[3], amount * factors[4]]
  }

  /** Grouped entries, each carried over the horizon with the yearly factors. */
  function Compound(g: seq<Entry>, factors: seq<real>): (t: Table)
    requires |factors| == Horizon
    ensures |t| == |g| && HasWidth(t, Horizon)
    ensures forall j :: 0 <= j < |g| ==> t[j] == (g[j].0, Compounded(g[j].1, factors))
  {
    seq(|g|, j requires 0 <= j < |g| => (g[j].0, Compounded(g[j].1, factors)))
  }

  /** Year i of the compounded frame totals the grouped amounts times that year's factor. */
  lemma CompoundTotal(g: seq<Entry>, factors: seq<real>, i: nat)
    requires |factors| == Horizon && i < Horizon
    ensures ColumnTotal(Compound(g, factors), i) == Total(g) * factors[i]
  {
    var t := Compound(g, factors);
    forall j | 0 <= j < |t| ensures Cell(t[j].1, i) == g[j].1 * factors[i] {
    }
    ScaledColumnTotal(g, t, i, factors[i]);
  }

  /**
   * The projected expense flow: one row per trimmed name, the amounts summed,
   * and year i multiplied by the product of (1 + rate/100) over years 0..i.
   */
  function Projection(es: seq<Expense>, inflation: seq<real>): (t: Table)
    requires |inflation| >= Horizon
    ensures HasWidth(t, Horizon)
  {
    Compound(Group(ByName(es)), Factors(inflation))
  }

  /** Compounding a grouping keeps its keys: one row per name of the entries, each name once. */
  lemma CompoundRows(named: seq<Entry>, factors: seq<real>, k: string)
    requires |factors| == Horizon
    ensures DistinctRows(Compound(Group(named), factors))
    ensures HasRow(Compound(Group(named), factors), k) <==> HasName(named, k)
  {
    var t, g := Compound(Group(named), factors), Group(named);
    GroupNames(named, k);
    if HasRow(t, k) {
      var j :| 0 <= j < |t| && t[j].0 == k;
      assert g[j].0 == k;
    }
    if HasName(g, k) {
      var j :| 0 <= j < |g| && g[j].0 == k;
      assert t[j].0 == k;
    }
  }

  /** Each row of the projection is a distinct trimmed name of some expense, and every such name has a row. */
  lemma ProjectionRows(es: seq<Expense>, inflation: seq<real>, k: string)
    requires |inflation| >= Horizon
    ensures DistinctRows(Projection(es, inflation))
    ensures HasRow(Projection(es, inflation), k) <==> exists j :: 0 <= j < |es| && Trim(es[j].name) == k
  {
    var named := ByName(es);
    CompoundRows(named, Factors(inflation), k);
    if HasName(named, k) {
      var m :| 0 <= m < |named| && named[m].0 == k;
      assert Trim(es[m].name) == k;
    }
    if exists j :: 0 <= j < |es| && Trim(es[j].name) == k {
      var m :| 0 <= m < |es| && Trim(es[m].name) == k;
      assert named[m].0 == k;
    }
  }

  /** Row j of a compounded grouping, in year i, is the sum filed under its name times the year's factor. */
  lemma GroupedCompoundCell(named: seq<Entry>, g: seq<Entry>, factors: seq<real>, t: Table, f: real, j: nat, i: nat)
    requires |factors| == Horizon && i < Horizon && t == Compound(g, factors) && j < |t|
    requires g[j].1 == SumFor(named, g[j].0) && factors[i] == f
    ensures t[j].1[i] == Inflated(SumFor(named, t[j].0), f)
  {
    ScaleEqual(t[j].1[i], g[j].1, SumFor(named, t[j].0), factors[i], f);
  }

  /** The row of a name holds, in year i, the sum of every amount filed under that trimmed name, compounded through year i. */
  lemma ProjectionCell(es: seq<Expense>, inflation: seq<real>, j: nat, i: nat)
    requires |inflation| >= Horizon && i < Horizon
    requires j < |Projection(es, inflation)|
    ensures Projection(es, inflation)[j].1[i] == Inflated(SumFor(ByName(es), Projection(es, inflation)[j].0), Factor(inflation, i))
  {
    var g := Group(ByName(es));
    GroupLookup(ByName(es), g[j].0);
    LookupDistinct(g, j);
    GroupedCompoundCell(ByName(es), g, Factors(inflation), Projection(es, inflation), Factor(inflation, i), j, i);
  }

  /** Compounding a grouping of the entries keeps the year's total: every amount, times the year's factor. */
  lemma GroupedCompoundTotal(named: seq<Entry>, g: seq<Entry>, factors: seq<real>, t: Table, f: real, i: nat)
    requires |factors| == Horizon && i < Horizon && t == Compound(g, factors)
    requires Total(g) == Total(named) && factors[i] == f
    ensures ColumnTotal(t, i) == Inflated(Total(named), f)
  {
    CompoundTotal(g, factors, i);
    ScaleEqual(ColumnTotal(t, i), Total(g), Total(named), factors[i], f);
  }

  /** Year i of the whole projection adds up to all the amounts registered, compounded through year i. */
  lemma ProjectionTotal(es: seq<Expense>, inflation: seq<real>, i: nat)
    requires |inflation| >= Horizon && i < Horizon
    ensures ColumnTotal(Projection(es, inflation), i) == Inflated(Total(ByName(es)), Factor(inflation, i))
  {
    GroupConserves(ByName(es));
    GroupedCompoundTotal(ByName(es), Group(ByName(es)), Factors(inflation), Projection(es, inflation), Factor(inflation, i), i);
  }

  /**
   * The expense session: the list of expenses, the index of the expense being
   * edited (None outside edit mode) and the projected flow handed to the
   * cash-flow page (the key may be absent, or hold None after "clear all").
   */
  class ExpenseSession {
    var expenses: seq<Expense>
    var editing: Option<nat>
    var flow: Slot<Table>

    ghost predicate Valid()
      reads this
    {
      EditInRange(expenses, editing)
    }

    /** The page start: no expenses, not editing, no flow yet. */
    constructor ()
      ensures Valid() && expenses == [] && editing == None && flow == Absent
    {
      expenses := [];
      editing := None;
      flow := Absent;
    }

    /** The "Edit" button of entry i. */
    method StartEdit(i: nat)
      requires Valid() && i < |expenses|
      modifies this
      ensures Valid() && editing == Some(i)
      ensures expenses == old(expenses) && flow == old(flow)
    {
      editing := Some(i);
    }

    /**
     * Submitting the form: a rejected submission changes nothing; otherwise
     * the entry being edited is replaced (and edit mode ends), or the new
     * expense is appended.
     */
    method Submit(name: string, amount: real, category: string) returns (accepted: bool)
      requires Valid() && AcceptedByForm(amount, category)
      modifies this
      ensures Valid() && flow == old(flow)
      ensures accepted <==> !Rejected(name, amount)
      ensures !accepted ==> expenses == old(expenses) && editing == old(editing)
      ensures accepted && old(editing).None? ==>
                expenses == old(expenses) + [Submitted(name, amount, category)] && editing == None
      ensures accepted && old(editing).Some? ==>
                expenses == old(expenses)[old(editing).value := Submitted(name, amount, category)] && editing == None
    {
      if Rejected(name, amount) {
        accepted := false;
      } else {
        var record := Submitted(name, amount, category);
        if editing.Some? {
          expenses := expenses[editing.value := record];
          editing := None;
        } else {
          expenses := expenses + [record];
        }
        accepted := true;
      }
    }

    /** "Cancel edit": leaves edit mode and nothing else. */
    method CancelEdit()
      requires Valid()
      modifies this
      ensures Valid() && editing == None
      ensures expenses == old(expenses) && flow == old(flow)
    {
      editing := None;
    }

    /**
     * The "Delete" button of entry i. The entry being edited, if it is not
     * the one deleted, stays the one being edited.
     */
    method Delete(i: nat)
      requires Valid() && i < |expenses|
      modifies this
      ensures Valid() && flow == old(flow)
      ensures expenses == RemoveAt(old(expenses), i)
      ensures editing == DeleteFollowsEdit(old(editing), i)
      ensures editing.Some? ==> expenses[editing.value] == old(expenses)[old(editing).value]
    {
      expenses := RemoveAt(expenses, i);
      editing := DeleteFollowsEdit(editing, i);
    }

    /**
     * The "Delete" button as the page writes it: `pop(i)`, with the edit index
     * left as it was. The session stays valid exactly when no expense was being
     * edited or the one being edited was not the last.
     */
    method DeleteAsWritten(i: nat)
      requires Valid() && i < |expenses|
      modifies this
      ensures expenses == RemoveAt(old(expenses), i) && editing == old(editing) && flow == old(flow)
      ensures Valid() <==> old(editing).None? || old(editing).value + 1 < |old(expenses)|
    {
      expenses := RemoveAt(expenses, i);
    }

    /** The projection step of the page: with no expense registered nothing is stored. */
    method RefreshFlow(inflation: seq<real>)
      requires Valid() && |inflation| >= Horizon
      modifies this
      ensures Valid() && expenses == old(expenses) && editing == old(editing)
      ensures flow == if expenses == [] then old(flow) else Holds(Projection(expenses, inflation))
    {
      if expenses != [] {
        flow := Holds(Projection(expenses, inflation));
      }
    }

    /** "Clear all": no expenses, the flow set to None, edit mode left. */
    method ClearAll()
      modifies this
      ensures Valid() && expenses == [] && flow == Null && editing == None
    {
      expenses := [];
      flow := Null;
      editing := None;
    }
  }

  /** The edit index, when there is one, points into the list: the page reads that entry on every render. */
  predicate EditInRange(expenses: seq<Expense>, editing: Option<nat>)
  {
    editing.Some? ==> editing.value < |expenses|
  }

  /** Where the edit index goes when entry i is deleted: cleared if it was i, one down if it was past i. */
  function DeleteFollowsEdit(editing: Option<nat>, i: nat): (r: Option<nat>)
    ensures editing.None? || editing == Some(i) ==> r.None?
    ensures editing.Some? && editing.value < i ==> r == editing
    ensures editing.Some? && editing.value > i ==> r == Some(editing.value - 1)
  {
    match editing
    case None => None
    case Some(k) => if k == i then None else if k > i then Some(k - 1) else Some(k)
  }

  /**
   * The page as written deletes with `pop(i)` and leaves the edit index as it
   * was. The index then stays in range only when the expense being edited was
   * not the last one: deleting the first of two expenses while the second is
   * being edited leaves an index past the end of the list, which the next
   * render uses to read the expense being edited. The corrected index always
   * stays in range.
   */
  lemma DeleteAsWrittenLeavesStaleIndex(expenses: seq<Expense>, j: nat, i: nat)
    requires EditInRange(expenses, Some(j)) && i < |expenses|
    ensures EditInRange(RemoveAt(expenses, i), Some(j)) <==> j + 1 < |expenses|
    ensures EditInRange(RemoveAt(expenses, i), DeleteFollowsEdit(Some(j), i))
    ensures |expenses| == 2 && j == 1 && i == 0 ==> !EditInRange(RemoveAt(expenses, i), Some(j))
  {
  }

  /**
   * When the index does stay in range after deleting the expense being edited
   * or one before it, it points at the next expense: edit mode silently moves
   * to a different expense, where the corrected index keeps the one being
   * edited, or leaves edit mode when that one is deleted.
   */
  lemma DeleteAsWrittenRetargetsEdit(expenses: seq<Expense>, j: nat, i: nat)
    requires i <= j && j + 1 < |expenses|
    requires expenses[j] != expenses[j + 1]
    ensures RemoveAt(expenses, i)[j] == expenses[j + 1] && RemoveAt(expenses, i)[j] != expenses[j]
    ensures i < j ==> DeleteFollowsEdit(Some(j), i) == Some(j - 1) && RemoveAt(expenses, i)[j - 1] == expenses[j]
    ensures i == j ==> DeleteFollowsEdit(Some(j), i) == None
  {
  }
}

/**
 * The planting registry: a session dict from an 8-character id to a planting,
 * kept in registration order, with the register / edit / delete / clear
 * operations of the planting page.
 */
module Plantings {
  import opened Common

  /** The crops the registration form offers. */
  const Crops: seq<string> := ["Soja", "Arroz", "Trigo", "Outros"]

  const FirstYear: int := 2000
  const LastYear: int := 2100

  datatype Planting = Planting(year: int, crop: string, hectares: real, yieldPerHectare: real, pricePerSack: real)

  /** Gross value of one planting: area × sacks per hectare × price per sack. */
  function GrossValue(p: Planting): real
  {
    p.hectares * p.yieldPerHectare * p.pricePerSack
  }

  /** What the registration form lets through: a year in range, an offered crop, no negative amount. */
  predicate AcceptedByForm(year: int, crop: string, hectares: real, yieldPerHectare: real, pricePerSack: real)
  {
    FirstYear <= year <= LastYear && crop in Crops
    && hectares >= 0.0 && yieldPerHectare >= 0.0 && pricePerSack >= 0.0
  }

  /** No planting has any area. */
  predicate NoArea(ps: seq<Planting>)
  {
    forall j :: 0 <= j < |ps| ==> ps[j].hectares == 0.0
  }

  /** Every planting lacks either area or yield. */
  predicate NoHarvest(ps: seq<Planting>)
  {
    forall j :: 0 <= j < |ps| ==> ps[j].hectares == 0.0 || ps[j].yieldPerHectare == 0.0
  }

  /** Total planted area. */
  function TotalHectares(ps: seq<Planting>): (r: real)
    ensures NoArea(ps) ==> r == 0.0
  {
    if ps == [] then 0.0 else TotalHectares(ps[..|ps| - 1]) + ps[|ps| - 1].hectares
  }

  /** Total sacks harvested: the sum of yield × area. */
  function TotalSacks(ps: seq<Planting>): (r: real)
    ensures NoHarvest(ps) ==> r == 0.0
  {
    if ps == [] then 0.0 else TotalSacks(ps[..|ps| - 1]) + ps[|ps| - 1].yieldPerHectare * ps[|ps| - 1].hectares
  }

  /** Base-year value of the harvest: the sum of price × yield × area. */
  function TotalValue(ps: seq<Planting>): (r: real)
    ensures NoArea(ps) ==> r == 0.0
  {
    if ps == [] then 0.0 else TotalValue(ps[..|ps| - 1]) + GrossValue(ps[|ps| - 1])
  }

  /**
   * The accumulation loop both the cash-flow page and the indicators page run
   * over the registered plantings.
   */
  method AccumulateTotals(ps: seq<Planting>) returns (hectares: real, sacks: real, value: real)
    ensures hectares == TotalHectares(ps) && sacks == TotalSacks(ps) && value == TotalValue(ps)
  {
    hectares, sacks, value := 0.0, 0.0, 0.0;
    for k := 0 to |ps|
      invariant hectares == TotalHectares(ps[..k])
      invariant sacks == TotalSacks(ps[..k])
      invariant value == TotalValue(ps[..k])
    {
      var p := ps[k];
      assert ps[..k + 1][..k] == ps[..k];
      hectares := hectares + p.hectares;
      sacks := sacks + p.yieldPerHectare * p.hectares;
      value := value + p.pricePerSack * p.yieldPerHectare * p.hectares;
    }
    assert ps[..|ps|] == ps;
  }

  /** With nothing negative registered, no total is negative. */
  lemma {:induction false} TotalsNonNegative(ps: seq<Planting>)
    requires forall j :: 0 <= j < |ps| ==> ps[j].hectares >= 0.0 && ps[j].yieldPerHectare >= 0.0 && ps[j].pricePerSack >= 0.0
    ensures TotalHectares(ps) >= 0.0 && TotalSacks(ps) >= 0.0 && TotalValue(ps) >= 0.0
  {
    if ps != [] {
      var p := ps[|ps| - 1];
      TotalsNonNegative(ps[..|ps| - 1]);
      assert p.yieldPerHectare * p.hectares >= 0.0;
      assert GrossValue(p) >= 0.0 by {
        assert p.hectares * p.yieldPerHectare >= 0.0;
      }
    }
  }

  /** The ids left after `del plantios[id]`, in their order. */
  function RemoveId(ids: seq<string>, id: string): (r: seq<string>)
    ensures |r| <= |ids|
    ensures forall x :: x in r <==> x in ids && x != id
  {
    if ids == [] then []
    else if ids[0] == id then RemoveId(ids[1..], id)
    else [ids[0]] + RemoveId(ids[1..], id)
  }

  predicate DistinctIds(ids: seq<string>)
  {
    forall i, j :: 0 <= i < j < |ids| ==> ids[i] != ids[j]
  }

  lemma {:induction false} RemoveIdDistinct(ids: seq<string>, id: string)
    requires DistinctIds(ids)
    ensures DistinctIds(RemoveId(ids, id))
  {
    if ids != [] {
      assert DistinctIds(ids[1..]) by {
        forall i, j | 0 <= i < j < |ids[1..]| ensures ids[1..][i] != ids[1..][j] {
          assert ids[1..][i] == ids[i + 1] && ids[1..][j] == ids[j + 1];
        }
      }
      RemoveIdDistinct(ids[1..], id);
      if ids[0] != id {
        assert ids[0] !in ids[1..];
        var r := RemoveId(ids[1..], id);
        assert ids[0] !in r;
        assert forall j :: 0 <= j < |r| ==> ([ids[0]] + r)[j + 1] == r[j];
      }
    }
  }

  /** Deleting a planting just registered gives back the ids as they were. */
  lemma {:induction false} RegisterThenDelete(ids: seq<string>, id: string)
    requires id !in ids
    ensures RemoveId(ids + [id], id) == ids
  {
    if ids != [] {
      assert (ids + [id])[1..] == ids[1..] + [id];
      RegisterThenDelete(ids[1..], id);
    } else {
      assert RemoveId([id], id) == RemoveId([], id);
    }
  }

  class PlantingRegistry {
    /** Ids in registration order (the dict's insertion order). */
    var ids: seq<string>
    var records: map<string, Planting>

    ghost predicate Valid()
      reads this
    {
      DistinctIds(ids) && forall id :: id in records <==> id in ids
    }

    /** `plantios.values()`, in registration order. */
    function Values(): (ps: seq<Planting>)
      reads this
      requires Valid()
      ensures |ps| == |ids| && forall j :: 0 <= j < |ids| ==> ps[j] == records[ids[j]]
    {
      seq(|ids|, j requires 0 <= j < |ids| && ids[j] in records reads this => records[ids[j]])
    }

    /** `plantios.items()`, in registration order. */
    function Entries(): (es: seq<(string, Planting)>)
      reads this
      requires Valid()
      ensures |es| == |ids| && forall j :: 0 <= j < |ids| ==> es[j] == (ids[j], records[ids[j]])
    {
      seq(|ids|, j requires 0 <= j < |ids| && ids[j] in records reads this => (ids[j], records[ids[j]]))
    }

    /** A fresh, empty registry. */
    constructor Empty()
      ensures Valid() && ids == [] && records == map[]
    {
      ids := [];
      records := map[];
    }

    /** The page start: reuse the session's registry, or create an empty one when the key is absent. */
    static method Open(existing: PlantingRegistry?) returns (r: PlantingRegistry)
      ensures existing != null ==> r == existing
      ensures existing == null ==> fresh(r) && r.Valid() && r.ids == [] && r.records == map[]
    {
      if existing != null {
        r := existing;
      } else {
        r := new PlantingRegistry.Empty();
      }
    }

    /** Submitting the registration form under a new id. */
    method Register(id: string, year: int, crop: string, hectares: real, yieldPerHectare: real, pricePerSack: real)
      requires Valid() && id !in records
      requires AcceptedByForm(year, crop, hectares, yieldPerHectare, pricePerSack)
      modifies this
      ensures Valid()
      ensures ids == old(ids) + [id]
      ensures records == old(records)[id := Planting(year, crop, hectares, yieldPerHectare, pricePerSack)]
    {
      ids := ids + [id];
      records := records[id := Planting(year, crop, hectares, yieldPerHectare, pricePerSack)];
    }

    /**
     * Saving an edited planting: the year is kept and the other four fields
     * are replaced. The edit inputs have no lower bound, so negative amounts
     * are accepted here.
     */
    method SaveEdit(id: string, crop: string, hectares: real, yieldPerHectare: real, pricePerSack: real)
      requires Valid() && id in records && crop in Crops
      modifies this
      ensures Valid() && ids == old(ids)
      ensures records == old(records)[id := Planting(old(records)[id].year, crop, hectares, yieldPerHectare, pricePerSack)]
    {
      records := records[id := Planting(records[id].year, crop, hectares, yieldPerHectare, pricePerSack)];
    }

    /** `del plantios[id]`: the others keep their order. */
    method Delete(id: string)
      requires Valid() && id in records
      modifies this
      ensures Valid()
      ensures records == old(records) - {id} && ids == RemoveId(old(ids), id)
    {
      RemoveIdDistinct(ids, id);
      ids := RemoveId(ids, id);
      records := records - {id};
    }

    /** "Clear all plantings". */
    method ClearAll()
      modifies this
      ensures Valid() && ids == [] && records == map[]
    {
      ids := [];
      records := map[];
    }
  }
}

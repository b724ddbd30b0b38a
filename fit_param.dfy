/**
 * `FitParam`, the lmfit parameter collection every model class extends: the
 * table of parameters, the model's `param_order` and unit symbols, the
 * number of random restarts (`initializations`) and the model it fits.
 */
module FitParams {
  import opened Wrappers
  import opened Parameters
  import opened RateLaws

  /** One row of new settings for `change_all`: `[value, min, max]`. */
  datatype Row = Row(value: real, lo: Ext, hi: Ext)

  /** The first `k` parameters take the value and bounds of the rows; `vary` and names stay. */
  function ApplyRows(table: seq<Param>, rows: seq<Row>, k: nat): (r: seq<Param>)
    requires k <= |table| && k <= |rows|
    ensures |r| == |table|
    ensures Names(r) == Names(table)
  {
    seq(|table|, i requires 0 <= i < |table| =>
      if i < k then table[i].(value := rows[i].value, min := rows[i].lo, max := rows[i].hi) else table[i])
  }

  function Min(a: int, b: int): int { if a <= b then a else b }

  /** The position of `x` in `xs`, as `list.index` finds it. */
  function FirstIndex(xs: seq<string>, x: string): (r: Option<nat>)
    ensures r.Some? ==> r.value < |xs| && xs[r.value] == x && forall k :: 0 <= k < r.value ==> xs[k] != x
    ensures r.None? <==> x !in xs
    decreases |xs|
  {
    if xs == [] then None
    else if xs[0] == x then Some(0)
    else
      match FirstIndex(xs[1..], x)
      case None => None
      case Some(k) => Some(k + 1)
  }

  /** What a unit symbol stands for: `'c'` the concentration unit, `'r'` the rate unit, `''` none. */
  function UnitFor(symbol: string, cunit: string, runit: string): Option<string> {
    if symbol == "c" then Some(cunit)
    else if symbol == "r" then Some(runit)
    else if symbol == "" then Some("")
    else None
  }

  /**
   * `get_units(par, dat_obj)` of a model with `param_order` `order` and unit
   * symbols `units`, for a dataset with concentration unit `cunit` and rate unit
   * `runit`: the symbol at the name's first position is read. A name outside
   * `param_order` raises ValueError, a position beyond the symbols IndexError;
   * an unknown symbol gives `None`.
   */
  function GetUnits(order: seq<string>, units: seq<string>, par: string, cunit: string, runit: string): (r: Result<Option<string>>)
    ensures r == Err(ValueError) <==> par !in order
    ensures r.Ok? ==> exists i :: 0 <= i < |order| && i < |units| && order[i] == par && r.value == UnitFor(units[i], cunit, runit)
    ensures r == Err(IndexError) <==> FirstIndex(order, par).Some? && FirstIndex(order, par).value >= |units|
    ensures r.Ok? ==>
      (&& FirstIndex(order, par).Some? && FirstIndex(order, par).value < |units|
       && r.value == UnitFor(units[FirstIndex(order, par).value], cunit, runit))
  {
    match FirstIndex(order, par)
    case None => Err(ValueError)
    case Some(idx) =>
      if idx >= |units| then Err(IndexError)
      else
        var simbl := units[idx];
        if simbl == "c" then Ok(Some(cunit))
        else if simbl == "r" then Ok(Some(runit))
        else if simbl == "" then Ok(Some(""))
        else Ok(None)
  }

  class FitParam {
    /** The lmfit parameters, in insertion order. */
    var table: seq<Param>
    /** Number of random restarts `find_fit` runs. */
    var initializations: int
    const mech: Mechanism
    const paramOrder: seq<string>
    const units: seq<string>
    const name: string

    /** The table holds exactly the parameters of `param_order`, in that order, and a unit for each. */
    ghost predicate Valid()
      reads this
    {
      Names(table) == paramOrder && DistinctNames(table) && |units| == |paramOrder|
    }

    /** A model class constructed with its default arguments (`MMparams()`, `TCSIparams()`, ...). */
    constructor (m: Mechanism)
      ensures Valid()
      ensures mech == m && table == Defaults(m) && paramOrder == Order(m) && units == Units(m)
      ensures name == Name(m) && initializations == 0
    {
      DefaultsFollowOrder(m);
      mech := m;
      table := Defaults(m);
      paramOrder := Order(m);
      units := Units(m);
      name := Name(m);
      initializations := 0;
    }

    /** `deepcopy(param_object)`: a new object with equal contents. */
    constructor Copy(other: FitParam)
      ensures mech == other.mech && table == other.table && paramOrder == other.paramOrder
      ensures units == other.units && name == other.name && initializations == other.initializations
    {
      mech := other.mech;
      table := other.table;
      paramOrder := other.paramOrder;
      units := other.units;
      name := other.name;
      initializations := other.initializations;
    }

    /** `__int__`: the restart count goes back to zero; the parameters stay. */
    method ResetInitializations()
      modifies this
      ensures initializations == 0 && table == old(table)
    {
      initializations := 0;
    }

    /** `change_value(parameter, new_value)`; a missing name raises KeyError. */
    method ChangeValue(parameter: string, newValue: real) returns (o: Outcome)
      modifies this
      ensures IndexOf(old(table), parameter).None? ==> o == Raised(KeyError) && table == old(table)
      ensures IndexOf(old(table), parameter).Some? ==>
        o == Done && table == old(table)[IndexOf(old(table), parameter).value := old(table)[IndexOf(old(table), parameter).value].(value := newValue)]
      ensures initializations == old(initializations)
    {
      match IndexOf(table, parameter)
      case None =>
        return Raised(KeyError);
      case Some(k) =>
        table := table[k := table[k].(value := newValue)];
        return Done;
    }

    /**
     * `change_all(new_vals)`: the i-th parameter of `param_order`, for i below
     * min(6, |param_order|), takes `new_vals[i]` as value and bounds. Too few
     * rows raise IndexError after the rows there are have been applied.
     */
    method ChangeAll(rows: seq<Row>) returns (o: Outcome)
      requires Valid()
      modifies this
      ensures Valid()
      ensures var n := Min(6, |paramOrder|);
        if |rows| >= n then o == Done && table == ApplyRows(old(table), rows, n)
        else o == Raised(IndexError) && table == ApplyRows(old(table), rows, |rows|)
      ensures initializations == old(initializations)
    {
      var n := Min(6, |paramOrder|);
      var nu := 0;
      while nu < n
        invariant 0 <= nu <= n && nu <= |rows|
        invariant Valid()
        invariant table == ApplyRows(old(table), rows, nu)
        invariant initializations == old(initializations)
      {
        if nu >= |rows| {
          return Raised(IndexError);
        }
        LookupOwnName(table, nu);
        var k := IndexOf(table, paramOrder[nu]).value;
        table := table[k := table[k].(value := rows[nu].value, min := rows[nu].lo, max := rows[nu].hi)];
        nu := nu + 1;
      }
      o := Done;
    }
  }

  /** In an order without repeats, `get_units` of the `i`-th name reads the `i`-th unit symbol. */
  lemma UnitsOfDistinctOrder(order: seq<string>, units: seq<string>, cunit: string, runit: string, i: nat)
    requires i < |order| <= |units|
    requires forall a, b :: 0 <= a < b < |order| ==> order[a] != order[b]
    ensures GetUnits(order, units, order[i], cunit, runit) == Ok(UnitFor(units[i], cunit, runit))
  {
    var r := FirstIndex(order, order[i]);
    assert r.Some? && order[r.value] == order[i];
    assert r == Some(i);
  }

  /** For every model, each parameter's unit is the dataset's concentration or rate unit or `''`, never `None`. */
  lemma ModelUnits(m: Mechanism, cunit: string, runit: string)
    ensures forall i :: 0 <= i < |Order(m)| ==>
      GetUnits(Order(m), Units(m), Order(m)[i], cunit, runit) == Ok(UnitFor(Units(m)[i], cunit, runit))
    ensures forall i :: 0 <= i < |Order(m)| ==> GetUnits(Order(m), Units(m), Order(m)[i], cunit, runit).value.Some?
  {
    DefaultsFollowOrder(m);
    UnitSymbolsKnown(m);
    var order, t := Order(m), Defaults(m);
    forall a, b | 0 <= a < b < |order|
      ensures order[a] != order[b]
    {
      assert order[a] == Names(t)[a] == t[a].name && order[b] == Names(t)[b] == t[b].name;
    }
    forall i | 0 <= i < |order|
      ensures GetUnits(order, Units(m), order[i], cunit, runit) == Ok(UnitFor(Units(m)[i], cunit, runit))
    {
      UnitsOfDistinctOrder(order, Units(m), cunit, runit, i);
    }
  }

  /** The Hill coefficient is dimensionless: its unit is `''`. */
  lemma HillCoefficientUnitless(cunit: string, runit: string)
    ensures GetUnits(Order(HE), Units(HE), "n", cunit, runit) == Ok(Some(""))
  {
    ModelUnits(HE, cunit, runit);
    assert Order(HE)[2] == "n";
  }
}

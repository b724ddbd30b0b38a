/**
 * The fitting side of the windows: `adjustvals`, which turns the fit-setup
 * dialog's boxes into parameter bounds, and the drivers that call `find_fit`
 * on the pooled single-substrate data or once per set of two-substrate data.
 * The dialog's boxes and check boxes arrive as values.
 */
module FitDriver {
  import opened Wrappers
  import opened Parameters
  import opened RateLaws
  import opened FitParams
  import opened DataFitting
  import opened DataStorage

  /** The half-width of the interval a fixed parameter is pinned to. */
  const Margin: real := 0.0000000000001

  /** One group of spin boxes of the setup dialog: value, lower bound, upper bound. */
  datatype Boxes = Boxes(value: real, lo: real, hi: real)

  /** `new_bounds`: an unchecked lower bound becomes -inf and an unchecked upper bound +inf. */
  function BoundRows(boxes: seq<Boxes>, lbSet: bool, ubSet: bool): (rows: seq<Row>)
    ensures |rows| == |boxes|
    ensures forall i :: 0 <= i < |boxes| ==>
      && rows[i].value == boxes[i].value
      && rows[i].lo == (if lbSet then Fin(boxes[i].lo) else NegInf)
      && rows[i].hi == (if ubSet then Fin(boxes[i].hi) else PosInf)
  {
    seq(|boxes|, i requires 0 <= i < |boxes| =>
      Row(boxes[i].value, if lbSet then Fin(boxes[i].lo) else NegInf, if ubSet then Fin(boxes[i].hi) else PosInf))
  }

  /** The margins check: some row that is not fixed has its lower bound at or above its upper bound (`zip` stops at the shorter list). */
  predicate Rejected(rows: seq<Row>, fixed: seq<bool>) {
    exists i :: 0 <= i < |rows| && i < |fixed| && !fixed[i] && !Less(rows[i].lo, rows[i].hi)
  }

  /** A fixed parameter stops varying and is pinned to its value within the margin; any other parameter varies. */
  function Pin(p: Param, fix: bool, v: real): (q: Param)
    ensures q.name == p.name && q.vary == !fix
    ensures fix ==> q.value == v && Less(q.min, Fin(v)) && Less(Fin(v), q.max) && q.min.Fin? && q.max.Fin?
    ensures !fix ==> q == p.(vary := true)
  {
    if fix then p.(vary := false, min := Fin(v - Margin), max := Fin(v + Margin), value := v)
    else p.(vary := true)
  }

  /** The loop over `zip(fixcbs, params, new_bounds)`. */
  function PinAll(table: seq<Param>, rows: seq<Row>, fixed: seq<bool>): (r: seq<Param>)
    ensures |r| == |table| && Names(r) == Names(table)
    ensures forall i :: 0 <= i < |table| ==>
      r[i] == if i < |rows| && i < |fixed| then Pin(table[i], fixed[i], rows[i].value) else table[i]
  {
    seq(|table|, i requires 0 <= i < |table| =>
      if i < |rows| && i < |fixed| then Pin(table[i], fixed[i], rows[i].value) else table[i])
  }

  /** The restart count the dialog leaves: its spin box only when both bounds and random restarts are checked. */
  function Restarts(lbSet: bool, ubSet: bool, inclRand: bool, inicN: int): int {
    if lbSet && ubSet && inclRand then inicN else 0
  }

  /**
   * `adjustvals` once the dialog is accepted. The restart count is set first;
   * a failed margins check then leaves the table as it was; otherwise
   * `change_all` applies the rows (its IndexError escapes) and the fixed
   * parameters are pinned.
   */
  method AdjustVals(p: FitParam, lbSet: bool, ubSet: bool, inclRand: bool, inicN: int, boxes: seq<Boxes>, fixed: seq<bool>)
    returns (o: Outcome, applied: bool)
    requires p.Valid()
    modifies p
    ensures p.Valid()
    ensures p.initializations == Restarts(lbSet, ubSet, inclRand, inicN)
    ensures var rows := BoundRows(boxes, lbSet, ubSet);
      var n := Min(6, |p.paramOrder|);
      if Rejected(rows, fixed) then o == Done && !applied && p.table == old(p.table)
      else if |rows| < n then o == Raised(IndexError) && !applied && p.table == ApplyRows(old(p.table), rows, |rows|)
      else o == Done && applied && p.table == PinAll(ApplyRows(old(p.table), rows, n), rows, fixed)
  {
    p.initializations := Restarts(lbSet, ubSet, inclRand, inicN);
    var rows := BoundRows(boxes, lbSet, ubSet);
    if Rejected(rows, fixed) {
      return Done, false;
    }
    o := p.ChangeAll(rows);
    if o.Raised? {
      return o, false;
    }
    PinFixed(p, rows, fixed);
    applied := true;
  }

  /** The first `k` parameters pinned or set varying, the rest as they were. */
  function PinPrefix(table: seq<Param>, rows: seq<Row>, fixed: seq<bool>, k: nat): (r: seq<Param>)
    ensures |r| == |table|
    ensures forall i :: 0 <= i < |table| ==> r[i].name == table[i].name
  {
    seq(|table|, i requires 0 <= i < |table| =>
      if i < k && i < |rows| && i < |fixed| then Pin(table[i], fixed[i], rows[i].value) else table[i])
  }

  /** The loop that pins the fixed parameters and lets the others vary. */
  method PinFixed(p: FitParam, rows: seq<Row>, fixed: seq<bool>)
    requires p.Valid()
    modifies p
    ensures p.Valid()
    ensures p.table == PinAll(old(p.table), rows, fixed)
    ensures p.initializations == old(p.initializations)
  {
    ghost var start := p.table;
    var k := 0;
    while k < |p.table|
      invariant |p.table| == |start| && 0 <= k <= |start|
      invariant p.initializations == old(p.initializations)
      invariant p.table == PinPrefix(start, rows, fixed, k)
    {
      if k < |rows| && k < |fixed| {
        p.table := p.table[k := Pin(p.table[k], fixed[k], rows[k].value)];
      }
      k := k + 1;
    }
    assert Names(p.table) == Names(start);
  }

  /**
   * After an accepted update every parameter the dialog covers has its lower
   * bound strictly below its upper bound: a free one because the margins check
   * passed, a fixed one because it is pinned within the margin. This holds
   * over exact reals; doubles lose the margin once |value| reaches 1024.
   */
  lemma AcceptedBoundsOrdered(table: seq<Param>, boxes: seq<Boxes>, lbSet: bool, ubSet: bool, fixed: seq<bool>, n: nat)
    requires n <= |table| && n <= |boxes|
    requires !Rejected(BoundRows(boxes, lbSet, ubSet), fixed)
    ensures var rows := BoundRows(boxes, lbSet, ubSet);
      var after := PinAll(ApplyRows(table, rows, n), rows, fixed);
      forall i :: 0 <= i < n && i < |fixed| ==> Less(after[i].min, after[i].max)
  {
    var rows := BoundRows(boxes, lbSet, ubSet);
    var after := PinAll(ApplyRows(table, rows, n), rows, fixed);
    forall i | 0 <= i < n && i < |fixed|
      ensures Less(after[i].min, after[i].max)
    {
      if fixed[i] {
        assert after[i].min == Fin(rows[i].value - Margin);
      } else {
        assert !(!fixed[i] && !Less(rows[i].lo, rows[i].hi));
      }
    }
  }

  /**
   * Random restarts survive an accepted update only together with both bounds,
   * so when the dialog covers the whole table the bounds are finite, which is
   * what drawing random starting points needs.
   */
  lemma RestartsHaveFiniteBounds(table: seq<Param>, boxes: seq<Boxes>, lbSet: bool, ubSet: bool, inclRand: bool,
                                 inicN: int, fixed: seq<bool>)
    requires |table| <= |boxes|
    requires Restarts(lbSet, ubSet, inclRand, inicN) > 0
    ensures var rows := BoundRows(boxes, lbSet, ubSet);
      FiniteBounds(PinAll(ApplyRows(table, rows, |table|), rows, fixed))
  {
  }

  /** `np.hstack` of a replicate list: TypeError on `None`, ValueError on an empty list. */
  function HStack(xs: Option<seq<seq<real>>>): (r: Result<seq<real>>)
    ensures xs.None? ==> r == Err(TypeError)
    ensures xs.Some? && xs.value == [] ==> r == Err(ValueError)
    ensures xs.Some? && xs.value != [] ==> r == Ok(Concat(xs.value))
  {
    match xs
    case None => Err(TypeError)
    case Some(arrays) => if arrays == [] then Err(ValueError) else Ok(Concat(arrays))
  }

  /** Pooling the replicates of valid single-substrate data gives as many concentrations as rates. */
  lemma PooledPointsPair(data: OneSubstrate)
    requires data.Valid() && data.replicates > 0
    ensures |HStack(data.concentrations).value| == |HStack(data.rates).value|
  {
    SameTotal(data.concentrations.value, data.rates.value);
    ConcatLength(data.concentrations.value);
    ConcatLength(data.rates.value);
  }

  /** The starting points a `find_fit` call drew are as many as its restarts and lie within finite bounds. */
  predicate Drawn(table: seq<Param>, inits: int, starts: seq<seq<real>>) {
    && |starts| == (if inits > 0 then inits else 0)
    && (forall k :: 0 <= k < |starts| ==> |starts[k]| == |table|)
    && (inits > 0 ==> FiniteBounds(table) && forall k :: 0 <= k < |starts| ==> StartWithin(table, starts[k]))
  }

  /** What `find_fit` with `eq`'s own restart count returns on the points, for starts it drew. */
  function FitOf(eq: FitParam, minimize: Minimizer, pts: seq<seq<real>>, starts: seq<seq<real>>): Result<Fit>
    reads eq
    requires Drawn(eq.table, eq.initializations, starts)
  {
    FitOutcome(minimize, eq.mech, eq.table, eq.paramOrder, eq.units, pts, starts)
  }

  /**
   * Single-substrate `make_fit`: all replicates are pooled, concentrations and
   * rates each stacked into one array, and fitted once.
   */
  method MakeFitSingle(eq: FitParam, data: OneSubstrate, minimize: Minimizer) returns (fit: Result<Fit>, starts: seq<seq<real>>)
    requires eq.initializations > 0 ==> FiniteBounds(eq.table)
    ensures HStack(data.concentrations).Err? ==> fit == Err(HStack(data.concentrations).error) && starts == []
    ensures HStack(data.concentrations).Ok? && HStack(data.rates).Err? ==> fit == Err(HStack(data.rates).error) && starts == []
    ensures HStack(data.concentrations).Ok? && HStack(data.rates).Ok? ==>
      && Drawn(eq.table, eq.initializations, starts)
      && fit == FitOf(eq, minimize, [HStack(data.concentrations).value, HStack(data.rates).value], starts)
  {
    var conc := HStack(data.concentrations);
    if conc.Err? {
      return Err(conc.error), [];
    }
    var rates := HStack(data.rates);
    if rates.Err? {
      return Err(rates.error), [];
    }
    fit, starts := FindFit(eq, eq.initializations, [conc.value, rates.value], minimize);
  }

  /** The fit points of one set, in the (var, rate, const) order `get_points` yields. */
  function PointsOf(t: Triple): (pts: seq<seq<real>>)
    ensures |pts| == 3 && pts[0] == t.0 && pts[1] == t.1 && pts[2] == t.2
  {
    [t.0, t.1, t.2]
  }

  /** Every set of a valid role gives points any rate law accepts. */
  lemma SetPointsFit(r: Role, m: Mechanism)
    requires RoleValid(r)
    ensures forall k :: 0 <= k < |SetPoints(r)| ==> PointsFit(m, PointsOf(SetPoints(r)[k]))
  {
  }

  /**
   * `[find_fit(...) for x, y, x2 in get_points(a_isvar)]`: one fit per set, in
   * set order. A fit that raises stops the comprehension; `drawn` then ends
   * with the starts of the failing call.
   */
  method FitSets(eq: FitParam, sets: seq<Triple>, minimize: Minimizer) returns (fits: Result<seq<Fit>>, drawn: seq<seq<seq<real>>>)
    requires eq.initializations > 0 ==> FiniteBounds(eq.table)
    ensures |drawn| <= |sets|
    ensures forall k :: 0 <= k < |drawn| ==> Drawn(eq.table, eq.initializations, drawn[k])
    ensures fits.Ok? ==>
      (&& |drawn| == |sets| == |fits.value|
       && forall k :: 0 <= k < |sets| ==> FitOf(eq, minimize, PointsOf(sets[k]), drawn[k]) == Ok(fits.value[k]))
    ensures fits.Err? ==>
      (&& 0 < |drawn|
       && (forall k :: 0 <= k < |drawn| - 1 ==> FitOf(eq, minimize, PointsOf(sets[k]), drawn[k]).Ok?)
       && FitOf(eq, minimize, PointsOf(sets[|drawn| - 1]), drawn[|drawn| - 1]) == Err(fits.error))
  {
    var acc: seq<Fit> := [];
    drawn := [];
    while |acc| < |sets|
      invariant |drawn| == |acc| <= |sets|
      invariant forall k :: 0 <= k < |drawn| ==> Drawn(eq.table, eq.initializations, drawn[k])
      invariant forall k :: 0 <= k < |acc| ==> FitOf(eq, minimize, PointsOf(sets[k]), drawn[k]) == Ok(acc[k])
    {
      var fit, starts := FindFit(eq, eq.initializations, PointsOf(sets[|acc|]), minimize);
      drawn := drawn + [starts];
      if fit.Err? {
        return Err(fit.error), drawn;
      }
      acc := acc + [fit.value];
    }
    fits := Ok(acc);
  }

  /** The two-substrate fitting window: one fit per set of the selected role. */
  class FitWindow {
    var setEquations: seq<Fit>

    constructor ()
      ensures setEquations == []
    {
      setEquations := [];
    }

    /**
     * Two-substrate `make_fit(sel_set)`: `-1` refits every set of the selected
     * role and replaces the list; any other position (Python indexing) refits
     * that set alone and replaces only its entry.
     */
    method MakeFitDouble(eq: FitParam, store: TwoSubstrates, aIsVar: bool, selSet: int, minimize: Minimizer)
      returns (o: Outcome, drawn: seq<seq<seq<real>>>)
      requires store.Valid()
      requires eq.initializations > 0 ==> FiniteBounds(eq.table)
      modifies this
      ensures forall k :: 0 <= k < |drawn| ==> Drawn(eq.table, eq.initializations, drawn[k])
      ensures var sets := SetPoints(store.RoleOf(aIsVar));
        if selSet == -1 then
          |drawn| <= |sets|
          && if o.Done? then |setEquations| == |sets| == |drawn|
               && forall k :: 0 <= k < |sets| ==> FitOf(eq, minimize, PointsOf(sets[k]), drawn[k]) == Ok(setEquations[k])
             else setEquations == old(setEquations)
        else if PyIndex(selSet, |sets|).None? then o == Raised(IndexError) && setEquations == old(setEquations)
        else
          && |drawn| == 1
          && var fit := FitOf(eq, minimize, PointsOf(sets[PyIndex(selSet, |sets|).value]), drawn[0]);
          if fit.Err? then o == Raised(fit.error) && setEquations == old(setEquations)
             else if PyIndex(selSet, |old(setEquations)|).None? then o == Raised(IndexError) && setEquations == old(setEquations)
             else o == Done && setEquations == old(setEquations)[PyIndex(selSet, |old(setEquations)|).value := fit.value]
    {
      var sets := store.GetPoints(aIsVar);
      if selSet == -1 {
        var fits;
        fits, drawn := FitSets(eq, sets, minimize);
        if fits.Err? {
          return Raised(fits.error), drawn;
        }
        setEquations := fits.value;
        return Done, drawn;
      }
      var s := PyIndex(selSet, |sets|);
      if s.None? {
        return Raised(IndexError), [];
      }
      var fit, starts := FindFit(eq, eq.initializations, PointsOf(sets[s.value]), minimize);
      drawn := [starts];
      if fit.Err? {
        return Raised(fit.error), drawn;
      }
      var e := PyIndex(selSet, |setEquations|);
      if e.None? {
        return Raised(IndexError), drawn;
      }
      setEquations := setEquations[e.value := fit.value];
      o := Done;
    }
  }

  /**
   * `BatchRun.make_ds_output`: the sets where A is variable are fitted, then
   * those where B is, and the two lists are keyed by `True` and `False`. The
   * first set whose fit raises stops both loops with its error.
   */
  method MakeDsOutput(eq: FitParam, store: TwoSubstrates, minimize: Minimizer)
    returns (fits: Result<map<bool, seq<Fit>>>, drawnA: seq<seq<seq<real>>>, drawnB: seq<seq<seq<real>>>)
    requires store.Valid()
    requires eq.initializations > 0 ==> FiniteBounds(eq.table)
    ensures forall k :: 0 <= k < |drawnA| ==> Drawn(eq.table, eq.initializations, drawnA[k])
    ensures forall k :: 0 <= k < |drawnB| ==> Drawn(eq.table, eq.initializations, drawnB[k])
    ensures fits.Ok? ==>
      (&& true in fits.value && false in fits.value
       && |fits.value[true]| == |drawnA| == |SetPoints(store.whenA)|
       && |fits.value[false]| == |drawnB| == |SetPoints(store.whenB)|
       && (forall k :: 0 <= k < |drawnA| ==>
             FitOf(eq, minimize, PointsOf(SetPoints(store.whenA)[k]), drawnA[k]) == Ok(fits.value[true][k]))
       && (forall k :: 0 <= k < |drawnB| ==>
             FitOf(eq, minimize, PointsOf(SetPoints(store.whenB)[k]), drawnB[k]) == Ok(fits.value[false][k])))
    ensures |drawnA| <= |SetPoints(store.whenA)| && |drawnB| <= |SetPoints(store.whenB)|
    ensures fits.Err? && drawnB == [] ==>
      (&& 0 < |drawnA|
       && (forall k :: 0 <= k < |drawnA| - 1 ==> FitOf(eq, minimize, PointsOf(SetPoints(store.whenA)[k]), drawnA[k]).Ok?)
       && FitOf(eq, minimize, PointsOf(SetPoints(store.whenA)[|drawnA| - 1]), drawnA[|drawnA| - 1]) == Err(fits.error))
    ensures fits.Err? && drawnB != [] ==>
      (&& |drawnA| == |SetPoints(store.whenA)|
       && (forall k :: 0 <= k < |drawnA| ==> FitOf(eq, minimize, PointsOf(SetPoints(store.whenA)[k]), drawnA[k]).Ok?)
       && (forall k :: 0 <= k < |drawnB| - 1 ==> FitOf(eq, minimize, PointsOf(SetPoints(store.whenB)[k]), drawnB[k]).Ok?)
       && FitOf(eq, minimize, PointsOf(SetPoints(store.whenB)[|drawnB| - 1]), drawnB[|drawnB| - 1]) == Err(fits.error))
  {
    var setsA := store.GetPoints(true);
    var subA;
    subA, drawnA := FitSets(eq, setsA, minimize);
    if subA.Err? {
      return Err(subA.error), drawnA, [];
    }
    var setsB := store.GetPoints(false);
    var subB;
    subB, drawnB := FitSets(eq, setsB, minimize);
    if subB.Err? {
      return Err(subB.error), drawnA, drawnB;
    }
    fits := Ok(map[true := subA.value, false := subB.value]);
  }
}

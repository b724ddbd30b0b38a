/**
 * Fit selection: a deterministic run from the current values plus N runs from
 * random starting points, keeping the run with the least sum of squared
 * residuals. The optimiser itself (`lmfit.minimize`) is the function
 * `minimize` handed in by the caller; the model fixes only what is done with
 * its answers.
 */
module DataFitting {
  import opened Wrappers
  import opened Numerals
  import opened Parameters
  import opened RateLaws
  import opened FitParams

  /** What the optimiser returns: the fitted parameter table and the residual vector. */
  datatype Solution = Solution(params: seq<Param>, residual: seq<real>)

  /** The optimiser: model, starting table and fit points to a solution. */
  type Minimizer = (Mechanism, seq<Param>, seq<seq<real>>) -> Solution

  /**
   * The fit `find_fit` returns: the winning solution with the model's factory
   * applied to the winning values (`function`), and the model's units and
   * `param_order` (what `get_units` reads).
   */
  datatype Fit = Fit(solution: Solution, mech: Mechanism, args: seq<real>, order: seq<string>, units: seq<string>)

  /** `random.uniform(a, b)` returns a value between its two arguments, in either order. */
  predicate Between(v: real, a: real, b: real) {
    (a <= v <= b) || (b <= v <= a)
  }

  /** Every bound of the table is finite. */
  predicate FiniteBounds(table: seq<Param>) {
    forall i :: 0 <= i < |table| ==> table[i].min.Fin? && table[i].max.Fin?
  }

  /** The table with its values replaced one for one; names, bounds and `vary` stay. */
  function WithValues(table: seq<Param>, vals: seq<real>): (r: seq<Param>)
    requires |vals| == |table|
    ensures |r| == |table| && Names(r) == Names(table)
  {
    seq(|table|, i requires 0 <= i < |table| => table[i].(value := vals[i]))
  }

  /** The values of a table, in order. */
  function Values(table: seq<Param>): (r: seq<real>)
    ensures |r| == |table| && forall i :: 0 <= i < |table| ==> r[i] == table[i].value
  {
    seq(|table|, i requires 0 <= i < |table| => table[i].value)
  }

  /** Each value lies between the bounds of its parameter. */
  predicate StartWithin(table: seq<Param>, vals: seq<real>)
    requires FiniteBounds(table)
  {
    |vals| == |table| && forall i :: 0 <= i < |table| ==> Between(vals[i], table[i].min.r, table[i].max.r)
  }

  /**
   * `random_start(params)`: every parameter, varying or not, gets a value drawn
   * between its bounds; the object itself is changed and returned.
   */
  method RandomStart(params: FitParam) returns (same: FitParam)
    requires FiniteBounds(params.table)
    modifies params
    ensures same == params
    ensures |params.table| == |old(params.table)|
    ensures params.table == WithValues(old(params.table), Values(params.table))
    ensures StartWithin(old(params.table), Values(params.table))
    ensures params.initializations == old(params.initializations)
  {
    var i := 0;
    while i < |params.table|
      invariant 0 <= i <= |params.table| == |old(params.table)|
      invariant params.table == WithValues(old(params.table), Values(params.table))
      invariant forall k :: 0 <= k < i ==> Between(params.table[k].value, params.table[k].min.r, params.table[k].max.r)
      invariant params.initializations == old(params.initializations)
    {
      var lo, hi := params.table[i].min.r, params.table[i].max.r;
      assert Between(lo, lo, hi);
      var v :| Between(v, lo, hi);
      params.table := params.table[i := params.table[i].(value := v)];
      i := i + 1;
    }
    same := params;
  }

  /** `y` scaled by 10^i exceeds `x`. */
  predicate Exceeds(x: real, y: real, i: nat) {
    y * Pow10(i) as real > x
  }

  /** The exponent `get_scaling_factor` settles on when the search starts at `i`. */
  function FactorExponent(x: real, y: real, i: nat): (k: nat)
    requires 1 <= i <= 15
    decreases 15 - i
  {
    if i == 15 then 0 else if Exceeds(x, y, i) then i - 1 else FactorExponent(x, y, i + 1)
  }

  /**
   * `get_scaling_factor(x, y)`: 10^(i-1) for the least i in 1..14 with
   * y·10^i > x, and 1 when there is none.
   */
  method GetScalingFactor(x: real, y: real) returns (f: nat)
    ensures f == Pow10(FactorExponent(x, y, 1))
  {
    var i := 1;
    while i < 15
      invariant 1 <= i <= 15
      invariant FactorExponent(x, y, i) == FactorExponent(x, y, 1)
    {
      if Exceeds(x, y, i) {
        return Pow10(i - 1);
      }
      i := i + 1;
    }
    return 1;
  }

  /**
   * The factor is 10^k with k at most 13; when some i in 1..14 has y·10^i > x,
   * k + 1 is the least such i, and otherwise k is 0.
   */
  lemma {:induction false} FactorIsLeastPower(x: real, y: real, i: nat)
    requires 1 <= i <= 15
    ensures var k := FactorExponent(x, y, i);
      && k <= 13
      && ((exists j :: i <= j < 15 && Exceeds(x, y, j)) ==>
            i <= k + 1 < 15 && Exceeds(x, y, k + 1) && forall j :: i <= j < k + 1 ==> !Exceeds(x, y, j))
      && ((forall j :: i <= j < 15 ==> !Exceeds(x, y, j)) ==> k == 0)
    decreases 15 - i
  {
    if i < 15 && !Exceeds(x, y, i) {
      FactorIsLeastPower(x, y, i + 1);
    }
  }

  /** `sum(residual ** 2)`. */
  function Ssr(r: seq<real>): (s: real)
    ensures s >= 0.0
    decreases |r|
  {
    if r == [] then 0.0 else r[0] * r[0] + Ssr(r[1..])
  }

  /** `min(xs, key=...)` on the keys: the first position holding the least key. */
  function FirstMin(keys: seq<real>): (i: nat)
    requires |keys| > 0
    ensures i < |keys|
    ensures forall j :: 0 <= j < |keys| ==> keys[i] <= keys[j]
    ensures forall j :: 0 <= j < i ==> keys[j] > keys[i]
    decreases |keys|
  {
    if |keys| == 1 then 0
    else
      var k := FirstMin(keys[..|keys| - 1]);
      if keys[|keys| - 1] < keys[k] then |keys| - 1 else k
  }

  function Keys(runs: seq<Solution>): (r: seq<real>)
    ensures |r| == |runs| && forall i :: 0 <= i < |runs| ==> r[i] == Ssr(runs[i].residual)
  {
    seq(|runs|, i requires 0 <= i < |runs| => Ssr(runs[i].residual))
  }

  /** The restart runs, one per drawn starting point, in drawing order. */
  function Restarts(minimize: Minimizer, m: Mechanism, table: seq<Param>, pts: seq<seq<real>>, starts: seq<seq<real>>): (r: seq<Solution>)
    requires forall k :: 0 <= k < |starts| ==> |starts[k]| == |table|
    ensures |r| == |starts|
  {
    seq(|starts|, k requires 0 <= k < |starts| && |starts[k]| == |table| => minimize(m, WithValues(table, starts[k]), pts))
  }

  /** The candidate list of `find_fit`: the restarts, then the deterministic run last. */
  function Candidates(minimize: Minimizer, m: Mechanism, table: seq<Param>, pts: seq<seq<real>>, starts: seq<seq<real>>): (r: seq<Solution>)
    requires forall k :: 0 <= k < |starts| ==> |starts[k]| == |table|
    ensures |r| == |starts| + 1
  {
    Restarts(minimize, m, table, pts, starts) + [minimize(m, table, pts)]
  }

  /** The solution `find_fit` keeps. */
  function Best(minimize: Minimizer, m: Mechanism, table: seq<Param>, pts: seq<seq<real>>, starts: seq<seq<real>>): Solution
    requires forall k :: 0 <= k < |starts| ==> |starts[k]| == |table|
  {
    if starts == [] then minimize(m, table, pts)
    else
      var c := Candidates(minimize, m, table, pts, starts);
      c[FirstMin(Keys(c))]
  }

  /** `[best_fit.values[idx] for idx in param_order]`; a name the solution lacks raises KeyError. */
  function ValuesInOrder(params: seq<Param>, order: seq<string>): (r: Result<seq<real>>)
    ensures r.Ok? <==> Defines(params, order)
    ensures r.Ok? ==> r.value == Args(params, order)
  {
    if Defines(params, order) then Ok(Args(params, order)) else Err(KeyError)
  }

  /** What `find_fit` returns, given the starting points it drew. */
  function FitOutcome(minimize: Minimizer, m: Mechanism, table: seq<Param>, order: seq<string>, units: seq<string>,
                      pts: seq<seq<real>>, starts: seq<seq<real>>): Result<Fit>
    requires forall k :: 0 <= k < |starts| ==> |starts[k]| == |table|
  {
    var best := Best(minimize, m, table, pts, starts);
    var args :- ValuesInOrder(best.params, order);
    Ok(Fit(best, m, args, order, units))
  }

  /**
   * `find_fit(param_object, inicializations, *fitpoints)`. It works on a deep
   * copy, so the caller's object is not changed (the method modifies nothing it
   * was given). With N > 0 it draws N random starting points, returned as
   * `starts`, and its result is `FitOutcome` of them.
   */
  method FindFit(paramObject: FitParam, inicializations: int, pts: seq<seq<real>>, minimize: Minimizer)
    returns (fit: Result<Fit>, starts: seq<seq<real>>)
    requires inicializations > 0 ==> FiniteBounds(paramObject.table)
    ensures |starts| == (if inicializations > 0 then inicializations else 0)
    ensures forall k :: 0 <= k < |starts| ==> |starts[k]| == |paramObject.table|
    ensures inicializations > 0 ==> forall k :: 0 <= k < |starts| ==> StartWithin(paramObject.table, starts[k])
    ensures fit == FitOutcome(minimize, paramObject.mech, paramObject.table, paramObject.paramOrder, paramObject.units, pts, starts)
  {
    var copy := new FitParam.Copy(paramObject);
    var bestFit := minimize(copy.mech, copy.table, pts);
    starts := [];
    if inicializations > 0 {
      var altFits: seq<Solution> := [];
      while |altFits| < inicializations
        invariant |altFits| == |starts| <= inicializations
        invariant copy.mech == paramObject.mech && |copy.table| == |paramObject.table|
        invariant copy.table == WithValues(paramObject.table, Values(copy.table))
        invariant FiniteBounds(paramObject.table)
        invariant forall k :: 0 <= k < |starts| ==> StartWithin(paramObject.table, starts[k])
        invariant altFits == Restarts(minimize, paramObject.mech, paramObject.table, pts, starts)
      {
        var started := RandomStart(copy);
        starts := starts + [Values(copy.table)];
        altFits := altFits + [minimize(started.mech, started.table, pts)];
      }
      var cands := altFits + [bestFit];
      bestFit := cands[FirstMin(Keys(cands))];
    }
    var args := ValuesInOrder(bestFit.params, copy.paramOrder);
    if args.Err? {
      return Err(KeyError), starts;
    }
    fit := Ok(Fit(bestFit, copy.mech, args.value, copy.paramOrder, copy.units));
  }

  /** With no restarts the result comes from the single run started at the current values. */
  lemma NoRestartsIsDeterministic(minimize: Minimizer, m: Mechanism, table: seq<Param>, pts: seq<seq<real>>)
    ensures Best(minimize, m, table, pts, []) == minimize(m, table, pts)
  {
  }

  /** The kept solution has the least sum of squared residuals of all runs, so it is never worse than the deterministic run. */
  lemma BestIsMinimal(minimize: Minimizer, m: Mechanism, table: seq<Param>, pts: seq<seq<real>>, starts: seq<seq<real>>)
    requires forall k :: 0 <= k < |starts| ==> |starts[k]| == |table|
    ensures var best := Best(minimize, m, table, pts, starts);
      && Ssr(best.residual) <= Ssr(minimize(m, table, pts).residual)
      && forall k :: 0 <= k < |starts| ==> Ssr(best.residual) <= Ssr(minimize(m, WithValues(table, starts[k]), pts).residual)
  {
    if starts != [] {
      var c := Candidates(minimize, m, table, pts, starts);
      var keys := Keys(c);
      var i := FirstMin(keys);
      assert c[|starts|] == minimize(m, table, pts);
      forall k | 0 <= k < |starts|
        ensures keys[i] <= Ssr(minimize(m, WithValues(table, starts[k]), pts).residual)
      {
        assert c[k] == minimize(m, WithValues(table, starts[k]), pts);
      }
    }
  }

  /**
   * Ties go to the restarts: when some restart is as good as the deterministic
   * run, the kept solution comes from a restart, not from the deterministic run.
   */
  lemma TieGoesToRestart(minimize: Minimizer, m: Mechanism, table: seq<Param>, pts: seq<seq<real>>, starts: seq<seq<real>>, k: nat)
    requires forall j :: 0 <= j < |starts| ==> |starts[j]| == |table|
    requires k < |starts|
    requires Ssr(minimize(m, WithValues(table, starts[k]), pts).residual) <= Ssr(minimize(m, table, pts).residual)
    ensures exists j :: 0 <= j < |starts| && Best(minimize, m, table, pts, starts) == minimize(m, WithValues(table, starts[j]), pts)
  {
    var c := Candidates(minimize, m, table, pts, starts);
    var keys := Keys(c);
    var i := FirstMin(keys);
    assert c[k] == minimize(m, WithValues(table, starts[k]), pts);
    assert c[|starts|] == minimize(m, table, pts);
    assert keys[k] <= keys[|starts|];
    assert i < |starts|;
    assert c[i] == minimize(m, WithValues(table, starts[i]), pts);
  }

  /** The attached function is the model's factory at the winning values in `param_order` order; units come from the model. */
  lemma FitCarriesModel(minimize: Minimizer, m: Mechanism, table: seq<Param>, order: seq<string>, units: seq<string>,
                        pts: seq<seq<real>>, starts: seq<seq<real>>)
    requires forall k :: 0 <= k < |starts| ==> |starts[k]| == |table|
    ensures var r := FitOutcome(minimize, m, table, order, units, pts, starts);
      var best := Best(minimize, m, table, pts, starts);
      && (r.Ok? <==> Defines(best.params, order))
      && (r.Ok? ==> r.value.solution == best && r.value.mech == m && r.value.args == Args(best.params, order)
                    && r.value.order == order && r.value.units == units)
  {
  }
}

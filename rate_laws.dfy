/**
 * The fourteen rate laws behind one interface, the way the fitting code sees a
 * model: a name, a parameter table with its `param_order` and unit symbols, a
 * residual function reading the table by name, and a factory taking the values
 * by position. `x` is the variable substrate concentration and `b` the constant
 * one; single-substrate laws ignore `b`, as their `*_` parameter does.
 */
module RateLaws {
  import opened Wrappers
  import opened Parameters
  import MM = MichaelisMenten
  import HE = Hill
  import CI = CompetitiveInhibition
  import NCI = NoncompetitiveInhibition
  import UCI = UncompetitiveInhibition
  import MI = MixedInhibition
  import SA = SpecificActivation
  import SUA = SubstrateActivation
  import MA = MixedActivation
  import INH = AllostericInhibition
  import PP = PingPong
  import TC = TernaryComplex

  datatype Mechanism = MM | HE | CI | NCI | UCI | MI | SA | SUA | MA | INH | PPM | PPMSI | TC | TCSI

  /**
   * What the laws read besides their parameters: the enzyme concentration E
   * (the `Eval` environment variable) and the non-integer power `x ** n`.
   */
  datatype Env = Env(e: real, pow: (real, real) -> real)

  /** Laws of two substrates, whose points are (a, rate, b) triples. */
  predicate TwoSubstrate(m: Mechanism) {
    m in {PPM, PPMSI, TC, TCSI}
  }

  function Name(m: Mechanism): string {
    match m
    case MM => MM.Name
    case HE => HE.Name
    case CI => CI.Name
    case NCI => NCI.Name
    case UCI => UCI.Name
    case MI => MI.Name
    case SA => SA.Name
    case SUA => SUA.Name
    case MA => MA.Name
    case INH => INH.Name
    case PPM => PP.NamePpm
    case PPMSI => PP.NamePpmsi
    case TC => TC.NameTc
    case TCSI => TC.NameTcsi
  }

  /** `param_order`: the factory's positional order. */
  function Order(m: Mechanism): seq<string> {
    match m
    case MM => MM.Order
    case HE => HE.Order
    case CI => CI.Order
    case NCI => NCI.Order
    case UCI => UCI.Order
    case MI => MI.Order
    case SA => SA.Order
    case SUA => SUA.Order
    case MA => MA.Order
    case INH => INH.Order
    case PPM => PP.OrderPpm
    case PPMSI => PP.OrderPpmsi
    case TC => TC.OrderTc
    case TCSI => TC.OrderTcsi
  }

  /** `units`: one symbol per entry of `param_order`. */
  function Units(m: Mechanism): seq<string> {
    match m
    case MM => MM.Units
    case HE => HE.Units
    case CI => CI.Units
    case NCI => NCI.Units
    case UCI => UCI.Units
    case MI => MI.Units
    case SA => SA.Units
    case SUA => SUA.Units
    case MA => MA.Units
    case INH => INH.Units
    case PPM => PP.UnitsPpm
    case PPMSI => PP.UnitsPpmsi
    case TC => TC.UnitsTc
    case TCSI => TC.UnitsTcsi
  }

  /** The table the model's constructor builds with its default arguments. */
  function Defaults(m: Mechanism): seq<Param> {
    match m
    case MM => MM.Defaults
    case HE => HE.Defaults
    case CI => CI.Defaults
    case NCI => NCI.Defaults
    case UCI => UCI.Defaults
    case MI => MI.Defaults
    case SA => SA.Defaults
    case SUA => SUA.Defaults
    case MA => MA.Defaults
    case INH => INH.Defaults
    case PPM => PP.DefaultsPpm
    case PPMSI => PP.DefaultsPpmsi
    case TC => TC.DefaultsTc
    case TCSI => TC.DefaultsTcsi
  }

  /** The factory's arguments and the point give it a nonzero denominator. */
  predicate Defined(m: Mechanism, args: seq<real>, env: Env, x: real, b: real) {
    match m
    case MM => MM.Defined(args, x)
    case HE => HE.Defined(args, env.pow, x)
    case CI => CI.Defined(args, x)
    case NCI => NCI.Defined(args, x)
    case UCI => UCI.Defined(args, x)
    case MI => MI.Defined(args, x)
    case SA => SA.Defined(args, x)
    case SUA => SUA.Defined(args, x)
    case MA => MA.Defined(args, x)
    case INH => INH.Defined(args, env.pow, x)
    case PPM => PP.DefinedPpm(args, x, b)
    case PPMSI => PP.DefinedPpmsi(args, x, b)
    case TC => TC.DefinedTc(args, x, b)
    case TCSI => TC.DefinedTcsi(args, x, b)
  }

  /** The model's factory applied to positional arguments, then to the point. */
  function Predict(m: Mechanism, args: seq<real>, env: Env, x: real, b: real): real
    requires Defined(m, args, env, x, b)
  {
    match m
    case MM => MM.Create(args, env.e, x)
    case HE => HE.Create(args, env.pow, x)
    case CI => CI.Create(args, x)
    case NCI => NCI.Create(args, x)
    case UCI => UCI.Create(args, env.e, x)
    case MI => MI.Create(args, x)
    case SA => SA.Create(args, x)
    case SUA => SUA.Create(args, x)
    case MA => MA.Create(args, env.e, x)
    case INH => INH.Create(args, env.pow, env.e, x)
    case PPM => PP.CreatePpm(args, x, b)
    case PPMSI => PP.CreatePpmsi(args, x, b)
    case TC => TC.CreateTc(args, x, b)
    case TCSI => TC.CreateTcsi(args, x, b)
  }

  /**
   * The model's residual function on one point, reading the table by name: it
   * equals the factory applied to the table's values in `param_order` order,
   * minus the observed rate.
   */
  function Residual(m: Mechanism, table: seq<Param>, env: Env, x: real, rate: real, b: real): (r: real)
    requires Defines(table, Order(m)) && Defined(m, Args(table, Order(m)), env, x, b)
    ensures r == Predict(m, Args(table, Order(m)), env, x, b) - rate
  {
    match m
    case MM => MM.Residual(table, env.e, x, rate)
    case HE => HE.Residual(table, env.pow, x, rate)
    case CI => CI.Residual(table, x, rate)
    case NCI => NCI.Residual(table, x, rate)
    case UCI => UCI.Residual(table, env.e, x, rate)
    case MI => MI.Residual(table, x, rate)
    case SA => SA.Residual(table, x, rate)
    case SUA => SUA.Residual(table, x, rate)
    case MA => MA.Residual(table, env.e, x, rate)
    case INH => INH.Residual(table, env.pow, env.e, x, rate)
    case PPM => PP.ResidualPpm(table, x, rate, b)
    case PPMSI => PP.ResidualPpmsi(table, x, rate, b)
    case TC => TC.ResidualTc(table, x, rate, b)
    case TCSI => TC.ResidualTcsi(table, x, rate, b)
  }

  /** Fit points as `get_solution` passes them on: (conc, rate) or (var, rate, const). */
  predicate PointsFit(m: Mechanism, pts: seq<seq<real>>) {
    && |pts| >= 2 && |pts[1]| == |pts[0]|
    && (TwoSubstrate(m) ==> |pts| >= 3 && |pts[2]| == |pts[0]|)
  }

  /** The constant concentration of point i, where the law reads one. */
  function ConstAt(m: Mechanism, pts: seq<seq<real>>, i: nat): real
    requires PointsFit(m, pts) && i < |pts[0]|
  {
    if TwoSubstrate(m) then pts[2][i] else 0.0
  }

  predicate AllDefined(m: Mechanism, table: seq<Param>, env: Env, pts: seq<seq<real>>)
    requires Defines(table, Order(m)) && PointsFit(m, pts)
  {
    forall i :: 0 <= i < |pts[0]| ==> Defined(m, Args(table, Order(m)), env, pts[0][i], ConstAt(m, pts, i))
  }

  /**
   * The residual vector lmfit minimises for `get_solution(*fitpoints)`: the
   * points go after the parameters in (variable, rate[, constant]) order, so
   * entry i compares the prediction at the i-th variable (and constant)
   * concentration with the i-th rate.
   */
  function ResidualVector(m: Mechanism, table: seq<Param>, env: Env, pts: seq<seq<real>>): (r: seq<real>)
    requires Defines(table, Order(m)) && PointsFit(m, pts) && AllDefined(m, table, env, pts)
    ensures |r| == |pts[0]|
    ensures forall i :: 0 <= i < |r| ==>
      r[i] == Predict(m, Args(table, Order(m)), env, pts[0][i], ConstAt(m, pts, i)) - pts[1][i]
  {
    seq(|pts[0]|, i requires 0 <= i < |pts[0]| && Defines(table, Order(m)) && PointsFit(m, pts) && AllDefined(m, table, env, pts) =>
      Residual(m, table, env, pts[0][i], pts[1][i], ConstAt(m, pts, i)))
  }

  /** The default bounds of a parameter: [0, 10] for the Hill coefficient, [0, 100] otherwise. */
  function DefaultMax(m: Mechanism, name: string): real {
    if m == HE && name == "n" then 10.0 else 100.0
  }

  /**
   * Every model's default table lists exactly `param_order`, without repeats, one
   * unit symbol per parameter, each parameter varying with value 1 in its default bounds.
   */
  lemma DefaultsFollowOrder(m: Mechanism)
    ensures Names(Defaults(m)) == Order(m) && DistinctNames(Defaults(m))
    ensures |Units(m)| == |Order(m)|
    ensures forall i :: 0 <= i < |Defaults(m)| ==>
      Defaults(m)[i] == Param(Order(m)[i], 1.0, Fin(0.0), Fin(DefaultMax(m, Order(m)[i])), true)
  {
    DefaultsNamed(m);
    DefaultsDistinct(m);
  }

  lemma DefaultsNamed(m: Mechanism)
    ensures |Defaults(m)| == |Order(m)| == |Units(m)|
    ensures forall i :: 0 <= i < |Defaults(m)| ==>
      Defaults(m)[i] == Param(Order(m)[i], 1.0, Fin(0.0), Fin(DefaultMax(m, Order(m)[i])), true)
  {
  }

  lemma DefaultsDistinct(m: Mechanism)
    ensures DistinctNames(Defaults(m))
  {
    var t := Defaults(m);
    forall i, j | 0 <= i < j < |t| ensures t[i].name != t[j].name {
      DefaultsNamed(m);
    }
  }

  /** Every unit symbol is one `get_units` knows: concentration, rate or none. */
  lemma UnitSymbolsKnown(m: Mechanism)
    ensures forall i :: 0 <= i < |Units(m)| ==> Units(m)[i] in {"c", "r", ""}
  {
  }
}

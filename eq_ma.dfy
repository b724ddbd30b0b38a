/** Mixed activation (irreversible): v = v_max·E·x·act/(kms·(kas + act) + x·(kac + act)). */
module MixedActivation {
  import opened Parameters

  const Name: string := "Mixed activation (irrev)"
  const Order: seq<string> := ["kms", "v_max", "act", "kac", "kas"]
  const Units: seq<string> := ["c", "r", "c", "c", "c"]
  const Defaults: seq<Param> :=
    [Add("kms", 1.0, 0.0, 100.0), Add("v_max", 1.0, 0.0, 100.0), Add("act", 1.0, 0.0, 100.0),
     Add("kac", 1.0, 0.0, 100.0), Add("kas", 1.0, 0.0, 100.0)]

  predicate Defined(args: seq<real>, x: real) {
    |args| >= 5 && args[0] * (args[4] + args[2]) + x * (args[3] + args[2]) != 0.0
  }

  /** The rate law over named constants. */
  function Law(kms: real, vmax: real, act: real, kac: real, kas: real, e: real, x: real): real
    requires kms * (kas + act) + x * (kac + act) != 0.0
  {
    vmax * e * x * act / (kms * (kas + act) + x * (kac + act))
  }

  /** `create_my_eq(kms, v_max, act, kac, kas, *_)` applied to `x`; E is read at every call. */
  function Create(args: seq<real>, e: real, x: real): real
    requires Defined(args, x)
  {
    Law(args[0], args[1], args[2], args[3], args[4], e, x)
  }

  /** `my_fiteq(params, x, rate)`: reads the parameters by name. */
  function Residual(table: seq<Param>, e: real, x: real, rate: real): (r: real)
    requires Defines(table, Order) && Defined(Args(table, Order), x)
    ensures r == Create(Args(table, Order), e, x) - rate
  {
    assert Has(table, Order[0]) && Has(table, Order[1]) && Has(table, Order[2]);
    assert Has(table, Order[3]) && Has(table, Order[4]);
    Law(Val(table, "kms"), Val(table, "v_max"), Val(table, "act"), Val(table, "kac"), Val(table, "kas"), e, x) - rate
  }

  /** Without activator, or without substrate, there is no rate. */
  lemma ZeroWithoutActivatorOrSubstrate(args: seq<real>, e: real, x: real)
    requires Defined(args, x) && (args[2] == 0.0 || x == 0.0)
    ensures Create(args, e, x) == 0.0
  {
  }

  /** The rate is proportional to the enzyme concentration. */
  lemma LinearInEnzyme(args: seq<real>, e: real, x: real)
    requires Defined(args, x)
    ensures Create(args, e, x) == e * Create(args, 1.0, x)
  {
    var d := args[0] * (args[4] + args[2]) + x * (args[3] + args[2]);
    var n := args[1] * x * args[2];
    assert args[1] * e * x * args[2] == e * (args[1] * 1.0 * x * args[2]);
    assert (e * n) / d == e * (n / d);
  }
}

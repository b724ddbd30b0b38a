/** Substrate activation (irreversible): v = v_max·(x/ksa)²/(1 + x/ksc + x/ksa + (x/ksa)²). */
module SubstrateActivation {
  import opened Parameters
  import Ratios

  const Name: string := "Substrate activation (irr)"
  const Order: seq<string> := ["ksa", "v_max", "ksc"]
  const Units: seq<string> := ["c", "r", "c"]
  const Defaults: seq<Param> :=
    [Add("ksa", 1.0, 0.0, 100.0), Add("v_max", 1.0, 0.0, 100.0), Add("ksc", 1.0, 0.0, 100.0)]

  predicate Defined(args: seq<real>, x: real) {
    && |args| >= 3 && args[0] != 0.0 && args[2] != 0.0
    && 1.0 + x / args[2] + x / args[0] + (x / args[0]) * (x / args[0]) != 0.0
  }

  /** The rate law over named constants. */
  function Law(ksa: real, vmax: real, ksc: real, x: real): real
    requires ksa != 0.0 && ksc != 0.0 && 1.0 + x / ksc + x / ksa + (x / ksa) * (x / ksa) != 0.0
  {
    vmax * ((x / ksa) * (x / ksa)) / (1.0 + x / ksc + x / ksa + (x / ksa) * (x / ksa))
  }

  /** `create_my_eq(ksa, v_max, ksc, *_)` applied to `x`. */
  function Create(args: seq<real>, x: real): real
    requires Defined(args, x)
  {
    Law(args[0], args[1], args[2], x)
  }

  /** `my_fiteq(params, x, rate)`: reads the parameters by name. */
  function Residual(table: seq<Param>, x: real, rate: real): (r: real)
    requires Defines(table, Order) && Defined(Args(table, Order), x)
    ensures r == Create(Args(table, Order), x) - rate
  {
    assert Has(table, Order[0]) && Has(table, Order[1]) && Has(table, Order[2]);
    Law(Val(table, "ksa"), Val(table, "v_max"), Val(table, "ksc"), x) - rate
  }

  /** No substrate, no rate. */
  lemma ZeroAtZero(ksa: real, vmax: real, ksc: real)
    requires ksa != 0.0 && ksc != 0.0
    ensures Create([ksa, vmax, ksc], 0.0) == 0.0
  {
  }

  /** For positive constants the rate lies strictly between 0 and v_max. */
  lemma Bounded(ksa: real, vmax: real, ksc: real, x: real)
    requires ksa > 0.0 && vmax > 0.0 && ksc > 0.0 && x > 0.0
    ensures Defined([ksa, vmax, ksc], x)
    ensures 0.0 < Create([ksa, vmax, ksc], x) < vmax
  {
    var s := x / ksa;
    var d := 1.0 + x / ksc + s + s * s;
    assert s > 0.0 && x / ksc > 0.0;
    assert 0.0 < s * s < d;
    Ratios.FractionBelow(vmax, s * s, d);
  }
}

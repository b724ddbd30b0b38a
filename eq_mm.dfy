/** Michaelis–Menten kinetics: v = v_max·E·x/(km + x), with E the enzyme concentration. */
module MichaelisMenten {
  import opened Parameters
  import Ratios

  const Name: string := "Michaelis-Menten equation"
  const Order: seq<string> := ["km", "v_max"]
  const Units: seq<string> := ["c", "r"]
  const Defaults: seq<Param> := [Add("km", 1.0, 0.0, 100.0), Add("v_max", 1.0, 0.0, 100.0)]

  /** The arguments bind the factory's positional parameters and its denominator is nonzero. */
  predicate Defined(args: seq<real>, x: real) {
    |args| >= 2 && args[0] + x != 0.0
  }

  /** `create_mm(km, v_max, *_)` applied to `x`; E is read at every call. */
  function Create(args: seq<real>, e: real, x: real): real
    requires Defined(args, x)
  {
    var km, vmax := args[0], args[1];
    vmax * e * x / (km + x)
  }

  /** `mm_function(params, x, rate)`: reads the parameters by name. */
  function Residual(table: seq<Param>, e: real, x: real, rate: real): (r: real)
    requires Defines(table, Order) && Defined(Args(table, Order), x)
    ensures r == Create(Args(table, Order), e, x) - rate
  {
    assert Has(table, Order[0]) && Has(table, Order[1]);
    var km := Val(table, "km");
    var vmax := Val(table, "v_max");
    vmax * e * x / (km + x) - rate
  }

  /** At x = km the rate is half of v_max·E. */
  lemma HalfMaxAtKm(km: real, vmax: real, e: real)
    requires km != 0.0
    ensures Create([km, vmax], e, km) == vmax * e / 2.0
  {
  }

  /** For positive constants the rate lies strictly between 0 and v_max·E. */
  lemma Saturates(km: real, vmax: real, e: real, x: real)
    requires km > 0.0 && vmax > 0.0 && e > 0.0 && x > 0.0
    ensures 0.0 < Create([km, vmax], e, x) < vmax * e
  {
    Ratios.FractionBelow(vmax * e, x, km + x);
  }

  /** No substrate, no rate. */
  lemma ZeroAtZero(km: real, vmax: real, e: real)
    requires km != 0.0
    ensures Create([km, vmax], e, 0.0) == 0.0
  {
  }
}

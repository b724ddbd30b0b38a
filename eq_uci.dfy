/** Uncompetitive inhibition (irreversible): v = v_max·E·x/(km + x·(1 + inh/ki)). */
module UncompetitiveInhibition {
  import opened Parameters

  const Name: string := "Uncompetitive inhibition (irr)"
  const Order: seq<string> := ["km", "v_max", "inh", "ki"]
  const Units: seq<string> := ["c", "r", "c", "c"]
  const Defaults: seq<Param> :=
    [Add("km", 1.0, 0.0, 100.0), Add("v_max", 1.0, 0.0, 100.0), Add("inh", 1.0, 0.0, 100.0), Add("ki", 1.0, 0.0, 100.0)]

  predicate Defined(args: seq<real>, x: real) {
    |args| >= 4 && args[3] != 0.0 && args[0] + x * (1.0 + args[2] / args[3]) != 0.0
  }

  /** `create_my_eq(km, v_max, inh, ki, *_)` applied to `x`; E is read at every call. */
  function Create(args: seq<real>, e: real, x: real): real
    requires Defined(args, x)
  {
    var km, vmax, inh, ki := args[0], args[1], args[2], args[3];
    vmax * e * x / (km + x * (1.0 + inh / ki))
  }

  /** `my_fiteq(params, x, rate)`: reads the parameters by name. */
  function Residual(table: seq<Param>, e: real, x: real, rate: real): (r: real)
    requires Defines(table, Order) && Defined(Args(table, Order), x)
    ensures r == Create(Args(table, Order), e, x) - rate
  {
    assert Has(table, Order[0]) && Has(table, Order[1]) && Has(table, Order[2]) && Has(table, Order[3]);
    var km := Val(table, "km");
    var vmax := Val(table, "v_max");
    var inh := Val(table, "inh");
    var ki := Val(table, "ki");
    vmax * e * x / (km + x * (1.0 + inh / ki)) - rate
  }

  /** Without inhibitor the law is Michaelis–Menten with enzyme factor. */
  lemma NoInhibitor(km: real, vmax: real, ki: real, e: real, x: real)
    requires ki != 0.0 && km + x != 0.0
    ensures Create([km, vmax, 0.0, ki], e, x) == vmax * e * x / (km + x)
  {
  }

  /** No substrate, no rate. */
  lemma ZeroAtZero(km: real, vmax: real, inh: real, ki: real, e: real)
    requires ki != 0.0 && km != 0.0
    ensures Create([km, vmax, inh, ki], e, 0.0) == 0.0
  {
  }
}

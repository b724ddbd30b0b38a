/** Competitive inhibition (irreversible): v = v_max·x/(km + x + km·inh/ki). */
module CompetitiveInhibition {
  import opened Parameters

  const Name: string := "Competitive inhibition (irr)"
  /** The inhibitor is stored under the capitalised name `Inh`. */
  const Order: seq<string> := ["km", "v_max", "Inh", "ki"]
  const Units: seq<string> := ["c", "r", "c", "c"]
  const Defaults: seq<Param> :=
    [Add("km", 1.0, 0.0, 100.0), Add("v_max", 1.0, 0.0, 100.0), Add("Inh", 1.0, 0.0, 100.0), Add("ki", 1.0, 0.0, 100.0)]

  predicate Defined(args: seq<real>, x: real) {
    |args| >= 4 && args[3] != 0.0 && args[0] + x + args[0] * args[2] / args[3] != 0.0
  }

  /** `create_my_eq(km, v_max, inh, ki, *_)` applied to `x`. */
  function Create(args: seq<real>, x: real): real
    requires Defined(args, x)
  {
    var km, vmax, inh, ki := args[0], args[1], args[2], args[3];
    vmax * x / (km + x + km * inh / ki)
  }

  /** `my_fiteq(params, x, rate)`: reads the parameters by name. */
  function Residual(table: seq<Param>, x: real, rate: real): (r: real)
    requires Defines(table, Order) && Defined(Args(table, Order), x)
    ensures r == Create(Args(table, Order), x) - rate
  {
    assert Has(table, Order[0]) && Has(table, Order[1]) && Has(table, Order[2]) && Has(table, Order[3]);
    var km := Val(table, "km");
    var vmax := Val(table, "v_max");
    var inh := Val(table, "Inh");
    var ki := Val(table, "ki");
    var args := Args(table, Order);
    assert args[0] == km && args[1] == vmax && args[2] == inh && args[3] == ki;
    vmax * x / (km + x + km * inh / ki) - rate
  }

  /** The inhibitor scales the apparent Km by (1 + inh/ki). */
  lemma ApparentKm(km: real, vmax: real, inh: real, ki: real, x: real)
    requires Defined([km, vmax, inh, ki], x)
    ensures Create([km, vmax, inh, ki], x) == vmax * x / (km * (1.0 + inh / ki) + x)
  {
    assert km + x + km * inh / ki == km * (1.0 + inh / ki) + x;
  }

  /** Without inhibitor the law is Michaelis–Menten (no enzyme factor). */
  lemma NoInhibitor(km: real, vmax: real, ki: real, x: real)
    requires ki != 0.0 && km + x != 0.0
    ensures Create([km, vmax, 0.0, ki], x) == vmax * x / (km + x)
  {
  }
}

/** Specific activation (irreversible): v = v_max·x·act/(kms·ka + (kms + x)·act). */
module SpecificActivation {
  import opened Parameters

  const Name: string := "Specific activation (irrev)"
  const Order: seq<string> := ["kms", "v_max", "ka", "act"]
  const Units: seq<string> := ["c", "r", "c", "c"]
  const Defaults: seq<Param> :=
    [Add("kms", 1.0, 0.0, 100.0), Add("v_max", 1.0, 0.0, 100.0), Add("ka", 1.0, 0.0, 100.0), Add("act", 1.0, 0.0, 100.0)]

  predicate Defined(args: seq<real>, x: real) {
    |args| >= 4 && args[0] * args[2] + (args[0] + x) * args[3] != 0.0
  }

  /** `create_my_eq(kms, v_max, ka, act, *_)` applied to `x`. */
  function Create(args: seq<real>, x: real): real
    requires Defined(args, x)
  {
    var kms, vmax, ka, act := args[0], args[1], args[2], args[3];
    vmax * x * act / (kms * ka + (kms + x) * act)
  }

  /** `my_fiteq(params, x, rate)`: reads the parameters by name. */
  function Residual(table: seq<Param>, x: real, rate: real): (r: real)
    requires Defines(table, Order) && Defined(Args(table, Order), x)
    ensures r == Create(Args(table, Order), x) - rate
  {
    assert Has(table, Order[0]) && Has(table, Order[1]) && Has(table, Order[2]) && Has(table, Order[3]);
    var kms := Val(table, "kms");
    var vmax := Val(table, "v_max");
    var ka := Val(table, "ka");
    var act := Val(table, "act");
    vmax * x * act / (kms * ka + (kms + x) * act) - rate
  }

  /** With ka = 0 any activator level gives the Michaelis–Menten rate. */
  lemma TightActivator(kms: real, vmax: real, act: real, x: real)
    requires act != 0.0 && kms + x != 0.0
    ensures Create([kms, vmax, 0.0, act], x) == vmax * x / (kms + x)
  {
    assert vmax * x * act / ((kms + x) * act) == vmax * x / (kms + x);
  }

  /** Without activator there is no rate. */
  lemma NoActivator(kms: real, vmax: real, ka: real, x: real)
    requires kms * ka != 0.0
    ensures Create([kms, vmax, ka, 0.0], x) == 0.0
  {
  }
}

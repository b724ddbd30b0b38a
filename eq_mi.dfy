/** Mixed inhibition (irreversible): v = v_max·x/(km·(1 + inh/kis) + x·(1 + inh/kic)). */
module MixedInhibition {
  import opened Parameters
  import NoncompetitiveInhibition

  const Name: string := "Mixed inhibition (irr)"
  const Order: seq<string> := ["km", "v_max", "inh", "kis", "kic"]
  const Units: seq<string> := ["c", "r", "c", "c", "c"]
  const Defaults: seq<Param> :=
    [Add("km", 1.0, 0.0, 100.0), Add("v_max", 1.0, 0.0, 100.0), Add("inh", 1.0, 0.0, 100.0),
     Add("kis", 1.0, 0.0, 100.0), Add("kic", 1.0, 0.0, 100.0)]

  predicate Defined(args: seq<real>, x: real) {
    && |args| >= 5 && args[3] != 0.0 && args[4] != 0.0
    && args[0] * (1.0 + args[2] / args[3]) + x * (1.0 + args[2] / args[4]) != 0.0
  }

  /** `create_my_eq(km, v_max, inh, kis, kic, *_)` applied to `x`. */
  function Create(args: seq<real>, x: real): real
    requires Defined(args, x)
  {
    var km, vmax, inh, kis, kic := args[0], args[1], args[2], args[3], args[4];
    vmax * x / (km * (1.0 + inh / kis) + x * (1.0 + inh / kic))
  }

  /** `my_fiteq(params, x, rate)`: reads the parameters by name. */
  function Residual(table: seq<Param>, x: real, rate: real): (r: real)
    requires Defines(table, Order) && Defined(Args(table, Order), x)
    ensures r == Create(Args(table, Order), x) - rate
  {
    assert Has(table, Order[0]) && Has(table, Order[1]) && Has(table, Order[2]);
    assert Has(table, Order[3]) && Has(table, Order[4]);
    var km := Val(table, "km");
    var vmax := Val(table, "v_max");
    var inh := Val(table, "inh");
    var kis := Val(table, "kis");
    var kic := Val(table, "kic");
    vmax * x / (km * (1.0 + inh / kis) + x * (1.0 + inh / kic)) - rate
  }

  /** Without inhibitor the law is Michaelis–Menten (no enzyme factor). */
  lemma NoInhibitor(km: real, vmax: real, kis: real, kic: real, x: real)
    requires kis != 0.0 && kic != 0.0 && km + x != 0.0
    ensures Create([km, vmax, 0.0, kis, kic], x) == vmax * x / (km + x)
  {
  }

  /** With equal constants kis = kic the mixed law is the noncompetitive law. */
  lemma EqualConstantsIsNoncompetitive(km: real, vmax: real, inh: real, k: real, x: real)
    requires Defined([km, vmax, inh, k, k], x)
    ensures NoncompetitiveInhibition.Defined([km, vmax, inh, k], x)
    ensures Create([km, vmax, inh, k, k], x) == NoncompetitiveInhibition.Create([km, vmax, inh, k], x)
  {
    var f := 1.0 + inh / k;
    assert km * f + x * f == (km + x) * f;
  }
}

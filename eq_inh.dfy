/**
 * Allosteric (MWC) inhibition:
 * v = v_max·E·x·(ks + x)ⁿ⁻¹/(L·(ks·(1 + inh/ki))ⁿ + (ks + x)ⁿ).
 * The non-integer power is the function `pow` handed in by the caller.
 */
module AllostericInhibition {
  import opened Parameters
  import Ratios

  const Name: string := "Allosteric inhibition (MWC)"
  const Order: seq<string> := ["ks", "v_max", "n", "L", "Inh", "ki"]
  /** As written, n carries the concentration symbol and L none. */
  const Units: seq<string> := ["c", "r", "c", "", "c", "c"]
  const Defaults: seq<Param> :=
    [Add("ks", 1.0, 0.0, 100.0), Add("v_max", 1.0, 0.0, 100.0), Add("n", 1.0, 0.0, 100.0),
     Add("L", 1.0, 0.0, 100.0), Add("Inh", 1.0, 0.0, 100.0), Add("ki", 1.0, 0.0, 100.0)]

  /** The denominator of the law. */
  function Denominator(ks: real, n: real, l: real, inh: real, ki: real, pow: (real, real) -> real, x: real): real
    requires ki != 0.0
  {
    l * pow(ks * (1.0 + inh / ki), n) + pow(ks + x, n)
  }

  predicate Defined(args: seq<real>, pow: (real, real) -> real, x: real) {
    |args| >= 6 && args[5] != 0.0 && Denominator(args[0], args[2], args[3], args[4], args[5], pow, x) != 0.0
  }

  /** The rate law over named constants. */
  function Law(ks: real, vmax: real, n: real, l: real, inh: real, ki: real, pow: (real, real) -> real, e: real, x: real): real
    requires ki != 0.0 && Denominator(ks, n, l, inh, ki, pow, x) != 0.0
  {
    vmax * e * x * pow(ks + x, n - 1.0) / Denominator(ks, n, l, inh, ki, pow, x)
  }

  /** `create_ainh(ks, v_max, n, l, inh, ki, *_)` applied to `x`; E is read at every call. */
  function Create(args: seq<real>, pow: (real, real) -> real, e: real, x: real): real
    requires Defined(args, pow, x)
  {
    Law(args[0], args[1], args[2], args[3], args[4], args[5], pow, e, x)
  }

  /** `ainh_function(params, x, rate)`: reads the parameters by name. */
  function Residual(table: seq<Param>, pow: (real, real) -> real, e: real, x: real, rate: real): (r: real)
    requires Defines(table, Order) && Defined(Args(table, Order), pow, x)
    ensures r == Create(Args(table, Order), pow, e, x) - rate
  {
    assert Has(table, Order[0]) && Has(table, Order[1]) && Has(table, Order[2]);
    assert Has(table, Order[3]) && Has(table, Order[4]) && Has(table, Order[5]);
    Law(Val(table, "ks"), Val(table, "v_max"), Val(table, "n"), Val(table, "L"), Val(table, "Inh"), Val(table, "ki"), pow, e, x)
      - rate
  }

  /** No substrate, no rate. */
  lemma ZeroAtZero(args: seq<real>, pow: (real, real) -> real, e: real)
    requires Defined(args, pow, 0.0)
    ensures Create(args, pow, e, 0.0) == 0.0
  {
  }

  /**
   * With L = 0 the allosteric term vanishes and, where the power law
   * (ks + x)ⁿ = (ks + x)ⁿ⁻¹·(ks + x) holds, the law is Michaelis–Menten with enzyme factor.
   */
  lemma NoAllostery(ks: real, vmax: real, n: real, inh: real, ki: real, pow: (real, real) -> real, e: real, x: real)
    requires ki != 0.0 && ks + x > 0.0
    requires pow(ks + x, n) == pow(ks + x, n - 1.0) * (ks + x) && pow(ks + x, n) != 0.0
    ensures Defined([ks, vmax, n, 0.0, inh, ki], pow, x)
    ensures Create([ks, vmax, n, 0.0, inh, ki], pow, e, x) == vmax * e * x / (ks + x)
  {
    var p := pow(ks + x, n - 1.0);
    assert Denominator(ks, n, 0.0, inh, ki, pow, x) == p * (ks + x);
    assert p != 0.0;
    Ratios.CancelFactor(vmax * e * x, p, ks + x);
  }
}

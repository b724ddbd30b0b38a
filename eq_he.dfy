/**
 * Hill kinetics: v = v_max·xⁿ/(kh + xⁿ). There is no enzyme factor. The
 * non-integer power `x ** n` is the function `pow` handed in by the caller; the
 * lemmas name the laws of it they rely on.
 */
module Hill {
  import opened Parameters

  const Name: string := "Hills equation"
  const Order: seq<string> := ["kh", "v_max", "n"]
  const Units: seq<string> := ["c", "r", ""]
  const Defaults: seq<Param> :=
    [Add("kh", 1.0, 0.0, 100.0), Add("v_max", 1.0, 0.0, 100.0), Add("n", 1.0, 0.0, 10.0)]

  predicate Defined(args: seq<real>, pow: (real, real) -> real, x: real) {
    |args| >= 3 && args[0] + pow(x, args[2]) != 0.0
  }

  /** `create_he(kh, v_max, n, *_)` applied to `x`. */
  function Create(args: seq<real>, pow: (real, real) -> real, x: real): real
    requires Defined(args, pow, x)
  {
    var kh, vmax, n := args[0], args[1], args[2];
    (vmax * pow(x, n)) / (kh + pow(x, n))
  }

  /** `he_function(params, x, rate)`: reads the parameters by name. */
  function Residual(table: seq<Param>, pow: (real, real) -> real, x: real, rate: real): (r: real)
    requires Defines(table, Order) && Defined(Args(table, Order), pow, x)
    ensures r == Create(Args(table, Order), pow, x) - rate
  {
    assert Has(table, Order[0]) && Has(table, Order[1]) && Has(table, Order[2]);
    var kh := Val(table, "kh");
    var vmax := Val(table, "v_max");
    var n := Val(table, "n");
    (vmax * pow(x, n)) / (kh + pow(x, n)) - rate
  }

  /** Where xⁿ equals kh the rate is half of v_max. */
  lemma HalfMax(kh: real, vmax: real, n: real, pow: (real, real) -> real, x: real)
    requires kh != 0.0 && pow(x, n) == kh
    ensures Create([kh, vmax, n], pow, x) == vmax / 2.0
  {
  }

  /** With n = 1 (and x¹ = x) the Hill law is the Michaelis–Menten law without enzyme factor. */
  lemma HillOneIsHyperbolic(kh: real, vmax: real, pow: (real, real) -> real, x: real)
    requires pow(x, 1.0) == x && kh + x != 0.0
    ensures Create([kh, vmax, 1.0], pow, x) == vmax * x / (kh + x)
  {
  }
}

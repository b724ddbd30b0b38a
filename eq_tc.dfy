/**
 * Ternary-complex bi-bi kinetics for two substrates a and b, with and without
 * substrate inhibition by b. The two variants take their constants in
 * different positional orders.
 */
module TernaryComplex {
  import opened Parameters
  import Ratios

  const NameTc: string := "Ternary complex"
  const OrderTc: seq<string> := ["v_max", "kda", "kma", "kmb"]
  const UnitsTc: seq<string> := ["r", "c", "c", "c"]
  const DefaultsTc: seq<Param> :=
    [Add("v_max", 1.0, 0.0, 100.0), Add("kda", 1.0, 0.0, 100.0), Add("kma", 1.0, 0.0, 100.0), Add("kmb", 1.0, 0.0, 100.0)]

  const NameTcsi: string := "Ternary complex (substrate inhibition)"
  const OrderTcsi: seq<string> := ["v_max", "kma", "kmb", "kda", "ksib"]
  const UnitsTcsi: seq<string> := ["r", "c", "c", "c", "c"]
  const DefaultsTcsi: seq<Param> :=
    [Add("v_max", 1.0, 0.0, 100.0), Add("kma", 1.0, 0.0, 100.0), Add("kmb", 1.0, 0.0, 100.0),
     Add("kda", 1.0, 0.0, 100.0), Add("ksib", 1.0, 0.0, 100.0)]

  function DenomTc(kda: real, kma: real, kmb: real, a: real, b: real): real {
    kda * kmb + kmb * a + kma * b + b * a
  }

  function DenomTcsi(kma: real, kmb: real, kda: real, ksib: real, a: real, b: real): real
    requires ksib != 0.0
  {
    kda * kmb + kmb * a + kma * b + a * b * (1.0 + b / ksib)
  }

  function LawTc(vmax: real, kda: real, kma: real, kmb: real, a: real, b: real): real
    requires DenomTc(kda, kma, kmb, a, b) != 0.0
  {
    vmax * b * a / DenomTc(kda, kma, kmb, a, b)
  }

  function LawTcsi(vmax: real, kma: real, kmb: real, kda: real, ksib: real, a: real, b: real): real
    requires ksib != 0.0 && DenomTcsi(kma, kmb, kda, ksib, a, b) != 0.0
  {
    vmax * b * a / DenomTcsi(kma, kmb, kda, ksib, a, b)
  }

  predicate DefinedTc(args: seq<real>, a: real, b: real) {
    |args| >= 4 && DenomTc(args[1], args[2], args[3], a, b) != 0.0
  }

  predicate DefinedTcsi(args: seq<real>, a: real, b: real) {
    |args| >= 5 && args[4] != 0.0 && DenomTcsi(args[1], args[2], args[3], args[4], a, b) != 0.0
  }

  /** `create_tc(v_max, kda, kma, kmb, *_)` applied to `(a, b)`. */
  function CreateTc(args: seq<real>, a: real, b: real): real
    requires DefinedTc(args, a, b)
  {
    LawTc(args[0], args[1], args[2], args[3], a, b)
  }

  /** `create_tcsi(v_max, kma, kmb, kda, ksib, *_)` applied to `(a, b)`. */
  function CreateTcsi(args: seq<real>, a: real, b: real): real
    requires DefinedTcsi(args, a, b)
  {
    LawTcsi(args[0], args[1], args[2], args[3], args[4], a, b)
  }

  /** `tc_function(params, a, rate, b)`: reads the parameters by name. */
  function ResidualTc(table: seq<Param>, a: real, rate: real, b: real): (r: real)
    requires Defines(table, OrderTc) && DefinedTc(Args(table, OrderTc), a, b)
    ensures r == CreateTc(Args(table, OrderTc), a, b) - rate
  {
    assert Has(table, OrderTc[0]) && Has(table, OrderTc[1]) && Has(table, OrderTc[2]) && Has(table, OrderTc[3]);
    LawTc(Val(table, "v_max"), Val(table, "kda"), Val(table, "kma"), Val(table, "kmb"), a, b) - rate
  }

  /** `tcsi_function(params, a, rate, b)`: reads the parameters by name. */
  function ResidualTcsi(table: seq<Param>, a: real, rate: real, b: real): (r: real)
    requires Defines(table, OrderTcsi) && DefinedTcsi(Args(table, OrderTcsi), a, b)
    ensures r == CreateTcsi(Args(table, OrderTcsi), a, b) - rate
  {
    assert Has(table, OrderTcsi[0]) && Has(table, OrderTcsi[1]) && Has(table, OrderTcsi[2]);
    assert Has(table, OrderTcsi[3]) && Has(table, OrderTcsi[4]);
    LawTcsi(Val(table, "v_max"), Val(table, "kma"), Val(table, "kmb"), Val(table, "kda"), Val(table, "ksib"), a, b) - rate
  }

  /** Substrate inhibition adds a·b²/ksib to the ternary-complex denominator. */
  lemma InhibitionTerm(kda: real, kma: real, kmb: real, ksib: real, a: real, b: real)
    requires ksib != 0.0
    ensures DenomTcsi(kma, kmb, kda, ksib, a, b) == DenomTc(kda, kma, kmb, a, b) + a * b * b / ksib
  {
    assert a * b * (1.0 + b / ksib) == a * b + a * b * b / ksib;
  }

  /**
   * For positive constants and concentrations substrate inhibition lowers the rate;
   * each variant receives the same constants in its own positional order.
   */
  lemma InhibitedIsSlower(vmax: real, kda: real, kma: real, kmb: real, ksib: real, a: real, b: real)
    requires vmax > 0.0 && kda > 0.0 && kma > 0.0 && kmb > 0.0 && ksib > 0.0 && a > 0.0 && b > 0.0
    ensures DefinedTc([vmax, kda, kma, kmb], a, b) && DefinedTcsi([vmax, kma, kmb, kda, ksib], a, b)
    ensures CreateTcsi([vmax, kma, kmb, kda, ksib], a, b) < CreateTc([vmax, kda, kma, kmb], a, b)
  {
    InhibitionTerm(kda, kma, kmb, ksib, a, b);
    var d := DenomTc(kda, kma, kmb, a, b);
    var t := a * b * b / ksib;
    assert d > 0.0 && t > 0.0;
    Ratios.SmallerForLargerDenominator(vmax * b * a, d, d + t);
  }

  /** Either substrate missing, no rate, with or without substrate inhibition. */
  lemma ZeroWithoutSubstrate(args: seq<real>, argsSi: seq<real>, a: real, b: real)
    requires DefinedTc(args, a, b) && DefinedTcsi(argsSi, a, b) && (a == 0.0 || b == 0.0)
    ensures CreateTc(args, a, b) == 0.0 && CreateTcsi(argsSi, a, b) == 0.0
  {
  }
}

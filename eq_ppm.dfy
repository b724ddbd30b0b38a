/**
 * Ping-pong bi-bi kinetics for two substrates a and b, with and without
 * substrate inhibition by b.
 */
module PingPong {
  import opened Parameters
  import Ratios

  const NamePpm: string := "Ping-pong mechanism"
  const OrderPpm: seq<string> := ["v_max", "kma", "kmb"]
  const UnitsPpm: seq<string> := ["r", "c", "c"]
  const DefaultsPpm: seq<Param> :=
    [Add("v_max", 1.0, 0.0, 100.0), Add("kma", 1.0, 0.0, 100.0), Add("kmb", 1.0, 0.0, 100.0)]

  const NamePpmsi: string := "Ping-pong (substrate inhibition)"
  const OrderPpmsi: seq<string> := ["v_max", "kdb", "kma", "kmb"]
  const UnitsPpmsi: seq<string> := ["r", "c", "c", "c"]
  const DefaultsPpmsi: seq<Param> :=
    [Add("v_max", 1.0, 0.0, 100.0), Add("kdb", 1.0, 0.0, 100.0), Add("kma", 1.0, 0.0, 100.0), Add("kmb", 1.0, 0.0, 100.0)]

  function DenomPpm(kma: real, kmb: real, a: real, b: real): real {
    kmb * a + kma * b + a * b
  }

  function DenomPpmsi(kdb: real, kma: real, kmb: real, a: real, b: real): real
    requires kdb != 0.0
  {
    kmb * a + (kma * b) * (1.0 + b / kdb) + a * b
  }

  function LawPpm(vmax: real, kma: real, kmb: real, a: real, b: real): real
    requires DenomPpm(kma, kmb, a, b) != 0.0
  {
    vmax * b * a / DenomPpm(kma, kmb, a, b)
  }

  function LawPpmsi(vmax: real, kdb: real, kma: real, kmb: real, a: real, b: real): real
    requires kdb != 0.0 && DenomPpmsi(kdb, kma, kmb, a, b) != 0.0
  {
    vmax * b * a / DenomPpmsi(kdb, kma, kmb, a, b)
  }

  predicate DefinedPpm(args: seq<real>, a: real, b: real) {
    |args| >= 3 && DenomPpm(args[1], args[2], a, b) != 0.0
  }

  predicate DefinedPpmsi(args: seq<real>, a: real, b: real) {
    |args| >= 4 && args[1] != 0.0 && DenomPpmsi(args[1], args[2], args[3], a, b) != 0.0
  }

  /** `create_ppm(v_max, kma, kmb, *_)` applied to `(a, b)`. */
  function CreatePpm(args: seq<real>, a: real, b: real): real
    requires DefinedPpm(args, a, b)
  {
    LawPpm(args[0], args[1], args[2], a, b)
  }

  /** `create_ppmsi(v_max, kdb, kma, kmb, *_)` applied to `(a, b)`. */
  function CreatePpmsi(args: seq<real>, a: real, b: real): real
    requires DefinedPpmsi(args, a, b)
  {
    LawPpmsi(args[0], args[1], args[2], args[3], a, b)
  }

  /** `ppm_function(params, a, rate, b)`: reads the parameters by name. */
  function ResidualPpm(table: seq<Param>, a: real, rate: real, b: real): (r: real)
    requires Defines(table, OrderPpm) && DefinedPpm(Args(table, OrderPpm), a, b)
    ensures r == CreatePpm(Args(table, OrderPpm), a, b) - rate
  {
    assert Has(table, OrderPpm[0]) && Has(table, OrderPpm[1]) && Has(table, OrderPpm[2]);
    LawPpm(Val(table, "v_max"), Val(table, "kma"), Val(table, "kmb"), a, b) - rate
  }

  /** `ppmsi_function(params, a, rate, b)`: reads the parameters by name. */
  function ResidualPpmsi(table: seq<Param>, a: real, rate: real, b: real): (r: real)
    requires Defines(table, OrderPpmsi) && DefinedPpmsi(Args(table, OrderPpmsi), a, b)
    ensures r == CreatePpmsi(Args(table, OrderPpmsi), a, b) - rate
  {
    assert Has(table, OrderPpmsi[0]) && Has(table, OrderPpmsi[1]) && Has(table, OrderPpmsi[2]) && Has(table, OrderPpmsi[3]);
    LawPpmsi(Val(table, "v_max"), Val(table, "kdb"), Val(table, "kma"), Val(table, "kmb"), a, b) - rate
  }

  /** Substrate inhibition adds kma·b²/kdb to the ping-pong denominator. */
  lemma InhibitionTerm(kdb: real, kma: real, kmb: real, a: real, b: real)
    requires kdb != 0.0
    ensures DenomPpmsi(kdb, kma, kmb, a, b) == DenomPpm(kma, kmb, a, b) + kma * b * b / kdb
  {
    assert (kma * b) * (1.0 + b / kdb) == kma * b + kma * b * b / kdb;
  }

  /** For positive constants and concentrations substrate inhibition lowers the rate. */
  lemma InhibitedIsSlower(vmax: real, kdb: real, kma: real, kmb: real, a: real, b: real)
    requires vmax > 0.0 && kdb > 0.0 && kma > 0.0 && kmb > 0.0 && a > 0.0 && b > 0.0
    ensures DefinedPpm([vmax, kma, kmb], a, b) && DefinedPpmsi([vmax, kdb, kma, kmb], a, b)
    ensures CreatePpmsi([vmax, kdb, kma, kmb], a, b) < CreatePpm([vmax, kma, kmb], a, b)
  {
    InhibitionTerm(kdb, kma, kmb, a, b);
    var d := DenomPpm(kma, kmb, a, b);
    var t := kma * b * b / kdb;
    assert d > 0.0 && t > 0.0;
    var n := vmax * b * a;
    assert n > 0.0;
    assert n / (d + t) < n / d by {
      Ratios.SmallerForLargerDenominator(n, d, d + t);
    }
  }

  /** The ping-pong law is symmetric in (a, kma) and (b, kmb). */
  lemma Symmetric(vmax: real, kma: real, kmb: real, a: real, b: real)
    requires DenomPpm(kma, kmb, a, b) != 0.0
    ensures DefinedPpm([vmax, kmb, kma], b, a)
    ensures CreatePpm([vmax, kma, kmb], a, b) == CreatePpm([vmax, kmb, kma], b, a)
  {
    assert DenomPpm(kma, kmb, a, b) == DenomPpm(kmb, kma, b, a);
    assert vmax * b * a == vmax * a * b;
  }

  /** Either substrate missing, no rate, with or without substrate inhibition. */
  lemma ZeroWithoutSubstrate(args: seq<real>, argsSi: seq<real>, a: real, b: real)
    requires DefinedPpm(args, a, b) && DefinedPpmsi(argsSi, a, b) && (a == 0.0 || b == 0.0)
    ensures CreatePpm(args, a, b) == 0.0 && CreatePpmsi(argsSi, a, b) == 0.0
  {
  }
}

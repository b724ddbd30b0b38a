/**
 * The lmfit parameter table the rate laws read: an ordered collection of named
 * parameters, each with a value, a lower and an upper bound and a `vary` flag.
 * Bounds are extended reals because unchecked bounds become `-inf`/`+inf`.
 */
module Parameters {
  import opened Wrappers

  /** A bound: a finite real or one of the two infinities. */
  datatype Ext = NegInf | Fin(r: real) | PosInf

  /** `a < b` over the extended reals. */
  predicate Less(a: Ext, b: Ext) {
    match (a, b)
    case (NegInf, NegInf) => false
    case (NegInf, _) => true
    case (Fin(x), Fin(y)) => x < y
    case (Fin(_), PosInf) => true
    case (Fin(_), NegInf) => false
    case (PosInf, _) => false
  }

  /** One `lmfit.Parameter`. */
  datatype Param = Param(name: string, value: real, min: Ext, max: Ext, vary: bool)

  /** `add(name, value=v, min=lo, max=hi)`: a varying parameter with finite bounds. */
  function Add(name: string, value: real, lo: real, hi: real): Param {
    Param(name, value, Fin(lo), Fin(hi), true)
  }

  /** Position of the parameter called `name`, if any. */
  function IndexOf(table: seq<Param>, name: string): (r: Option<nat>)
    ensures r.Some? ==> r.value < |table| && table[r.value].name == name
    ensures r.Some? ==> forall k :: 0 <= k < r.value ==> table[k].name != name
    ensures r.None? ==> forall k :: 0 <= k < |table| ==> table[k].name != name
    decreases |table|
  {
    if table == [] then None
    else if table[0].name == name then Some(0)
    else
      match IndexOf(table[1..], name)
      case None => None
      case Some(k) => Some(k + 1)
  }

  predicate Has(table: seq<Param>, name: string) {
    IndexOf(table, name).Some?
  }

  /** `params[name].value`. */
  function Val(table: seq<Param>, name: string): real
    requires Has(table, name)
  {
    table[IndexOf(table, name).value].value
  }

  /** Every name of `names` is a parameter of `table`. */
  predicate Defines(table: seq<Param>, names: seq<string>) {
    forall i :: 0 <= i < |names| ==> Has(table, names[i])
  }

  /** The names of a table, in insertion order. */
  function Names(table: seq<Param>): (r: seq<string>)
    ensures |r| == |table| && forall i :: 0 <= i < |table| ==> r[i] == table[i].name
  {
    seq(|table|, i requires 0 <= i < |table| => table[i].name)
  }

  /** `[params[n].value for n in order]`: the positional arguments of a model factory. */
  function Args(table: seq<Param>, order: seq<string>): (r: seq<real>)
    requires Defines(table, order)
    ensures |r| == |order|
    ensures forall i :: 0 <= i < |order| ==> r[i] == Val(table, order[i])
  {
    seq(|order|, i requires 0 <= i < |order| && Defines(table, order) => Val(table, order[i]))
  }

  /** A table whose names are pairwise distinct: every name reads its own entry. */
  predicate DistinctNames(table: seq<Param>) {
    forall i, j :: 0 <= i < j < |table| ==> table[i].name != table[j].name
  }

  /** In a table with distinct names, looking a parameter up by its name finds it. */
  lemma {:induction false} LookupOwnName(table: seq<Param>, i: nat)
    requires DistinctNames(table) && i < |table|
    ensures IndexOf(table, table[i].name) == Some(i)
  {
    var r := IndexOf(table, table[i].name);
    assert table[i].name == table[i].name;
  }

  /** A table with distinct names defines exactly its own names. */
  lemma DefinesOwnNames(table: seq<Param>)
    requires DistinctNames(table)
    ensures Defines(table, Names(table))
    ensures forall i :: 0 <= i < |table| ==> Val(table, table[i].name) == table[i].value
  {
    forall i | 0 <= i < |table| ensures IndexOf(table, table[i].name) == Some(i) {
      LookupOwnName(table, i);
    }
  }
}

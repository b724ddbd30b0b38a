/**
 * The spreadsheet export (`ModelsIO`): the input data, or the data with the
 * predicted rates and the fitted parameters, written row by row into
 * openpyxl worksheets. A worksheet is its title and its rows of cells;
 * writing the workbook to a file is not modelled.
 */
module ModelsIO {
  import opened Wrappers
  import opened Text
  import opened Parameters
  import opened RateLaws
  import opened FitParams
  import opened DataFitting
  import opened DataStorage

  /**
   * A worksheet cell: a text, a finite number, a float infinity, the
   * non-finite quotient a law gives where its denominator vanishes, or an
   * empty cell (`None`).
   */
  datatype Cell = Str(s: string) | Num(v: real) | Infinite(negative: bool) | NotFinite | Blank

  /** An openpyxl worksheet: its tab title and the rows appended so far. */
  class Sheet {
    const title: string
    var rows: seq<seq<Cell>>

    constructor (title: string)
      ensures this.title == title && rows == []
    {
      this.title := title;
      rows := [];
    }

    /** `ws.append(row)`. */
    method Append(row: seq<Cell>)
      modifies this
      ensures rows == old(rows) + [row]
    {
      rows := rows + [row];
    }
  }

  /** An openpyxl workbook: its worksheets in tab order, starting with the default one. */
  class Workbook {
    var sheets: seq<Sheet>

    /** `openpyxl.Workbook()`: one empty default sheet. */
    constructor ()
      ensures |sheets| == 1 && fresh(sheets[0]) && sheets[0].title == "Sheet" && sheets[0].rows == []
    {
      var ws := new Sheet("Sheet");
      sheets := [ws];
    }

    /** `new_tab(wb, tab_name)`: a new empty sheet with that title, added last. */
    method NewTab(name: string) returns (ws: Sheet)
      modifies this
      ensures fresh(ws) && ws.title == name && ws.rows == []
      ensures sheets == old(sheets) + [ws]
    {
      ws := new Sheet(name);
      sheets := sheets + [ws];
    }

    /** `wb.worksheets = wb.worksheets[1:]`: the default sheet is dropped. */
    method DropFirst()
      modifies this
      ensures sheets == if old(|sheets|) == 0 then [] else old(sheets)[1..]
    {
      if |sheets| > 0 {
        sheets := sheets[1..];
      }
    }
  }

  /** Blocks of cells side by side, as `row += block` in a loop lays them out. */
  function Flat(bs: seq<seq<Cell>>): seq<Cell>
    decreases |bs|
  {
    if bs == [] then [] else Flat(bs[..|bs| - 1]) + bs[|bs| - 1]
  }

  /** One more block at the end of the loop. */
  lemma FlatSnoc(bs: seq<seq<Cell>>, k: nat)
    requires k < |bs|
    ensures Flat(bs[..k + 1]) == Flat(bs[..k]) + bs[k]
  {
    assert bs[..k + 1][..k] == bs[..k];
  }

  /** Multiplying by one more. */
  lemma MulSucc(a: nat, w: nat)
    ensures (a + 1) * w == a * w + w
  {
  }

  lemma {:induction false} FlatLength(bs: seq<seq<Cell>>, w: nat)
    requires forall k :: 0 <= k < |bs| ==> |bs[k]| == w
    ensures |Flat(bs)| == |bs| * w
    decreases |bs|
  {
    if bs != [] {
      var n := |bs|;
      FlatLength(bs[..n - 1], w);
      MulSucc(n - 1, w);
    }
  }

  /** Blocks of equal width `w`: cell `j` of block `i` sits at `i * w + j`. */
  lemma FlatAt(bs: seq<seq<Cell>>, w: nat, i: nat, j: nat)
    requires forall k :: 0 <= k < |bs| ==> |bs[k]| == w
    requires i < |bs| && j < w
    ensures |Flat(bs)| == |bs| * w && i * w + j < |bs| * w
    ensures Flat(bs)[i * w + j] == bs[i][j]
  {
    FlatBlock(bs, w, i);
  }

  /** One more element of a sequence's prefix. */
  lemma TakeSnoc<T>(xs: seq<T>, k: nat, x: T)
    requires k < |xs| && xs[k] == x
    ensures xs[..k + 1] == xs[..k] + [x]
  {
  }

  /** The first `k` cells of a slice of `n`. */
  lemma SliceTake(row: seq<Cell>, lo: nat, n: nat, k: nat)
    requires k <= n && lo + n <= |row|
    ensures row[lo .. lo + k] == row[lo .. lo + n][..k]
  {
  }

  /** Flattening distributes over concatenation. */
  lemma {:induction false} FlatConcat(x: seq<seq<Cell>>, y: seq<seq<Cell>>)
    ensures Flat(x + y) == Flat(x) + Flat(y)
    decreases |y|
  {
    if y == [] {
      assert x + y == x;
    } else {
      var m := |y| - 1;
      assert (x + y)[..|x + y| - 1] == x + y[..m];
      FlatConcat(x, y[..m]);
      assert Flat(x + y) == Flat(x) + Flat(y[..m]) + y[m];
    }
  }

  /** The middle operand of a concatenation, sliced back out. */
  lemma SliceMiddle(x: seq<Cell>, y: seq<Cell>, z: seq<Cell>)
    ensures (x + y + z)[|x| .. |x| + |y|] == y
  {
  }

  /** Blocks of equal width `w`: block `i` is the slice from `i * w` to `i * w + w`. */
  lemma FlatBlock(bs: seq<seq<Cell>>, w: nat, i: nat)
    requires forall k :: 0 <= k < |bs| ==> |bs[k]| == w
    requires i < |bs|
    ensures |Flat(bs)| == |bs| * w && i * w + w <= |bs| * w
    ensures Flat(bs)[i * w .. i * w + w] == bs[i]
  {
    var x, z := bs[..i], bs[i + 1..];
    assert bs == x + [bs[i]] + z;
    FlatConcat(x + [bs[i]], z);
    FlatConcat(x, [bs[i]]);
    assert Flat([bs[i]]) == bs[i];
    FlatLength(x, w);
    FlatLength(bs, w);
    SliceMiddle(Flat(x), bs[i], Flat(z));
  }

  /** `'Replicate {}'.format(k)`. */
  function Label(k: nat): string {
    "Replicate " + NatToString(k)
  }

  /** `'Set {}'.format(k)`. */
  function SetLabel(k: nat): string {
    "Set " + NatToString(k)
  }

  /** Replicate `k`'s cells in a title row: its label, then blanks up to the block width `w`. */
  function TitleBlock(k: nat, w: nat): (b: seq<Cell>)
    requires w >= 1
    ensures |b| == w
  {
    [Str(Label(k + 1))] + Repeat(Str(""), w - 1)
  }

  function TitleBlocks(n: nat, w: nat): (bs: seq<seq<Cell>>)
    requires w >= 1
    ensures |bs| == n && forall k :: 0 <= k < n ==> bs[k] == TitleBlock(k, w)
  {
    seq(n, k requires 0 <= k < n => TitleBlock(k, w))
  }

  /** The replicate title row: `for i in range(n): row += ['Replicate {}'.format(i+1), '', ...]`. */
  method TitleRow(n: nat, w: nat) returns (row: seq<Cell>)
    requires w >= 1
    ensures row == Flat(TitleBlocks(n, w))
  {
    row := [];
    var i := 0;
    while i < n
      invariant i <= n && row == Flat(TitleBlocks(n, w)[..i])
    {
      FlatSnoc(TitleBlocks(n, w), i);
      row := row + [Str(Label(i + 1))] + Repeat(Str(""), w - 1);
      i := i + 1;
    }
    assert TitleBlocks(n, w)[..n] == TitleBlocks(n, w);
  }

  /** The title row has `w` cells per replicate: the replicate's label, then blanks. */
  lemma TitleRowCells(n: nat, w: nat, i: nat, j: nat)
    requires w >= 1 && i < n && j < w
    ensures |Flat(TitleBlocks(n, w))| == n * w && i * w + j < n * w
    ensures Flat(TitleBlocks(n, w))[i * w + j] == (if j == 0 then Str(Label(i + 1)) else Str(""))
  {
    var bs := TitleBlocks(n, w);
    FlatAt(bs, w, i, j);
    var b := TitleBlock(i, w);
    assert bs[i] == b;
    assert b[j] == if j == 0 then Str(Label(i + 1)) else Str("");
  }

  /** A header row: the column names of one replicate, `* n` (Python list repetition). */
  function Header(names: seq<Cell>, n: nat): seq<Cell> {
    Flat(Repeat(names, n))
  }

  /** The header row repeats the replicate's column names once per replicate. */
  lemma HeaderCells(names: seq<Cell>, n: nat, i: nat, j: nat)
    requires i < n && j < |names|
    ensures |Header(names, n)| == n * |names| && i * |names| + j < n * |names|
    ensures Header(names, n)[i * |names| + j] == names[j]
  {
    FlatAt(Repeat(names, n), |names|, i, j);
  }

  /** What a run's rows end with, and whether the run completed or raised. */
  datatype Emitted = Emitted(rows: seq<seq<Cell>>, outcome: Outcome)

  /**
   * A fit as the export reads it: its parameter table and units, and its
   * `function`, the closure the law's factory returned, giving the cell
   * written for a point (variable concentration, then the constant one).
   */
  datatype Prediction = Prediction(fit: Fit, fn: (real, real) -> Cell)

  /** The law at the fitted values, non-finite where its denominator vanishes. */
  function LawCell(f: Fit, env: Env, x: real, b: real): (c: Cell)
    ensures c.Num? <==> Defined(f.mech, f.args, env, x, b)
  {
    if Defined(f.mech, f.args, env, x, b) then Num(Predict(f.mech, f.args, env, x, b)) else NotFinite
  }

  /** `fit.function`: `param_object.eq(*values)`, the law closed over the fitted values. */
  function FitFunction(f: Fit, env: Env): (real, real) -> Cell {
    (x, b) => LawCell(f, env, x, b)
  }

  /** A bound as the sheet shows it: infinite bounds as the text `str` gives them, finite ones as numbers. */
  function BoundCell(e: Ext): (c: Cell)
    ensures c.Num? <==> e.Fin?
    ensures !c.Num? ==> c == Str(if e.NegInf? then "-inf" else "inf")
  {
    match e
    case NegInf => Str("-inf")
    case PosInf => Str("inf")
    case Fin(r) => Num(r)
  }

  /**
   * The bound cell as written: only a bound equal to `-inf` becomes text, the
   * upper bound being compared with `-inf` as well, so `+inf` stays a float.
   */
  function BoundCellAsWritten(e: Ext): Cell {
    match e
    case NegInf => Str("-inf")
    case PosInf => Infinite(false)
    case Fin(r) => Num(r)
  }

  /** An upper bound left at `+inf` is written as a float infinity, not as the text the lower bound gets. */
  lemma UpperInfinityAsWritten()
    ensures BoundCellAsWritten(PosInf) == Infinite(false) != BoundCell(PosInf)
    ensures BoundCellAsWritten(NegInf) == BoundCell(NegInf) == Str("-inf")
  {
  }

  /** The unit `get_units` gives, as a cell; `None` leaves it empty. */
  function UnitCell(u: Option<string>): Cell {
    if u.Some? then Str(u.value) else Blank
  }

  /** `[param, vals.value, min_val, max_val, fit.get_units(param, exp_data)]`; `get_units` may raise. */
  function ParamRow(p: Param, f: Fit, cunit: string, runit: string): Result<seq<Cell>> {
    match GetUnits(f.order, f.units, p.name, cunit, runit)
    case Err(e) => Err(e)
    case Ok(u) => Ok([Str(p.name), Num(p.value), BoundCell(p.min), BoundCell(p.max), UnitCell(u)])
  }

  /** `ParamRow` of each fitted parameter, in table order. */
  function ParamRows(ps: seq<Param>, f: Fit, cunit: string, runit: string): (rs: seq<Result<seq<Cell>>>)
    ensures |rs| == |ps| && forall i :: 0 <= i < |ps| ==> rs[i] == ParamRow(ps[i], f, cunit, runit)
  {
    seq(|ps|, i requires 0 <= i < |ps| => ParamRow(ps[i], f, cunit, runit))
  }

  /** The first `k` rows appended one by one, stopping at the first that raises. */
  function UntilRaised(rs: seq<Result<seq<Cell>>>, k: nat): (e: Emitted)
    requires k <= |rs|
    ensures |e.rows| <= k
    decreases k
  {
    if k == 0 then Emitted([], Done)
    else
      var prev := UntilRaised(rs, k - 1);
      if prev.outcome.Raised? then prev
      else
        match rs[k - 1]
        case Err(e) => Emitted(prev.rows, Raised(e))
        case Ok(row) => Emitted(prev.rows + [row], Done)
  }

  /** Once a row has raised, the later ones add nothing. */
  lemma {:induction false} UntilRaisedStays(rs: seq<Result<seq<Cell>>>, j: nat, m: nat)
    requires j <= m <= |rs| && UntilRaised(rs, j).outcome.Raised?
    ensures UntilRaised(rs, m) == UntilRaised(rs, j)
    decreases m - j
  {
    if j < m {
      UntilRaisedStays(rs, j, m - 1);
    }
  }

  /** When no row raises, every row is appended, in order. */
  lemma {:induction false} UntilRaisedAllOk(rs: seq<Result<seq<Cell>>>, k: nat)
    requires k <= |rs| && forall i :: 0 <= i < k ==> rs[i].Ok?
    ensures UntilRaised(rs, k).outcome == Done && |UntilRaised(rs, k).rows| == k
    ensures forall i :: 0 <= i < k ==> UntilRaised(rs, k).rows[i] == rs[i].value
    decreases k
  {
    if k > 0 {
      UntilRaisedAllOk(rs, k - 1);
    }
  }

  /** The parameter row of a fitted table whose names are the law's `param_order`, with a unit symbol each. */
  lemma ParamRowOfModel(ps: seq<Param>, f: Fit, cunit: string, runit: string, i: nat)
    requires Names(ps) == f.order && |f.units| == |f.order| && DistinctNames(ps) && i < |ps|
    ensures ParamRow(ps[i], f, cunit, runit)
      == Ok([Str(ps[i].name), Num(ps[i].value), BoundCell(ps[i].min), BoundCell(ps[i].max), UnitCell(UnitFor(f.units[i], cunit, runit))])
  {
    FirstIndexOfDistinct(ps, i);
  }

  /**
   * The table a complete fit writes: per parameter its name, fitted value,
   * bounds and unit.
   */
  function ParamTable(ps: seq<Param>, f: Fit, cunit: string, runit: string): seq<seq<Cell>>
    requires |ps| <= |f.units|
  {
    seq(|ps|, i requires 0 <= i < |ps| <= |f.units| =>
      [Str(ps[i].name), Num(ps[i].value), BoundCell(ps[i].min), BoundCell(ps[i].max), UnitCell(UnitFor(f.units[i], cunit, runit))])
  }

  /**
   * For a fitted table whose names are the law's `param_order`, with a unit
   * symbol each, `output_fit_ss` completes the parameter loop and writes the
   * whole `ParamTable`.
   */
  lemma ParamRowsOfModel(ps: seq<Param>, f: Fit, cunit: string, runit: string)
    requires Names(ps) == f.order && |f.units| == |f.order| && DistinctNames(ps)
    ensures UntilRaised(ParamRows(ps, f, cunit, runit), |ps|) == Emitted(ParamTable(ps, f, cunit, runit), Done)
  {
    var rs := ParamRows(ps, f, cunit, runit);
    var table := ParamTable(ps, f, cunit, runit);
    forall i | 0 <= i < |ps|
      ensures rs[i] == Ok(table[i])
    {
      ParamRowOfModel(ps, f, cunit, runit, i);
    }
    UntilRaisedAllOk(rs, |ps|);
    assert UntilRaised(rs, |ps|).rows == table;
  }

  /** In a table with distinct names, `param_order.index(name)` finds the parameter's own position. */
  lemma FirstIndexOfDistinct(ps: seq<Param>, i: nat)
    requires DistinctNames(ps) && i < |ps|
    ensures FirstIndex(Names(ps), ps[i].name) == Some(i)
  {
    var r := FirstIndex(Names(ps), ps[i].name);
    assert Names(ps)[i] == ps[i].name;
  }

  /** `for param in fit.params: ws.append([...])`. */
  method OutputParams(ws: Sheet, f: Fit, cunit: string, runit: string) returns (o: Outcome)
    modifies ws
    ensures var e := UntilRaised(ParamRows(f.solution.params, f, cunit, runit), |f.solution.params|);
      o == e.outcome && ws.rows == old(ws.rows) + e.rows
  {
    o := AppendUntilRaised(ws, ParamRows(f.solution.params, f, cunit, runit));
  }

  /** Rows appended one after the other. */
  method AppendAll(ws: Sheet, rows: seq<seq<Cell>>)
    modifies ws
    ensures ws.rows == old(ws.rows) + rows
  {
    var k := 0;
    while k < |rows|
      invariant k <= |rows| && ws.rows == old(ws.rows) + rows[..k]
    {
      ws.Append(rows[k]);
      assert rows[..k + 1] == rows[..k] + [rows[k]];
      k := k + 1;
    }
    assert rows[..|rows|] == rows;
  }

  /** The loop appending each row in turn, ending at the first one that raises. */
  method AppendUntilRaised(ws: Sheet, rs: seq<Result<seq<Cell>>>) returns (o: Outcome)
    modifies ws
    ensures o == UntilRaised(rs, |rs|).outcome && ws.rows == old(ws.rows) + UntilRaised(rs, |rs|).rows
  {
    var k := 0;
    while k < |rs|
      invariant k <= |rs|
      invariant UntilRaised(rs, k).outcome == Done
      invariant ws.rows == old(ws.rows) + UntilRaised(rs, k).rows
    {
      var row := rs[k];
      if row.Err? {
        UntilRaisedStays(rs, k + 1, |rs|);
        return Raised(row.error);
      }
      ws.Append(row.value);
      k := k + 1;
    }
    o := Done;
  }

  /** The rows that open the fit-parameter table. */
  const ParamHead: seq<seq<Cell>> :=
    [[], [Str("Fit parameters")], [Str(""), Str("Fitted value"), Str("Lower bound"), Str("Upper bound")]]

  /** Cells per replicate in a single-substrate row: concentration and rate, then the prediction when fitted. */
  function SsWidth(pred: Option<Prediction>): nat {
    if pred.Some? then 3 else 2
  }

  /** The column names of one replicate on a single-substrate sheet. */
  function SsNames(cunit: string, runit: string, pred: Option<Prediction>): (names: seq<Cell>)
    ensures |names| == SsWidth(pred)
  {
    [Str("Concentration [" + cunit + "]"), Str("Rate (experimental) [" + runit + "]")]
      + (if pred.Some? then [Str("Rate (predicted) [" + runit + "]")] else [])
  }

  /** Concentration and rate arrays paired replicate by replicate. */
  predicate Paired(cs: seq<seq<real>>, rs: seq<seq<real>>) {
    |cs| == |rs| && forall i :: 0 <= i < |cs| ==> |cs[i]| == |rs[i]|
  }

  /** `max([len(rep) for rep in exp_data.concentrations])`. */
  function MaxLen(xs: seq<seq<real>>): (m: nat)
    requires xs != []
    ensures forall i :: 0 <= i < |xs| ==> |xs[i]| <= m
    ensures exists i :: 0 <= i < |xs| && |xs[i]| == m
    decreases |xs|
  {
    if |xs| == 1 then |xs[0]|
    else
      var m := MaxLen(xs[1..]);
      assert forall i :: 1 <= i < |xs| ==> xs[i] == xs[1..][i - 1];
      if |xs[0]| >= m then |xs[0]| else m
  }

  /** Replicate `i`'s cells in data row `drow`: its point (and prediction), or blanks once its rates have run out. */
  function PointCells(cs: seq<seq<real>>, rs: seq<seq<real>>, drow: nat, i: nat, pred: Option<Prediction>): (b: seq<Cell>)
    requires Paired(cs, rs) && i < |cs|
    ensures |b| == SsWidth(pred)
  {
    if |rs[i]| - 1 < drow then (if pred.Some? then [Str(""), Str(""), Str("")] else [Str(""), Str("")])
    else if pred.Some? then [Num(cs[i][drow]), Num(rs[i][drow]), pred.value.fn(cs[i][drow], 0.0)]
    else [Num(cs[i][drow]), Num(rs[i][drow])]
  }

  function PointBlocks(cs: seq<seq<real>>, rs: seq<seq<real>>, drow: nat, pred: Option<Prediction>): (bs: seq<seq<Cell>>)
    requires Paired(cs, rs)
    ensures |bs| == |cs| && forall i :: 0 <= i < |cs| ==> bs[i] == PointCells(cs, rs, drow, i, pred)
  {
    seq(|cs|, i requires 0 <= i < |cs| && Paired(cs, rs) => PointCells(cs, rs, drow, i, pred))
  }

  /** Data row `d`: every replicate's block, side by side. */
  function SsRow(cs: seq<seq<real>>, rs: seq<seq<real>>, d: nat, pred: Option<Prediction>): seq<Cell>
    requires Paired(cs, rs)
  {
    Flat(PointBlocks(cs, rs, d, pred))
  }

  /** The data rows: one per point of the longest replicate. */
  function SsDataRows(cs: seq<seq<real>>, rs: seq<seq<real>>, pred: Option<Prediction>): (rows: seq<seq<Cell>>)
    requires Paired(cs, rs) && cs != []
    ensures |rows| == MaxLen(cs) && forall d :: 0 <= d < |rows| ==> rows[d] == SsRow(cs, rs, d, pred)
  {
    seq(MaxLen(cs), d requires 0 <= d && Paired(cs, rs) => SsRow(cs, rs, d, pred))
  }

  /**
   * What `output_data_ss` (no prediction) or `output_fit_ss` writes first:
   * the replicate title row and the header row for `n` replicates.
   */
  function SsTop(n: nat, cunit: string, runit: string, pred: Option<Prediction>): seq<seq<Cell>> {
    [Flat(TitleBlocks(n, SsWidth(pred))), Header(SsNames(cunit, runit, pred), n)]
  }

  /**
   * What follows the header row for concentration and rate lists `cs`, `rs`:
   * `max` over the lengths raises TypeError before the first replicate and
   * ValueError once every replicate is deleted; otherwise the data rows and,
   * for a fit, the parameter table.
   */
  function SsRest(cs: Option<seq<seq<real>>>, rs: Option<seq<seq<real>>>, cunit: string, runit: string, pred: Option<Prediction>): Emitted
    requires (cs.None? <==> rs.None?) && Paired(Listed(cs), Listed(rs))
  {
    if cs.None? then Emitted([], Raised(TypeError))
    else if cs.value == [] then Emitted([], Raised(ValueError))
    else SsBody(cs.value, rs.value, cunit, runit, pred)
  }

  /** The data rows, then for a fit the parameter table, whose `get_units` may raise. */
  function SsBody(cs: seq<seq<real>>, rs: seq<seq<real>>, cunit: string, runit: string, pred: Option<Prediction>): Emitted
    requires Paired(cs, rs) && cs != []
  {
    var rows := SsDataRows(cs, rs, pred);
    if pred.None? then Emitted(rows, Done)
    else
      var ps := pred.value.fit.solution.params;
      var params := UntilRaised(ParamRows(ps, pred.value.fit, cunit, runit), |ps|);
      Emitted(rows + ParamHead + params.rows, params.outcome)
  }

  /** One data row: `for i in range(exp_data.replicates): row += [...]`, blanks for a replicate already ended. */
  method PointRow(cs: seq<seq<real>>, rs: seq<seq<real>>, drow: nat, pred: Option<Prediction>) returns (row: seq<Cell>)
    requires Paired(cs, rs)
    ensures row == SsRow(cs, rs, drow, pred)
  {
    row := [];
    var i := 0;
    while i < |cs|
      invariant i <= |cs| && row == Flat(PointBlocks(cs, rs, drow, pred)[..i])
    {
      FlatSnoc(PointBlocks(cs, rs, drow, pred), i);
      if |rs[i]| - 1 < drow {
        row := row + if pred.Some? then [Str(""), Str(""), Str("")] else [Str(""), Str("")];
      } else if pred.Some? {
        row := row + [Num(cs[i][drow]), Num(rs[i][drow]), pred.value.fn(cs[i][drow], 0.0)];
      } else {
        row := row + [Num(cs[i][drow]), Num(rs[i][drow])];
      }
      i := i + 1;
    }
    assert PointBlocks(cs, rs, drow, pred)[..|cs|] == PointBlocks(cs, rs, drow, pred);
  }

  /** `for drow in range(row_nums): ... ws.append(row)`. */
  method OutputPoints(ws: Sheet, cs: seq<seq<real>>, rs: seq<seq<real>>, pred: Option<Prediction>)
    requires Paired(cs, rs) && cs != []
    modifies ws
    ensures ws.rows == old(ws.rows) + SsDataRows(cs, rs, pred)
  {
    ghost var rows := SsDataRows(cs, rs, pred);
    var rowNums := MaxLen(cs);
    var drow := 0;
    while drow < rowNums
      invariant drow <= rowNums && ws.rows == old(ws.rows) + rows[..drow]
    {
      var row := PointRow(cs, rs, drow, pred);
      ws.Append(row);
      TakeSnoc(rows, drow, row);
      drow := drow + 1;
    }
    assert rows[..rowNums] == rows;
  }

  /**
   * `output_data_ss(ws, exp_data)` when `pred` is `None`, `output_fit_ss(ws,
   * exp_data, fit)` otherwise: the title and header rows, then what
   * `SsRest` describes, whose outcome is returned.
   */
  method OutputSs(ws: Sheet, data: OneSubstrate, pred: Option<Prediction>) returns (o: Outcome)
    requires data.Valid()
    requires pred.Some? ==> !TwoSubstrate(pred.value.fit.mech)
    modifies ws
    ensures var rest := SsRest(data.concentrations, data.rates, data.cunit, data.runit, pred);
      && o == rest.outcome
      && ws.rows == old(ws.rows) + SsTop(data.replicates, data.cunit, data.runit, pred) + rest.rows
  {
    OutputTop(ws, data.replicates, SsWidth(pred), SsNames(data.cunit, data.runit, pred));
    o := OutputSsRest(ws, data.concentrations, data.rates, data.cunit, data.runit, pred);
  }

  /** What follows the header row. */
  method OutputSsRest(ws: Sheet, cs: Option<seq<seq<real>>>, rs: Option<seq<seq<real>>>, cunit: string, runit: string, pred: Option<Prediction>)
    returns (o: Outcome)
    requires (cs.None? <==> rs.None?) && Paired(Listed(cs), Listed(rs))
    modifies ws
    ensures var e := SsRest(cs, rs, cunit, runit, pred);
      o == e.outcome && ws.rows == old(ws.rows) + e.rows
  {
    if cs.None? {
      return Raised(TypeError);
    }
    if cs.value == [] {
      return Raised(ValueError);
    }
    o := OutputSsBody(ws, cs.value, rs.value, cunit, runit, pred);
  }

  /** The replicate title row and the header row of `n` replicates, `w` cells each. */
  method OutputTop(ws: Sheet, n: nat, w: nat, names: seq<Cell>)
    requires w >= 1
    modifies ws
    ensures ws.rows == old(ws.rows) + [Flat(TitleBlocks(n, w)), Header(names, n)]
  {
    var title := TitleRow(n, w);
    ws.Append(title);
    ws.Append(Header(names, n));
  }

  /** The data rows and, for a fit, the parameter table. */
  method OutputSsBody(ws: Sheet, cs: seq<seq<real>>, rs: seq<seq<real>>, cunit: string, runit: string, pred: Option<Prediction>)
    returns (o: Outcome)
    requires Paired(cs, rs) && cs != []
    modifies ws
    ensures var e := SsBody(cs, rs, cunit, runit, pred);
      o == e.outcome && ws.rows == old(ws.rows) + e.rows
  {
    ghost var rows := SsDataRows(cs, rs, pred);
    OutputPoints(ws, cs, rs, pred);
    o := Done;
    if pred.Some? {
      AppendAll(ws, ParamHead);
      Regroup(old(ws.rows), rows, ParamHead);
      o := OutputParams(ws, pred.value.fit, cunit, runit);
      Regroup(old(ws.rows), rows + ParamHead, ws.rows[|old(ws.rows) + rows + ParamHead|..]);
    }
  }

  /** Cells per replicate in a two-substrate row: both concentrations and the rate, then the prediction when fitted. */
  function DsWidth(fitted: bool): nat {
    if fitted then 4 else 3
  }

  /**
   * The column names of one replicate on a two-substrate sheet: the variable
   * substrate `first` (A in the `True` subgroup, B in the other), then `second`.
   */
  function DsNames(first: string, second: string, cunit: string, runit: string, fitted: bool): (names: seq<Cell>)
    ensures |names| == DsWidth(fitted)
  {
    [Str("Concentration (" + first + ") [" + cunit + "]"),
     Str("Concentration (" + second + ") [" + cunit + "]"),
     Str("Rate (experimental) [" + runit + "]")]
      + (if fitted then [Str("Rate (predicted) [" + runit + "]")] else [])
  }

  /** The length of the shortest replicate. */
  function Shortest(xs: seq<seq<real>>): (m: nat)
    requires xs != []
    ensures forall i :: 0 <= i < |xs| ==> m <= |xs[i]|
    ensures exists i :: 0 <= i < |xs| && |xs[i]| == m
    decreases |xs|
  {
    if |xs| == 1 then |xs[0]|
    else
      var m := Shortest(xs[1..]);
      assert forall i :: 1 <= i < |xs| ==> xs[i] == xs[1..][i - 1];
      if |xs[0]| <= m then |xs[0]| else m
  }

  /** Replicate `rep`'s cells at point `p`: variable and constant concentration, rate, and the prediction when fitted. */
  function DsCells(v: seq<seq<real>>, c: seq<seq<real>>, t: seq<seq<real>>, p: nat, rep: nat, pred: Option<Prediction>): (b: seq<Cell>)
    requires SetValid(v, c, t) && rep < |v| && p < |v[rep]|
    ensures |b| == DsWidth(pred.Some?)
  {
    if pred.Some? then [Num(v[rep][p]), Num(c[rep][p]), Num(t[rep][p]), pred.value.fn(v[rep][p], c[rep][p])]
    else [Num(v[rep][p]), Num(c[rep][p]), Num(t[rep][p])]
  }

  /** The cells of the first `k` replicates at point `p`, all of which reach it. */
  function DsBlocks(v: seq<seq<real>>, c: seq<seq<real>>, t: seq<seq<real>>, p: nat, pred: Option<Prediction>, k: nat): (bs: seq<seq<Cell>>)
    requires SetValid(v, c, t) && k <= |v| && forall r :: 0 <= r < k ==> p < |v[r]|
    ensures |bs| == k && forall r :: 0 <= r < k ==> bs[r] == DsCells(v, c, t, p, r, pred)
  {
    seq(k, r requires 0 <= r < k && SetValid(v, c, t) && k <= |v| && p < |v[r]| => DsCells(v, c, t, p, r, pred))
  }

  /** One more replicate's cells at the end of the row. */
  lemma DsBlocksSnoc(v: seq<seq<real>>, c: seq<seq<real>>, t: seq<seq<real>>, p: nat, pred: Option<Prediction>, k: nat)
    requires SetValid(v, c, t) && k < |v| && forall r :: 0 <= r <= k ==> p < |v[r]|
    ensures Flat(DsBlocks(v, c, t, p, pred, k + 1)) == Flat(DsBlocks(v, c, t, p, pred, k)) + DsCells(v, c, t, p, k, pred)
  {
    var bs := DsBlocks(v, c, t, p, pred, k + 1);
    assert bs[..k] == DsBlocks(v, c, t, p, pred, k);
    FlatSnoc(bs, k);
    assert bs[..k + 1] == bs;
  }

  /** Point `p`'s row of a set: every replicate's block, side by side. */
  function DsRow(v: seq<seq<real>>, c: seq<seq<real>>, t: seq<seq<real>>, p: nat, pred: Option<Prediction>): seq<Cell>
    requires SetValid(v, c, t) && forall r :: 0 <= r < |v| ==> p < |v[r]|
  {
    Flat(DsBlocks(v, c, t, p, pred, |v|))
  }

  /** The data rows of a set: one per point up to the shortest replicate's length. */
  function DsDataRows(v: seq<seq<real>>, c: seq<seq<real>>, t: seq<seq<real>>, pred: Option<Prediction>): (rows: seq<seq<Cell>>)
    requires SetValid(v, c, t)
    ensures |rows| == Shortest(v)
    ensures forall p :: 0 <= p < |rows| ==> rows[p] == DsRow(v, c, t, p, pred)
  {
    seq(Shortest(v), p requires 0 <= p < Shortest(v) && SetValid(v, c, t) => DsRow(v, c, t, p, pred))
  }

  /** The rows that open set `s` of `n` replicates: its name, the replicate title row, the header row. */
  function DsSetTop(s: nat, n: nat, first: string, second: string, cunit: string, runit: string, fitted: bool): seq<seq<Cell>> {
    [[Str(SetLabel(s + 1))], Flat(TitleBlocks(n, DsWidth(fitted))), Header(DsNames(first, second, cunit, runit, fitted), n)]
  }

  /**
   * What follows a set's header: a row per point of the first replicate, the
   * row that reaches past a shorter replicate raising IndexError instead; then
   * an empty row, or for a fit the parameter table.
   */
  function DsSetRest(v: seq<seq<real>>, c: seq<seq<real>>, t: seq<seq<real>>, cunit: string, runit: string, pred: Option<Prediction>): Emitted
    requires SetValid(v, c, t)
  {
    var rows := DsDataRows(v, c, t, pred);
    if Shortest(v) < |v[0]| then Emitted(rows, Raised(IndexError))
    else if pred.None? then Emitted(rows + [[]], Done)
    else
      var tail := DsParamTail(pred.value.fit, cunit, runit);
      Emitted(rows + tail.rows, tail.outcome)
  }

  /** The parameter table of a set's fit, then two empty rows unless `get_units` raised. */
  function DsParamTail(f: Fit, cunit: string, runit: string): Emitted {
    var ps := f.solution.params;
    var params := UntilRaised(ParamRows(ps, f, cunit, runit), |ps|);
    Emitted(ParamHead + params.rows + (if params.outcome.Done? then [[], []] else []), params.outcome)
  }

  /** Everything set `s` of a role writes, and how it ends. */
  function DsSet(r: Role, s: nat, first: string, second: string, cunit: string, runit: string, preds: Option<seq<Prediction>>): Emitted
    requires RoleValid(r) && s < |r.vars| && (preds.Some? ==> s < |preds.value|)
  {
    var pred := if preds.Some? then Some(preds.value[s]) else None;
    var rest := DsSetRest(r.vars[s], r.consts[s], r.rates[s], cunit, runit, pred);
    Emitted(DsSetTop(s, |r.vars[s]|, first, second, cunit, runit, preds.Some?) + rest.rows, rest.outcome)
  }

  /** `zip` over the sets and, when fitted, their fits: as many sets as both have. */
  function SetsWritten(r: Role, preds: Option<seq<Prediction>>): (n: nat)
    ensures n <= |r.vars| && (preds.Some? ==> n <= |preds.value|)
    ensures preds.None? ==> n == |r.vars|
    ensures preds.Some? ==> n == |r.vars| || n == |preds.value|
  {
    if preds.Some? && |preds.value| < |r.vars| then |preds.value| else |r.vars|
  }

  /** The sets of a subgroup in order. */
  function DsSets(r: Role, first: string, second: string, cunit: string, runit: string, preds: Option<seq<Prediction>>): (es: seq<Emitted>)
    requires RoleValid(r)
    ensures |es| == SetsWritten(r, preds)
  {
    var n := SetsWritten(r, preds);
    seq(n, s requires 0 <= s < n && RoleValid(r) && n == SetsWritten(r, preds) => DsSet(r, s, first, second, cunit, runit, preds))
  }

  /** What a subgroup's sheet holds after the sets, and how the loop over them ended. */
  function DsSheet(r: Role, first: string, second: string, cunit: string, runit: string, preds: Option<seq<Prediction>>): Emitted
    requires RoleValid(r)
  {
    Chain(DsSets(r, first, second, cunit, runit, preds), SetsWritten(r, preds))
  }

  /** The first `k` runs one after the other, stopping at the first that raises. */
  function Chain(es: seq<Emitted>, k: nat): (e: Emitted)
    requires k <= |es|
    decreases k
  {
    if k == 0 then Emitted([], Done)
    else
      var prev := Chain(es, k - 1);
      if prev.outcome.Raised? then prev
      else Emitted(prev.rows + es[k - 1].rows, es[k - 1].outcome)
  }

  /** A run after completed ones adds its rows and decides the outcome. */
  lemma ChainStep(es: seq<Emitted>, s: nat)
    requires s < |es| && Chain(es, s).outcome == Done
    ensures Chain(es, s + 1) == Emitted(Chain(es, s).rows + es[s].rows, es[s].outcome)
  {
  }

  /** Rows appended after rows already appended. */
  lemma Regroup(a: seq<seq<Cell>>, b: seq<seq<Cell>>, c: seq<seq<Cell>>)
    ensures a + b + c == a + (b + c)
  {
  }

  /** One loop step: run `s` is appended, and if it raised, it ends the chain. */
  lemma ChainAdvance(es: seq<Emitted>, s: nat, n: nat, before: seq<seq<Cell>>, after: seq<seq<Cell>>)
    requires s < n <= |es| && Chain(es, s).outcome == Done
    requires after == before + Chain(es, s).rows + es[s].rows
    ensures after == before + Chain(es, s + 1).rows
    ensures es[s].outcome.Done? ==> Chain(es, s + 1).outcome == Done
    ensures es[s].outcome.Raised? ==> Chain(es, n) == Chain(es, s + 1) && Chain(es, n).outcome == es[s].outcome
  {
    ChainStep(es, s);
    Regroup(before, Chain(es, s).rows, es[s].rows);
    if es[s].outcome.Raised? {
      ChainStays(es, s + 1, n);
    }
  }

  /** Once a run has raised, the later ones add nothing. */
  lemma {:induction false} ChainStays(es: seq<Emitted>, j: nat, m: nat)
    requires j <= m <= |es| && Chain(es, j).outcome.Raised?
    ensures Chain(es, m) == Chain(es, j)
    decreases m - j
  {
    if j < m {
      ChainStays(es, j, m - 1);
    }
  }

  /** One data row: `for rep_count in range(len(varset)): row += [...]`, raising IndexError at a replicate that has no point `p`. */
  method DsPointRow(v: seq<seq<real>>, c: seq<seq<real>>, t: seq<seq<real>>, p: nat, pred: Option<Prediction>) returns (r: Result<seq<Cell>>)
    requires SetValid(v, c, t)
    ensures r == if p < Shortest(v) then Ok(DsRow(v, c, t, p, pred)) else Err(IndexError)
  {
    var row := [];
    var i := 0;
    while i < |v|
      invariant i <= |v| && forall k :: 0 <= k < i ==> p < |v[k]|
      invariant row == Flat(DsBlocks(v, c, t, p, pred, i))
    {
      if p >= |v[i]| {
        return Err(IndexError);
      }
      DsBlocksSnoc(v, c, t, p, pred, i);
      if pred.Some? {
        row := row + [Num(v[i][p]), Num(c[i][p]), Num(t[i][p]), pred.value.fn(v[i][p], c[i][p])];
      } else {
        row := row + [Num(v[i][p]), Num(c[i][p]), Num(t[i][p])];
      }
      i := i + 1;
    }
    return Ok(row);
  }

  /** `for p_count in range(len(varset[0])): ... ws.append(row)`. */
  method OutputDsPoints(ws: Sheet, v: seq<seq<real>>, c: seq<seq<real>>, t: seq<seq<real>>, pred: Option<Prediction>) returns (o: Outcome)
    requires SetValid(v, c, t)
    modifies ws
    ensures o == if Shortest(v) < |v[0]| then Raised(IndexError) else Done
    ensures ws.rows == old(ws.rows) + DsDataRows(v, c, t, pred)
  {
    ghost var rows := DsDataRows(v, c, t, pred);
    var p := 0;
    while p < |v[0]|
      invariant p <= |v[0]| && p <= Shortest(v)
      invariant ws.rows == old(ws.rows) + rows[..p]
    {
      var row := DsPointRow(v, c, t, p, pred);
      if row.Err? {
        assert rows[..p] == rows;
        return Raised(IndexError);
      }
      ws.Append(row.value);
      TakeSnoc(rows, p, row.value);
      p := p + 1;
    }
    assert rows[..p] == rows;
    o := Done;
  }

  /** What follows a set's header row. */
  method OutputDsSetRest(ws: Sheet, v: seq<seq<real>>, c: seq<seq<real>>, t: seq<seq<real>>, cunit: string, runit: string, pred: Option<Prediction>)
    returns (o: Outcome)
    requires SetValid(v, c, t)
    modifies ws
    ensures var e := DsSetRest(v, c, t, cunit, runit, pred);
      o == e.outcome && ws.rows == old(ws.rows) + e.rows
  {
    o := OutputDsPoints(ws, v, c, t, pred);
    if o.Raised? {
      return;
    }
    if pred.None? {
      ws.Append([]);
      return;
    }
    ghost var before := ws.rows;
    o := OutputDsParamTail(ws, pred.value.fit, cunit, runit);
    assert ws.rows == old(ws.rows) + (DsDataRows(v, c, t, pred) + ws.rows[|before|..]);
  }

  /** `ws.append([])`, the parameter table and, unless it raised, `ws.append([])` twice. */
  method OutputDsParamTail(ws: Sheet, f: Fit, cunit: string, runit: string) returns (o: Outcome)
    modifies ws
    ensures var e := DsParamTail(f, cunit, runit);
      o == e.outcome && ws.rows == old(ws.rows) + e.rows
  {
    AppendAll(ws, ParamHead);
    ghost var before := ws.rows;
    o := OutputParams(ws, f, cunit, runit);
    ghost var params := ws.rows[|before|..];
    if o.Done? {
      ws.Append([]);
      ws.Append([]);
    }
    assert ws.rows == old(ws.rows) + (ParamHead + params + (if o.Done? then [[], []] else []));
  }

  /** One iteration over the sets: set `s`'s name, title and header rows, then the rest. */
  method OutputDsSet(ws: Sheet, r: Role, s: nat, first: string, second: string, cunit: string, runit: string, preds: Option<seq<Prediction>>)
    returns (o: Outcome)
    requires RoleValid(r) && s < SetsWritten(r, preds)
    modifies ws
    ensures var e := DsSets(r, first, second, cunit, runit, preds)[s];
      o == e.outcome && ws.rows == old(ws.rows) + e.rows
  {
    var pred := if preds.Some? then Some(preds.value[s]) else None;
    var v := r.vars[s];
    ghost var top := DsSetTop(s, |v|, first, second, cunit, runit, pred.Some?);
    ws.Append([Str(SetLabel(s + 1))]);
    OutputTop(ws, |v|, DsWidth(pred.Some?), DsNames(first, second, cunit, runit, pred.Some?));
    assert ws.rows == old(ws.rows) + top;
    o := OutputDsSetRest(ws, v, r.consts[s], r.rates[s], cunit, runit, pred);
    Regroup(old(ws.rows), top, DsSetRest(v, r.consts[s], r.rates[s], cunit, runit, pred).rows);
    assert DsSets(r, first, second, cunit, runit, preds)[s] == DsSet(r, s, first, second, cunit, runit, preds);
  }

  /** `for varset, consset, rateset[, fit] in zip(...)`: set after set until one raises. */
  method OutputDsSets(ws: Sheet, r: Role, first: string, second: string, cunit: string, runit: string, preds: Option<seq<Prediction>>)
    returns (o: Outcome)
    requires RoleValid(r)
    modifies ws
    ensures var e := DsSheet(r, first, second, cunit, runit, preds);
      o == e.outcome && ws.rows == old(ws.rows) + e.rows
  {
    ghost var es := DsSets(r, first, second, cunit, runit, preds);
    var n := SetsWritten(r, preds);
    var s := 0;
    while s < n
      invariant s <= n && Chain(es, s).outcome == Done
      invariant ws.rows == old(ws.rows) + Chain(es, s).rows
    {
      o := OutputDsSet(ws, r, s, first, second, cunit, runit, preds);
      ChainAdvance(es, s, n, old(ws.rows), ws.rows);
      if o.Raised? {
        return;
      }
      s := s + 1;
    }
    o := Done;
  }

  /** The variable substrate's name in a subgroup: A's in the `True` one, B's in the other. */
  function VarName(data: TwoSubstrates, subgroup: bool): string
    reads data
  {
    if subgroup then data.nameA else data.nameB
  }

  /** The constant substrate's name in a subgroup. */
  function ConstName(data: TwoSubstrates, subgroup: bool): string
    reads data
  {
    if subgroup then data.nameB else data.nameA
  }

  /** `output_ds_subgroup(ws, subgroup, exp_data)`: the sets recorded with that substrate variable. */
  method OutputDsSubgroup(ws: Sheet, data: TwoSubstrates, subgroup: bool) returns (o: Outcome)
    requires data.Valid()
    modifies ws
    ensures var e := DsSheet(data.RoleOf(subgroup), VarName(data, subgroup), ConstName(data, subgroup), data.cunit, data.runit, None);
      o == e.outcome && ws.rows == old(ws.rows) + e.rows
  {
    var r := if subgroup then data.whenA else data.whenB;
    o := OutputDsSets(ws, r, VarName(data, subgroup), ConstName(data, subgroup), data.cunit, data.runit, None);
  }

  /**
   * `output_fit_subgroup(ws, exp_data, fits, subgroup)` as written: it reads
   * `exp_data.Econc`, which a `TwoSubstrates` store does not have, so it
   * raises AttributeError before writing a row.
   */
  function FitSubgroupAsWritten(data: TwoSubstrates, fits: map<bool, seq<Fit>>, subgroup: bool): Emitted
    reads data
  {
    Emitted([], Raised(AttributeError))
  }

  /** `fit.function` of each fit, closed over the environment the laws read. */
  function Predictions(fs: seq<Fit>, env: Env): (ps: seq<Prediction>)
    ensures |ps| == |fs|
    ensures forall k :: 0 <= k < |fs| ==> ps[k].fit == fs[k] && ps[k].fn == FitFunction(fs[k], env)
  {
    seq(|fs|, k requires 0 <= k < |fs| => Prediction(fs[k], FitFunction(fs[k], env)))
  }

  /**
   * `output_fit_subgroup` as evidently intended: without the enzyme column, a
   * point's predicted rate is `fit.function(var, const)`; `fits[subgroup]`
   * raises KeyError when the fits lack that subgroup.
   */
  method OutputFitSubgroup(ws: Sheet, data: TwoSubstrates, fits: map<bool, seq<Fit>>, subgroup: bool, env: Env) returns (o: Outcome)
    requires data.Valid()
    modifies ws
    ensures subgroup !in fits ==> o == Raised(KeyError) && ws.rows == old(ws.rows)
    ensures subgroup in fits ==>
      var e := DsSheet(data.RoleOf(subgroup), VarName(data, subgroup), ConstName(data, subgroup), data.cunit, data.runit,
                       Some(Predictions(fits[subgroup], env)));
      o == e.outcome && ws.rows == old(ws.rows) + e.rows
  {
    if subgroup !in fits {
      return Raised(KeyError);
    }
    var r := if subgroup then data.whenA else data.whenB;
    o := OutputDsSets(ws, r, VarName(data, subgroup), ConstName(data, subgroup), data.cunit, data.runit,
                      Some(Predictions(fits[subgroup], env)));
  }

  /** What an export leaves in the workbook: each tab's title and rows, and whether it completed. */
  datatype Export = Export(tabs: seq<(string, seq<seq<Cell>>)>, outcome: Outcome)

  /** The title and rows of each sheet. */
  function Contents(sheets: seq<Sheet>): (c: seq<(string, seq<seq<Cell>>)>)
    reads set k | 0 <= k < |sheets| :: sheets[k]
    ensures |c| == |sheets| && forall k :: 0 <= k < |sheets| ==> c[k] == (sheets[k].title, sheets[k].rows)
  {
    seq(|sheets|, k reads set j | 0 <= j < |sheets| :: sheets[j] requires 0 <= k < |sheets| => (sheets[k].title, sheets[k].rows))
  }

  /** A single-substrate export: one tab titled `title`. */
  function SsExport(title: string, n: nat, cs: Option<seq<seq<real>>>, rs: Option<seq<seq<real>>>, cunit: string, runit: string,
                    pred: Option<Prediction>): Export
    requires (cs.None? <==> rs.None?) && Paired(Listed(cs), Listed(rs))
  {
    var rest := SsRest(cs, rs, cunit, runit, pred);
    Export([(title, SsTop(n, cunit, runit, pred) + rest.rows)], rest.outcome)
  }

  /**
   * A two-substrate export: the tab of the sets with A variable, then, unless
   * that raised, the tab of those with B variable; `suffix` ends both titles.
   */
  function DsExport(suffix: string, nameA: string, nameB: string, whenA: Role, whenB: Role, cunit: string, runit: string,
                    predsA: Option<seq<Prediction>>, predsB: Option<seq<Prediction>>): Export
    requires RoleValid(whenA) && RoleValid(whenB)
  {
    var ea := DsSheet(whenA, nameA, nameB, cunit, runit, predsA);
    if ea.outcome.Raised? then Export([(nameA + suffix, ea.rows)], ea.outcome)
    else
      var eb := DsSheet(whenB, nameB, nameA, cunit, runit, predsB);
      Export([(nameA + suffix, ea.rows), (nameB + suffix, eb.rows)], eb.outcome)
  }

  /** `ws = new_tab(wb, title)` and `output_data_ss` or `output_fit_ss` on it. */
  method ExportSs(wb: Workbook, data: OneSubstrate, title: string, pred: Option<Prediction>) returns (o: Outcome, ghost tabs: seq<Sheet>)
    requires data.Valid()
    requires pred.Some? ==> !TwoSubstrate(pred.value.fit.mech)
    modifies wb
    ensures wb.sheets == old(wb.sheets) + tabs && forall k :: 0 <= k < |tabs| ==> fresh(tabs[k])
    ensures var e := SsExport(title, data.replicates, data.concentrations, data.rates, data.cunit, data.runit, pred);
      Contents(tabs) == e.tabs && o == e.outcome
  {
    var ws := wb.NewTab(title);
    o := OutputSs(ws, data, pred);
    tabs := [ws];
    assert ws.rows == SsTop(data.replicates, data.cunit, data.runit, pred) + SsRest(data.concentrations, data.rates, data.cunit, data.runit, pred).rows;
    assert Contents(tabs)[0] == (ws.title, ws.rows);
  }

  /** The fits of each subgroup's sets keyed by `a_is_var`, with the environment their laws read. */
  type SetFits = (map<bool, seq<Fit>>, Env)

  /** `output_data_ds(wb, exp_data)` when `fits` is `None`, else `output_fit_ds(wb, exp_data, fits)` with the subgroup output corrected. */
  method ExportDs(wb: Workbook, data: TwoSubstrates, fits: Option<SetFits>) returns (o: Outcome, ghost tabs: seq<Sheet>)
    requires data.Valid()
    requires fits.Some? ==> true in fits.value.0 && false in fits.value.0
    modifies wb
    ensures wb.sheets == old(wb.sheets) + tabs && forall k :: 0 <= k < |tabs| ==> fresh(tabs[k])
    ensures var e := DsExport(if fits.Some? then " - fitted_data" else " - input_data", data.nameA, data.nameB, data.whenA, data.whenB,
                              data.cunit, data.runit, PredsOf(fits, true), PredsOf(fits, false));
      Contents(tabs) == e.tabs && o == e.outcome
  {
    var suffix := if fits.Some? then " - fitted_data" else " - input_data";
    var wsA;
    o, wsA := SubgroupTab(wb, data, fits, true, suffix);
    tabs := [wsA];
    assert Contents(tabs)[0] == (wsA.title, wsA.rows);
    if o.Raised? {
      return;
    }
    var wsB;
    o, wsB := SubgroupTab(wb, data, fits, false, suffix);
    tabs := [wsA, wsB];
    assert Contents(tabs)[0] == (wsA.title, wsA.rows) && Contents(tabs)[1] == (wsB.title, wsB.rows);
  }

  /** `ws = new_tab(wb, <variable substrate> + suffix)` and the subgroup's output on it. */
  method SubgroupTab(wb: Workbook, data: TwoSubstrates, fits: Option<SetFits>, subgroup: bool, suffix: string) returns (o: Outcome, ws: Sheet)
    requires data.Valid()
    requires fits.Some? ==> subgroup in fits.value.0
    modifies wb
    ensures wb.sheets == old(wb.sheets) + [ws] && fresh(ws) && ws.title == VarName(data, subgroup) + suffix
    ensures var e := DsSheet(data.RoleOf(subgroup), VarName(data, subgroup), ConstName(data, subgroup), data.cunit, data.runit,
                             PredsOf(fits, subgroup));
      o == e.outcome && ws.rows == e.rows
  {
    ws := wb.NewTab(VarName(data, subgroup) + suffix);
    o := OutputSubgroup(ws, data, fits, subgroup);
  }

  /** The predictions of a subgroup's sets, if fitted. */
  function PredsOf(fits: Option<SetFits>, subgroup: bool): Option<seq<Prediction>>
    requires fits.Some? ==> subgroup in fits.value.0
  {
    if fits.Some? then Some(Predictions(fits.value.0[subgroup], fits.value.1)) else None
  }

  /** `output_ds_subgroup`, or the corrected `output_fit_subgroup`, on one tab. */
  method OutputSubgroup(ws: Sheet, data: TwoSubstrates, fits: Option<SetFits>, subgroup: bool) returns (o: Outcome)
    requires data.Valid()
    requires fits.Some? ==> subgroup in fits.value.0
    modifies ws
    ensures var e := DsSheet(data.RoleOf(subgroup), VarName(data, subgroup), ConstName(data, subgroup), data.cunit, data.runit,
                             PredsOf(fits, subgroup));
      o == e.outcome && ws.rows == old(ws.rows) + e.rows
  {
    if fits.None? {
      o := OutputDsSubgroup(ws, data, subgroup);
    } else {
      o := OutputFitSubgroup(ws, data, fits.value.0, subgroup, fits.value.1);
    }
  }

  /** The store an export is given: `is_single()` tells the two kinds apart. */
  datatype Dataset = Single(one: OneSubstrate) | Double(two: TwoSubstrates)

  /** The fit result given with it: one fit, or the fits of each subgroup's sets keyed by `a_is_var`. */
  datatype Fitting = OneFit(fit: Fit) | SetFits(fits: map<bool, seq<Fit>>)

  /** The tabs the export wrote: all but the default sheet, which is dropped once the export completes. */
  function Tabs(wb: Workbook, o: Outcome): seq<Sheet>
    reads wb
  {
    if o.Done? || |wb.sheets| == 0 then wb.sheets else wb.sheets[1..]
  }

  /** What `data_to_xls` writes: a "<name> - input_data" tab for single-substrate data, one per substrate otherwise. */
  function DataExport(data: Dataset): Export
    reads if data.Single? then data.one as object else data.two
    requires data.Single? ==> data.one.Valid()
    requires data.Double? ==> data.two.Valid()
  {
    match data
    case Single(d) => SsExport(d.name + " - input_data", d.replicates, d.concentrations, d.rates, d.cunit, d.runit, None)
    case Double(d) => DsExport(" - input_data", d.nameA, d.nameB, d.whenA, d.whenB, d.cunit, d.runit, None, None)
  }

  /**
   * What `fit_to_xls` writes: a "fit results" tab for single-substrate data, a
   * "<substrate> - fitted_data" tab per substrate otherwise, each with the
   * predicted rates and the fitted parameters.
   */
  function FitExport(data: Dataset, fitting: Fitting, env: Env): Export
    reads if data.Single? then data.one as object else data.two
    requires data.Single? <==> fitting.OneFit?
    requires data.Single? ==> data.one.Valid()
    requires data.Double? ==> data.two.Valid() && true in fitting.fits && false in fitting.fits
  {
    match data
    case Single(d) =>
      SsExport("fit results", d.replicates, d.concentrations, d.rates, d.cunit, d.runit,
               Some(Prediction(fitting.fit, FitFunction(fitting.fit, env))))
    case Double(d) =>
      DsExport(" - fitted_data", d.nameA, d.nameB, d.whenA, d.whenB, d.cunit, d.runit,
               Some(Predictions(fitting.fits[true], env)), Some(Predictions(fitting.fits[false], env)))
  }

  /** `data_to_xls(data, w_file)` up to the save. */
  method DataToXls(data: Dataset) returns (wb: Workbook, o: Outcome)
    requires data.Single? ==> data.one.Valid()
    requires data.Double? ==> data.two.Valid()
    ensures fresh(wb) && Contents(Tabs(wb, o)) == DataExport(data).tabs && o == DataExport(data).outcome
  {
    wb := new Workbook();
    ghost var tabs;
    if data.Single? {
      o, tabs := ExportSs(wb, data.one, data.one.name + " - input_data", None);
    } else {
      o, tabs := ExportDs(wb, data.two, None);
    }
    if o.Done? {
      wb.DropFirst();
    }
    assert Tabs(wb, o) == tabs;
  }

  /** `fit_to_xls(data, fit, w_file)` up to the save. */
  method FitToXls(data: Dataset, fitting: Fitting, env: Env) returns (wb: Workbook, o: Outcome)
    requires data.Single? <==> fitting.OneFit?
    requires data.Single? ==> data.one.Valid() && !TwoSubstrate(fitting.fit.mech)
    requires data.Double? ==> data.two.Valid() && true in fitting.fits && false in fitting.fits
    ensures fresh(wb) && Contents(Tabs(wb, o)) == FitExport(data, fitting, env).tabs && o == FitExport(data, fitting, env).outcome
  {
    wb := new Workbook();
    ghost var tabs;
    if data.Single? {
      o, tabs := ExportSs(wb, data.one, "fit results", Some(Prediction(fitting.fit, FitFunction(fitting.fit, env))));
    } else {
      o, tabs := ExportDs(wb, data.two, Some((fitting.fits, env)));
    }
    if o.Done? {
      wb.DropFirst();
    }
    assert Tabs(wb, o) == tabs;
  }

  /** Replicate `i`'s cells in single-substrate data row `d`: its concentration and rate, or two blanks once it has run out. */
  lemma SsDataCells(cs: seq<seq<real>>, rs: seq<seq<real>>, d: nat, i: nat)
    requires Paired(cs, rs) && i < |cs|
    ensures var row := SsRow(cs, rs, d, None);
      && |row| == |cs| * 2 && i * 2 + 2 <= |row|
      && row[i * 2 .. i * 2 + 2] == if d < |rs[i]| then [Num(cs[i][d]), Num(rs[i][d])] else [Str(""), Str("")]
  {
    FlatBlock(PointBlocks(cs, rs, d, None), 2, i);
  }

  /** Replicate `i`'s cells in single-substrate fit row `d`: concentration, rate and `fit.function` there, or three blanks. */
  lemma SsFitCells(cs: seq<seq<real>>, rs: seq<seq<real>>, p: Prediction, d: nat, i: nat)
    requires Paired(cs, rs) && i < |cs|
    ensures var row := SsRow(cs, rs, d, Some(p));
      && |row| == |cs| * 3 && i * 3 + 3 <= |row|
      && row[i * 3 .. i * 3 + 3] ==
           if d < |rs[i]| then [Num(cs[i][d]), Num(rs[i][d]), p.fn(cs[i][d], 0.0)] else [Str(""), Str(""), Str("")]
  {
    FlatBlock(PointBlocks(cs, rs, d, Some(p)), 3, i);
  }

  /** The fit sheet shows the data sheet's measurements: each replicate's first two cells in every data row agree. */
  lemma SsFitKeepsData(cs: seq<seq<real>>, rs: seq<seq<real>>, p: Prediction, d: nat, i: nat)
    requires Paired(cs, rs) && i < |cs|
    ensures |SsRow(cs, rs, d, Some(p))| == |cs| * 3 && |SsRow(cs, rs, d, None)| == |cs| * 2
    ensures SsRow(cs, rs, d, Some(p))[i * 3 .. i * 3 + 2] == SsRow(cs, rs, d, None)[i * 2 .. i * 2 + 2]
  {
    var fit, data := SsRow(cs, rs, d, Some(p)), SsRow(cs, rs, d, None);
    SsDataCells(cs, rs, d, i);
    SsFitCells(cs, rs, p, d, i);
    SliceTake(fit, i * 3, 3, 2);
    assert fit[i * 3 .. i * 3 + 3][..2] == data[i * 2 .. i * 2 + 2];
  }

  /**
   * A single-substrate fit whose table is the law's `param_order`, with a
   * unit symbol each, is written out in full: the data rows, the table's
   * heading rows, then one row per parameter with its unit.
   */
  lemma SsFitComplete(cs: seq<seq<real>>, rs: seq<seq<real>>, cunit: string, runit: string, p: Prediction)
    requires Paired(cs, rs) && cs != []
    requires Names(p.fit.solution.params) == p.fit.order && |p.fit.units| == |p.fit.order| && DistinctNames(p.fit.solution.params)
    ensures SsRest(Some(cs), Some(rs), cunit, runit, Some(p))
      == Emitted(SsDataRows(cs, rs, Some(p)) + ParamHead + ParamTable(p.fit.solution.params, p.fit, cunit, runit), Done)
  {
    ParamRowsOfModel(p.fit.solution.params, p.fit, cunit, runit);
  }

  /** Replicate `i`'s cells in two-substrate data row `p`: variable and constant concentration and rate. */
  lemma DsDataCells(v: seq<seq<real>>, c: seq<seq<real>>, t: seq<seq<real>>, p: nat, i: nat)
    requires SetValid(v, c, t) && i < |v| && forall r :: 0 <= r < |v| ==> p < |v[r]|
    ensures var row := DsRow(v, c, t, p, None);
      && |row| == |v| * 3 && i * 3 + 3 <= |row|
      && row[i * 3 .. i * 3 + 3] == [Num(v[i][p]), Num(c[i][p]), Num(t[i][p])]
  {
    FlatBlock(DsBlocks(v, c, t, p, None, |v|), 3, i);
  }

  /** Replicate `i`'s cells in two-substrate fit row `p`: the three measured values and `fit.function(var, const)`. */
  lemma DsFitCells(v: seq<seq<real>>, c: seq<seq<real>>, t: seq<seq<real>>, pr: Prediction, p: nat, i: nat)
    requires SetValid(v, c, t) && i < |v| && forall r :: 0 <= r < |v| ==> p < |v[r]|
    ensures var row := DsRow(v, c, t, p, Some(pr));
      && |row| == |v| * 4 && i * 4 + 4 <= |row|
      && row[i * 4 .. i * 4 + 4] == [Num(v[i][p]), Num(c[i][p]), Num(t[i][p]), pr.fn(v[i][p], c[i][p])]
  {
    FlatBlock(DsBlocks(v, c, t, p, Some(pr), |v|), 4, i);
  }

  /** The two-substrate fit sheet shows the data sheet's three columns of each replicate, in its block of four. */
  lemma DsFitKeepsData(v: seq<seq<real>>, c: seq<seq<real>>, t: seq<seq<real>>, pr: Prediction, p: nat, i: nat)
    requires SetValid(v, c, t) && i < |v| && forall r :: 0 <= r < |v| ==> p < |v[r]|
    ensures |DsRow(v, c, t, p, Some(pr))| == |v| * 4 && |DsRow(v, c, t, p, None)| == |v| * 3
    ensures DsRow(v, c, t, p, Some(pr))[i * 4 .. i * 4 + 3] == DsRow(v, c, t, p, None)[i * 3 .. i * 3 + 3]
  {
    var fit, data := DsRow(v, c, t, p, Some(pr)), DsRow(v, c, t, p, None);
    DsDataCells(v, c, t, p, i);
    DsFitCells(v, c, t, pr, p, i);
    SliceTake(fit, i * 4, 4, 3);
    assert fit[i * 4 .. i * 4 + 4][..3] == data[i * 3 .. i * 3 + 3];
  }

  /**
   * A set whose replicates are shorter than its first one stops with
   * IndexError after the rows of the points all replicates have; for the
   * data sheet that is the only way a set raises.
   */
  lemma DsSetRaises(v: seq<seq<real>>, c: seq<seq<real>>, t: seq<seq<real>>, cunit: string, runit: string, pred: Option<Prediction>)
    requires SetValid(v, c, t)
    ensures (exists k :: 0 <= k < |v| && |v[k]| < |v[0]|) ==>
      DsSetRest(v, c, t, cunit, runit, pred) == Emitted(DsDataRows(v, c, t, pred), Raised(IndexError))
    ensures pred.None? ==>
      (DsSetRest(v, c, t, cunit, runit, pred).outcome.Raised? <==> exists k :: 0 <= k < |v| && |v[k]| < |v[0]|)
  {
    if exists k :: 0 <= k < |v| && |v[k]| < |v[0]| {
      var k :| 0 <= k < |v| && |v[k]| < |v[0]|;
      assert Shortest(v) <= |v[k]|;
    } else {
      assert Shortest(v) == |v[0]|;
    }
  }

  /** The rows of the earlier runs are where the later ones leave them: the output only grows. */
  lemma {:induction false} ChainPrefix(es: seq<Emitted>, k: nat, m: nat)
    requires k <= m <= |es|
    ensures |Chain(es, k).rows| <= |Chain(es, m).rows| && Chain(es, m).rows[..|Chain(es, k).rows|] == Chain(es, k).rows
    decreases m - k
  {
    if k < m {
      ChainPrefix(es, k, m - 1);
      var a, b := Chain(es, k).rows, Chain(es, m - 1).rows;
      if Chain(es, m - 1).outcome.Done? {
        assert Chain(es, m).rows == b + es[m - 1].rows;
        assert (b + es[m - 1].rows)[..|a|] == b[..|a|];
      }
    }
  }

  /** The runs complete exactly when each one does; otherwise the outcome is that of the first run that raised. */
  lemma {:induction false} ChainOutcome(es: seq<Emitted>, n: nat)
    requires n <= |es|
    ensures Chain(es, n).outcome.Done? <==> forall k :: 0 <= k < n ==> es[k].outcome.Done?
    ensures Chain(es, n).outcome.Raised? ==>
      exists k :: 0 <= k < n && Chain(es, n).outcome == es[k].outcome && forall j :: 0 <= j < k ==> es[j].outcome.Done?
    decreases n
  {
    if n > 0 {
      ChainOutcome(es, n - 1);
    }
  }

  /** A subgroup sheet with at least one set starts with the first set's name, title and header rows. */
  lemma DsSheetStart(r: Role, first: string, second: string, cunit: string, runit: string, preds: Option<seq<Prediction>>)
    requires RoleValid(r) && SetsWritten(r, preds) > 0
    ensures var rows := DsSheet(r, first, second, cunit, runit, preds).rows;
      && |rows| >= 3 && rows[..3] == DsSetTop(0, |r.vars[0]|, first, second, cunit, runit, preds.Some?)
      && rows[0] == [Str(SetLabel(1))]
  {
    var es := DsSets(r, first, second, cunit, runit, preds);
    assert es[0] == DsSet(r, 0, first, second, cunit, runit, preds);
    assert Chain(es, 1) == es[0];
    ChainPrefix(es, 1, |es|);
    var top := DsSetTop(0, |r.vars[0]|, first, second, cunit, runit, preds.Some?);
    assert es[0].rows[..3] == top;
    var rows := Chain(es, |es|).rows;
    assert rows[..3] == top;
    assert rows[0] == top[0];
  }

  /**
   * `output_fit_subgroup` as written writes nothing and raises
   * AttributeError, where the corrected output writes the first set's rows.
   */
  lemma EconcMissing(data: TwoSubstrates, fits: map<bool, seq<Fit>>, subgroup: bool, env: Env)
    requires data.Valid() && subgroup in fits
    requires SetsWritten(data.RoleOf(subgroup), Some(Predictions(fits[subgroup], env))) > 0
    ensures FitSubgroupAsWritten(data, fits, subgroup) == Emitted([], Raised(AttributeError))
    ensures var e := DsSheet(data.RoleOf(subgroup), VarName(data, subgroup), ConstName(data, subgroup), data.cunit, data.runit,
                             Some(Predictions(fits[subgroup], env)));
      |e.rows| >= 3 && e.rows[0] == [Str(SetLabel(1))]
  {
    var r, preds := data.RoleOf(subgroup), Some(Predictions(fits[subgroup], env));
    DsSheetStart(r, VarName(data, subgroup), ConstName(data, subgroup), data.cunit, data.runit, preds);
  }
}

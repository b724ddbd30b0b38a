/**
 * The text-table importer of the main window: a header of five lines
 * (project, substrate A, substrate B, concentration unit, time unit), a line
 * expected to be blank, then blocks. A block is a set name followed by rows of
 * whitespace-separated numbers up to a blank line; its columns, three per
 * replicate, are (variable, constant, rate). A lone newline where a set name
 * is expected switches the substrate roles.
 */
module TableImport {
  import opened Wrappers
  import opened Text
  import opened Numerals
  import opened DataStorage

  /** An open text file read line by line; each line keeps its newline, and no line is empty. */
  class Handle {
    const lines: seq<string>
    var pos: nat

    ghost predicate Valid()
      reads this
    {
      pos <= |lines| && forall i :: 0 <= i < |lines| ==> lines[i] != ""
    }

    constructor (lines: seq<string>)
      requires forall i :: 0 <= i < |lines| ==> lines[i] != ""
      ensures Valid() && this.lines == lines && pos == 0
    {
      this.lines := lines;
      pos := 0;
    }

    /** `readline()`: the next line, or `''` at the end of the file. */
    method ReadLine() returns (line: string)
      requires Valid()
      modifies this
      ensures Valid()
      ensures line == "" <==> old(pos) == |lines|
      ensures old(pos) < |lines| ==> line == lines[old(pos)] && pos == old(pos) + 1
      ensures old(pos) == |lines| ==> pos == old(pos)
    {
      if pos < |lines| {
        line := lines[pos];
        pos := pos + 1;
      } else {
        line := "";
      }
    }
  }

  /** What `read_reaction_data` returns: end of the blocks, a role switch, or a block's columns and name. */
  datatype Block = Depleted | Switch | Data(cols: seq<seq<string>>, name: string)

  /**
   * The rows `for line in handle` collects from line `pos` on: each line's
   * whitespace-separated tokens, up to and including a blank line (which is
   * consumed but not kept) or the end of the file; `next` is where reading
   * resumes.
   */
  function RowsFrom(lines: seq<string>, pos: nat): (res: (seq<seq<string>>, nat))
    requires pos <= |lines|
    ensures pos <= res.1 <= |lines| && pos + |res.0| <= |lines|
    ensures forall i :: 0 <= i < |res.0| ==> res.0[i] == Words(lines[pos + i], Whitespace) && res.0[i] != []
    ensures (pos + |res.0| == |lines| && res.1 == |lines|)
      || (pos + |res.0| < |lines| && Words(lines[pos + |res.0|], Whitespace) == [] && res.1 == pos + |res.0| + 1)
    decreases |lines| - pos
  {
    if pos == |lines| then ([], pos)
    else if Words(lines[pos], Whitespace) == [] then ([], pos + 1)
    else
      var rest := RowsFrom(lines, pos + 1);
      ([Words(lines[pos], Whitespace)] + rest.0, rest.1)
  }

  /** The shortest row's length. */
  function MinLen(rows: seq<seq<string>>): (m: nat)
    requires rows != []
    ensures forall i :: 0 <= i < |rows| ==> m <= |rows[i]|
    ensures exists i :: 0 <= i < |rows| && m == |rows[i]|
    decreases |rows|
  {
    if |rows| == 1 then |rows[0]|
    else
      var m := MinLen(rows[1..]);
      if |rows[0]| <= m then |rows[0]| else m
  }

  /** `list(map(list, zip(*rows)))`: the columns, as many as the shortest row has entries. */
  function Transpose(rows: seq<seq<string>>): (cols: seq<seq<string>>)
    ensures rows == [] ==> cols == []
    ensures rows != [] ==> |cols| == MinLen(rows)
    ensures forall j :: 0 <= j < |cols| ==> |cols[j]| == |rows| && forall i :: 0 <= i < |rows| ==> j < |rows[i]| && cols[j][i] == rows[i][j]
  {
    if rows == [] then []
    else
      var m := MinLen(rows);
      seq(m, j requires 0 <= j < m =>
        seq(|rows|, i requires 0 <= i < |rows| && j < m && rows != [] && m == MinLen(rows) => rows[i][j]))
  }

  /** When all rows have the same length, transposing twice gives the rows back: nothing is cut. */
  lemma TransposeTwice(rows: seq<seq<string>>)
    requires rows != [] && |rows[0]| > 0
    requires forall i :: 0 <= i < |rows| ==> |rows[i]| == |rows[0]|
    ensures Transpose(Transpose(rows)) == rows
  {
    var cols := Transpose(rows);
    assert |cols| == |rows[0]|;
    var back := Transpose(cols);
    assert MinLen(cols) == |rows|;
    assert |back| == |rows|;
    forall i | 0 <= i < |rows| ensures back[i] == rows[i] {
      assert |back[i]| == |cols| == |rows[i]|;
    }
  }

  /** A ragged block loses the entries past its shortest row: only that many columns come out. */
  lemma RaggedRowsTruncate()
    ensures Transpose([["1", "2", "3"], ["4", "5"]]) == [["1", "4"], ["2", "5"]]
  {
    var rows := [["1", "2", "3"], ["4", "5"]];
    assert MinLen(rows[1..]) == 2;
    var c := Transpose(rows);
    assert |c| == 2 && |c[0]| == 2 && |c[1]| == 2;
    assert c[0][0] == "1" && c[0][1] == "4" && c[1][0] == "2" && c[1][1] == "5";
    assert c[0] == ["1", "4"] && c[1] == ["2", "5"];
  }

  /** What `read_reaction_data` returns from line `pos` on, and where reading resumes. */
  function ReadBlock(lines: seq<string>, pos: nat): (res: (Result<Block>, nat))
    requires pos <= |lines|
    ensures pos <= res.1 <= |lines|
    ensures pos < |lines| && res.0 != Ok(Depleted) ==> res.1 > pos
  {
    if pos == |lines| then (Ok(Depleted), pos)
    else if lines[pos] == "\n" then (Ok(Switch), pos + 1)
    else
      var name := Strip(lines[pos]);
      if name == "" then (Ok(Depleted), pos + 1)
      else
        var (rows, next) := RowsFrom(lines, pos + 1);
        var cols := Transpose(rows);
        if |cols| % 3 != 0 then (Err(AssertionError), next) else (Ok(Data(cols, name)), next)
  }

  /**
   * `read_reaction_data(handle)`: the name line, then the rows up to a blank
   * line, transposed into columns; a column count that is not a multiple of
   * three fails the assertion.
   */
  method ReadReactionData(h: Handle) returns (r: Result<Block>)
    requires h.Valid()
    modifies h
    ensures h.Valid()
    ensures (r, h.pos) == ReadBlock(h.lines, old(h.pos))
    ensures r.Ok? && r.value.Data? ==> |r.value.cols| % 3 == 0
  {
    var name := h.ReadLine();
    if name == "\n" {
      return Ok(Switch);
    }
    if name == "" {
      return Ok(Depleted);
    }
    name := Strip(name);
    if name == "" {
      return Ok(Depleted);
    }
    var vals := ReadRows(h);
    var cols := Transpose(vals);
    if |cols| % 3 != 0 {
      return Err(AssertionError);
    }
    r := Ok(Data(cols, name));
  }

  /** The row loop of `read_reaction_data`: whitespace-split lines up to and including the first blank one. */
  method ReadRows(h: Handle) returns (vals: seq<seq<string>>)
    requires h.Valid()
    modifies h
    ensures h.Valid()
    ensures (vals, h.pos) == RowsFrom(h.lines, old(h.pos))
  {
    vals := [];
    assert RowsFrom(h.lines, old(h.pos)).0 == vals + RowsFrom(h.lines, h.pos).0;
    while h.pos < |h.lines|
      invariant h.Valid() && old(h.pos) <= h.pos <= |h.lines|
      invariant RowsFrom(h.lines, old(h.pos)) == (vals + RowsFrom(h.lines, h.pos).0, RowsFrom(h.lines, h.pos).1)
      decreases |h.lines| - h.pos
    {
      ghost var p := h.pos;
      var line := h.ReadLine();
      var toks := Words(Strip(line), Whitespace);
      StripKeepsWords(line);
      if toks == [] {
        assert RowsFrom(h.lines, p) == ([], h.pos);
        assert vals + [] == vals;
        return;
      }
      assert (vals + [toks]) + RowsFrom(h.lines, h.pos).0 == vals + ([toks] + RowsFrom(h.lines, h.pos).0);
      vals := vals + [toks];
    }
    assert vals + [] == vals;
  }

  /** `[' '.join(nvals) for nvals in vals]`: each column written back as one text. */
  function Joined(cols: seq<seq<string>>): (texts: seq<string>)
    ensures |texts| == |cols| && forall i :: 0 <= i < |cols| ==> texts[i] == JoinWith(cols[i], " ")
  {
    seq(|cols|, i requires 0 <= i < |cols| => JoinWith(cols[i], " "))
  }

  /** A column of comma-free numerals, joined by spaces, parses back to its numbers in order. */
  lemma ColumnTextParses(col: seq<string>, vals: seq<real>)
    requires |col| == |vals|
    requires forall i :: 0 <= i < |col| ==> col[i] != [] && NoSep(col[i], Separators)
    requires forall i :: 0 <= i < |col| ==> ParseNumber(col[i]) == Some(vals[i])
    ensures TransformData(JoinWith(col, " ")) == Ok(vals)
  {
    assert ' ' in Separators;
    assert AllSep(" ", Separators);
    WordsOfJoin(col, " ", Separators);
    TransformOfParsedWords(JoinWith(col, " "), vals);
  }

  /** One replicate's parsed (variable, constant, rate) arrays. */
  datatype Replicate = Replicate(vars: seq<real>, consts: seq<real>, rates: seq<real>)

  predicate Shaped(rep: Replicate) {
    |rep.vars| == |rep.consts| == |rep.rates|
  }

  /**
   * The checks `add_set` and `add_rep` make on the parsed texts before changing
   * anything: each parsed (else ValueError) and the three arrays have one
   * length (else AssertionError).
   */
  function Check(pv: Result<seq<real>>, pc: Result<seq<real>>, pt: Result<seq<real>>): (res: Result<Replicate>)
    ensures res.Ok? ==> Shaped(res.value)
    ensures res.Ok? <==> pv.Ok? && pc.Ok? && pt.Ok? && |pv.value| == |pc.value| == |pt.value|
    ensures res.Ok? ==> res.value == Replicate(pv.value, pc.value, pt.value)
    ensures res.Err? ==> res.error == if pv.Ok? && pc.Ok? && pt.Ok? then AssertionError else ValueError
  {
    if pv.Err? || pc.Err? || pt.Err? then Err(ValueError)
    else if |pv.value| != |pc.value| || |pc.value| != |pt.value| then Err(AssertionError)
    else Ok(Replicate(pv.value, pc.value, pt.value))
  }

  /** `transform_data` of each column text. */
  function Transformed(texts: seq<string>): (ts: seq<Result<seq<real>>>)
    ensures |ts| == |texts| && forall i :: 0 <= i < |texts| ==> ts[i] == TransformData(texts[i])
  {
    seq(|texts|, i requires 0 <= i < |texts| => TransformData(texts[i]))
  }

  /** The first `n` column triples of a block, checked. */
  function Replicates(ts: seq<Result<seq<real>>>, n: nat): (reps: seq<Result<Replicate>>)
    requires 3 * n <= |ts|
    ensures |reps| == n
    ensures forall k :: 0 <= k < n ==> reps[k] == Check(ts[3 * k], ts[3 * k + 1], ts[3 * k + 2])
    ensures AllShaped(reps)
  {
    seq(n, k requires 0 <= k < n => Check(ts[3 * k], ts[3 * k + 1], ts[3 * k + 2]))
  }

  predicate AllShaped(reps: seq<Result<Replicate>>) {
    forall k :: 0 <= k < |reps| && reps[k].Ok? ==> Shaped(reps[k].value)
  }

  /** Where a parsed replicate goes: a new last set for the first, set `pos` (Python indexing) for the others. */
  function Place(r: Role, first: bool, pos: int, rep: Replicate): (res: Result<Role>)
    requires RoleValid(r) && Shaped(rep)
    ensures res.Ok? ==> RoleValid(res.value)
    ensures first ==>
      (&& res.Ok?
       && |res.value.consts| == |r.consts| + 1
       && res.value.vars[..|r.consts|] == r.vars && res.value.consts[..|r.consts|] == r.consts && res.value.rates[..|r.consts|] == r.rates
       && res.value.vars[|r.consts|] == [rep.vars] && res.value.consts[|r.consts|] == [rep.consts] && res.value.rates[|r.consts|] == [rep.rates])
    ensures !first ==> (res.Ok? <==> PyIndex(pos, |r.consts|).Some?)
    ensures !first && res.Ok? ==>
      (&& var k := PyIndex(pos, |r.consts|).value;
       && |res.value.consts| == |r.consts|
       && res.value.vars[k] == r.vars[k] + [rep.vars] && res.value.consts[k] == r.consts[k] + [rep.consts] && res.value.rates[k] == r.rates[k] + [rep.rates]
       && forall s :: 0 <= s < |r.consts| && s != k ==>
            res.value.vars[s] == r.vars[s] && res.value.consts[s] == r.consts[s] && res.value.rates[s] == r.rates[s])
  {
    if first then Ok(AppendSet(r, rep.vars, rep.consts, rep.rates))
    else
      match PyIndex(pos, |r.consts|)
      case None => Err(IndexError)
      case Some(k) => Ok(AppendRep(r, k, rep.vars, rep.consts, rep.rates))
  }

  /** The role after the first `k` replicates, or as it was when one raised, with that error. */
  datatype Loaded = Loaded(role: Role, failure: Option<Error>)

  function Fold(r: Role, pos: int, reps: seq<Result<Replicate>>, k: nat): (res: Loaded)
    requires RoleValid(r) && k <= |reps| && AllShaped(reps)
    ensures RoleValid(res.role) && |res.role.consts| >= |r.consts|
    decreases k
  {
    if k == 0 then Loaded(r, None)
    else
      var prev := Fold(r, pos, reps, k - 1);
      if prev.failure.Some? then prev
      else
        match reps[k - 1]
        case Err(e) => Loaded(prev.role, Some(e))
        case Ok(rep) =>
          match Place(prev.role, k == 1, pos, rep)
          case Err(e) => Loaded(prev.role, Some(e))
          case Ok(next) => Loaded(next, None)
  }

  /**
   * Starting at the new-set position, a block whose replicates all load
   * becomes one new last set holding them all in column order, earlier sets
   * untouched, and
   * `next_set` then puts the cursor at the new-set position again.
   */
  lemma {:induction false} BlockFromNewSet(r: Role, reps: seq<Result<Replicate>>, k: nat)
    requires RoleValid(r) && 1 <= k <= |reps| && AllShaped(reps)
    requires Fold(r, |r.consts|, reps, k).failure.None?
    ensures var l := Fold(r, |r.consts|, reps, k).role;
      && |l.consts| == |r.consts| + 1
      && l.vars[..|r.consts|] == r.vars && l.consts[..|r.consts|] == r.consts && l.rates[..|r.consts|] == r.rates
      && |l.vars[|r.consts|]| == |l.consts[|r.consts|]| == |l.rates[|r.consts|]| == k
      && (forall j :: 0 <= j < k ==>
            && reps[j].Ok?
            && l.vars[|r.consts|][j] == reps[j].value.vars
            && l.consts[|r.consts|][j] == reps[j].value.consts
            && l.rates[|r.consts|][j] == reps[j].value.rates)
      && NextIndex(|r.consts|, |l.consts|) == |l.consts|
    decreases k
  {
    var n := |r.consts|;
    var prev := Fold(r, n, reps, k - 1);
    assert prev.failure.None? && reps[k - 1].Ok?;
    var st := Place(prev.role, k == 1, n, reps[k - 1].value);
    assert st.Ok? && Fold(r, n, reps, k).role == st.value;
    if k > 1 {
      BlockFromNewSet(r, reps, k - 1);
      assert PyIndex(n, |prev.role.consts|) == Some(n);
      var l := st.value;
      assert l.vars[..n] == prev.role.vars[..n];
      assert l.consts[..n] == prev.role.consts[..n];
      assert l.rates[..n] == prev.role.rates[..n];
    }
  }

  /** An empty block loads nothing, and `next_set` from the new-set position wraps the cursor to 0. */
  lemma EmptyBlockWrapsCursor(r: Role)
    requires RoleValid(r)
    ensures Fold(r, |r.consts|, Replicates([], 0), 0) == Loaded(r, None)
    ensures NextIndex(|r.consts|, |r.consts|) == 0
  {
  }

  /**
   * `add_ds_dataset` as written: `add_set` is passed a `setname` keyword it
   * does not declare, so any block with a triple raises TypeError before the
   * store changes. A block of one or two columns raises IndexError first, at
   * `vals[i + 1]` or `vals[i + 2]`; only an empty block reaches `next_set`.
   */
  method AddDsDatasetAsWritten(store: TwoSubstrates, vals: seq<seq<string>>, name: string) returns (o: Outcome)
    requires store.Valid()
    modifies store
    ensures store.Valid()
    ensures |vals| >= 3 ==> o == Raised(TypeError) && unchanged(store)
    ensures 1 <= |vals| < 3 ==> o == Raised(IndexError) && unchanged(store)
    ensures vals == [] ==>
      (&& o == Done && store.setIndex == NextIndex(old(store.setIndex), old(store.SetCount()))
       && store.whenA == old(store.whenA) && store.whenB == old(store.whenB) && store.aIsVar == old(store.aIsVar))
  {
    var texts := Joined(vals);
    if |texts| >= 3 {
      return Raised(TypeError);
    } else if |texts| >= 1 {
      return Raised(IndexError);
    }
    store.NextSet();
    o := Done;
  }

  /** One `add_set` or `add_rep` call of the block, with the cursor as the default position. */
  method LoadTriple(store: TwoSubstrates, first: bool, v: string, c: string, t: string, ghost rep: Result<Replicate>)
    returns (o: Outcome)
    requires store.Valid()
    requires rep == Check(TransformData(v), TransformData(c), TransformData(t))
    modifies store
    ensures store.Valid()
    ensures store.aIsVar == old(store.aIsVar) && store.RoleOf(!store.aIsVar) == old(store.RoleOf(!store.aIsVar))
    ensures store.setIndex == old(store.setIndex)
    ensures if rep.Err? then o == Raised(rep.error) && store.Current() == old(store.Current())
      else
        var res := Place(old(store.Current()), first, old(store.setIndex), rep.value);
        if res.Err? then o == Raised(res.error) && store.Current() == old(store.Current())
        else o == Done && store.Current() == res.value
  {
    if first {
      o := store.AddSet(v, c, t);
    } else {
      o := store.AddRep(v, c, t, None);
    }
  }

  /**
   * `add_ds_dataset` with the `setname` keyword dropped: each column is joined
   * back into a text, the first (variable, constant, rate) triple opens a set
   * and the others are added at the cursor; the first triple that raises stops
   * the block with the earlier ones kept, and otherwise `next_set` follows.
   */
  method AddDsDataset(store: TwoSubstrates, vals: seq<seq<string>>) returns (o: Outcome)
    requires store.Valid() && |vals| % 3 == 0
    modifies store
    ensures store.Valid()
    ensures var n := |vals| / 3;
      var l := Fold(old(store.Current()), old(store.setIndex), Replicates(Transformed(Joined(vals)), n), n);
      && store.Current() == l.role
      && store.aIsVar == old(store.aIsVar) && store.RoleOf(!store.aIsVar) == old(store.RoleOf(!store.aIsVar))
      && if l.failure.Some? then o == Raised(l.failure.value) && store.setIndex == old(store.setIndex)
         else o == Done && store.setIndex == NextIndex(old(store.setIndex), |l.role.consts|)
    ensures old(store.CursorInRange()) ==> store.CursorInRange()
  {
    var texts := Joined(vals);
    o := AddTexts(store, texts, Replicates(Transformed(texts), |vals| / 3), |vals| / 3);
  }

  /** The loop of `add_ds_dataset` over the column texts, `ts` being what `transform_data` makes of them. */
  method AddTexts(store: TwoSubstrates, texts: seq<string>, ghost reps: seq<Result<Replicate>>, n: nat) returns (o: Outcome)
    requires store.Valid() && 3 * n == |texts| && |reps| == n && AllShaped(reps)
    requires forall k :: 0 <= k < n ==> reps[k] == Check(TransformData(texts[3 * k]), TransformData(texts[3 * k + 1]), TransformData(texts[3 * k + 2]))
    modifies store
    ensures store.Valid()
    ensures var l := Fold(old(store.Current()), old(store.setIndex), reps, n);
      && store.Current() == l.role
      && store.aIsVar == old(store.aIsVar) && store.RoleOf(!store.aIsVar) == old(store.RoleOf(!store.aIsVar))
      && if l.failure.Some? then o == Raised(l.failure.value) && store.setIndex == old(store.setIndex)
         else o == Done && store.setIndex == NextIndex(old(store.setIndex), |l.role.consts|)
    ensures old(store.CursorInRange()) ==> store.CursorInRange()
  {
    o := LoadTriples(store, texts, reps, n);
    if o.Done? {
      store.NextSet();
    }
  }

  /** The triples of the block in order, stopping at the first that raises. */
  method LoadTriples(store: TwoSubstrates, texts: seq<string>, ghost reps: seq<Result<Replicate>>, n: nat) returns (o: Outcome)
    requires store.Valid() && 3 * n == |texts| && |reps| == n && AllShaped(reps)
    requires forall k :: 0 <= k < n ==> reps[k] == Check(TransformData(texts[3 * k]), TransformData(texts[3 * k + 1]), TransformData(texts[3 * k + 2]))
    modifies store
    ensures store.Valid()
    ensures store.aIsVar == old(store.aIsVar) && store.RoleOf(!store.aIsVar) == old(store.RoleOf(!store.aIsVar))
    ensures store.setIndex == old(store.setIndex)
    ensures Fold(old(store.Current()), old(store.setIndex), reps, n) == Loaded(store.Current(), if o.Raised? then Some(o.error) else None)
  {
    ghost var start := store.Current();
    var k := 0;
    o := Done;
    while k < n
      invariant k <= n && o == Done
      invariant store.Valid()
      invariant Fold(start, old(store.setIndex), reps, k) == Loaded(store.Current(), None)
      invariant store.aIsVar == old(store.aIsVar) && store.RoleOf(!store.aIsVar) == old(store.RoleOf(!store.aIsVar))
      invariant store.setIndex == old(store.setIndex)
    {
      o := LoadStep(store, texts[3 * k], texts[3 * k + 1], texts[3 * k + 2], start, reps, k);
      if o.Raised? {
        FailureStays(start, old(store.setIndex), reps, k + 1, n);
        return;
      }
      k := k + 1;
    }
  }

  /** The `k`-th triple of the block, loaded as one more step of `Fold`. */
  method LoadStep(store: TwoSubstrates, v: string, c: string, t: string, ghost start: Role, ghost reps: seq<Result<Replicate>>, k: nat)
    returns (o: Outcome)
    requires store.Valid() && RoleValid(start) && k < |reps| && AllShaped(reps)
    requires reps[k] == Check(TransformData(v), TransformData(c), TransformData(t))
    requires Fold(start, store.setIndex, reps, k) == Loaded(store.Current(), None)
    modifies store
    ensures store.Valid()
    ensures store.aIsVar == old(store.aIsVar) && store.RoleOf(!store.aIsVar) == old(store.RoleOf(!store.aIsVar))
    ensures store.setIndex == old(store.setIndex)
    ensures Fold(start, store.setIndex, reps, k + 1) == Loaded(store.Current(), if o.Raised? then Some(o.error) else None)
  {
    o := LoadTriple(store, k == 0, v, c, t, reps[k]);
  }

  /** Once a replicate has raised, later ones change nothing. */
  lemma {:induction false} FailureStays(r: Role, pos: int, reps: seq<Result<Replicate>>, j: nat, m: nat)
    requires RoleValid(r) && AllShaped(reps) && j <= m <= |reps|
    requires Fold(r, pos, reps, j).failure.Some?
    ensures Fold(r, pos, reps, m) == Fold(r, pos, reps, j)
    decreases m - j
  {
    if j < m {
      FailureStays(r, pos, reps, j, m - 1);
    }
  }

  /** The five header lines of the table: reaction name, substrate names, concentration and time units. */
  method ReadHeader(h: Handle) returns (store: TwoSubstrates)
    requires h.Valid() && h.pos == 0
    modifies h
    ensures h.Valid() && h.pos == if |h.lines| < 5 then |h.lines| else 5
    ensures fresh(store) && store.Valid() && store.CursorInRange()
    ensures store.name == Strip(if 0 < |h.lines| then h.lines[0] else "")
    ensures store.nameA == Strip(if 1 < |h.lines| then h.lines[1] else "")
    ensures store.nameB == Strip(if 2 < |h.lines| then h.lines[2] else "")
    ensures store.cunit == Strip(if 3 < |h.lines| then h.lines[3] else "")
    ensures store.tunit == Strip(if 4 < |h.lines| then h.lines[4] else "")
    ensures !store.isItc && store.aRate == 1.0 && store.bRate == 1.0
  {
    var pname := h.ReadLine();
    var aname := h.ReadLine();
    var bname := h.ReadLine();
    var cunit := h.ReadLine();
    var tunit := h.ReadLine();
    store := new TwoSubstrates(Strip(pname), Strip(aname), Strip(bname), false, 1.0, 1.0, Strip(tunit), Strip(cunit));
  }

  /**
   * `load_from_table`: reads the header into a new store (not an ITC run, both
   * stoichiometries 1), ignores the sixth line, then loads blocks until the
   * file is depleted, switching roles on a lone newline. An error in a block
   * ends the load.
   */
  method LoadFromTable(lines: seq<string>) returns (o: Outcome, store: TwoSubstrates)
    requires forall i :: 0 <= i < |lines| ==> lines[i] != ""
    ensures fresh(store) && store.Valid() && store.CursorInRange()
    ensures store.name == Strip(if 0 < |lines| then lines[0] else "")
    ensures store.nameA == Strip(if 1 < |lines| then lines[1] else "")
    ensures store.nameB == Strip(if 2 < |lines| then lines[2] else "")
    ensures store.cunit == Strip(if 3 < |lines| then lines[3] else "")
    ensures store.tunit == Strip(if 4 < |lines| then lines[4] else "")
    ensures !store.isItc && store.aRate == 1.0 && store.bRate == 1.0
  {
    var h := new Handle(lines);
    store := ReadHeader(h);
    var blank := h.ReadLine();
    while true
      invariant h.Valid() && fresh(h) && h.lines == lines
      invariant fresh(store) && store.Valid() && store.CursorInRange()
      invariant store.name == Strip(if 0 < |lines| then lines[0] else "")
      invariant store.nameA == Strip(if 1 < |lines| then lines[1] else "")
      invariant store.nameB == Strip(if 2 < |lines| then lines[2] else "")
      invariant store.cunit == Strip(if 3 < |lines| then lines[3] else "")
      invariant store.tunit == Strip(if 4 < |lines| then lines[4] else "")
      invariant !store.isItc && store.aRate == 1.0 && store.bRate == 1.0
      decreases |h.lines| - h.pos
    {
      var block := ReadReactionData(h);
      if block.Err? {
        return Raised(block.error), store;
      }
      match block.value
      case Depleted =>
        return Done, store;
      case Switch =>
        store.ChangeVariable();
      case Data(cols, _) =>
        var added := AddDsDataset(store, cols);
        if added.Raised? {
          return added, store;
        }
    }
  }
}

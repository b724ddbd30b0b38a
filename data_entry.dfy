/**
 * The store-editing logic of the data-entry and point-viewer windows: how
 * typed text becomes a set or a replicate, how the cursor is moved and shown,
 * the constant-substrate column of ITC runs, and deleting replicates. The
 * widgets themselves are left out; what a widget shows or holds is a parameter
 * or a result here.
 */
module DataEntry {
  import opened Wrappers
  import opened Text
  import opened Numerals
  import opened DataStorage

  /** The sum of a list of numbers. */
  function Sum(xs: seq<real>): real
    decreases |xs|
  {
    if xs == [] then 0.0 else Sum(xs[..|xs| - 1]) + xs[|xs| - 1]
  }

  lemma SumStep(xs: seq<real>, i: nat)
    requires 0 < i <= |xs|
    ensures Sum(xs[..i]) == Sum(xs[..i - 1]) + xs[i - 1]
  {
    assert xs[..i][..i - 1] == xs[..i - 1];
  }

  /** Prefix sums of nonnegative numbers grow with the prefix. */
  lemma {:induction false} SumMonotone(xs: seq<real>, i: nat, j: nat)
    requires i <= j <= |xs|
    requires forall k :: 0 <= k < |xs| ==> xs[k] >= 0.0
    ensures Sum(xs[..i]) <= Sum(xs[..j])
    decreases j - i
  {
    if i < j {
      SumStep(xs, j);
      SumMonotone(xs, i, j - 1);
    }
  }

  function TrailLength(rates: seq<real>): nat {
    if |rates| == 0 then 1 else |rates|
  }

  /**
   * The constant-substrate concentrations of an ITC run: the initial
   * concentration, and before each further injection the previous one less
   * the amount consumed, rate · stoichiometry · time step. In closed form the
   * i-th value is the initial one less stoichiometry · step · (sum of the first i rates).
   */
  function Trail(init: real, rates: seq<real>, stoich: real, step: real): (c: seq<real>)
    ensures |c| == TrailLength(rates)
    ensures c[0] == init
    ensures forall i :: 0 <= i < |c| ==> i <= |rates| && c[i] == init - stoich * step * Sum(rates[..i])
  {
    seq(TrailLength(rates), i requires 0 <= i < TrailLength(rates) => init - stoich * step * Sum(rates[..i]))
  }

  /** With nonnegative rates, stoichiometry and time step the concentration never rises. */
  lemma TrailNonIncreasing(init: real, rates: seq<real>, stoich: real, step: real)
    requires stoich >= 0.0 && step >= 0.0
    requires forall k :: 0 <= k < |rates| ==> rates[k] >= 0.0
    ensures var c := Trail(init, rates, stoich, step);
      forall i, j :: 0 <= i <= j < |c| ==> c[j] <= c[i]
  {
    var c := Trail(init, rates, stoich, step);
    forall i, j | 0 <= i <= j < |c| ensures c[j] <= c[i] {
      SumMonotone(rates, i, j);
      ScaleMonotone(stoich * step, Sum(rates[..i]), Sum(rates[..j]));
    }
  }

  lemma ScaleMonotone(a: real, x: real, y: real)
    requires a >= 0.0 && x <= y
    ensures a * x <= a * y
  {
  }

  /** One injection of the closed form: the next value is the previous one less rate · stoichiometry · step. */
  lemma TrailStep(init: real, rs: seq<real>, k: real, step: real, i: nat)
    requires 0 < i <= |rs|
    ensures init - k * step * Sum(rs[..i]) == (init - k * step * Sum(rs[..i - 1])) - rs[i - 1] * k * step
  {
    SumStep(rs, i);
  }

  /**
   * The loop of `make_const_conc`: starting from the initial concentration,
   * each injection but the last appends the previous value less rate ·
   * stoichiometry · step.
   */
  method ConstTrail(initConc: real, rs: seq<real>, k: real, timeStep: real) returns (constVar: seq<real>)
    ensures constVar == Trail(initConc, rs, k, timeStep)
  {
    constVar := [initConc];
    assert rs[..0] == [];
    var i := 1;
    while i < |rs|
      invariant 1 <= i <= TrailLength(rs)
      invariant |constVar| == i
      invariant forall j :: 0 <= j < i ==> constVar[j] == initConc - k * timeStep * Sum(rs[..j])
    {
      TrailStep(initConc, rs, k, timeStep, i);
      constVar := constVar + [constVar[i - 1] - rs[i - 1] * k * timeStep];
      i := i + 1;
    }
  }

  /** `str()` of each number. */
  function Shown(xs: seq<real>, show: real -> string): (r: seq<string>)
    ensures |r| == |xs| && forall i :: 0 <= i < |xs| ==> r[i] == show(xs[i])
  {
    seq(|xs|, i requires 0 <= i < |xs| => show(xs[i]))
  }

  /** The text `make_const_conc` produces, or ValueError when the rate text does not parse. */
  function ItcText(rateText: string, init: real, stoich: real, step: real, show: real -> string): Result<string> {
    match TransformData(rateText)
    case Err(e) => Err(e)
    case Ok(rates) => Ok(JoinWith(Shown(Trail(init, rates, stoich, step), show), ", "))
  }

  /**
   * `make_const_conc()`: parses the rate text and builds the constant-substrate
   * concentrations step by step, with the stoichiometry of the current role,
   * then writes them out separated by `', '`.
   */
  method MakeConstConc(store: TwoSubstrates, rateText: string, initConc: real, timeStep: real, show: real -> string)
    returns (r: Result<string>)
    requires store.Valid()
    ensures r == ItcText(rateText, initConc, store.GetStochVal(), timeStep, show)
    ensures r.Err? <==> TransformData(rateText).Err?
  {
    var rates := TransformData(rateText);
    if rates.Err? {
      return Err(ValueError);
    }
    var constVar := ConstTrail(initConc, rates.value, store.GetStochVal(), timeStep);
    r := Ok(JoinWith(Shown(constVar, show), ", "));
  }

  /** Without ITC: the spin-box value written once per token of the rate text, separated by `', '`. */
  function RepeatedConst(spinValue: real, rateText: string, show: real -> string): string {
    JoinWith(Repeat(show(spinValue), |Words(ReplaceCommas(rateText), Whitespace)|), ", ")
  }

  /**
   * When the spin-box value is written as one token that reads back as the
   * value, the constant column parses to that value once per rate token, so it
   * is exactly as long as the parsed rates.
   */
  lemma RepeatedConstMatchesRates(spinValue: real, rateText: string, show: real -> string)
    requires show(spinValue) != [] && NoSep(show(spinValue), Separators)
    requires ParseNumber(show(spinValue)) == Some(spinValue)
    ensures TransformData(RepeatedConst(spinValue, rateText, show)) == Ok(Repeat(spinValue, |Words(rateText, Separators)|))
    ensures TransformData(rateText).Ok? ==> |TransformData(RepeatedConst(spinValue, rateText, show)).value| == |TransformData(rateText).value|
  {
    var n := |Words(rateText, Separators)|;
    CommasAreWhitespace(rateText);
    assert ',' in Separators && ' ' in Separators;
    assert AllSep(", ", Separators);
    var toks := Repeat(show(spinValue), n);
    WordsOfJoin(toks, ", ", Separators);
    TransformOfParsedWords(JoinWith(toks, ", "), Repeat(spinValue, n));
  }

  /**
   * The current role after `add_set` (at the new-set position) or `add_rep`
   * (at set `k`) with the given texts; a ValueError or AssertionError is caught
   * and leaves the role as it was.
   */
  function Entered(r: Role, isNew: bool, k: int, varText: string, constText: string, rateText: string): (res: Role)
    requires RoleValid(r) && (!isNew ==> 0 <= k < |r.consts|)
    ensures RoleValid(res)
    ensures var v, c, t := TransformData(varText), TransformData(constText), TransformData(rateText);
      var ok := v.Ok? && c.Ok? && t.Ok? && |v.value| == |c.value| == |t.value|;
      && (!ok ==> res == r)
      && (ok && isNew ==>
            && |res.consts| == |r.consts| + 1
            && res.vars[..|r.consts|] == r.vars && res.consts[..|r.consts|] == r.consts && res.rates[..|r.consts|] == r.rates
            && res.vars[|r.consts|] == [v.value] && res.consts[|r.consts|] == [c.value] && res.rates[|r.consts|] == [t.value])
      && (ok && !isNew ==>
            && |res.consts| == |r.consts|
            && res.vars[k] == r.vars[k] + [v.value] && res.consts[k] == r.consts[k] + [c.value] && res.rates[k] == r.rates[k] + [t.value]
            && forall s :: 0 <= s < |r.consts| && s != k ==> res.vars[s] == r.vars[s] && res.consts[s] == r.consts[s] && res.rates[s] == r.rates[s])
  {
    var v, c, t := TransformData(varText), TransformData(constText), TransformData(rateText);
    if v.Err? || c.Err? || t.Err? then r
    else if |v.value| != |c.value| || |v.value| != |t.value| then r
    else if isNew then AppendSet(r, v.value, c.value, t.value)
    else AppendRep(r, k, v.value, c.value, t.value)
  }

  /**
   * What `change_set` puts in the constant-substrate box for cursor `index`:
   * nothing at the new-set position, otherwise the first value of the set's
   * latest constant array. A cursor beyond the new-set position raises
   * ValueError, and an empty latest array raises IndexError.
   */
  function DisplayedConst(r: Role, index: nat): (d: Result<Option<real>>)
    requires RoleValid(r)
    ensures d == Err(ValueError) <==> index > |r.consts|
    ensures d == Ok(None) <==> index == |r.consts|
    ensures d == Err(IndexError) <==> (index < |r.consts| && r.consts[index][|r.consts[index]| - 1] == [])
    ensures d.Ok? && d.value.Some? ==>
      (index < |r.consts| && var last := r.consts[index][|r.consts[index]| - 1]; last != [] && d.value.value == last[0])
  {
    match NewSetState(index, |r.consts|)
    case Err(e) => Err(e)
    case Ok(isNew) =>
      if isNew then Ok(None)
      else
        var last := r.consts[index][|r.consts[index]| - 1];
        if |last| == 0 then Err(IndexError) else Ok(Some(last[0]))
  }

  /**
   * `change_set(rep_add)`: unless a replicate was just added, the cursor moves
   * with `next_set`; the result is what the constant-substrate box then shows.
   */
  method ChangeSet(store: TwoSubstrates, repAdd: bool) returns (shown: Result<Option<real>>)
    requires store.Valid()
    modifies store
    ensures store.Valid()
    ensures store.setIndex == if repAdd then old(store.setIndex) else NextIndex(old(store.setIndex), old(store.SetCount()))
    ensures store.aIsVar == old(store.aIsVar) && store.whenA == old(store.whenA) && store.whenB == old(store.whenB)
    ensures shown == DisplayedConst(store.Current(), store.setIndex)
  {
    if !repAdd {
      store.NextSet();
    }
    var isNew := store.IsNewSet();
    if isNew.Err? {
      return Err(ValueError);
    }
    if isNew.value {
      return Ok(None);
    }
    var last := store.GetLastConst();
    var c := last.value.value;
    if |c| == 0 {
      return Err(IndexError);
    }
    shown := Ok(Some(c[0]));
  }

  /**
   * `append_data()`: the constant column comes from `make_const_conc` for ITC
   * runs (a rate text that does not parse escapes as ValueError) and from the
   * spin-box value otherwise; then `add_set` at the new-set position or
   * `add_rep` elsewhere, with their ValueError and AssertionError caught, and
   * finally `change_set(rep_add=True)`, which leaves the cursor where it is.
   */
  method AppendData(store: TwoSubstrates, rateText: string, varText: string, spinValue: real,
                    initConc: real, timeStep: real, show: real -> string)
    returns (shown: Result<Option<real>>)
    requires store.Valid()
    modifies store
    ensures store.Valid()
    ensures store.aIsVar == old(store.aIsVar) && store.setIndex == old(store.setIndex)
    ensures store.RoleOf(!store.aIsVar) == old(store.RoleOf(!store.aIsVar))
    ensures var constText := if store.isItc then ItcText(rateText, initConc, old(store.GetStochVal()), timeStep, show)
                             else Ok(RepeatedConst(spinValue, rateText, show));
      if constText.Err? then shown == Err(ValueError) && unchanged(store)
      else if old(store.IsNewSet()).Err? then shown == Err(ValueError) && unchanged(store)
      else
        && store.Current() == Entered(old(store.Current()), old(store.IsNewSet()).value, old(store.setIndex), varText, constText.value, rateText)
        && shown == DisplayedConst(store.Current(), store.setIndex)
  {
    var constVar: string;
    if store.isItc {
      var made := MakeConstConc(store, rateText, initConc, timeStep, show);
      if made.Err? {
        return Err(ValueError);
      }
      constVar := made.value;
    } else {
      constVar := RepeatedConst(spinValue, rateText, show);
    }
    var isNew := store.IsNewSet();
    if isNew.Err? {
      return Err(ValueError);
    }
    var added: Outcome;
    if isNew.value {
      added := store.AddSet(varText, constVar, rateText);
    } else {
      added := store.AddRep(varText, constVar, rateText, None);
    }
    shown := ChangeSet(store, true);
  }

  /**
   * `change_substr_role()`: `change_varible` then `change_set()`. The cursor
   * ends at 0 when the newly variable substrate has no sets and at 1 otherwise.
   */
  method ChangeSubstrRole(store: TwoSubstrates) returns (shown: Result<Option<real>>)
    requires store.Valid()
    modifies store
    ensures store.Valid()
    ensures store.aIsVar == !old(store.aIsVar) && store.whenA == old(store.whenA) && store.whenB == old(store.whenB)
    ensures store.setIndex == if store.SetCount() == 0 then 0 else 1
    ensures store.CursorInRange()
    ensures shown == DisplayedConst(store.Current(), store.setIndex)
  {
    store.ChangeVariable();
    shown := ChangeSet(store, false);
  }

  /** The number of replicates over all sets. */
  function ReplicateCount(sets: seq<seq<seq<real>>>): nat
    decreases |sets|
  {
    if sets == [] then 0 else |sets[0]| + ReplicateCount(sets[1..])
  }

  lemma {:induction false} CountRemoveAt(sets: seq<seq<seq<real>>>, k: nat)
    requires k < |sets|
    ensures ReplicateCount(RemoveAt(sets, k)) == ReplicateCount(sets) - |sets[k]|
    decreases k
  {
    if k > 0 {
      CountRemoveAt(sets[1..], k - 1);
      assert RemoveAt(sets, k) == [sets[0]] + RemoveAt(sets[1..], k - 1);
    } else {
      assert RemoveAt(sets, 0) == sets[1..];
    }
  }

  lemma {:induction false} CountUpdate(sets: seq<seq<seq<real>>>, k: nat, x: seq<seq<real>>)
    requires k < |sets|
    ensures ReplicateCount(sets[k := x]) == ReplicateCount(sets) - |sets[k]| + |x|
    decreases k
  {
    if k > 0 {
      CountUpdate(sets[1..], k - 1, x);
      assert sets[k := x] == [sets[0]] + sets[1..][k - 1 := x];
    } else {
      assert sets[0 := x][1..] == sets[1..];
    }
  }

  /**
   * The two-substrate part of `delete_points`: replicate `repPos` of set
   * `setPos` is popped from the three lists, and a set left empty is popped
   * too (the second component then names it). Either position out of range
   * raises IndexError before anything changes.
   */
  function RemoveReplicate(r: Role, setPos: int, repPos: int): (res: Result<(Role, Option<nat>)>)
    requires RoleValid(r)
    ensures res.Err? <==> (PyIndex(setPos, |r.consts|).None? || PyIndex(repPos, |r.vars[PyIndex(setPos, |r.consts|).value]|).None?)
    ensures res.Err? ==> res.error == IndexError
    ensures res.Ok? ==> RoleValid(res.value.0) && ReplicateCount(res.value.0.vars) == ReplicateCount(r.vars) - 1
    ensures res.Ok? ==> var k := PyIndex(setPos, |r.consts|).value;
      if |r.vars[k]| == 1 then res.value.1 == Some(k) && |res.value.0.consts| == |r.consts| - 1
      else res.value.1 == None && |res.value.0.consts| == |r.consts|
    ensures res.Ok? ==>
      var k := PyIndex(setPos, |r.consts|).value;
      var p := PyIndex(repPos, |r.vars[k]|).value;
      res.value.0 == if |r.vars[k]| == 1 then Role(RemoveAt(r.vars, k), RemoveAt(r.consts, k), RemoveAt(r.rates, k))
        else Role(r.vars[k := RemoveAt(r.vars[k], p)], r.consts[k := RemoveAt(r.consts[k], p)], r.rates[k := RemoveAt(r.rates[k], p)])
  {
    match PyIndex(setPos, |r.vars|)
    case None => Err(IndexError)
    case Some(k) =>
      match PyIndex(repPos, |r.vars[k]|)
      case None => Err(IndexError)
      case Some(p) =>
        if |r.vars[k]| == 1 then
          CountRemoveAt(r.vars, k);
          Ok((Role(RemoveAt(r.vars, k), RemoveAt(r.consts, k), RemoveAt(r.rates, k)), Some(k)))
        else
          var res := Role(r.vars[k := RemoveAt(r.vars[k], p)], r.consts[k := RemoveAt(r.consts[k], p)], r.rates[k := RemoveAt(r.rates[k], p)]);
          CountUpdate(r.vars, k, RemoveAt(r.vars[k], p));
          assert SetValid(res.vars[k], res.consts[k], res.rates[k]);
          Ok((res, None))
  }

  /** The cursor after set `removed` (if any) is deleted from the role it indexes: later positions move back by one. */
  function ShiftCursor(cursor: int, removed: Option<nat>): int {
    if removed.Some? && cursor > removed.value then cursor - 1 else cursor
  }

  /**
   * With the shift, a cursor in range stays in range, the new-set position
   * stays the new-set position, and a cursor on a set that was not removed
   * keeps pointing at that set.
   */
  lemma ShiftKeepsCursor(r: Role, setPos: int, repPos: int, cursor: int)
    requires RoleValid(r) && 0 <= cursor <= |r.consts|
    requires RemoveReplicate(r, setPos, repPos).Ok?
    ensures var (after, removed) := RemoveReplicate(r, setPos, repPos).value;
      var c := ShiftCursor(cursor, removed);
      && 0 <= c <= |after.consts|
      && (cursor == |r.consts| ==> c == |after.consts|)
      && (removed.Some? && cursor < |r.consts| && cursor != removed.value ==>
            after.vars[c] == r.vars[cursor] && after.consts[c] == r.consts[cursor] && after.rates[c] == r.rates[cursor])
  {
  }

  /**
   * Deleting the only replicate of the only set while the cursor is at the
   * new-set position (1) leaves the cursor at 1 over no sets, where `isnewset`
   * raises ValueError; shifting the cursor gives 0, the new-set position.
   */
  lemma DeleteStrandsCursor()
    ensures var r := Role([[[1.0]]], [[[2.0]]], [[[3.0]]]);
      && NewSetState(1, |r.consts|) == Ok(true)
      && RemoveReplicate(r, 0, 0) == Ok((EmptyRole, Some(0)))
      && NewSetState(1, |EmptyRole.consts|) == Err(ValueError)
      && NewSetState(ShiftCursor(1, Some(0)), |EmptyRole.consts|) == Ok(true)
  {
    var r := Role([[[1.0]]], [[[2.0]]], [[[3.0]]]);
    assert RoleValid(r);
    assert RemoveAt(r.vars, 0) == [];
    assert RemoveAt(r.consts, 0) == [];
    assert RemoveAt(r.rates, 0) == [];
  }

  /**
   * `delete_points()` on two-substrate data, as written: the replicate (and an
   * emptied set) is removed from the role chosen in the viewer, and `setindex`
   * is left as it was even when it now lies beyond the sets.
   */
  method DeletePointsAsWritten(store: TwoSubstrates, subsSel: bool, setPos: int, repPos: int) returns (o: Outcome)
    requires store.Valid()
    modifies store
    ensures store.Valid()
    ensures var res := RemoveReplicate(old(store.RoleOf(subsSel)), setPos, repPos);
      if res.Err? then o == Raised(IndexError) && unchanged(store)
      else (o == Done && store.RoleOf(subsSel) == res.value.0 && store.RoleOf(!subsSel) == old(store.RoleOf(!subsSel))
        && store.aIsVar == old(store.aIsVar) && store.setIndex == old(store.setIndex))
  {
    var res := RemoveReplicate(store.RoleOf(subsSel), setPos, repPos);
    if res.Err? {
      return Raised(IndexError);
    }
    store.SetRole(subsSel, res.value.0);
    o := Done;
  }

  /**
   * `delete_points()` on two-substrate data with the cursor kept consistent:
   * when a set of the role being entered is removed, a cursor after it moves
   * back by one, so a cursor in range stays in range.
   */
  method DeletePoints(store: TwoSubstrates, subsSel: bool, setPos: int, repPos: int) returns (o: Outcome)
    requires store.Valid()
    modifies store
    ensures store.Valid()
    ensures var res := RemoveReplicate(old(store.RoleOf(subsSel)), setPos, repPos);
      if res.Err? then o == Raised(IndexError) && unchanged(store)
      else (o == Done && store.RoleOf(subsSel) == res.value.0 && store.RoleOf(!subsSel) == old(store.RoleOf(!subsSel))
        && store.aIsVar == old(store.aIsVar)
        && store.setIndex == if subsSel == store.aIsVar then ShiftCursor(old(store.setIndex), res.value.1) else old(store.setIndex))
    ensures old(store.CursorInRange()) ==> store.CursorInRange()
  {
    var res := RemoveReplicate(store.RoleOf(subsSel), setPos, repPos);
    if res.Err? {
      return Raised(IndexError);
    }
    if subsSel == store.aIsVar && store.CursorInRange() {
      ShiftKeepsCursor(store.Current(), setPos, repPos, store.setIndex);
    }
    store.SetRole(subsSel, res.value.0);
    if subsSel == store.aIsVar {
      store.setIndex := ShiftCursor(store.setIndex, res.value.1);
    }
    o := Done;
  }

  /**
   * `delete_points()` on single-substrate data: with replicates present, the
   * one at `posit` is popped from both lists and the counter drops by one; with
   * none, only a warning is shown.
   */
  method DeletePointsSingle(data: OneSubstrate, posit: int) returns (o: Outcome)
    requires data.Valid()
    modifies data
    ensures data.Valid()
    ensures old(data.replicates) == 0 ==> o == Done && unchanged(data)
    ensures old(data.replicates) > 0 && PyIndex(posit, old(data.replicates)).None? ==> o == Raised(IndexError) && unchanged(data)
    ensures old(data.replicates) > 0 && PyIndex(posit, old(data.replicates)).Some? ==>
      var k := PyIndex(posit, old(data.replicates)).value;
      && o == Done
      && data.concentrations.Some? && data.rates.Some?
      && Listed(data.concentrations) == RemoveAt(Listed(old(data.concentrations)), k)
      && Listed(data.rates) == RemoveAt(Listed(old(data.rates)), k)
      && data.replicates == old(data.replicates) - 1
  {
    if data.replicates > 0 {
      var k := PyIndex(posit, data.replicates);
      if k.None? {
        return Raised(IndexError);
      }
      data.rates := Some(RemoveAt(data.rates.value, k.value));
      data.concentrations := Some(RemoveAt(data.concentrations.value, k.value));
      data.replicates := data.replicates - 1;
    }
    o := Done;
  }
}

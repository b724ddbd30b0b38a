/**
 * The experiment data store. `OneSubstrate` holds replicates of
 * (concentration, rate) arrays. `TwoSubstrates` holds, for each choice of
 * variable substrate, a list of sets; a set is a list of replicates, and a
 * replicate is three arrays of equal length: variable-substrate
 * concentrations, constant-substrate concentrations and rates. A write cursor
 * `setindex` ranges over `0..len(sets)`, where `len(sets)` means "open a new set".
 */
module DataStorage {
  import opened Wrappers
  import opened Text
  import opened Numerals

  /** `float(t)` for every token, in order; `None` if any token is not a number. */
  function ParseAll(toks: seq<string>): (r: Option<seq<real>>)
    ensures r.Some? <==> forall i :: 0 <= i < |toks| ==> ParseNumber(toks[i]).Some?
    ensures r.Some? ==> |r.value| == |toks| && forall i :: 0 <= i < |toks| ==> r.value[i] == ParseNumber(toks[i]).value
  {
    if forall i :: 0 <= i < |toks| ==> ParseNumber(toks[i]).Some? then
      Some(seq(|toks|, i requires 0 <= i < |toks| => ParseNumber(toks[i]).value))
    else None
  }

  /**
   * `transform_data(s)`: commas become blanks, the text is stripped and split on
   * whitespace, and every token is converted with `float`. Commas and any
   * whitespace are equal separators; a token that is not a number raises ValueError.
   */
  function TransformData(s: string): (r: Result<seq<real>>)
    ensures var toks := Words(s, Separators);
      && (r.Ok? <==> forall i :: 0 <= i < |toks| ==> ParseNumber(toks[i]).Some?)
      && (r.Err? ==> r.error == ValueError)
      && (r.Ok? ==> |r.value| == |toks| && forall i :: 0 <= i < |toks| ==> r.value[i] == ParseNumber(toks[i]).value)
  {
    var procVals := Strip(ReplaceCommas(s));
    CommasAreWhitespace(s);
    StripKeepsWords(ReplaceCommas(s));
    match ParseAll(Words(procVals, Whitespace))
    case None => Err(ValueError)
    case Some(vals) => Ok(vals)
  }

  /** The decimal renderings of a list of naturals. */
  function NatTexts(ns: seq<nat>): (r: seq<string>)
    ensures |r| == |ns| && forall i :: 0 <= i < |ns| ==> r[i] == NatToString(ns[i])
  {
    seq(|ns|, i requires 0 <= i < |ns| => NatToString(ns[i]))
  }

  /** Naturals written out with `', '` between them are read back as the same numbers, in order. */
  lemma TransformJoinedNaturals(ns: seq<nat>)
    ensures TransformData(JoinWith(NatTexts(ns), ", ")) == Ok(seq(|ns|, i requires 0 <= i < |ns| => ns[i] as real))
  {
    var toks, vals := NatTexts(ns), seq(|ns|, i requires 0 <= i < |ns| => ns[i] as real);
    var s := JoinWith(toks, ", ");
    JoinedNaturalsSplit(ns);
    NaturalsParse(ns);
    TransformOfParsedWords(s, vals);
  }

  /** Text whose tokens all parse is read as the list of their values. */
  lemma TransformOfParsedWords(s: string, vals: seq<real>)
    requires |Words(s, Separators)| == |vals|
    requires forall i :: 0 <= i < |vals| ==> ParseNumber(Words(s, Separators)[i]) == Some(vals[i])
    ensures TransformData(s) == Ok(vals)
  {
    var r := TransformData(s);
    assert r.Ok? && |r.value| == |vals|;
    assert forall i :: 0 <= i < |vals| ==> r.value[i] == vals[i];
    assert r.value == vals;
    assert r == Ok(r.value);
  }

  lemma NaturalsParse(ns: seq<nat>)
    ensures forall i :: 0 <= i < |ns| ==> ParseNumber(NatTexts(ns)[i]) == Some(ns[i] as real)
  {
    forall i | 0 <= i < |ns| ensures ParseNumber(NatTexts(ns)[i]) == Some(ns[i] as real) {
      NatRoundTrip(ns[i]);
    }
  }

  lemma JoinedNaturalsSplit(ns: seq<nat>)
    ensures Words(JoinWith(NatTexts(ns), ", "), Separators) == NatTexts(ns)
  {
    var toks := NatTexts(ns);
    assert ',' in Separators && ' ' in Separators;
    assert AllSep(", ", Separators);
    forall i | 0 <= i < |toks| ensures toks[i] != [] && NoSep(toks[i], Separators) {
      forall k | 0 <= k < |toks[i]| ensures toks[i][k] !in Separators {
        DigitIsNoSeparator(toks[i][k]);
      }
    }
    WordsOfJoin(toks, ", ", Separators);
  }

  lemma DigitIsNoSeparator(c: char)
    requires '0' <= c <= '9'
    ensures c !in Separators
  {
  }

  /** The arrays of a list, or no arrays while the list is still `None`. */
  function Listed(xs: Option<seq<seq<real>>>): seq<seq<real>> {
    if xs.Some? then xs.value else []
  }

  /** Single-substrate data: a replicate counter and two parallel lists of arrays. */
  class OneSubstrate {
    var replicates: int
    var concentrations: Option<seq<seq<real>>>
    var rates: Option<seq<seq<real>>>
    const name: string
    const cunit: string
    const tunit: string
    const runit: string

    /**
     * The counter equals the length of both lists, the lists are `None` only
     * while there are no replicates, and paired arrays have equal length.
     */
    ghost predicate Valid()
      reads this
    {
      && (concentrations.None? <==> rates.None?)
      && (concentrations.None? ==> replicates == 0)
      && replicates == |Listed(concentrations)| == |Listed(rates)|
      && forall i :: 0 <= i < replicates ==> |Listed(concentrations)[i]| == |Listed(rates)[i]|
    }

    /** `OneSubstrate(name, tunit, cunit)`: no replicates; the rate unit is `(cunit)/(tunit)`. */
    constructor (name: string, tunit: string, cunit: string)
      ensures Valid()
      ensures replicates == 0 && concentrations == None && rates == None
      ensures this.name == name && this.cunit == cunit && this.tunit == tunit
      ensures runit == "(" + cunit + ")/(" + tunit + ")"
    {
      replicates := 0;
      this.name := name;
      concentrations := None;
      rates := None;
      this.cunit := cunit;
      this.tunit := tunit;
      runit := "(" + cunit + ")/(" + tunit + ")";
    }

    /** `len(data)`: the number of replicates, which is the length of each list. */
    function Length(): (n: int)
      reads this
      requires Valid()
      ensures n >= 0 && n == |Listed(concentrations)| && n == |Listed(rates)|
    {
      replicates
    }

    /** `iter(data)`: the (concentrations, rates) pairs; before the first replicate `zip(None, None)` raises TypeError. */
    function Pairs(): (r: Result<seq<(seq<real>, seq<real>)>>)
      reads this
      requires Valid()
      ensures r.Err? <==> concentrations.None?
      ensures r.Err? ==> r.error == TypeError
      ensures r.Ok? ==> (|r.value| == replicates
        && forall i :: 0 <= i < |r.value| ==> r.value[i] == (Listed(concentrations)[i], Listed(rates)[i]) && |r.value[i].0| == |r.value[i].1|)
    {
      if concentrations.None? || rates.None? then Err(TypeError)
      else
        var cs, rs := concentrations.value, rates.value;
        Ok(seq(|cs|, i requires 0 <= i < |cs| && |cs| == |rs| => (cs[i], rs[i])))
    }

    /** `add_replicate(c, r, transform=False)`: arrays of equal length are appended as one replicate. */
    method AddReplicateValues(conc: seq<real>, rate: seq<real>) returns (o: Outcome)
      requires Valid()
      modifies this
      ensures Valid()
      ensures |conc| != |rate| ==> o == Raised(AssertionError) && unchanged(this)
      ensures |conc| == |rate| ==> (o == Done
        && Listed(concentrations) == Listed(old(concentrations)) + [conc]
        && Listed(rates) == Listed(old(rates)) + [rate]
        && replicates == old(replicates) + 1)
    {
      if |conc| != |rate| {
        return Raised(AssertionError);
      }
      if replicates == 0 {
        concentrations := Some([conc]);
        rates := Some([rate]);
      } else {
        concentrations := Some(concentrations.value + [conc]);
        rates := Some(rates.value + [rate]);
      }
      replicates := replicates + 1;
      o := Done;
    }

    /**
     * `add_replicate(c, r)`: both texts are parsed and their lengths compared
     * before anything changes, so a failure leaves the object as it was.
     */
    method AddReplicate(concText: string, rateText: string) returns (o: Outcome)
      requires Valid()
      modifies this
      ensures Valid()
      ensures var c, t := TransformData(concText), TransformData(rateText);
        if c.Err? || t.Err? then o == Raised(ValueError) && unchanged(this)
        else if |c.value| != |t.value| then o == Raised(AssertionError) && unchanged(this)
        else (o == Done
          && Listed(concentrations) == Listed(old(concentrations)) + [c.value]
          && Listed(rates) == Listed(old(rates)) + [t.value]
          && replicates == old(replicates) + 1)
    {
      var c := TransformData(concText);
      if c.Err? {
        return Raised(ValueError);
      }
      var t := TransformData(rateText);
      if t.Err? {
        return Raised(ValueError);
      }
      o := AddReplicateValues(c.value, t.value);
    }
  }

  /** The data recorded with one substrate as the variable one: sets of replicates, in three parallel lists. */
  datatype Role = Role(vars: seq<seq<seq<real>>>, consts: seq<seq<seq<real>>>, rates: seq<seq<seq<real>>>)

  const EmptyRole := Role([], [], [])

  /** A set: at least one replicate, and each replicate's three arrays of equal length. */
  predicate SetValid(v: seq<seq<real>>, c: seq<seq<real>>, t: seq<seq<real>>) {
    && |v| == |c| == |t| > 0
    && forall j :: 0 <= j < |v| ==> |v[j]| == |c[j]| == |t[j]|
  }

  /** The three lists hold the same number of sets, and every set is valid. */
  predicate RoleValid(r: Role) {
    && |r.vars| == |r.consts| == |r.rates|
    && forall s :: 0 <= s < |r.vars| ==> SetValid(r.vars[s], r.consts[s], r.rates[s])
  }

  /** `add_set`'s effect on a role: a new last set holding the one replicate. */
  function AppendSet(r: Role, v: seq<real>, c: seq<real>, t: seq<real>): (res: Role)
    requires RoleValid(r) && |v| == |c| == |t|
    ensures RoleValid(res)
    ensures |res.consts| == |r.consts| + 1
    ensures res.vars[..|r.vars|] == r.vars && res.consts[..|r.consts|] == r.consts && res.rates[..|r.rates|] == r.rates
    ensures res.vars[|r.vars|] == [v] && res.consts[|r.consts|] == [c] && res.rates[|r.rates|] == [t]
  {
    Role(r.vars + [[v]], r.consts + [[c]], r.rates + [[t]])
  }

  /** `add_rep`'s effect on a role: set `k` gains the replicate as its last one; other sets stay. */
  function AppendRep(r: Role, k: nat, v: seq<real>, c: seq<real>, t: seq<real>): (res: Role)
    requires RoleValid(r) && k < |r.consts| && |v| == |c| == |t|
    ensures RoleValid(res)
    ensures |res.consts| == |r.consts|
    ensures res.vars[k] == r.vars[k] + [v] && res.consts[k] == r.consts[k] + [c] && res.rates[k] == r.rates[k] + [t]
    ensures forall s :: 0 <= s < |r.consts| && s != k ==> res.vars[s] == r.vars[s] && res.consts[s] == r.consts[s] && res.rates[s] == r.rates[s]
  {
    Role(r.vars[k := r.vars[k] + [v]], r.consts[k := r.consts[k] + [c]], r.rates[k := r.rates[k] + [t]])
  }

  /** `next_set`'s step: from the new-set position back to 0, otherwise one forward. */
  function NextIndex(i: int, n: nat): (r: int)
    ensures 0 <= i <= n ==> 0 <= r <= n
    ensures i >= 0 ==> (r == 0 <==> i == n)
    ensures i != n ==> r == i + 1
  {
    if i == n then 0 else i + 1
  }

  /** `k` calls of `next_set` with `n` sets. */
  function NextIter(i: int, n: nat, k: nat): int
    decreases k
  {
    if k == 0 then i else NextIter(NextIndex(i, n), n, k - 1)
  }

  lemma {:induction false} StepsForward(i: nat, n: nat, k: nat)
    requires i + k <= n
    ensures NextIter(i, n, k) == i + k
    decreases k
  {
    if k > 0 {
      StepsForward(i + 1, n, k - 1);
    }
  }

  /** From any position, `n + 1` calls of `next_set` visit every position once and come back. */
  lemma CursorCycles(i: nat, n: nat)
    requires i <= n
    ensures NextIter(i, n, n + 1) == i
    ensures forall k :: 0 <= k <= n - i ==> NextIter(i, n, k) == i + k
  {
    forall k | 0 <= k <= n - i ensures NextIter(i, n, k) == i + k {
      StepsForward(i, n, k);
    }
    StepsForward(i, n, n - i);
    Compose(i, n, n - i, i + 1);
    assert NextIter(n, n, 1) == 0;
    Compose(n, n, 1, i);
    StepsForward(0, n, i);
  }

  lemma {:induction false} Compose(i: int, n: nat, j: nat, k: nat)
    ensures NextIter(i, n, j + k) == NextIter(NextIter(i, n, j), n, k)
    decreases j
  {
    if j > 0 {
      Compose(NextIndex(i, n), n, j - 1, k);
    }
  }

  /** `isnewset` for cursor `i` over `n` sets: true at `n`, false below, ValueError above. */
  function NewSetState(i: int, n: nat): (r: Result<bool>)
    ensures r == Ok(true) <==> i == n
    ensures r == Ok(false) <==> i < n
    ensures r == Err(ValueError) <==> i > n
  {
    if i == n then Ok(true)
    else if i < n then Ok(false)
    else Err(ValueError)
  }

  /** One (variable, rate, constant) triple per set: each list of replicate arrays concatenated. */
  function SetPoints(r: Role): (pts: seq<Triple>)
    requires RoleValid(r)
    ensures |pts| == |r.consts|
    ensures forall i :: 0 <= i < |pts| ==> pts[i] == (Concat(r.vars[i]), Concat(r.rates[i]), Concat(r.consts[i]))
    ensures forall i :: 0 <= i < |pts| ==> |pts[i].0| == |pts[i].1| == |pts[i].2| == TotalLen(r.vars[i])
  {
    forall i | 0 <= i < |r.consts|
      ensures |Concat(r.vars[i])| == |Concat(r.rates[i])| == |Concat(r.consts[i])| == TotalLen(r.vars[i])
    {
      SameTotal(r.vars[i], r.rates[i]);
      SameTotal(r.vars[i], r.consts[i]);
      ConcatLength(r.vars[i]);
      ConcatLength(r.rates[i]);
      ConcatLength(r.consts[i]);
    }
    seq(|r.consts|, i requires 0 <= i < |r.consts| && RoleValid(r) => (Concat(r.vars[i]), Concat(r.rates[i]), Concat(r.consts[i])))
  }

  /** Lists of arrays that agree in length one for one have the same number of points. */
  lemma {:induction false} SameTotal(xs: seq<seq<real>>, ys: seq<seq<real>>)
    requires |xs| == |ys| && forall j :: 0 <= j < |xs| ==> |xs[j]| == |ys[j]|
    ensures TotalLen(xs) == TotalLen(ys)
    decreases |xs|
  {
    if xs != [] {
      SameTotal(xs[1..], ys[1..]);
    }
  }

  type Triple = (seq<real>, seq<real>, seq<real>)

  function VarColumn(pts: seq<Triple>): (r: seq<seq<real>>)
    ensures |r| == |pts| && forall i :: 0 <= i < |pts| ==> r[i] == pts[i].0
  {
    seq(|pts|, i requires 0 <= i < |pts| => pts[i].0)
  }

  function RateColumn(pts: seq<Triple>): (r: seq<seq<real>>)
    ensures |r| == |pts| && forall i :: 0 <= i < |pts| ==> r[i] == pts[i].1
  {
    seq(|pts|, i requires 0 <= i < |pts| => pts[i].1)
  }

  function ConstColumn(pts: seq<Triple>): (r: seq<seq<real>>)
    ensures |r| == |pts| && forall i :: 0 <= i < |pts| ==> r[i] == pts[i].2
  {
    seq(|pts|, i requires 0 <= i < |pts| => pts[i].2)
  }

  lemma ColumnsExtend(pts: seq<Triple>, i: nat)
    requires i < |pts|
    ensures VarColumn(pts[..i + 1]) == VarColumn(pts[..i]) + [pts[i].0]
    ensures RateColumn(pts[..i + 1]) == RateColumn(pts[..i]) + [pts[i].1]
    ensures ConstColumn(pts[..i + 1]) == ConstColumn(pts[..i]) + [pts[i].2]
  {
    assert VarColumn(pts[..i + 1]) == VarColumn(pts[..i]) + [pts[i].0];
    assert RateColumn(pts[..i + 1]) == RateColumn(pts[..i]) + [pts[i].1];
    assert ConstColumn(pts[..i + 1]) == ConstColumn(pts[..i]) + [pts[i].2];
  }

  /** Two-substrate data, with the role flag and the write cursor. */
  class TwoSubstrates {
    const nameA: string
    const nameB: string
    const name: string
    /** Substrate A is the variable one (`a_is_var`). */
    var aIsVar: bool
    /** The write cursor `setindex`. */
    var setIndex: int
    const isItc: bool
    /** `AllVar[True]`, `AllConst[True]`, `AllRates[True]`: data recorded with A variable. */
    var whenA: Role
    /** `AllVar[False]`, `AllConst[False]`, `AllRates[False]`: data recorded with B variable. */
    var whenB: Role
    /** The stoichiometry of the variable substrate's reaction partner, keyed by `a_is_var`. */
    const stoich: map<bool, real>
    ghost const aRate: real
    ghost const bRate: real
    const cunit: string
    const tunit: string
    const runit: string

    ghost predicate Valid()
      reads this
    {
      && RoleValid(whenA) && RoleValid(whenB)
      && setIndex >= 0
      && stoich == map[true := bRate, false := aRate]
      && true in stoich && false in stoich
    }

    /** The role selected by `a_var`. */
    function RoleOf(aVar: bool): Role
      reads this
    {
      if aVar then whenA else whenB
    }

    /** The role data is being entered into. */
    function Current(): Role
      reads this
    {
      RoleOf(aIsVar)
    }

    /** `len(AllConst[a_is_var])`. */
    function SetCount(): nat
      reads this
    {
      |Current().consts|
    }

    /** The cursor lies in `0..len(sets)`. */
    predicate CursorInRange()
      reads this
    {
      0 <= setIndex <= SetCount()
    }

    /** `TwoSubstrates(p_name, aname, bname, is_itc, arate, brate, tunit, cunit)`. */
    constructor (pName: string, aName: string, bName: string, isItc: bool, arate: real, brate: real, tunit: string, cunit: string)
      ensures Valid() && CursorInRange()
      ensures aIsVar && setIndex == 0 && whenA == EmptyRole && whenB == EmptyRole
      ensures nameA == aName && nameB == bName && name == pName && this.isItc == isItc
      ensures aRate == arate && bRate == brate
      ensures this.cunit == cunit && this.tunit == tunit && runit == "(" + cunit + ")/(" + tunit + ")"
    {
      nameA := aName;
      nameB := bName;
      name := pName;
      aIsVar := true;
      setIndex := 0;
      this.isItc := isItc;
      whenA := EmptyRole;
      whenB := EmptyRole;
      stoich := map[true := brate, false := arate];
      aRate := arate;
      bRate := brate;
      this.cunit := cunit;
      this.tunit := tunit;
      runit := "(" + cunit + ")/(" + tunit + ")";
    }

    /** `get_stoch_val`: `brate` while A is variable, `arate` while B is. */
    function GetStochVal(): (r: real)
      reads this
      requires Valid()
      ensures r == (if aIsVar then bRate else aRate)
    {
      if aIsVar then stoich[true] else stoich[false]
    }

    /** `isnewset`. */
    function IsNewSet(): Result<bool>
      reads this
    {
      NewSetState(setIndex, SetCount())
    }

    /**
     * `change_varible`: the other substrate becomes variable and the cursor goes
     * to 0, which is the new-set position only when that role has no sets yet.
     */
    method ChangeVariable()
      requires Valid()
      modifies this
      ensures Valid() && CursorInRange()
      ensures aIsVar == !old(aIsVar) && setIndex == 0
      ensures whenA == old(whenA) && whenB == old(whenB)
      ensures IsNewSet() == Ok(true) <==> |Current().consts| == 0
    {
      aIsVar := !aIsVar;
      setIndex := 0;
    }

    /** `next_set`: the cursor moves one set forward, and from the new-set position back to 0. */
    method NextSet()
      requires Valid()
      modifies this
      ensures Valid()
      ensures setIndex == NextIndex(old(setIndex), old(SetCount()))
      ensures aIsVar == old(aIsVar) && whenA == old(whenA) && whenB == old(whenB)
      ensures old(CursorInRange()) ==> CursorInRange()
    {
      if setIndex == |Current().consts| {
        setIndex := 0;
      } else {
        setIndex := setIndex + 1;
      }
    }

    /** Replaces the lists of the role selected by `aVar`. */
    method SetRole(aVar: bool, r: Role)
      requires Valid() && RoleValid(r)
      modifies this
      ensures Valid()
      ensures RoleOf(aVar) == r && RoleOf(!aVar) == old(RoleOf(!aVar))
      ensures aIsVar == old(aIsVar) && setIndex == old(setIndex)
    {
      if aVar {
        whenA := r;
      } else {
        whenB := r;
      }
    }

    /**
     * `add_set(varvals, constvals, rates)`: the three texts are parsed and
     * their lengths compared; then a one-replicate set is appended to the
     * current role. The other role and the cursor stay, so a cursor that was
     * at the new-set position now points at the created set.
     */
    method AddSet(varText: string, constText: string, rateText: string) returns (o: Outcome)
      requires Valid()
      modifies this
      ensures Valid()
      ensures var v, c, t := TransformData(varText), TransformData(constText), TransformData(rateText);
        if v.Err? || c.Err? || t.Err? then o == Raised(ValueError) && unchanged(this)
        else if |v.value| != |c.value| || |v.value| != |t.value| then o == Raised(AssertionError) && unchanged(this)
        else (o == Done
          && Current() == AppendSet(old(Current()), v.value, c.value, t.value)
          && RoleOf(!aIsVar) == old(RoleOf(!aIsVar))
          && aIsVar == old(aIsVar) && setIndex == old(setIndex))
      ensures o == Done && old(setIndex) == old(SetCount()) ==> IsNewSet() == Ok(false) && |Current().consts[setIndex]| == 1
      ensures old(CursorInRange()) ==> CursorInRange()
    {
      var v := TransformData(varText);
      if v.Err? { return Raised(ValueError); }
      var c := TransformData(constText);
      if c.Err? { return Raised(ValueError); }
      var t := TransformData(rateText);
      if t.Err? { return Raised(ValueError); }
      if |v.value| != |c.value| || |v.value| != |t.value| {
        return Raised(AssertionError);
      }
      SetRole(aIsVar, AppendSet(Current(), v.value, c.value, t.value));
      o := Done;
    }

    /**
     * `add_rep(varvals, constvar, rates, setpos)`: the texts are parsed (rates
     * first) and their lengths compared; then the replicate is appended to set
     * `setpos` (default: the cursor) in all three lists, or, when that set does
     * not exist, IndexError is raised before any list changes.
     */
    method AddRep(varText: string, constText: string, rateText: string, setpos: Option<int>) returns (o: Outcome)
      requires Valid()
      modifies this
      ensures Valid()
      ensures var pos := if setpos.Some? then setpos.value else old(setIndex);
        var v, c, t := TransformData(varText), TransformData(constText), TransformData(rateText);
        if v.Err? || c.Err? || t.Err? then o == Raised(ValueError) && unchanged(this)
        else if |v.value| != |c.value| || |c.value| != |t.value| then o == Raised(AssertionError) && unchanged(this)
        else if PyIndex(pos, old(SetCount())).None? then o == Raised(IndexError) && unchanged(this)
        else (o == Done
          && Current() == AppendRep(old(Current()), PyIndex(pos, old(SetCount())).value, v.value, c.value, t.value)
          && RoleOf(!aIsVar) == old(RoleOf(!aIsVar))
          && aIsVar == old(aIsVar) && setIndex == old(setIndex))
      ensures old(CursorInRange()) ==> CursorInRange()
    {
      var pos := if setpos.Some? then setpos.value else setIndex;
      var t := TransformData(rateText);
      if t.Err? { return Raised(ValueError); }
      var c := TransformData(constText);
      if c.Err? { return Raised(ValueError); }
      var v := TransformData(varText);
      if v.Err? { return Raised(ValueError); }
      if |v.value| != |c.value| || |c.value| != |t.value| {
        return Raised(AssertionError);
      }
      var k := PyIndex(pos, |Current().consts|);
      if k.None? {
        return Raised(IndexError);
      }
      SetRole(aIsVar, AppendRep(Current(), k.value, v.value, c.value, t.value));
      o := Done;
    }

    /** `get_last_const`: the latest constant-substrate array of the cursor's set; `None` at the new-set position. */
    function GetLastConst(): (r: Result<Option<seq<real>>>)
      reads this
      requires Valid()
      ensures r.Err? <==> setIndex > SetCount()
      ensures r.Err? ==> r.error == ValueError
      ensures r == Ok(None) <==> setIndex == SetCount()
      ensures r.Ok? && r.value.Some? ==> (setIndex < SetCount()
        && var st := Current().consts[setIndex]; |st| > 0 && r.value.value == st[|st| - 1])
    {
      var isNew :- IsNewSet();
      if isNew then Ok(None)
      else
        var st := Current().consts[setIndex];
        Ok(Some(st[|st| - 1]))
    }

    /** `get_current_var`: the latest variable-substrate array of the cursor's set; `None` at the new-set position. */
    function GetCurrentVar(): (r: Result<Option<seq<real>>>)
      reads this
      requires Valid()
      ensures r.Err? <==> setIndex > SetCount()
      ensures r.Err? ==> r.error == ValueError
      ensures r == Ok(None) <==> setIndex == SetCount()
      ensures r.Ok? && r.value.Some? ==> (setIndex < SetCount()
        && var st := Current().vars[setIndex]; |st| > 0 && r.value.value == st[|st| - 1])
    {
      var isNew :- IsNewSet();
      if isNew then Ok(None)
      else
        var st := Current().vars[setIndex];
        Ok(Some(st[|st| - 1]))
    }

    /** `get_rep_cout`: the number of replicates of the cursor's set, 0 at the new-set position. */
    function GetRepCount(): (r: Result<nat>)
      reads this
      requires Valid()
      ensures r.Err? <==> setIndex > SetCount()
      ensures r.Err? ==> r.error == ValueError
      ensures r.Ok? && setIndex == SetCount() ==> r.value == 0
      ensures r.Ok? && setIndex < SetCount() ==> r.value == |Current().rates[setIndex]| > 0
    {
      var isNew :- IsNewSet();
      if !isNew then Ok(|Current().rates[setIndex]|) else Ok(0)
    }

    /** `get_points(a_var)`: one (variable, rate, constant) triple per set of that role, in set order. */
    function GetPoints(aVar: bool): (pts: seq<Triple>)
      reads this
      requires Valid()
      ensures pts == SetPoints(RoleOf(aVar))
    {
      SetPoints(RoleOf(aVar))
    }

    /**
     * `get_repres(a_var)`: a new single-substrate object named `'temp'` with
     * one replicate per set, the set's concatenated variable concentrations
     * against its concatenated rates.
     */
    method GetRepres(aVar: bool) returns (rep: OneSubstrate)
      requires Valid()
      ensures fresh(rep) && rep.Valid()
      ensures rep.name == "temp" && rep.cunit == cunit && rep.tunit == tunit
      ensures var pts := SetPoints(RoleOf(aVar));
        && rep.replicates == |pts|
        && Listed(rep.concentrations) == VarColumn(pts) && Listed(rep.rates) == RateColumn(pts)
    {
      var pts := GetPoints(aVar);
      rep := new OneSubstrate("temp", tunit, cunit);
      var i := 0;
      while i < |pts|
        invariant 0 <= i <= |pts|
        invariant fresh(rep) && rep.Valid()
        invariant rep.name == "temp" && rep.cunit == cunit && rep.tunit == tunit
        invariant rep.replicates == i
        invariant Listed(rep.concentrations) == VarColumn(pts[..i]) && Listed(rep.rates) == RateColumn(pts[..i])
      {
        ColumnsExtend(pts, i);
        var o := rep.AddReplicateValues(pts[i].0, pts[i].1);
        i := i + 1;
      }
      assert pts[..i] == pts;
    }

    /**
     * `get_allpoints(a_var)`: every set's variable concentrations, rates and
     * constant concentrations appended into three flat arrays of equal length.
     */
    method GetAllPoints(aVar: bool) returns (fvar: seq<real>, frate: seq<real>, fconst: seq<real>)
      requires Valid()
      ensures var pts := SetPoints(RoleOf(aVar));
        && fvar == Concat(VarColumn(pts)) && frate == Concat(RateColumn(pts)) && fconst == Concat(ConstColumn(pts))
      ensures |fvar| == |frate| == |fconst|
    {
      var pts := GetPoints(aVar);
      fvar, frate, fconst := [], [], [];
      var i := 0;
      while i < |pts|
        invariant 0 <= i <= |pts|
        invariant fvar == Concat(VarColumn(pts[..i]))
        invariant frate == Concat(RateColumn(pts[..i]))
        invariant fconst == Concat(ConstColumn(pts[..i]))
        invariant |fvar| == |frate| == |fconst|
      {
        ColumnsExtend(pts, i);
        ConcatAppend(VarColumn(pts[..i]), pts[i].0);
        ConcatAppend(RateColumn(pts[..i]), pts[i].1);
        ConcatAppend(ConstColumn(pts[..i]), pts[i].2);
        fvar := fvar + pts[i].0;
        frate := frate + pts[i].1;
        fconst := fconst + pts[i].2;
        i := i + 1;
      }
      assert pts[..i] == pts;
    }
  }
}

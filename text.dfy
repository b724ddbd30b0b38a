/**
 * Python string behaviour the model needs: `str.split()` (with and without commas
 * turned into blanks), `str.strip()`, `sep.join(...)` and the decimal rendering
 * of a natural number used by `'{}'.format(i)`.
 */
module Text {

  /** The characters Python's `str.split()` and `str.strip()` treat as whitespace. */
  const Whitespace: set<char> := {
    ' ', '\U{9}', '\U{A}', '\U{D}', '\U{B}', '\U{C}', '\U{1C}', '\U{1D}',
    '\U{1E}', '\U{1F}', '\U{85}', '\U{A0}', '\U{1680}', '\U{2000}', '\U{2001}', '\U{2002}',
    '\U{2003}', '\U{2004}', '\U{2005}', '\U{2006}', '\U{2007}', '\U{2008}', '\U{2009}', '\U{200A}',
    '\U{2028}', '\U{2029}', '\U{202F}', '\U{205F}', '\U{3000}'
  }

  /** The separators of numeric text: a comma or any whitespace. */
  const Separators: set<char> := Whitespace + {','}

  predicate NoSep(w: string, seps: set<char>) {
    forall i :: 0 <= i < |w| ==> w[i] !in seps
  }

  predicate AllSep(w: string, seps: set<char>) {
    forall i :: 0 <= i < |w| ==> w[i] in seps
  }

  /** Length of the longest prefix of `s` that holds no separator. */
  function WordLen(s: string, seps: set<char>): (r: nat)
    ensures r <= |s|
    ensures forall i :: 0 <= i < r ==> s[i] !in seps
    ensures r < |s| ==> s[r] in seps
    decreases |s|
  {
    if s == [] || s[0] in seps then 0 else 1 + WordLen(s[1..], seps)
  }

  /** The maximal separator-free runs of `s`, in order: Python's `s.split()` when `seps` is `Whitespace`. */
  function Words(s: string, seps: set<char>): (r: seq<string>)
    ensures forall i :: 0 <= i < |r| ==> r[i] != [] && NoSep(r[i], seps)
    decreases |s|
  {
    if s == [] then []
    else if s[0] in seps then Words(s[1..], seps)
    else
      var n := WordLen(s, seps);
      [s[..n]] + Words(s[n..], seps)
  }

  /** `s.replace(',', ' ')`. */
  function ReplaceCommas(s: string): (r: string)
  {
    seq(|s|, i requires 0 <= i < |s| => if s[i] == ',' then ' ' else s[i])
  }

  function LeadingWs(s: string): (r: nat)
    ensures r <= |s|
    ensures forall i :: 0 <= i < r ==> s[i] in Whitespace
    decreases |s|
  {
    if s == [] || s[0] !in Whitespace then 0 else 1 + LeadingWs(s[1..])
  }

  function TrailingWs(s: string): (r: nat)
    ensures r <= |s|
    ensures forall i :: |s| - r <= i < |s| ==> s[i] in Whitespace
    decreases |s|
  {
    if s == [] || s[|s| - 1] !in Whitespace then 0 else 1 + TrailingWs(s[..|s| - 1])
  }

  /** `s.strip()`: drop leading and trailing whitespace. */
  function Strip(s: string): string
  {
    var rest := s[LeadingWs(s)..];
    rest[..|rest| - TrailingWs(rest)]
  }

  /** `sep.join(toks)`. */
  function JoinWith(toks: seq<string>, sep: string): string
    decreases |toks|
  {
    if |toks| == 0 then ""
    else if |toks| == 1 then toks[0]
    else toks[0] + sep + JoinWith(toks[1..], sep)
  }

  function Repeat<T>(x: T, k: nat): (r: seq<T>)
    ensures |r| == k && forall i :: 0 <= i < k ==> r[i] == x
  {
    seq(k, _ => x)
  }

  /** Two strings whose separators sit at the same places and agree elsewhere. */
  predicate SameLayout(s: string, sepsS: set<char>, t: string, sepsT: set<char>) {
    && |s| == |t|
    && forall i :: 0 <= i < |s| ==> ((s[i] in sepsS) <==> (t[i] in sepsT)) && (s[i] !in sepsS ==> s[i] == t[i])
  }

  /** Splitting only sees where the separators are, not which separator stands there. */
  lemma {:induction false} WordsFollowLayout(s: string, sepsS: set<char>, t: string, sepsT: set<char>)
    requires SameLayout(s, sepsS, t, sepsT)
    ensures Words(s, sepsS) == Words(t, sepsT)
    decreases |s|
  {
    if s == [] {
    } else if s[0] in sepsS {
      assert SameLayout(s[1..], sepsS, t[1..], sepsT);
      WordsFollowLayout(s[1..], sepsS, t[1..], sepsT);
    } else {
      var n, m := WordLen(s, sepsS), WordLen(t, sepsT);
      assert s[..n] == t[..n];
      assert SameLayout(s[n..], sepsS, t[n..], sepsT);
      WordsFollowLayout(s[n..], sepsS, t[n..], sepsT);
    }
  }

  /** Replacing commas by blanks and then splitting on whitespace is splitting on commas and whitespace alike. */
  lemma CommasAreWhitespace(s: string)
    ensures Words(ReplaceCommas(s), Whitespace) == Words(s, Separators)
  {
    WordsFollowLayout(ReplaceCommas(s), Whitespace, s, Separators);
  }

  lemma {:induction false} WordsSkipLeading(ws: string, s: string, seps: set<char>)
    requires AllSep(ws, seps)
    ensures Words(ws + s, seps) == Words(s, seps)
    decreases |ws|
  {
    if ws != [] {
      assert (ws + s)[1..] == ws[1..] + s;
      WordsSkipLeading(ws[1..], s, seps);
    } else {
      assert ws + s == s;
    }
  }

  lemma {:induction false} WordsSkipTrailing(s: string, ws: string, seps: set<char>)
    requires AllSep(ws, seps)
    ensures Words(s + ws, seps) == Words(s, seps)
    decreases |s|
  {
    if s == [] {
      assert s + ws == ws + [];
      WordsSkipLeading(ws, [], seps);
    } else if s[0] in seps {
      assert (s + ws)[1..] == s[1..] + ws;
      WordsSkipTrailing(s[1..], ws, seps);
    } else {
      var n := WordLen(s, seps);
      var m := WordLen(s + ws, seps);
      assert forall i :: 0 <= i < |s| ==> (s + ws)[i] == s[i];
      assert n == |s| && ws != [] ==> (s + ws)[n] == ws[0];
      assert m == n;
      assert (s + ws)[..n] == s[..n];
      assert (s + ws)[n..] == s[n..] + ws;
      WordsSkipTrailing(s[n..], ws, seps);
    }
  }

  /** `split()` already ignores the whitespace `strip()` removes. */
  lemma StripKeepsWords(s: string)
    ensures Words(Strip(s), Whitespace) == Words(s, Whitespace)
  {
    var i := LeadingWs(s);
    var rest := s[i..];
    var j := |rest| - TrailingWs(rest);
    assert s == s[..i] + rest;
    assert rest == rest[..j] + rest[j..];
    assert AllSep(s[..i], Whitespace);
    assert AllSep(rest[j..], Whitespace);
    WordsSkipLeading(s[..i], rest, Whitespace);
    WordsSkipTrailing(rest[..j], rest[j..], Whitespace);
  }

  /**
   * Joining separator-free words with a non-empty run of separators and splitting
   * again gives the words back.
   */
  lemma {:induction false} WordsOfJoin(toks: seq<string>, sep: string, seps: set<char>)
    requires sep != [] && AllSep(sep, seps)
    requires forall i :: 0 <= i < |toks| ==> toks[i] != [] && NoSep(toks[i], seps)
    ensures Words(JoinWith(toks, sep), seps) == toks
    decreases |toks|
  {
    if |toks| == 0 {
    } else {
      var t := toks[0];
      var rest := if |toks| == 1 then "" else sep + JoinWith(toks[1..], sep);
      var s := t + rest;
      assert s == JoinWith(toks, sep);
      var n := WordLen(s, seps);
      assert forall i :: 0 <= i < |t| ==> s[i] == t[i];
      assert rest != [] ==> s[|t|] == sep[0];
      assert n == |t|;
      assert s[..n] == t;
      assert s[n..] == rest;
      if |toks| == 1 {
        assert Words(s, seps) == [t] + Words([], seps);
      } else {
        WordsSkipLeading(sep, JoinWith(toks[1..], sep), seps);
        WordsOfJoin(toks[1..], sep, seps);
        assert toks == [t] + toks[1..];
      }
    }
  }

  function DigitChar(d: nat): char
    requires d < 10
  {
    "0123456789"[d]
  }

  /** Decimal rendering of a natural number, as `str(n)` gives it. */
  function NatToString(n: nat): (r: string)
    ensures r != []
    ensures forall i :: 0 <= i < |r| ==> '0' <= r[i] <= '9'
    decreases n
  {
    if n < 10 then [DigitChar(n)] else NatToString(n / 10) + [DigitChar(n % 10)]
  }
}

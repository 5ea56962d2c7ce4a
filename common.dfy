/** Small helpers shared by the models: an Option type, JavaScript truthiness for the
    optional values the source reads with `||` and `if (x)`, `String.prototype.trim`,
    `String.prototype.replace` with a string pattern, number-to-text rendering and the
    `Math.max`/`Math.min` clamp used by the floating widgets. */
module Common {

  datatype Option<+T> = None | Some(value: T) {
    /** The value, or `default` when there is none. */
    function GetOr(default: T): T {
      match this
      case Some(v) => v
      case None => default
    }
  }

  /** The result of an operation that either produces a value or fails with a message. */
  datatype Result<+R> = Ok(value: R) | Err(message: string)

  // ---------------------------------------------------------------------------------
  // JavaScript truthiness of optional values (`undefined` is None)

  /** `!!s` for a string that may be undefined: the empty string is falsy. */
  predicate TruthyString(s: Option<string>) {
    s.Some? && s.value != ""
  }

  /** `!!n` for a number that may be undefined: 0 is falsy. */
  predicate TruthyNumber(n: Option<int>) {
    n.Some? && n.value != 0
  }

  /** `s || d` for a string that may be undefined. */
  function OrString(s: Option<string>, d: string): (r: string)
    ensures TruthyString(s) ==> r == s.value
    ensures !TruthyString(s) ==> r == d
  {
    if TruthyString(s) then s.value else d
  }

  /** `n || d` for a number that may be undefined. */
  function OrNumber(n: Option<int>, d: int): (r: int)
    ensures TruthyNumber(n) ==> r == n.value
    ensures !TruthyNumber(n) ==> r == d
  {
    if TruthyNumber(n) then n.value else d
  }

  // ---------------------------------------------------------------------------------
  // String.prototype.trim

  /** The characters ECMAScript counts as white space or line terminators (what `trim` removes):
      TAB, VT, FF, SP, NBSP, ZWNBSP, the other Unicode space separators, LF, CR, LS and PS. */
  predicate IsJsWhitespace(c: char) {
    || c == '\t' || c == '\n' || c == '\U{000B}' || c == '\U{000C}' || c == '\r' || c == ' '
    || c == '\U{00A0}' || c == '\U{1680}' || ('\U{2000}' <= c <= '\U{200A}')
    || c == '\U{2028}' || c == '\U{2029}' || c == '\U{202F}' || c == '\U{205F}'
    || c == '\U{3000}' || c == '\U{FEFF}'
  }

  predicate AllWhitespace(s: string) {
    forall i :: 0 <= i < |s| ==> IsJsWhitespace(s[i])
  }

  /** The number of white-space characters `s` starts with. */
  function LeadingWhitespace(s: string): (n: nat)
    ensures n <= |s|
    ensures forall i :: 0 <= i < n ==> IsJsWhitespace(s[i])
    ensures n == |s| || !IsJsWhitespace(s[n])
  {
    if |s| > 0 && IsJsWhitespace(s[0]) then
      var m := LeadingWhitespace(s[1..]);
      assert forall i :: 1 <= i < 1 + m ==> s[i] == s[1..][i - 1];
      1 + m
    else 0
  }

  /** The number of white-space characters `s` ends with. */
  function TrailingWhitespace(s: string): (n: nat)
    ensures n <= |s|
    ensures forall i :: |s| - n <= i < |s| ==> IsJsWhitespace(s[i])
    ensures n == |s| || !IsJsWhitespace(s[|s| - 1 - n])
  {
    if |s| > 0 && IsJsWhitespace(s[|s| - 1]) then
      var m := TrailingWhitespace(s[..|s| - 1]);
      assert forall i :: |s| - 1 - m <= i < |s| - 1 ==> s[i] == s[..|s| - 1][i];
      1 + m
    else 0
  }

  /** `s.trim()`: drop the leading white space, then the trailing white space of the rest. */
  function Trim(s: string): (r: string)
    ensures |r| <= |s|
  {
    var t := s[LeadingWhitespace(s)..];
    t[..|t| - TrailingWhitespace(t)]
  }

  /** What `trim` computes: the piece of `s` that starts after its leading white space,
      obtained by dropping only white space on both sides, and neither starting nor ending
      with white space. */
  lemma TrimIsTheMiddle(s: string)
    ensures var r := Trim(s);
            && LeadingWhitespace(s) + |r| <= |s|
            && r == s[LeadingWhitespace(s)..LeadingWhitespace(s) + |r|]
            && AllWhitespace(s[..LeadingWhitespace(s)])
            && AllWhitespace(s[LeadingWhitespace(s) + |r|..])
            && (r == [] || (!IsJsWhitespace(r[0]) && !IsJsWhitespace(r[|r| - 1])))
  {
    TrimIsASlice(s);
    TrimDropsOnlyWhitespace(s);
    TrimEndsAreNotWhitespace(s);
  }

  /** The trimmed string is the slice of `s` after its leading white space. */
  lemma TrimIsASlice(s: string)
    ensures var a, r := LeadingWhitespace(s), Trim(s);
            a + |r| <= |s| && r == s[a..a + |r|]
  {
    var a := LeadingWhitespace(s);
    var t := s[a..];
    var b := TrailingWhitespace(t);
    assert Trim(s) == s[a..|s| - b];
  }

  /** Everything `trim` drops, before and after the slice it keeps, is white space. */
  lemma TrimDropsOnlyWhitespace(s: string)
    ensures var a, r := LeadingWhitespace(s), Trim(s);
            a + |r| <= |s| && AllWhitespace(s[..a]) && AllWhitespace(s[a + |r|..])
  {
    var a := LeadingWhitespace(s);
    forall i | 0 <= i < a
      ensures IsJsWhitespace(s[..a][i])
    {
      assert s[..a][i] == s[i];
    }
    TrimDropsTrailingWhitespace(s);
  }

  /** What `trim` drops after the slice it keeps is the trailing white space of the rest. */
  lemma TrimDropsTrailingWhitespace(s: string)
    ensures var a, r := LeadingWhitespace(s), Trim(s);
            a + |r| <= |s| && AllWhitespace(s[a + |r|..])
  {
    var a := LeadingWhitespace(s);
    var t := s[a..];
    var b := TrailingWhitespace(t);
    assert |Trim(s)| == |t| - b;
    DropOfDrop(s, a, |t| - b);
    WhitespaceSuffix(t, b);
  }

  lemma DropOfDrop(s: string, a: nat, c: nat)
    requires a + c <= |s|
    ensures s[a..][c..] == s[a + c..]
  {
  }

  lemma WhitespaceSuffix(t: string, b: nat)
    requires b <= |t|
    requires forall i :: |t| - b <= i < |t| ==> IsJsWhitespace(t[i])
    ensures AllWhitespace(t[|t| - b..])
  {
    var tail := t[|t| - b..];
    forall k | 0 <= k < b
      ensures IsJsWhitespace(tail[k])
    {
      assert tail[k] == t[|t| - b + k];
    }
  }

  /** A non-empty trimmed string neither starts nor ends with white space. */
  lemma TrimEndsAreNotWhitespace(s: string)
    ensures var r := Trim(s);
            r == [] || (!IsJsWhitespace(r[0]) && !IsJsWhitespace(r[|r| - 1]))
  {
    var a := LeadingWhitespace(s);
    var t := s[a..];
    var b := TrailingWhitespace(t);
    var r := Trim(s);
    if r != [] {
      assert r[0] == t[0] == s[a];
      assert r[|r| - 1] == t[|t| - 1 - b];
    }
  }

  /** `s.trim().length === 0` exactly when every character of `s` is white space. */
  lemma TrimEmptyIff(s: string)
    ensures Trim(s) == [] <==> AllWhitespace(s)
  {
  }

  /** Trimming twice is trimming once. */
  lemma TrimIdempotent(s: string)
    ensures Trim(Trim(s)) == Trim(s)
  {
    TrimIsTheMiddle(s);
    var r := Trim(s);
    assert LeadingWhitespace(r) == 0;
    assert r[0..] == r;
    assert TrailingWhitespace(r) == 0;
  }

  // ---------------------------------------------------------------------------------
  // String.prototype.replace with a string pattern: only the first occurrence is replaced

  predicate OccursAt(s: string, pat: string, i: nat) {
    i + |pat| <= |s| && s[i..i + |pat|] == pat
  }

  /** `s.replace(pat, rep)`: the search runs from the left, and the first place where `pat`
      occurs is replaced by `rep`. */
  function ReplaceFirst(s: string, pat: string, rep: string): string
    decreases |s|
  {
    if |s| < |pat| then s
    else if s[..|pat|] == pat then rep + s[|pat|..]
    else [s[0]] + ReplaceFirst(s[1..], pat, rep)
  }

  /** Dropping the first character moves every occurrence one place to the left. */
  lemma OccursAtShift(s: string, pat: string, j: nat)
    requires |s| > 0
    ensures OccursAt(s[1..], pat, j) <==> OccursAt(s, pat, j + 1)
  {
    if j + |pat| <= |s| - 1 {
      assert s[1..][j..j + |pat|] == s[j + 1..j + 1 + |pat|];
    }
  }

  /** No occurrence before `i` in `s` is none before `i - 1` in the rest of `s`. */
  lemma NoEarlierOccurrenceShift(s: string, pat: string, i: nat)
    requires |s| > 0 && i > 0
    requires forall j: nat :: j < i ==> !OccursAt(s, pat, j)
    ensures forall j: nat :: j < i - 1 ==> !OccursAt(s[1..], pat, j)
  {
    forall j: nat | j < i - 1
      ensures !OccursAt(s[1..], pat, j)
    {
      OccursAtShift(s, pat, j);
    }
  }

  /** Without an occurrence of the pattern the text is returned unchanged. */
  lemma {:induction false} ReplaceFirstAbsent(s: string, pat: string, rep: string)
    requires forall k: nat :: !OccursAt(s, pat, k)
    ensures ReplaceFirst(s, pat, rep) == s
    decreases |s|
  {
    if |s| >= |pat| {
      assert !OccursAt(s, pat, 0);
      forall k: nat
        ensures !OccursAt(s[1..], pat, k)
      {
        assert !OccursAt(s, pat, k + 1);
        OccursAtShift(s, pat, k);
      }
      ReplaceFirstAbsent(s[1..], pat, rep);
    }
  }

  /** Without an occurrence at the start, the first character is kept and the search goes on
      in the rest. */
  lemma ReplaceFirstSkip(s: string, pat: string, rep: string)
    requires |s| > 0 && !OccursAt(s, pat, 0)
    ensures ReplaceFirst(s, pat, rep) == [s[0]] + ReplaceFirst(s[1..], pat, rep)
  {
    assert |s| < |pat| || s[..|pat|] != pat;
    if |s| < |pat| {
      assert ReplaceFirst(s[1..], pat, rep) == s[1..];
      assert [s[0]] + s[1..] == s;
    }
  }

  /** The splice behind one step of `ReplaceFirstAt`: putting the first character back in front
      of the rest's splice at `i - 1` is the splice of `s` at `i`. */
  lemma SpliceStep(s: string, n: nat, rep: string, i: nat, rest: string)
    requires 0 < i && i + n <= |s|
    requires rest == s[1..][..i - 1] + rep + s[1..][i - 1 + n..]
    ensures [s[0]] + rest == s[..i] + rep + s[i + n..]
  {
    var before, after := s[1..][..i - 1], s[1..][i - 1 + n..];
    assert [s[0]] + before == s[..i];
    assert after == s[i + n..];
    assert [s[0]] + (before + rep + after) == ([s[0]] + before) + rep + after;
  }

  /** Only the first occurrence is replaced, wherever it stands: the text before it and the
      text after it are kept unchanged. */
  lemma {:induction false} ReplaceFirstAt(s: string, pat: string, rep: string, i: nat)
    requires OccursAt(s, pat, i)
    requires forall j: nat :: j < i ==> !OccursAt(s, pat, j)
    ensures ReplaceFirst(s, pat, rep) == s[..i] + rep + s[i + |pat|..]
    decreases i
  {
    if i == 0 {
      assert s[..0] + rep + s[|pat|..] == rep + s[|pat|..];
    } else {
      OccursAtShift(s, pat, i - 1);
      NoEarlierOccurrenceShift(s, pat, i);
      ReplaceFirstAt(s[1..], pat, rep, i - 1);
      ReplaceFirstSkip(s, pat, rep);
      SpliceStep(s, |pat|, rep, i, ReplaceFirst(s[1..], pat, rep));
    }
  }

  // ---------------------------------------------------------------------------------
  // Rendering numbers as text (JavaScript's decimal rendering of an integer)

  predicate IsDigit(c: char) { '0' <= c <= '9' }

  function DigitChar(d: nat): (c: char)
    requires d < 10
    ensures IsDigit(c)
    ensures c as int - '0' as int == d
  {
    ('0' as int + d) as char
  }

  /** The number a string of decimal digits denotes, most significant digit first. */
  function DigitsValue(s: string): int
  {
    if s == [] then 0 else DigitsValue(s[..|s| - 1]) * 10 + (s[|s| - 1] as int - '0' as int)
  }

  function NatToString(n: nat): (r: string)
    ensures |r| > 0 && forall i :: 0 <= i < |r| ==> IsDigit(r[i])
    ensures r[0] == '0' <==> n == 0
  {
    if n < 10 then [DigitChar(n)] else NatToString(n / 10) + [DigitChar(n % 10)]
  }

  /** The digits `NatToString` writes denote `n`, and only zero is written with a leading zero
      (as the single digit "0"). */
  lemma {:induction false} NatToStringValue(n: nat)
    ensures DigitsValue(NatToString(n)) == n
    ensures NatToString(n)[0] == '0' ==> NatToString(n) == "0"
  {
    if n >= 10 {
      var a := NatToString(n / 10);
      NatToStringValue(n / 10);
      assert (a + [DigitChar(n % 10)])[..|a|] == a;
    }
  }

  function IntToString(n: int): (r: string)
    ensures |r| > 0
    ensures r[0] == '-' <==> n < 0
  {
    if n < 0 then "-" + NatToString(-n) else NatToString(n)
  }

  /** `String(n)` for an integer: an optional minus sign, then the decimal digits of the
      magnitude without leading zeros. */
  lemma IntToStringValue(n: int)
    ensures var r := IntToString(n);
            var digits := if n < 0 then r[1..] else r;
            && |digits| > 0
            && (forall i :: 0 <= i < |digits| ==> IsDigit(digits[i]))
            && DigitsValue(digits) == (if n < 0 then -n else n)
            && (digits[0] == '0' ==> digits == "0")
  {
    if n < 0 {
      NatToStringValue(-n);
      assert IntToString(n)[1..] == NatToString(-n);
    } else {
      NatToStringValue(n);
    }
  }

  /** Different integers are rendered as different strings. */
  lemma IntToStringInjective(a: int, b: int)
    ensures IntToString(a) == IntToString(b) ==> a == b
  {
    IntToStringValue(a);
    IntToStringValue(b);
  }

  // ---------------------------------------------------------------------------------
  // Math.min / Math.max on integers

  function Min(a: int, b: int): int { if a <= b then a else b }

  function Max(a: int, b: int): int { if a >= b then a else b }

  /** `Math.max(lo, Math.min(hi, v))`: `v` pulled into `[lo, hi]`, where the lower bound wins
      when the interval is empty. */
  function Clamp(lo: int, hi: int, v: int): (r: int)
    ensures r >= lo
    ensures lo <= hi ==> r <= hi
    ensures lo <= v <= hi ==> r == v
    ensures r == v || r == lo || r == hi
  {
    Max(lo, Min(hi, v))
  }
}

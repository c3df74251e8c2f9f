/**
 * The few pieces of Python's `str` and `bytes` behaviour the client relies on:
 * `str.isspace`, `strip`/`rstrip`, `int(text)` for base-10 text, `find`/`in`
 * on sequences, `split(sep)[1]`, and slicing with negative indices.
 */
module PyText {
  import opened Wrappers

  /** A byte as Python's `bytes` holds it. */
  type byte = b: int | 0 <= b < 256

  // ---------------------------------------------------------------------------
  // Whitespace and stripping
  // ---------------------------------------------------------------------------

  /** Python's `str.isspace` for one character (the full Unicode list Python uses). */
  predicate IsSpace(c: char) {
    var n := c as int;
    (9 <= n <= 13) || (28 <= n <= 32) || n == 0x85 || n == 0xA0 || n == 0x1680
    || (0x2000 <= n <= 0x200A) || n == 0x2028 || n == 0x2029 || n == 0x202F
    || n == 0x205F || n == 0x3000
  }

  /** `s.rstrip()`: drop trailing whitespace. */
  function RStrip(s: string): (r: string)
    ensures r <= s
    ensures |r| > 0 ==> !IsSpace(r[|r| - 1])
    ensures forall i :: |r| <= i < |s| ==> IsSpace(s[i])
  {
    if |s| > 0 && IsSpace(s[|s| - 1]) then RStrip(s[..|s| - 1]) else s
  }

  /** `s.lstrip()`: drop leading whitespace. */
  function LStrip(s: string): (r: string)
    ensures |r| <= |s| && r == s[|s| - |r|..]
    ensures |r| > 0 ==> !IsSpace(r[0])
    ensures forall i :: 0 <= i < |s| - |r| ==> IsSpace(s[i])
  {
    if |s| > 0 && IsSpace(s[0]) then LStrip(s[1..]) else s
  }

  /** `s.strip()`. */
  function Strip(s: string): string {
    LStrip(RStrip(s))
  }

  lemma StripNoSpace(s: string)
    requires |s| > 0 && !IsSpace(s[0]) && !IsSpace(s[|s| - 1])
    ensures Strip(s) == s
  {
  }

  /** Stripping a text with one leading space and no other surrounding space removes just that space. */
  lemma StripLeadingSpace(c: char, t: string)
    requires IsSpace(c) && |t| > 0 && !IsSpace(t[0]) && !IsSpace(t[|t| - 1])
    ensures Strip([c] + t) == t
  {
    var s := [c] + t;
    assert s[|s| - 1] == t[|t| - 1];
    assert RStrip(s) == s;
    assert s[1..] == t;
  }

  // ---------------------------------------------------------------------------
  // int(text)
  // ---------------------------------------------------------------------------

  predicate IsDigit(c: char) {
    '0' <= c <= '9'
  }

  /**
   * The digit part Python's `int` accepts in base 10: digits, with single
   * underscores allowed between two digits ("1_000").
   */
  predicate DigitText(t: string)
    decreases |t|
  {
    && |t| > 0
    && IsDigit(t[|t| - 1])
    && var p := t[..|t| - 1];
       p == [] || DigitText(p) || (|p| > 1 && p[|p| - 1] == '_' && DigitText(p[..|p| - 1]))
  }

  /** The number the digits of `t` spell, underscores ignored. */
  function DigitsValue(t: string): nat {
    if t == [] then 0
    else if IsDigit(t[|t| - 1]) then DigitsValue(t[..|t| - 1]) * 10 + (t[|t| - 1] as int - '0' as int)
    else DigitsValue(t[..|t| - 1])
  }

  /**
   * Python's `int(text)` on a `str`: surrounding whitespace is ignored, an
   * optional sign, then digit text; anything else raises (here: `None`).
   */
  function PyInt(text: string): (r: Option<int>)
    ensures r.Some? ==> |Strip(text)| > 0
    ensures DigitText(Strip(text)) ==> r == Some(DigitsValue(Strip(text)))
    ensures r.Some? ==>
      var t := Strip(text);
      var digits := if t[0] == '+' || t[0] == '-' then t[1..] else t;
      var magnitude: int := DigitsValue(digits);
      DigitText(digits) && r.value == (if t[0] == '-' then -magnitude else magnitude)
  {
    var t := Strip(text);
    if |t| > 0 && (t[0] == '+' || t[0] == '-') then
      assert !DigitText(t) by {
        if DigitText(t) { DigitTextStartsWithDigit(t); }
      }
      if DigitText(t[1..]) then
        var magnitude: int := DigitsValue(t[1..]);
        Some(if t[0] == '-' then -magnitude else magnitude)
      else None
    else if DigitText(t) then Some(DigitsValue(t))
    else None
  }

  /** Digit text starts with a digit, so it never carries a sign. */
  lemma {:induction false} DigitTextStartsWithDigit(t: string)
    requires DigitText(t)
    ensures IsDigit(t[0])
    decreases |t|
  {
    var p := t[..|t| - 1];
    if p != [] {
      if DigitText(p) {
        DigitTextStartsWithDigit(p);
      } else {
        DigitTextStartsWithDigit(p[..|p| - 1]);
      }
    }
  }

  /** `str(n)` for a natural number. */
  function Decimal(n: nat): (r: string)
    ensures |r| > 0
    ensures forall i :: 0 <= i < |r| ==> IsDigit(r[i])
  {
    if n < 10 then [('0' as int + n) as char]
    else Decimal(n / 10) + [('0' as int + n % 10) as char]
  }

  lemma {:induction false} DecimalValue(n: nat)
    ensures DigitText(Decimal(n))
    ensures DigitsValue(Decimal(n)) == n
  {
    var d := Decimal(n);
    if n >= 10 {
      DecimalValue(n / 10);
      assert d[..|d| - 1] == Decimal(n / 10);
    }
  }

  /** `int(str(n)) == n`: the decimal text of a length reads back as that length. */
  lemma DecimalRoundTrip(n: nat)
    ensures PyInt(Decimal(n)) == Some(n)
  {
    DecimalValue(n);
    var d := Decimal(n);
    StripNoSpace(d);
  }

  // ---------------------------------------------------------------------------
  // Searching and splitting
  // ---------------------------------------------------------------------------

  /** `pat` occurs in `s` starting at index `i`. */
  ghost predicate OccursAt<T>(s: seq<T>, pat: seq<T>, i: int) {
    0 <= i && i + |pat| <= |s| && s[i..i + |pat|] == pat
  }

  /** `s.find(pat, k)` restricted to a non-empty pattern: the first occurrence at or after `k`. */
  function FindFrom<T(==)>(s: seq<T>, pat: seq<T>, k: nat): Option<nat>
    requires |pat| > 0
    decreases |s| - k
  {
    if k + |pat| > |s| then None
    else if s[k..k + |pat|] == pat then Some(k)
    else FindFrom(s, pat, k + 1)
  }

  lemma {:induction false} FindFromSpec<T>(s: seq<T>, pat: seq<T>, k: nat)
    requires |pat| > 0
    ensures var r := FindFrom(s, pat, k);
      && (r.Some? ==> k <= r.value && OccursAt(s, pat, r.value))
      && (r.Some? ==> forall j :: k <= j < r.value ==> !OccursAt(s, pat, j))
      && (r.None? ==> forall j :: k <= j ==> !OccursAt(s, pat, j))
    decreases |s| - k
  {
    if k + |pat| <= |s| && s[k..k + |pat|] != pat {
      FindFromSpec(s, pat, k + 1);
    }
  }

  /** `s.find(pat)`, with `None` for Python's -1; `pat in s` is `Find(s, pat).Some?`. */
  function Find<T(==)>(s: seq<T>, pat: seq<T>): Option<nat>
    requires |pat| > 0
  {
    FindFrom(s, pat, 0)
  }

  /** `find` returns the first occurrence, and -1 exactly when there is none. */
  lemma FindSpec<T>(s: seq<T>, pat: seq<T>)
    requires |pat| > 0
    ensures var r := Find(s, pat);
      && (r.Some? ==> OccursAt(s, pat, r.value) && forall j :: 0 <= j < r.value ==> !OccursAt(s, pat, j))
      && (r.None? <==> forall j :: !OccursAt(s, pat, j))
  {
    FindFromSpec(s, pat, 0);
  }

  /** An occurrence at `i` with none before it is what `find` returns. */
  lemma FindIs<T>(s: seq<T>, pat: seq<T>, i: nat)
    requires |pat| > 0 && OccursAt(s, pat, i)
    requires forall j :: 0 <= j < i ==> !OccursAt(s, pat, j)
    ensures Find(s, pat) == Some(i)
  {
    FindSpec(s, pat);
  }

  /** Extending a sequence keeps its first occurrence of a pattern where it was. */
  lemma FindExtend<T>(s: seq<T>, more: seq<T>, pat: seq<T>)
    requires |pat| > 0 && Find(s, pat).Some?
    ensures Find(s + more, pat) == Find(s, pat)
  {
    FindSpec(s, pat);
    var i := Find(s, pat).value;
    assert (s + more)[i..i + |pat|] == s[i..i + |pat|];
    forall j | 0 <= j < i
      ensures !OccursAt(s + more, pat, j)
    {
      assert (s + more)[j..j + |pat|] == s[j..j + |pat|];
      assert !OccursAt(s, pat, j);
    }
    FindIs(s + more, pat, i);
  }

  /** A sequence none of whose first `h` elements is `pat[0]` has no occurrence before `h`. */
  lemma NoEarlyOccurrence<T>(s: seq<T>, pat: seq<T>, h: nat)
    requires |pat| > 0 && h <= |s|
    requires forall i :: 0 <= i < h ==> s[i] != pat[0]
    ensures forall j :: 0 <= j < h ==> !OccursAt(s, pat, j)
  {
    forall j | 0 <= j < h
      ensures !OccursAt(s, pat, j)
    {
      assert s[j] != pat[0];
    }
  }

  /** `s.startswith(prefix)`. */
  predicate StartsWith<T(==)>(s: seq<T>, prefix: seq<T>) {
    prefix <= s
  }

  /** `pat in s` for text, with a non-empty `pat`. */
  predicate Contains(s: string, pat: string)
    requires |pat| > 0
  {
    Find(s, pat).Some?
  }

  /**
   * `s.split(sep)[1]` for a one-character separator present in `s`: the text
   * between the first and the second `sep`, or up to the end.
   */
  function SecondField(s: string, sep: char): (r: string)
    requires Find(s, [sep]).Some?
    ensures sep !in r
    ensures var i := Find(s, [sep]).value; i < |s| && s[i] == sep && r <= s[i + 1..]
    ensures var i := Find(s, [sep]).value; i < |s| && (r == s[i + 1..] || s[i + 1 + |r|] == sep)
  {
    FindSpec(s, [sep]);
    var i := Find(s, [sep]).value;
    var after := s[i + 1..];
    FindSpec(after, [sep]);
    match Find(after, [sep])
    case None =>
      assert forall c | c in after :: c != sep by {
        forall k | 0 <= k < |after| ensures after[k] != sep {
          assert !OccursAt(after, [sep], k);
          assert after[k..k + 1] == [after[k]];
        }
      }
      after
    case Some(j) =>
      assert after[j..j + 1] == [sep];
      assert forall k | 0 <= k < j :: after[k] != sep by {
        forall k | 0 <= k < j ensures after[k] != sep {
          assert !OccursAt(after, [sep], k);
          assert after[k..k + 1] == [after[k]];
        }
      }
      after[..j]
  }

  // ---------------------------------------------------------------------------
  // Slicing with Python's index rules
  // ---------------------------------------------------------------------------

  /** How Python normalises a slice bound `i` on a sequence of length `len`. */
  function SliceBound(i: int, len: nat): (r: nat)
    ensures r <= len
    ensures 0 <= i <= len ==> r == i
  {
    if i < 0 then (if i + len < 0 then 0 else i + len)
    else if i > len then len
    else i
  }

  /** `s[a:b]` in Python, negative bounds counting from the end. */
  function PySlice<T>(s: seq<T>, a: int, b: int): seq<T> {
    var i, j := SliceBound(a, |s|), SliceBound(b, |s|);
    if i < j then s[i..j] else []
  }

  /** `s[a:]` in Python. */
  function PySuffix<T>(s: seq<T>, a: int): seq<T> {
    s[SliceBound(a, |s|)..]
  }

  // ---------------------------------------------------------------------------
  // Bytes and text
  // ---------------------------------------------------------------------------

  predicate IsAscii(s: string) {
    forall i :: 0 <= i < |s| ==> s[i] as int < 128
  }

  /** The bytes of ASCII text (what `.encode('utf-8')` gives for it). */
  function Ascii(s: string): (r: seq<byte>)
    requires IsAscii(s)
    ensures |r| == |s| && forall i :: 0 <= i < |s| ==> r[i] == s[i] as int
  {
    seq(|s|, i requires 0 <= i < |s| => s[i] as int)
  }

  /** Each byte read as the character with the same code. */
  function Chars(b: seq<byte>): (r: string)
    ensures |r| == |b| && forall i :: 0 <= i < |b| ==> r[i] as int == b[i]
  {
    seq(|b|, i requires 0 <= i < |b| => b[i] as char)
  }

  lemma CharsAscii(s: string)
    requires IsAscii(s)
    ensures Chars(Ascii(s)) == s
  {
  }
}

/** The string operations of Python that the core relies on, stated on `seq<char>`:
    the substring test `sub in s`, `s.split(sep)`, `s.strip()`, `sep.join(parts)`,
    `s.lower()`, `s.startswith(p)` and `int(s)` on already stripped text. */
module Text {

  datatype Option<T> = None | Some(value: T)

  // ---------------------------------------------------------------------------
  // Substring test (`sub in s`)
  // ---------------------------------------------------------------------------

  predicate IsPrefix(p: string, s: string)
  {
    |p| <= |s| && s[..|p|] == p
  }

  /** Python's `sub in s`: `sub` occurs as a contiguous slice of `s`
      (the empty string occurs in every string). */
  predicate Contains(s: string, sub: string)
    decreases |s|
  {
    IsPrefix(sub, s) || (|s| > 0 && Contains(s[1..], sub))
  }

  /** `sub` occurs in `s` starting at position `i`. */
  predicate OccursAt(s: string, sub: string, i: int)
  {
    0 <= i <= |s| - |sub| && s[i..i + |sub|] == sub
  }

  /** `Contains` agrees with the positional definition of an occurrence. */
  lemma {:induction false} ContainsAt(s: string, sub: string)
    ensures Contains(s, sub) <==> exists i :: OccursAt(s, sub, i)
  {
    if |s| > 0 {
      ContainsAt(s[1..], sub);
    }
    if Contains(s, sub) {
      if IsPrefix(sub, s) {
        assert OccursAt(s, sub, 0);
      } else {
        var j :| OccursAt(s[1..], sub, j);
        assert s[j + 1..j + 1 + |sub|] == s[1..][j..j + |sub|];
        assert OccursAt(s, sub, j + 1);
      }
    }
    if exists i :: OccursAt(s, sub, i) {
      var i :| OccursAt(s, sub, i);
      if i > 0 {
        assert s[1..][i - 1..i - 1 + |sub|] == s[i..i + |sub|];
        assert OccursAt(s[1..], sub, i - 1);
      }
    }
  }

  /** An occurrence inside a slice of `s` is an occurrence in `s`. */
  lemma ContainsInSlice(s: string, lo: nat, hi: nat, sub: string)
    requires lo <= hi <= |s|
    requires Contains(s[lo..hi], sub)
    ensures Contains(s, sub)
  {
    ContainsAt(s[lo..hi], sub);
    var i :| OccursAt(s[lo..hi], sub, i);
    assert forall k :: 0 <= k < |sub| ==> sub[k] == s[lo..hi][i + k] == s[lo + i + k];
    assert OccursAt(s, sub, lo + i);
    ContainsAt(s, sub);
  }

  // ---------------------------------------------------------------------------
  // `sep.join(parts)` and `s.split(sep)` for a one-character separator
  // ---------------------------------------------------------------------------

  /** Python's `sep.join(parts)`. */
  function Join(sep: string, parts: seq<string>): string
  {
    if |parts| == 0 then ""
    else if |parts| == 1 then parts[0]
    else parts[0] + sep + Join(sep, parts[1..])
  }

  /** A join of non-empty parts is empty exactly when there are no parts. */
  lemma {:induction false} JoinEmptyIff(sep: string, parts: seq<string>)
    requires forall i :: 0 <= i < |parts| ==> parts[i] != ""
    ensures Join(sep, parts) == "" <==> parts == []
  {
    if |parts| >= 2 {
      assert |Join(sep, parts)| >= |parts[0]|;
    }
  }

  lemma JoinConsFirst(sep: string, x: string, y: string, tail: seq<string>)
    ensures Join(sep, [x + y] + tail) == x + Join(sep, [y] + tail)
  {
    assert ([x + y] + tail)[1..] == tail;
    assert ([y] + tail)[1..] == tail;
  }

  /** Python's `s.split(sep)`: the pieces between the occurrences of `sep`,
      always at least one (`"".split(".") == [""]`). */
  function Split(s: string, sep: char): (pieces: seq<string>)
    ensures |pieces| >= 1
    decreases |s|
  {
    if s == [] then [""]
    else
      var rest := Split(s[1..], sep);
      if s[0] == sep then [""] + rest
      else [[s[0]] + rest[0]] + rest[1..]
  }

  /** Joining the pieces with the separator gives back the string. */
  lemma {:induction false} SplitJoin(s: string, sep: char)
    ensures Join([sep], Split(s, sep)) == s
    decreases |s|
  {
    if s != [] {
      var rest := Split(s[1..], sep);
      SplitJoin(s[1..], sep);
      assert s == [s[0]] + s[1..];
      if s[0] == sep {
        assert Split(s, sep) == [""] + rest;
        assert ([""] + rest)[1..] == rest;
        assert Join([sep], [""] + rest) == "" + [sep] + Join([sep], rest);
      } else {
        assert Split(s, sep) == [[s[0]] + rest[0]] + rest[1..];
        JoinConsFirst([sep], [s[0]], rest[0], rest[1..]);
        assert [rest[0]] + rest[1..] == rest;
      }
    }
  }

  /** No piece contains the separator. */
  lemma {:induction false} SplitPiecesFree(s: string, sep: char)
    ensures forall i :: 0 <= i < |Split(s, sep)| ==> sep !in Split(s, sep)[i]
    decreases |s|
  {
    if s != [] {
      SplitPiecesFree(s[1..], sep);
    }
  }

  // ---------------------------------------------------------------------------
  // `s.strip()`
  // ---------------------------------------------------------------------------

  /** Python's `str.isspace` on one code point. */
  predicate IsSpace(c: char)
  {
    var n := c as int;
    n == 0x20 || 0x09 <= n <= 0x0D || 0x1C <= n <= 0x1F || n == 0x85 || n == 0xA0
    || n == 0x1680 || 0x2000 <= n <= 0x200A || n == 0x2028 || n == 0x2029
    || n == 0x202F || n == 0x205F || n == 0x3000
  }

  predicate AllSpace(s: string)
  {
    forall i :: 0 <= i < |s| ==> IsSpace(s[i])
  }

  /** `s.lstrip()`: the suffix left after dropping leading white space. */
  function TrimStart(s: string): string
  {
    if |s| > 0 && IsSpace(s[0]) then TrimStart(s[1..]) else s
  }

  /** `s.rstrip()`: the prefix left after dropping trailing white space. */
  function TrimEnd(s: string): string
  {
    if |s| > 0 && IsSpace(s[|s| - 1]) then TrimEnd(s[..|s| - 1]) else s
  }

  /** Python's `s.strip()`. */
  function Strip(s: string): string
  {
    TrimEnd(TrimStart(s))
  }

  /** `lstrip()` keeps a suffix, drops only white space, and the suffix does not
      start with white space. */
  lemma {:induction false} TrimStartSpec(s: string)
    ensures var r := TrimStart(s);
      && |r| <= |s| && r == s[|s| - |r|..]
      && AllSpace(s[..|s| - |r|])
      && (r == [] || !IsSpace(r[0]))
  {
    if |s| > 0 && IsSpace(s[0]) {
      TrimStartSpec(s[1..]);
      var r := TrimStart(s);
      assert s[..|s| - |r|] == [s[0]] + s[1..][..|s[1..]| - |r|];
    }
  }

  /** `rstrip()` keeps a prefix, drops only white space, and the prefix does not
      end with white space. */
  lemma {:induction false} TrimEndSpec(s: string)
    ensures var r := TrimEnd(s);
      && |r| <= |s| && r == s[..|r|]
      && AllSpace(s[|r|..])
      && (r == [] || !IsSpace(r[|r| - 1]))
  {
    if |s| > 0 && IsSpace(s[|s| - 1]) {
      TrimEndSpec(s[..|s| - 1]);
      var r := TrimEnd(s);
      assert s[|r|..] == s[..|s| - 1][|r|..] + [s[|s| - 1]];
    }
  }

  /** `strip()` keeps a slice of the input, drops only white space around it,
      and leaves no white space at either end. */
  lemma StripSlice(s: string)
    ensures exists lo, hi :: 0 <= lo <= hi <= |s| && Strip(s) == s[lo..hi]
                             && AllSpace(s[..lo]) && AllSpace(s[hi..])
    ensures Strip(s) == [] || (!IsSpace(Strip(s)[0]) && !IsSpace(Strip(s)[|Strip(s)| - 1]))
  {
    var t := TrimStart(s);
    var r := TrimEnd(t);
    TrimStartSpec(s);
    TrimEndSpec(t);
    var lo := |s| - |t|;
    var hi := lo + |r|;
    assert r == s[lo..hi];
    assert s[hi..] == t[|r|..];
    if r != [] {
      assert r[0] == t[0];
    }
  }

  /** `strip()` is idempotent. */
  lemma StripIdempotent(s: string)
    ensures Strip(Strip(s)) == Strip(s)
  {
    StripSlice(s);
  }

  // ---------------------------------------------------------------------------
  // `s.lower()` and `s.startswith(p)`
  // ---------------------------------------------------------------------------

  function LowerChar(c: char): char
  {
    if 'A' <= c <= 'Z' then (c as int - 'A' as int + 'a' as int) as char else c
  }

  function UpperChar(c: char): char
  {
    if 'a' <= c <= 'z' then (c as int - 'a' as int + 'A' as int) as char else c
  }

  /** `s.lower()` on the ASCII letters. */
  function ToLower(s: string): (r: string)
    ensures |r| == |s|
    ensures forall i :: 0 <= i < |s| ==> r[i] == LowerChar(s[i])
  {
    seq(|s|, i requires 0 <= i < |s| => LowerChar(s[i]))
  }

  function ToUpper(s: string): (r: string)
    ensures |r| == |s|
    ensures forall i :: 0 <= i < |s| ==> r[i] == UpperChar(s[i])
  {
    seq(|s|, i requires 0 <= i < |s| => UpperChar(s[i]))
  }

  /** Lower-casing forgets how any ASCII letter was written: lowering the
      upper-cased text gives the lowered text, and lowering twice is lowering once. */
  lemma LowerForgetsCase(s: string)
    ensures ToLower(ToUpper(s)) == ToLower(s)
    ensures ToLower(ToLower(s)) == ToLower(s)
  {
  }

  predicate StartsWith(s: string, prefix: string)
  {
    IsPrefix(prefix, s)
  }

  // ---------------------------------------------------------------------------
  // `int(s)` on stripped text, and the decimal rendering it inverts
  // ---------------------------------------------------------------------------

  predicate IsDigit(c: char)
  {
    '0' <= c <= '9'
  }

  /** Digits, with single underscores allowed between two digits (`"1_000"`). */
  predicate WellFormedDigits(s: string)
  {
    |s| > 0 &&
    forall i :: 0 <= i < |s| ==>
      IsDigit(s[i]) || (s[i] == '_' && 0 < i < |s| - 1 && IsDigit(s[i - 1]) && IsDigit(s[i + 1]))
  }

  /** The decimal value of the digits of `s`, underscores skipped. */
  function DigitsValue(s: string): nat
  {
    if s == [] then 0
    else if IsDigit(s[|s| - 1]) then DigitsValue(s[..|s| - 1]) * 10 + (s[|s| - 1] as int - '0' as int)
    else DigitsValue(s[..|s| - 1])
  }

  /** Python's `int(s)` for a string without surrounding white space:
      an optional sign followed by well-formed digits; anything else is a
      `ValueError`, here `None`. */
  function ParseInt(s: string): Option<int>
  {
    if |s| > 0 && (s[0] == '+' || s[0] == '-') then
      if WellFormedDigits(s[1..]) then
        Some(if s[0] == '-' then -(DigitsValue(s[1..]) as int) else DigitsValue(s[1..]))
      else None
    else if WellFormedDigits(s) then Some(DigitsValue(s))
    else None
  }

  function DigitChar(d: nat): char
    requires d < 10
  {
    ('0' as int + d) as char
  }

  /** The decimal rendering of a natural number, as `str(n)` gives it. */
  function Digits(n: nat): (r: string)
    ensures |r| > 0 && forall i :: 0 <= i < |r| ==> IsDigit(r[i])
  {
    if n < 10 then [DigitChar(n)] else Digits(n / 10) + [DigitChar(n % 10)]
  }

  /** `str(n)` for any integer. */
  function FormatInt(n: int): string
  {
    if n < 0 then "-" + Digits(-n) else Digits(n)
  }

  lemma {:induction false} DigitsValueOfDigits(n: nat)
    ensures DigitsValue(Digits(n)) == n
  {
    var d := Digits(n);
    if n >= 10 {
      DigitsValueOfDigits(n / 10);
      assert d[..|d| - 1] == Digits(n / 10);
    }
  }

  /** `int(str(n)) == n`: parsing inverts the decimal rendering. */
  lemma ParseFormatRoundTrip(n: int)
    ensures ParseInt(FormatInt(n)) == Some(n)
  {
    var m: nat := if n < 0 then -n else n;
    var d := Digits(m);
    DigitsValueOfDigits(m);
    assert WellFormedDigits(d);
    if n < 0 {
      assert FormatInt(n) == "-" + d;
      assert ("-" + d)[1..] == d;
    } else {
      assert FormatInt(n) == d && IsDigit(d[0]);
    }
  }
}

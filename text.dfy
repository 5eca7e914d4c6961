/**
 * The string operations the storefront uses, with JavaScript's meaning: `\s` and `trim`
 * (the ECMAScript WhiteSpace and LineTerminator code points), `includes`, `startsWith`,
 * `replace` with a string pattern (first occurrence only), `slice(0, n)`, number-to-string,
 * and the `^[^\s@]+@[^\s@]+\.[^\s@]+$` e-mail pattern.
 */
module Text {
  import opened Wrappers
  import Lists

  /** A code point matched by JavaScript's `\s` and removed by `String.prototype.trim`. */
  predicate IsSpace(c: char)
  {
    var n := c as int;
    (9 <= n <= 13) || n == 32 || n == 0xA0 || n == 0x1680 || (0x2000 <= n <= 0x200A)
    || n == 0x2028 || n == 0x2029 || n == 0x202F || n == 0x205F || n == 0x3000 || n == 0xFEFF
  }

  /** A character matched by `\d` (and by `[0-9]`). */
  predicate IsDigit(c: char)
  {
    '0' <= c <= '9'
  }

  predicate IsBlank(s: string)
  {
    forall i :: 0 <= i < |s| ==> IsSpace(s[i])
  }

  predicate AllDigits(s: string)
  {
    forall i :: 0 <= i < |s| ==> IsDigit(s[i])
  }

  // ---------------------------------------------------------------------------
  // trim

  /** `trimStart`: drop leading white space. */
  function TrimStart(s: string): string
    decreases |s|
  {
    if s != [] && IsSpace(s[0]) then TrimStart(s[1..]) else s
  }

  /** `trimEnd`: drop trailing white space. */
  function TrimEnd(s: string): string
    decreases |s|
  {
    if s != [] && IsSpace(s[|s| - 1]) then TrimEnd(s[..|s| - 1]) else s
  }

  /** `trimStart` keeps the longest suffix that does not begin with white space. */
  lemma {:induction false} TrimStartFacts(s: string)
    ensures var r := TrimStart(s);
      |r| <= |s| && r == s[|s| - |r|..] && IsBlank(s[..|s| - |r|]) && (r != [] ==> !IsSpace(r[0]))
    decreases |s|
  {
    if s != [] && IsSpace(s[0]) {
      TrimStartFacts(s[1..]);
      var r := TrimStart(s[1..]);
      assert s[1..][..|s[1..]| - |r|] == s[1..|s| - |r|];
      assert forall i :: 1 <= i < |s| - |r| ==> s[i] == s[1..][..|s[1..]| - |r|][i - 1];
    }
  }

  /** `trimEnd` keeps the longest prefix that does not end with white space. */
  lemma {:induction false} TrimEndFacts(s: string)
    ensures var r := TrimEnd(s);
      |r| <= |s| && r == s[..|r|] && IsBlank(s[|r|..]) && (r != [] ==> !IsSpace(r[|r| - 1]))
    decreases |s|
  {
    if s != [] && IsSpace(s[|s| - 1]) {
      TrimEndFacts(s[..|s| - 1]);
      var r := TrimEnd(s[..|s| - 1]);
      assert forall i :: |r| <= i < |s| - 1 ==> s[i] == s[..|s| - 1][|r|..][i - |r|];
    }
  }

  /** `s.trim()`: empty exactly when `s` is all white space, otherwise with non-space ends. */
  function Trim(s: string): (r: string)
    ensures r == "" <==> IsBlank(s)
    ensures r != "" ==> !IsSpace(r[0]) && !IsSpace(r[|r| - 1])
    ensures |r| <= |s|
  {
    var t := TrimStart(s);
    TrimStartFacts(s);
    var r := TrimEnd(t);
    TrimEndFacts(t);
    assert r == "" ==> IsBlank(t) by {
      if r == "" {
        assert t[|r|..] == t;
      }
    }
    assert t != "" ==> !IsBlank(s) by {
      if t != "" {
        assert t[0] == s[|s| - |t|];
      }
    }
    assert r == "" ==> IsBlank(s) by {
      if r == "" {
        assert s == s[..|s| - |t|] + t;
      }
    }
    r
  }

  // ---------------------------------------------------------------------------
  // digits, prefixes, slicing

  /** `s.replace(/[^0-9]/g, "")`: the digits of `s`, in order. */
  function DigitsOnly(s: string): (r: string)
    ensures AllDigits(r)
    ensures |r| <= |s|
    ensures AllDigits(s) ==> r == s
  {
    var r := Lists.Filter(s, IsDigit);
    assert AllDigits(s) ==> r == s by {
      if AllDigits(s) {
        Lists.FilterKeepsAll(s, IsDigit);
      }
    }
    r
  }

  /** `s.slice(0, n)`. */
  function Take(s: string, n: nat): (r: string)
    ensures |r| == if |s| <= n then |s| else n
    ensures r == s[..|r|]
  {
    if |s| <= n then s else s[..n]
  }

  predicate StartsWith(s: string, prefix: string)
  {
    |prefix| <= |s| && s[..|prefix|] == prefix
  }

  /** `s.startsWith(p) ? s : p + s`. */
  function EnsurePrefix(s: string, prefix: string): (r: string)
    ensures StartsWith(r, prefix)
    ensures StartsWith(s, prefix) ==> r == s
    ensures !StartsWith(s, prefix) ==> r[|prefix|..] == s
  {
    if StartsWith(s, prefix) then s else prefix + s
  }

  // ---------------------------------------------------------------------------
  // searching

  /** `s.indexOf(p)`, with `None` for -1. */
  function IndexOf(s: string, p: string): (r: Option<nat>)
    ensures r.Some? ==> r.value + |p| <= |s| && s[r.value..r.value + |p|] == p
    ensures r.Some? ==> forall j :: 0 <= j < r.value ==> !StartsWith(s[j..], p)
    ensures r.None? ==> forall j :: 0 <= j <= |s| ==> !StartsWith(s[j..], p)
    decreases |s|
  {
    if StartsWith(s, p) then Some(0)
    else if s == [] then None
    else
      match IndexOf(s[1..], p)
      case None =>
        TailSuffixes(s, |s|);
        None
      case Some(i) =>
        TailSuffixes(s, i);
        assert s[i + 1..i + 1 + |p|] == s[1..][i..i + |p|];
        Some(i + 1)
  }

  /** The suffixes of `s` from 1 on are the suffixes of its tail, shifted by one. */
  lemma TailSuffixes(s: string, n: nat)
    requires 1 <= |s| && n <= |s|
    ensures forall j :: 1 <= j <= n ==> s[j..] == s[1..][j - 1..]
  {
  }

  /** A text found in a suffix of `m` is found in `m`. */
  lemma ContainsInSuffix(m: string, k: nat, p: string)
    requires k <= |m| && Contains(m[k..], p)
    ensures Contains(m, p)
  {
    var i := IndexOf(m[k..], p).value;
    assert m[k + i..k + i + |p|] == m[k..][i..i + |p|];
    ContainsAt(m, p, k + i);
  }

  /** `s.includes(p)`. */
  predicate Contains(s: string, p: string)
  {
    IndexOf(s, p).Some?
  }

  lemma ContainsAt(s: string, p: string, i: nat)
    requires i + |p| <= |s| && s[i..i + |p|] == p
    ensures Contains(s, p)
  {
    assert s[i..][..|p|] == s[i..i + |p|];
    assert StartsWith(s[i..], p);
  }

  /** `s.replace(p, rep)` with a string pattern: only the first occurrence is replaced. */
  function ReplaceFirst(s: string, p: string, rep: string): (r: string)
    ensures !Contains(s, p) ==> r == s
    ensures Contains(s, p) ==>
      var i := IndexOf(s, p).value;
      r == s[..i] + rep + s[i + |p|..]
  {
    match IndexOf(s, p)
    case None => s
    case Some(i) => s[..i] + rep + s[i + |p|..]
  }

  /** Replacing a prefix that is present removes exactly that prefix. */
  lemma ReplaceLeadingPrefix(s: string, p: string)
    requires StartsWith(s, p)
    ensures ReplaceFirst(s, p, "") == s[|p|..]
  {
  }

  // ---------------------------------------------------------------------------
  // numbers as text

  function DigitChar(d: nat): (c: char)
    requires d < 10
    ensures IsDigit(c)
  {
    ('0' as int + d) as char
  }

  /** `String(n)` for a non-negative integer: its decimal digits without leading zeros. */
  function NatToString(n: nat): (r: string)
    ensures |r| >= 1 && AllDigits(r)
    ensures |r| > 1 ==> r[0] != '0'
    decreases n
  {
    if n < 10 then [DigitChar(n)] else NatToString(n / 10) + [DigitChar(n % 10)]
  }

  /** `String(n)` for any integer. */
  function IntToString(n: int): string
  {
    if n < 0 then "-" + NatToString(-n) else NatToString(n)
  }

  /** The value of a non-empty run of decimal digits. */
  function DigitsValue(s: string): (v: nat)
    requires s != [] && AllDigits(s)
    decreases |s|
  {
    var last := (s[|s| - 1] as int - '0' as int) as nat;
    if |s| == 1 then last else DigitsValue(s[..|s| - 1]) * 10 + last
  }

  /**
   * `Number(text)` restricted to integers: the empty text is 0, an optional `-` followed by
   * digits is that integer, anything else is `NaN` (`None`).
   */
  function JsNumber(s: string): Option<int>
  {
    if s == "" then Some(0)
    else if s[0] == '-' && |s| > 1 && AllDigits(s[1..]) then Some(0 - DigitsValue(s[1..]) as int)
    else if AllDigits(s) then Some(DigitsValue(s))
    else None
  }

  /** `Number(x) || 0` for a query value that may be missing (`Number(null)` is 0). */
  function NumberOrZero(x: Option<string>): int
  {
    if x.None? then 0
    else match JsNumber(x.value)
      case None => 0
      case Some(v) => v
  }

  /** Reading back the digits of a natural number gives that number. */
  lemma {:induction false} DigitsValueOfNatToString(n: nat)
    ensures DigitsValue(NatToString(n)) == n
    decreases n
  {
    if n >= 10 {
      var s := NatToString(n);
      assert s == NatToString(n / 10) + [DigitChar(n % 10)];
      assert s[..|s| - 1] == NatToString(n / 10);
      DigitsValueOfNatToString(n / 10);
    }
  }

  /** `Number(String(n)) == n` for every integer. */
  lemma NumberOfIntToString(n: int)
    ensures JsNumber(IntToString(n)) == Some(n)
  {
    if n < 0 {
      var s := IntToString(n);
      assert s[1..] == NatToString(-n);
      DigitsValueOfNatToString(-n);
    } else {
      DigitsValueOfNatToString(n);
    }
  }

  // ---------------------------------------------------------------------------
  // e-mail shape

  /** No white space and no `@`: one character of the class `[^\s@]`. */
  predicate EmailChar(c: char)
  {
    !IsSpace(c) && c != '@'
  }

  predicate AllEmailChars(s: string)
  {
    forall i :: 0 <= i < |s| ==> EmailChar(s[i])
  }

  /**
   * `^[^\s@]+@[^\s@]+\.[^\s@]+$`: a non-empty local part, one `@`, and a domain made of
   * two non-empty runs of `[^\s@]` around some `.`.
   */
  predicate IsEmail(s: string)
  {
    exists at, dot {:trigger s[at], s[dot]} ::
      0 < at < dot < |s| - 1 && s[at] == '@' && s[dot] == '.' && at + 1 < dot
      && AllEmailChars(s[..at]) && AllEmailChars(s[at + 1..dot]) && AllEmailChars(s[dot + 1..])
  }

  /** A matching address has exactly one `@`, and no white space anywhere. */
  lemma EmailHasOneAt(s: string, at: nat, dot: nat)
    requires 0 < at < dot < |s| - 1 && s[at] == '@' && s[dot] == '.' && at + 1 < dot
    requires AllEmailChars(s[..at]) && AllEmailChars(s[at + 1..dot]) && AllEmailChars(s[dot + 1..])
    ensures IsEmail(s)
    ensures forall i :: 0 <= i < |s| && s[i] == '@' ==> i == at
    ensures forall i :: 0 <= i < |s| ==> !IsSpace(s[i])
  {
    forall i | 0 <= i < |s| ensures (s[i] == '@' ==> i == at) && !IsSpace(s[i]) {
      if i < at {
        assert s[..at][i] == s[i];
      } else if at < i < dot {
        assert s[at + 1..dot][i - at - 1] == s[i];
      } else if dot < i {
        assert s[dot + 1..][i - dot - 1] == s[i];
      }
    }
  }
}

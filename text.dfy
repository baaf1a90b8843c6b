/**
 * Strings as the source's runtimes treat them: decimal rendering of
 * integers (Python str(), JavaScript String()), reading digit runs back,
 * zero padding, Python's whitespace split and split on a separator.
 */
module Text {
  import opened Wrappers

  predicate IsDigit(c: char) {
    '0' <= c <= '9'
  }

  predicate AllDigits(s: string) {
    forall i :: 0 <= i < |s| ==> IsDigit(s[i])
  }

  function DigitChar(n: int): (c: char)
    requires 0 <= n <= 9
    ensures IsDigit(c)
  {
    ('0' as int + n) as char
  }

  function DigitValue(c: char): (n: int)
    requires IsDigit(c)
    ensures 0 <= n <= 9 && DigitChar(n) == c
  {
    c as int - '0' as int
  }

  /** The decimal digits of n, without leading zeros. */
  function DecimalString(n: nat): (s: string)
    ensures |s| >= 1 && AllDigits(s)
    ensures |s| > 1 ==> s[0] != '0'
    ensures n < 10 <==> |s| == 1
  {
    if n < 10 then [DigitChar(n)] else DecimalString(n / 10) + [DigitChar(n % 10)]
  }

  /** The value of a run of decimal digits, read as Python's int() reads it. */
  function DigitsValue(s: string): nat
    requires AllDigits(s)
  {
    if s == [] then 0 else DigitsValue(s[..|s| - 1]) * 10 + DigitValue(s[|s| - 1])
  }

  /** Reading back a rendered number gives the number. */
  lemma {:induction false} DigitsValueOfDecimal(n: nat)
    ensures DigitsValue(DecimalString(n)) == n
  {
    var s := DecimalString(n);
    if n >= 10 {
      DigitsValueOfDecimal(n / 10);
      assert s[..|s| - 1] == DecimalString(n / 10);
    }
  }

  /** A digit run with a non-zero first digit is positive. */
  lemma {:induction false} DigitsValuePositive(s: string)
    requires |s| >= 1 && AllDigits(s) && s[0] != '0'
    ensures DigitsValue(s) >= 1
  {
    if |s| > 1 {
      DigitsValuePositive(s[..|s| - 1]);
    }
  }

  /** Rendering the value of a digit run without leading zeros gives the run back. */
  lemma {:induction false} DecimalOfDigitsValue(s: string)
    requires |s| >= 1 && AllDigits(s) && (|s| > 1 ==> s[0] != '0')
    ensures DecimalString(DigitsValue(s)) == s
  {
    if |s| > 1 {
      var init := s[..|s| - 1];
      DigitsValuePositive(init);
      DecimalOfDigitsValue(init);
      assert s == init + [s[|s| - 1]];
    }
  }

  lemma DecimalStringInjective(a: nat, b: nat)
    requires DecimalString(a) == DecimalString(b)
    ensures a == b
  {
    DigitsValueOfDecimal(a);
    DigitsValueOfDecimal(b);
  }

  /** Python str(i) and JavaScript String(i) of an integer. */
  function IntString(i: int): (s: string)
    ensures |s| >= 1
    ensures i >= 0 ==> s == DecimalString(i)
    ensures i < 0 ==> s == "-" + DecimalString(-i)
  {
    if i < 0 then "-" + DecimalString(-i) else DecimalString(i)
  }

  lemma IntStringInjective(a: int, b: int)
    requires IntString(a) == IntString(b)
    ensures a == b
  {
    if a < 0 && b < 0 {
      assert IntString(a)[1..] == DecimalString(-a);
      assert IntString(b)[1..] == DecimalString(-b);
      DecimalStringInjective(-a, -b);
    } else if a >= 0 && b >= 0 {
      DecimalStringInjective(a, b);
    }
  }

  /** String.prototype.padStart(2, '0'). */
  function PadStart2(s: string): (r: string)
    ensures |s| >= 2 ==> r == s
    ensures |s| < 2 ==> |r| == 2 && r[2 - |s|..] == s
    ensures forall i :: 0 <= i < |r| - |s| ==> r[i] == '0'
  {
    if |s| >= 2 then s else if |s| == 1 then "0" + s else "00"
  }

  /** A number below 100 rendered and zero-padded to two digits. */
  function TwoDigits(n: nat): (s: string)
    requires n < 100
    ensures |s| == 2 && AllDigits(s) && DigitsValue(s) == n
  {
    DigitsValueOfDecimal(n);
    var s := PadStart2(DecimalString(n));
    assert n < 10 ==> s == ['0', DigitChar(n)] && s[..1] == "0";
    s
  }

  /** Two digits, zero-padded or not, come back unchanged through TwoDigits. */
  lemma {:induction false} TwoDigitsOfDigitsValue(s: string)
    requires |s| == 2 && AllDigits(s)
    ensures DigitsValue(s) < 100 && TwoDigits(DigitsValue(s)) == s
  {
    assert s[..1][..0] == [];
    if s[0] != '0' {
      DecimalOfDigitsValue(s);
    } else {
      DecimalOfDigitsValue(s[1..]);
      assert DigitsValue(s[1..]) == DigitsValue(s) by {
        assert s[1..][..0] == [];
      }
      assert s == "0" + s[1..];
    }
  }

  /** A rendered integer holds no whitespace. */
  lemma IntStringHasNoSpace(i: int)
    ensures NoSpace(IntString(i))
  {
  }

  /** Python's str.isspace() on one character. */
  predicate IsSpace(c: char) {
    || '\t' <= c <= '\r'
    || '\U{1C}' <= c <= ' '
    || c == '\U{85}' || c == '\U{A0}' || c == '\U{1680}'
    || '\U{2000}' <= c <= '\U{200A}'
    || c == '\U{2028}' || c == '\U{2029}' || c == '\U{202F}' || c == '\U{205F}' || c == '\U{3000}'
  }

  predicate NoSpace(s: string) {
    forall i :: 0 <= i < |s| ==> !IsSpace(s[i])
  }

  /** Two strings without whitespace join into one without whitespace. */
  lemma {:induction false} NoSpaceAppend(a: string, b: string)
    requires NoSpace(a) && NoSpace(b)
    ensures NoSpace(a + b)
  {
    forall i | 0 <= i < |a + b|
      ensures !IsSpace((a + b)[i])
    {
      if i >= |a| {
        assert (a + b)[i] == b[i - |a|];
      }
    }
  }

  function DropSpaces(s: string): (r: string)
    ensures |r| <= |s| && r == s[|s| - |r|..]
    ensures r != [] ==> !IsSpace(r[0])
  {
    if s != [] && IsSpace(s[0]) then DropSpaces(s[1..]) else s
  }

  function TakeWord(s: string): (w: string)
    ensures |w| <= |s| && w == s[..|w|] && NoSpace(w)
    ensures |w| < |s| ==> IsSpace(s[|w|])
  {
    if s == [] || IsSpace(s[0]) then [] else [s[0]] + TakeWord(s[1..])
  }

  /** `s.split()[0]` in Python: None where the split is empty and indexing raises. */
  function FirstWord(s: string): (w: Option<string>)
    ensures w.Some? ==> w.value != [] && NoSpace(w.value)
  {
    var rest := DropSpaces(s);
    if rest == [] then None else Some(TakeWord(rest))
  }

  /** A word followed by a space, then anything, splits off that word first. */
  lemma {:induction false} FirstWordOfWordThenSpace(w: string, sep: char, rest: string)
    requires w != [] && NoSpace(w) && IsSpace(sep)
    ensures FirstWord(w + [sep] + rest) == Some(w)
  {
    var s := w + [sep] + rest;
    assert DropSpaces(s) == s;
    TakeWordOfWordThenSpace(w, sep, rest);
  }

  lemma {:induction false} TakeWordOfWordThenSpace(w: string, sep: char, rest: string)
    requires NoSpace(w) && IsSpace(sep)
    ensures TakeWord(w + [sep] + rest) == w
  {
    if w != [] {
      assert (w + [sep] + rest)[1..] == w[1..] + [sep] + rest;
      TakeWordOfWordThenSpace(w[1..], sep, rest);
    }
  }

  /** Python's `s.split(sep)` for a one-character separator. */
  function Split(s: string, sep: char): (parts: seq<string>)
    ensures |parts| >= 1
    ensures forall i :: 0 <= i < |parts| ==> sep !in parts[i]
  {
    if sep !in s then [s]
    else
      var i := IndexOf(s, sep);
      [s[..i]] + Split(s[i + 1..], sep)
  }

  function IndexOf(s: string, c: char): (i: nat)
    requires c in s
    ensures i < |s| && s[i] == c && c !in s[..i]
  {
    if s[0] == c then 0 else 1 + IndexOf(s[1..], c)
  }

  /** Joining parts that do not hold the separator, then splitting, gives the parts back. */
  lemma {:induction false} SplitOfJoined(a: string, sep: char, rest: string)
    requires sep !in a
    ensures Split(a + [sep] + rest, sep) == [a] + Split(rest, sep)
  {
    var s := a + [sep] + rest;
    assert s[|a|] == sep;
    var i := IndexOf(s, sep);
    assert s[..i] == a && s[i + 1..] == rest;
  }
}

/** Character classes and decimal digit strings used by the log-line grammar.
    Only the ASCII members of the regular-expression classes `\d`, `\s`, `\w`,
    `\S` and `.` are modelled. */
module Chars {

  /** The regular-expression classes the line patterns use. */
  datatype CharClass =
    | Digit       // \d
    | Space       // \s
    | Word        // \w
    | NonSpace    // \S
    | NotNewline  // .

  predicate IsDigit(c: char) {
    '0' <= c <= '9'
  }

  /** The ASCII characters Python's `\s` matches in a `str` pattern: space,
      `\t` through `\r`, and the separators `\x1c` through `\x1f`. */
  predicate IsSpace(c: char) {
    c == ' ' || '\t' <= c <= '\r' || '\U{001C}' <= c <= '\U{001F}'
  }

  predicate IsWord(c: char) {
    IsDigit(c) || 'a' <= c <= 'z' || 'A' <= c <= 'Z' || c == '_'
  }

  predicate InClass(c: char, cls: CharClass) {
    match cls
    case Digit => IsDigit(c)
    case Space => IsSpace(c)
    case Word => IsWord(c)
    case NonSpace => !IsSpace(c)
    case NotNewline => c != '\n'
  }

  predicate AllIn(s: string, cls: CharClass) {
    forall k :: 0 <= k < |s| ==> InClass(s[k], cls)
  }

  lemma AllInConcat(a: string, b: string, cls: CharClass)
    requires AllIn(a, cls) && AllIn(b, cls)
    ensures AllIn(a + b, cls)
  {
    forall k | 0 <= k < |a + b|
      ensures InClass((a + b)[k], cls)
    {
      if k >= |a| {
        assert (a + b)[k] == b[k - |a|];
      }
    }
  }

  /** Splits `s` into its longest prefix of `cls` characters and the rest:
      what a greedy `[cls]*` at the start of `s` consumes and leaves. */
  function TakeRun(s: string, cls: CharClass): (r: (string, string))
    ensures r.0 + r.1 == s
    ensures AllIn(r.0, cls)
    ensures |r.1| == 0 || !InClass(r.1[0], cls)
  {
    if |s| == 0 || !InClass(s[0], cls) then ("", s)
    else
      var r' := TakeRun(s[1..], cls);
      assert s == [s[0]] + s[1..];
      ([s[0]] + r'.0, r'.1)
  }

  /** The split is determined by its two properties: a run of `cls`
      characters followed by something that does not continue it. */
  lemma {:induction false} TakeRunOf(x: string, y: string, cls: CharClass)
    requires AllIn(x, cls)
    requires |y| == 0 || !InClass(y[0], cls)
    ensures TakeRun(x + y, cls) == (x, y)
  {
    if |x| == 0 {
      assert x + y == y;
    } else {
      assert (x + y)[0] == x[0] && InClass(x[0], cls);
      assert (x + y)[1..] == x[1..] + y;
      TakeRunOf(x[1..], y, cls);
      assert [x[0]] + x[1..] == x;
    }
  }

  function DigitValue(c: char): nat
    requires IsDigit(c)
  {
    c as int - '0' as int
  }

  function DigitChar(d: nat): (c: char)
    requires d < 10
    ensures IsDigit(c) && DigitValue(c) == d
  {
    ('0' as int + d) as char
  }

  /** Python's `int()` applied to a string of decimal digits. */
  function ParseNat(s: string): nat
    requires AllIn(s, Digit)
    decreases |s|
  {
    if |s| == 0 then 0 else ParseNat(s[..|s| - 1]) * 10 + DigitValue(s[|s| - 1])
  }

  /** Python's `str()` applied to a natural number: shortest decimal form. */
  function ShowNat(n: nat): (s: string)
    ensures |s| > 0 && AllIn(s, Digit)
    ensures |s| > 1 ==> s[0] != '0'
  {
    if n < 10 then [DigitChar(n)] else ShowNat(n / 10) + [DigitChar(n % 10)]
  }

  /** Reading back a printed number gives the number. */
  lemma {:induction false} ParseShowNat(n: nat)
    ensures ParseNat(ShowNat(n)) == n
  {
    if n >= 10 {
      var s := ShowNat(n);
      assert s[..|s| - 1] == ShowNat(n / 10);
      ParseShowNat(n / 10);
    }
  }
}

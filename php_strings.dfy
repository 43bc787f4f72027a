/** The two PHP string operations the cache relies on: `trim` with its
    default character list, and the decimal rendering of an integer that
    string concatenation performs. */
module PhpStrings {

  /** The characters `trim` strips when no list is given: space, tab, line
      feed, carriage return, NUL and vertical tab. */
  predicate IsBlank(c: char) {
    c == ' ' || c == '\t' || c == '\n' || c == '\r' || c == '\0' || c == '\U{0B}'
  }

  predicate IsDigit(c: char) {
    '0' <= c <= '9'
  }

  /** `ltrim`: drops the blank characters at the front of `s`. */
  function TrimLeft(s: string): string {
    if s != [] && IsBlank(s[0]) then TrimLeft(s[1..]) else s
  }

  /** `rtrim`: drops the blank characters at the back of `s`. */
  function TrimRight(s: string): string {
    if s != [] && IsBlank(s[|s| - 1]) then TrimRight(s[..|s| - 1]) else s
  }

  /** `trim`: no longer than its input, and neither starts nor ends with a
      blank. */
  function Trim(s: string): (r: string)
    ensures |r| <= |s|
    ensures r != [] ==> !IsBlank(r[0]) && !IsBlank(r[|r| - 1])
  {
    TrimLeftSpec(s);
    TrimRightSpec(TrimLeft(s));
    TrimRight(TrimLeft(s))
  }

  /** `ltrim` keeps a suffix of `s` that does not start with a blank, and
      everything it drops is blank. */
  lemma {:induction false} TrimLeftSpec(s: string)
    ensures var r := TrimLeft(s);
      && |r| <= |s| && r == s[|s| - |r|..]
      && (forall i :: 0 <= i < |s| - |r| ==> IsBlank(s[i]))
      && (r != [] ==> !IsBlank(r[0]))
    decreases |s|
  {
    if s != [] && IsBlank(s[0]) {
      TrimLeftSpec(s[1..]);
    }
  }

  /** `rtrim` keeps a prefix of `s` that does not end with a blank, and
      everything it drops is blank. */
  lemma {:induction false} TrimRightSpec(s: string)
    ensures var r := TrimRight(s);
      && |r| <= |s| && r == s[..|r|]
      && (forall i :: |r| <= i < |s| ==> IsBlank(s[i]))
      && (r != [] ==> !IsBlank(r[|r| - 1]))
    decreases |s|
  {
    if s != [] && IsBlank(s[|s| - 1]) {
      TrimRightSpec(s[..|s| - 1]);
    }
  }

  /** A string with no blank at either end is left as it is by `trim`. */
  lemma TrimUnpadded(s: string)
    requires s != [] ==> !IsBlank(s[0]) && !IsBlank(s[|s| - 1])
    ensures Trim(s) == s
  {
    TrimLeftSpec(s);
    TrimRightSpec(s);
  }

  /** Trimming twice is trimming once. */
  lemma TrimIdempotent(s: string)
    ensures Trim(Trim(s)) == Trim(s)
  {
    TrimUnpadded(Trim(s));
  }

  /** `trim(s) == ''` holds exactly when every character of `s` is blank. */
  lemma TrimBlankIff(s: string)
    ensures Trim(s) == [] <==> forall i :: 0 <= i < |s| ==> IsBlank(s[i])
  {
    TrimLeftSpec(s);
    TrimRightSpec(TrimLeft(s));
  }

  function Digit(d: nat): (c: char)
    requires d < 10
    ensures IsDigit(c)
  {
    ('0' as int + d) as char
  }

  /** The decimal rendering PHP gives a non-negative integer: digits only,
      never empty, and no leading zero except for 0 itself. */
  function Decimal(n: nat): (r: string)
    ensures r != [] && forall i :: 0 <= i < |r| ==> IsDigit(r[i])
    ensures r[0] == '0' <==> n == 0
    ensures n < 10 <==> |r| == 1
  {
    if n < 10 then [Digit(n)] else Decimal(n / 10) + [Digit(n % 10)]
  }

  /** Distinct numbers have distinct renderings. */
  lemma {:induction false} DecimalInjective(a: nat, b: nat)
    requires Decimal(a) == Decimal(b)
    ensures a == b
  {
    if a >= 10 && b >= 10 {
      var da, db := Decimal(a), Decimal(b);
      assert Decimal(a / 10) == da[..|da| - 1];
      assert Decimal(b / 10) == db[..|db| - 1];
      DecimalInjective(a / 10, b / 10);
      assert da[|da| - 1] == Digit(a % 10);
      assert db[|db| - 1] == Digit(b % 10);
    } else {
      assert Decimal(a)[0] == Digit(a) && Decimal(b)[0] == Digit(b);
    }
  }
}

/**
 The scan of a token's subject, `fmt.Sscanf(subj, "CHARACTER:EVE:%d", &id)` into an int32
 (token.go).  The scan skips blanks before the number, takes an optional sign, reads the
 longest run of digits, ignores whatever follows, and fails on a number outside int32.
 */
module SubjectScan {
  import opened Wrappers

  const PREFIX := "CHARACTER:EVE:"

  const MIN_INT32: int := -0x8000_0000
  const MAX_INT32: int := 0x7fff_ffff

  predicate IsInt32(n: int)
  {
    MIN_INT32 <= n <= MAX_INT32
  }

  predicate IsDigit(c: char)
  {
    '0' <= c <= '9'
  }

  /** The blanks `fmt` skips.  A newline is not among them: it ends the scan with an error. */
  predicate IsBlank(c: char)
  {
    var n := c as int;
    || n == 0x09 || 0x0b <= n <= 0x0d || n == 0x20 || n == 0x85 || n == 0xa0 || n == 0x1680
    || 0x2000 <= n <= 0x200a || n == 0x2028 || n == 0x2029 || n == 0x202f || n == 0x205f || n == 0x3000
  }

  function SkipBlanks(s: string): Option<string>
  {
    if s == "" then Some(s)
    else if s[0] == '\n' then None
    else if IsBlank(s[0]) then SkipBlanks(s[1..])
    else Some(s)
  }

  function LeadingDigits(s: string): string
  {
    if s == "" || !IsDigit(s[0]) then "" else [s[0]] + LeadingDigits(s[1..])
  }

  /** The number a digit string denotes, most significant digit first. */
  function Value(ds: string): int
  {
    if ds == "" then 0 else 10 * Value(ds[..|ds| - 1]) + (ds[|ds| - 1] as int - '0' as int)
  }

  function ScanDigits(s: string): Option<int>
  {
    var ds := LeadingDigits(s);
    if ds == "" then None else Some(Value(ds))
  }

  function ScanInt32(s: string): Option<int>
  {
    var signed := s != "" && (s[0] == '+' || s[0] == '-');
    var magnitude := ScanDigits(if signed then s[1..] else s);
    if magnitude.None? then None
    else
      var n: int := if signed && s[0] == '-' then -magnitude.value else magnitude.value;
      if IsInt32(n) then Some(n) else None
  }

  function ScanSubject(subject: string): Option<int>
  {
    if !(PREFIX <= subject) then None
    else
      var rest := SkipBlanks(subject[|PREFIX|..]);
      if rest.None? then None else ScanInt32(rest.value)
  }

  // ---- The decimal form of a number, the partner of the scan ----

  function PrintNat(n: nat): string
  {
    var last := ['0' + (n % 10) as char];
    if n < 10 then last else PrintNat(n / 10) + last
  }

  function PrintInt(n: int): string
  {
    if n < 0 then "-" + PrintNat(-n) else PrintNat(n)
  }

  lemma {:induction false} PrintNatDigits(n: nat)
    ensures PrintNat(n) != ""
    ensures forall c :: c in PrintNat(n) ==> IsDigit(c)
    ensures Value(PrintNat(n)) == n
  {
    var last := ['0' + (n % 10) as char];
    if n < 10 {
      assert last[..0] == "";
    } else {
      PrintNatDigits(n / 10);
      assert PrintNat(n)[..|PrintNat(n)| - 1] == PrintNat(n / 10);
    }
  }

  lemma {:induction false} LeadingDigitsStop(ds: string, tail: string)
    requires forall c :: c in ds ==> IsDigit(c)
    requires tail == "" || !IsDigit(tail[0])
    ensures LeadingDigits(ds + tail) == ds
  {
    if ds == "" {
      assert ds + tail == tail;
    } else {
      assert (ds + tail)[1..] == ds[1..] + tail;
      LeadingDigitsStop(ds[1..], tail);
    }
  }

  lemma AfterPrefix(body: string)
    ensures ScanSubject(PREFIX + body) ==
            if SkipBlanks(body).None? then None else ScanInt32(SkipBlanks(body).value)
  {
    assert (PREFIX + body)[|PREFIX|..] == body;
  }

  lemma ScanSignedDigits(sign: string, ds: string, tail: string)
    requires sign in {"", "+", "-"}
    requires ds != "" && forall c :: c in ds ==> IsDigit(c)
    requires tail == "" || !IsDigit(tail[0])
    ensures var n := if sign == "-" then -Value(ds) else Value(ds);
            ScanInt32(sign + ds + tail) == if IsInt32(n) then Some(n) else None
  {
    var s := sign + ds + tail;
    LeadingDigitsStop(ds, tail);
    if sign == "" {
      assert s == ds + tail;
      assert s[0] == ds[0] && ds[0] in ds;
    } else {
      assert s[0] == sign[0] && s[1..] == ds + tail;
    }
  }

  lemma {:induction false} SkipBlanksOver(blanks: string, rest: string)
    requires forall c :: c in blanks ==> IsBlank(c)
    requires rest != "" && !IsBlank(rest[0]) && rest[0] != '\n'
    ensures SkipBlanks(blanks + rest) == Some(rest)
  {
    if blanks == "" {
      assert blanks + rest == rest;
    } else {
      assert (blanks + rest)[1..] == blanks[1..] + rest;
      assert blanks[0] in blanks;
      SkipBlanksOver(blanks[1..], rest);
    }
  }

  /** What a subject of the expected form yields. */
  lemma ScanSplitSubject(blanks: string, sign: string, ds: string, tail: string)
    requires forall c :: c in blanks ==> IsBlank(c)
    requires sign in {"", "+", "-"}
    requires ds != "" && forall c :: c in ds ==> IsDigit(c)
    requires tail == "" || !IsDigit(tail[0])
    ensures var n := if sign == "-" then -Value(ds) else Value(ds);
            ScanSubject(PREFIX + (blanks + (sign + ds + tail))) == if IsInt32(n) then Some(n) else None
  {
    var number := sign + ds + tail;
    assert ds[0] in ds;
    assert number[0] == if sign == "" then ds[0] else sign[0];
    SkipBlanksOver(blanks, number);
    AfterPrefix(blanks + number);
    ScanSignedDigits(sign, ds, tail);
  }

  /**
   Round trip with a bound: the decimal form of an int32 scans back to itself, and that of
   any other integer is refused, not wrapped.  `tail` is ignored unless it prolongs the number.
   */
  lemma SubjectRoundTrip(n: int, tail: string)
    requires tail == "" || !('0' <= tail[0] <= '9')
    ensures ScanSubject("CHARACTER:EVE:" + (PrintInt(n) + tail)) ==
            if -2147483648 <= n <= 2147483647 then Some(n) else None
  {
    var sign := if n < 0 then "-" else "";
    var ds := PrintNat(if n < 0 then -n else n);
    PrintNatDigits(if n < 0 then -n else n);
    assert PrintInt(n) + tail == "" + (sign + ds + tail);
    ScanSplitSubject("", sign, ds, tail);
  }

  lemma DecimalValues()
    ensures Value("954") == 954 && Value("20") == 20
  {
    assert "954"[..2] == "95" && "95"[..1] == "9" && "9"[..0] == "";
    assert "20"[..1] == "2" && "2"[..0] == "";
  }

  /** Digits are decimal, */
  lemma ScanExample()
    ensures ScanSubject("CHARACTER:EVE:954") == Some(954)
  {
    DecimalValues();
    ScanSplitSubject("", "", "954", "");
    assert PREFIX + ("" + ("" + "954" + "")) == "CHARACTER:EVE:954";
  }

  /** blanks and a sign may stand before them and other text behind, */
  lemma ScanLooseExample()
    ensures ScanSubject("CHARACTER:EVE: -20 x") == Some(-20)
  {
    DecimalValues();
    ScanSplitSubject(" ", "-", "20", " x");
    assert PREFIX + (" " + ("-" + "20" + " x")) == "CHARACTER:EVE: -20 x";
  }

  /** and a newline ends the scan. */
  lemma ScanFails(rest: string)
    ensures ScanSubject("CHARACTER:EVE:" + ("\n" + rest)) == None && ScanSubject("CHARACTER:EVE:" + "") == None
  {
    AfterPrefix("\n" + rest);
    AfterPrefix("");
  }

  // ---- What the scan accepts, for every subject ----

  ghost predicate Accepted(blanks: string, sign: string, ds: string, tail: string, n: int)
  {
    && (forall c :: c in blanks ==> IsBlank(c))
    && sign in {"", "+", "-"}
    && ds != "" && (forall c :: c in ds ==> IsDigit(c))
    && (tail == "" || !IsDigit(tail[0]))
    && n == (if sign == "-" then -Value(ds) else Value(ds))
    && IsInt32(n)
  }

  /** Skipping splits off a run of blanks and stops at the first character that is none. */
  lemma {:induction false} SkipBlanksSplits(s: string) returns (blanks: string)
    requires SkipBlanks(s).Some?
    ensures s == blanks + SkipBlanks(s).value
    ensures forall c :: c in blanks ==> IsBlank(c)
  {
    if s == "" || !IsBlank(s[0]) {
      blanks := "";
    } else {
      var rest := SkipBlanksSplits(s[1..]);
      blanks := [s[0]] + rest;
      assert s == [s[0]] + s[1..];
    }
  }

  lemma {:induction false} LeadingDigitsSplit(s: string)
    ensures var ds := LeadingDigits(s);
      && ds <= s
      && (forall c :: c in ds ==> IsDigit(c))
      && (s[|ds|..] == "" || !IsDigit(s[|ds|..][0]))
  {
    if s != "" && IsDigit(s[0]) {
      LeadingDigitsSplit(s[1..]);
    }
  }

  lemma ScanInt32Splits(s: string) returns (sign: string, ds: string, tail: string)
    requires ScanInt32(s).Some?
    ensures Accepted("", sign, ds, tail, ScanInt32(s).value)
    ensures s == sign + ds + tail
  {
    sign := if s != "" && (s[0] == '+' || s[0] == '-') then [s[0]] else "";
    var unsigned := s[|sign|..];
    ds := LeadingDigits(unsigned);
    LeadingDigitsSplit(unsigned);
    tail := unsigned[|ds|..];
  }

  ghost predicate Splits(subject: string, n: int, blanks: string, sign: string, ds: string, tail: string)
  {
    Accepted(blanks, sign, ds, tail, n) && subject == PREFIX + (blanks + (sign + ds + tail))
  }

  /**
   A subject yields the identity `n` exactly when it is the prefix, blanks, an optional
   sign, a run of digits denoting the int32 `n`, and anything that does not go on with a digit.
   */
  lemma ScanAccepts(subject: string, n: int)
    ensures ScanSubject(subject) == Some(n) <==>
            exists blanks, sign, ds, tail :: Splits(subject, n, blanks, sign, ds, tail)
  {
    if ScanSubject(subject) == Some(n) {
      var body := subject[|PREFIX|..];
      var blanks := SkipBlanksSplits(body);
      var sign, ds, tail := ScanInt32Splits(SkipBlanks(body).value);
      assert subject == PREFIX + body;
      assert Splits(subject, n, blanks, sign, ds, tail);
    }
    forall blanks, sign, ds, tail | Splits(subject, n, blanks, sign, ds, tail)
      ensures ScanSubject(subject) == Some(n)
    {
      ScanSplitSubject(blanks, sign, ds, tail);
    }
  }
}

/** vardefunc/types.py: the `DuplicateFrame` integer and `format_not_none`. */
module VdfTypes {
  import opened Wrappers
  import opened Frames
  import PyNum

  /** The message of the FormatError of line 73. */
  const VariableFormatMessage := "Variable format not allowed!"

  /** `format_not_none`: a variable-format clip raises a FormatError, any
      other clip is returned as it is. */
  function FormatNotNone(clip: Clip): (r: Result<Clip>)
    ensures r.Err? <==> clip.format.None?
    ensures r.Err? ==> r.error == FormatError(VariableFormatMessage)
    ensures r.Ok? ==> r.value == clip && r.value.format.Some?
  {
    if clip.format.None? then Err(FormatError(VariableFormatMessage)) else Ok(clip)
  }

  // ------------------------------------------------------- DuplicateFrame

  /** A frame number (the `int` value) that stands for `dup` copies of that
      frame. Python integers are unbounded, and so are these. */
  datatype DuplicateFrame = DuplicateFrame(frame: int, dup: int)

  /** `DuplicateFrame(x, dup=1)`. */
  function NewDuplicateFrame(x: int, dup: int := 1): (df: DuplicateFrame)
    ensures df.frame == x && df.dup == dup
  {
    DuplicateFrame(x, dup)
  }

  /** The arithmetic operators change the number of copies, never the frame. */
  function Add(df: DuplicateFrame, n: int): (r: DuplicateFrame)
    ensures r.frame == df.frame && r.dup - df.dup == n
  {
    NewDuplicateFrame(df.frame, df.dup + n)
  }

  function Sub(df: DuplicateFrame, n: int): (r: DuplicateFrame)
    ensures r.frame == df.frame && df.dup - r.dup == n
  {
    NewDuplicateFrame(df.frame, df.dup - n)
  }

  function Mul(df: DuplicateFrame, n: int): (r: DuplicateFrame)
    ensures r.frame == df.frame
    ensures n == 0 ==> r.dup == 0
    ensures n == 1 ==> r.dup == df.dup
    ensures r.dup == df.dup * n
  {
    NewDuplicateFrame(df.frame, df.dup * n)
  }

  /** `df // n` uses Python's floor division; `n == 0` raises. */
  function FloorDiv(df: DuplicateFrame, n: int): (r: Result<DuplicateFrame>)
    ensures r.Err? <==> n == 0
    ensures r.Err? ==> r.error == ZeroDivisionError
    ensures r.Ok? ==> r.value.frame == df.frame
    ensures n > 0 && r.Ok? ==> n * r.value.dup <= df.dup < n * r.value.dup + n
    ensures n < 0 && r.Ok? ==> n * r.value.dup >= df.dup > n * r.value.dup + n
  {
    if n == 0 then Err(ZeroDivisionError) else Ok(NewDuplicateFrame(df.frame, PyNum.FloorDiv(df.dup, n)))
  }

  lemma SubUndoesAdd(df: DuplicateFrame, n: int)
    ensures Sub(Add(df, n), n) == df && Add(Sub(df, n), n) == df
  {
  }

  /** Dividing by the factor just multiplied in gives the frame back. */
  lemma FloorDivUndoesMul(df: DuplicateFrame, n: int)
    requires n != 0
    ensures FloorDiv(Mul(df, n), n) == Ok(df)
  {
    FloorDivOfMultiple(df.dup, n);
  }

  lemma FloorDivOfMultiple(a: int, b: int)
    requires b != 0
    ensures PyNum.FloorDiv(a * b, b) == a
  {
    var q := PyNum.FloorDiv(a * b, b);
    if b > 0 {
      assert b * q <= b * a < b * q + b;
      if q < a { MulLe(b, q + 1, a); }
      if q > a { MulLe(b, a + 1, q); }
    } else {
      assert (-b) * q <= (-b) * a < (-b) * q + (-b);
      if q < a { MulLe(-b, q + 1, a); }
      if q > a { MulLe(-b, a + 1, q); }
    }
  }

  lemma MulLe(k: int, x: int, y: int)
    requires k > 0 && x <= y
    ensures k * x <= k * y
  {
    assert k * y - k * x == k * (y - x);
  }

  /** Python rounds the quotient down where Dafny's `/` would not: seven
      copies floor-divided by -2 leave -4, where `7 / -2` is -3 in Dafny. */
  lemma FloorDivNegativeDivisor()
    ensures FloorDiv(DuplicateFrame(10, 7), -2) == Ok(DuplicateFrame(10, -4))
    ensures 7 / -2 == -3
  {
  }

  // ------------------------------------------------------ decimal strings

  predicate IsDigit(c: char) {
    '0' <= c <= '9'
  }

  predicate AllDigits(s: string) {
    forall i :: 0 <= i < |s| ==> IsDigit(s[i])
  }

  function DigitChar(d: nat): (c: char)
    requires d < 10
    ensures IsDigit(c) && (c as int) - ('0' as int) == d
  {
    (('0' as int) + d) as char
  }

  /** Python's `int.__repr__` for a non-negative value. */
  function NatToString(n: nat): (s: string)
    ensures |s| > 0 && AllDigits(s)
  {
    if n < 10 then [DigitChar(n)] else NatToString(n / 10) + [DigitChar(n % 10)]
  }

  /** Python's `int.__repr__`. */
  function IntToString(i: int): (s: string)
    ensures |s| > 0 && ' ' !in s
  {
    if i < 0 then "-" + NatToString(-i) else NatToString(i)
  }

  function ParseNat(s: string): nat
    requires |s| > 0 && AllDigits(s)
  {
    var d := (s[|s| - 1] as int) - ('0' as int);
    if |s| == 1 then d else ParseNat(s[..|s| - 1]) * 10 + d
  }

  /** `int(s)` on the decimal strings that `repr` produces. */
  function ParseInt(s: string): (r: Option<int>)
    ensures r.Some? ==> |s| > 0
  {
    if |s| > 1 && s[0] == '-' && AllDigits(s[1..]) then Some(-(ParseNat(s[1..]) as int))
    else if |s| > 0 && AllDigits(s) then Some(ParseNat(s))
    else None
  }

  lemma {:induction false} ParseNatToString(n: nat)
    ensures ParseNat(NatToString(n)) == n
  {
    if n >= 10 {
      var s := NatToString(n);
      assert s[..|s| - 1] == NatToString(n / 10);
      ParseNatToString(n / 10);
    }
  }

  lemma ParseIntToString(i: int)
    ensures ParseInt(IntToString(i)) == Some(i)
  {
    if i < 0 {
      ParseNegative(-i);
    } else {
      ParseNonNegative(i);
    }
  }

  lemma ParseNegative(n: nat)
    requires n > 0
    ensures ParseInt("-" + NatToString(n)) == Some(-(n as int))
  {
    var s := "-" + NatToString(n);
    assert s[1..] == NatToString(n);
    ParseNatToString(n);
  }

  lemma ParseNonNegative(n: nat)
    ensures ParseInt(NatToString(n)) == Some(n)
  {
    var s := NatToString(n);
    assert IsDigit(s[0]);
    ParseNatToString(n);
  }

  // ------------------------------------------------------ repr and str

  /** `repr(df)`: `<DuplicateFrame object: 'x:<frame>, dup:<dup>'>`. */
  function Repr(df: DuplicateFrame): (s: string)
    ensures |s| > 16 && s[..16] == "<DuplicateFrame "
  {
    "<DuplicateFrame object: 'x:" + IntToString(df.frame) + ", dup:" + IntToString(df.dup) + "'>"
  }

  /** `str(df)` as written: for a subclass of `int`, `super().__str__()`
      is `object.__str__`, which calls the overridden `__repr__`. */
  function StrAsWritten(df: DuplicateFrame): (s: string)
    ensures |Repr(df)| < |s| && s[..|Repr(df)|] == Repr(df)
  {
    Repr(df) + " * " + IntToString(df.dup)
  }

  /** `str(df)` as documented: `<frame> * <dup>`. */
  function Str(df: DuplicateFrame): (s: string)
    ensures ParseStr(s) == Some(df)
  {
    StrOfParts(df.frame, df.dup)
  }

  function StrOfParts(frame: int, dup: int): (s: string)
    ensures ParseStr(s) == Some(DuplicateFrame(frame, dup))
  {
    ParseStrOfParts(IntToString(frame), IntToString(dup), frame, dup);
    IntToString(frame) + " * " + IntToString(dup)
  }

  /** `<a> * <b>` splits at the first space when `a` has none. */
  lemma ParseStrOfParts(a: string, b: string, frame: int, dup: int)
    requires a == IntToString(frame) && b == IntToString(dup)
    ensures ParseStr(a + " * " + b) == Some(DuplicateFrame(frame, dup))
  {
    var s := a + " * " + b;
    assert s == a + (" * " + b);
    FirstSpaceAfter(a, " * " + b);
    assert s[..|a|] == a && s[|a|..|a| + 3] == " * " && s[|a| + 3..] == b;
    ParseIntToString(frame);
    ParseIntToString(dup);
  }

  /** The index of the first space of `s`, or `|s|`. */
  function FirstSpace(s: string): (k: nat)
    ensures k <= |s| && (k < |s| ==> s[k] == ' ') && ' ' !in s[..k]
  {
    if |s| == 0 then 0
    else if s[0] == ' ' then 0
    else
      var k := 1 + FirstSpace(s[1..]);
      assert s[..k] == [s[0]] + s[1..][..k - 1];
      k
  }

  lemma {:induction false} FirstSpaceAfter(a: string, b: string)
    requires ' ' !in a && |b| > 0 && b[0] == ' '
    ensures FirstSpace(a + b) == |a|
  {
    if |a| > 0 {
      assert a[0] in a;
      assert (a + b)[1..] == a[1..] + b;
      assert forall c :: c in a[1..] ==> c in a;
      FirstSpaceAfter(a[1..], b);
    }
  }

  /** Reads back `<frame> * <dup>`. */
  function ParseStr(s: string): Option<DuplicateFrame> {
    var k := FirstSpace(s);
    if k + 3 <= |s| && s[k..k + 3] == " * " then
      match (ParseInt(s[..k]), ParseInt(s[k + 3..]))
      case (Some(frame), Some(dup)) => Some(DuplicateFrame(frame, dup))
      case _ => None
    else None
  }

  /** The string as written is never the documented one: it starts with the
      `repr` and cannot be read back as a frame and a count. */
  lemma StrAsWrittenIsNotStr(df: DuplicateFrame)
    ensures StrAsWritten(df) != Str(df)
    ensures ParseStr(StrAsWritten(df)) == None
  {
    var s := StrAsWritten(df);
    assert s[0] == Repr(df)[..16][0] == '<';
    var k := FirstSpace(s);
    NoNumberStartsWithAngle(s[..k]);
    assert ParseStr(Str(df)) == Some(df);
  }

  /** A string that starts with `<` is not a number. */
  lemma NoNumberStartsWithAngle(t: string)
    requires |t| > 0 ==> t[0] == '<'
    ensures ParseInt(t) == None
  {
    if |t| > 0 {
      assert !IsDigit(t[0]);
    }
  }
}

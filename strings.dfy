/** Python string operations the converter relies on: `str.split` on one
    delimiter character, `".".join`, decimal rendering of an integer (what an
    f-string does with `{layer_idx}`), `re.match("[0-9]+", field)`, `int(field)`
    and the substring test `a in b`. */
module Strings {
  import opened Results

  /** `s.split(d)`: every occurrence of `d` separates two fields, so there is
      always one field more than there are delimiters. */
  function Split(s: string, d: char): (r: seq<string>)
    ensures |r| >= 1
    decreases |s|
  {
    if |s| == 0 then [""]
    else
      var rest := Split(s[1..], d);
      if s[0] == d then [""] + rest else [[s[0]] + rest[0]] + rest[1..]
  }

  /** `d.join(fs)`. */
  function Join(fs: seq<string>, d: char): string
  {
    if |fs| == 0 then ""
    else if |fs| == 1 then fs[0]
    else fs[0] + [d] + Join(fs[1..], d)
  }

  /** A dotted name built from fields: `".".join(fields)`. */
  function Dotted(fs: seq<string>): string
  {
    Join(fs, '.')
  }

  predicate NoDelimiter(fs: seq<string>, d: char)
  {
    forall i :: 0 <= i < |fs| ==> d !in fs[i]
  }

  lemma {:induction false} SplitField(f: string, d: char)
    requires d !in f
    ensures Split(f, d) == [f]
    decreases |f|
  {
    if |f| > 0 {
      SplitField(f[1..], d);
      assert f[0] != d;
      assert [f[0]] + f[1..] == f;
    }
  }

  lemma {:induction false} SplitFront(f: string, d: char, rest: string)
    requires d !in f
    ensures Split(f + [d] + rest, d) == [f] + Split(rest, d)
    decreases |f|
  {
    if |f| == 0 {
      assert f + [d] + rest == [d] + rest;
      assert ([d] + rest)[1..] == rest;
    } else {
      var s := f + [d] + rest;
      assert s[0] == f[0];
      assert s[1..] == f[1..] + [d] + rest;
      SplitFront(f[1..], d, rest);
      assert [f[0]] + f[1..] == f;
    }
  }

  /** Splitting a joined list of delimiter-free fields gives the fields back. */
  lemma {:induction false} SplitJoin(fs: seq<string>, d: char)
    requires |fs| >= 1 && NoDelimiter(fs, d)
    ensures Split(Join(fs, d), d) == fs
    decreases |fs|
  {
    if |fs| == 1 {
      SplitField(fs[0], d);
    } else {
      assert NoDelimiter(fs[1..], d) by {
        forall i | 0 <= i < |fs[1..]| ensures d !in fs[1..][i] {
          assert fs[1..][i] == fs[i + 1];
        }
      }
      SplitJoin(fs[1..], d);
      SplitFront(fs[0], d, Join(fs[1..], d));
      assert [fs[0]] + fs[1..] == fs;
    }
  }

  /** Two dotted names of delimiter-free fields are equal exactly when their fields are. */
  lemma DottedInjective(fs: seq<string>, gs: seq<string>)
    requires |fs| >= 1 && NoDelimiter(fs, '.')
    requires |gs| >= 1 && NoDelimiter(gs, '.')
    ensures Dotted(fs) == Dotted(gs) <==> fs == gs
  {
    SplitJoin(fs, '.');
    SplitJoin(gs, '.');
  }

  // ---------------------------------------------------------------------
  // Decimal numbers

  predicate IsDigit(c: char)
  {
    '0' <= c <= '9'
  }

  predicate AllDigits(s: string)
  {
    forall i :: 0 <= i < |s| ==> IsDigit(s[i])
  }

  /** `re.match(r"[0-9]+", field) is not None`: the field begins with an ASCII digit. */
  predicate StartsWithDigit(s: string)
  {
    |s| > 0 && IsDigit(s[0])
  }

  function DigitChar(n: nat): (c: char)
    requires n < 10
    ensures IsDigit(c)
  {
    "0123456789"[n]
  }

  function DigitValue(c: char): (n: nat)
    requires IsDigit(c)
    ensures n < 10
  {
    (c as int - '0' as int) as nat
  }

  lemma DigitRoundTrip(n: nat)
    requires n < 10
    ensures DigitValue(DigitChar(n)) == n
  {
    assert "0123456789"[n] as int == '0' as int + n;
  }

  /** `str(n)` for a natural number: its decimal digits, no leading zero. */
  function NatToString(n: nat): (s: string)
    ensures |s| >= 1 && AllDigits(s)
    decreases n
  {
    if n < 10 then [DigitChar(n)] else NatToString(n / 10) + [DigitChar(n % 10)]
  }

  /** `str(i)` (and `f"{i}"`) for any integer. */
  function IntToString(i: int): (s: string)
    ensures |s| >= 1
    ensures i >= 0 ==> StartsWithDigit(s) && AllDigits(s)
    ensures i < 0 ==> s[0] == '-'
  {
    if i < 0 then "-" + NatToString(-i) else NatToString(i)
  }

  lemma IntToStringHasNoDot(i: int)
    ensures '.' !in IntToString(i)
  {
    var s := IntToString(i);
    forall k | 0 <= k < |s| ensures s[k] != '.' {
      if i < 0 && k > 0 {
        assert s[k] == NatToString(-i)[k - 1];
      }
    }
  }

  /** The value of a string of decimal digits, read most significant first. */
  function DigitsValue(s: string): nat
    requires AllDigits(s)
    decreases |s|
  {
    if |s| == 0 then 0 else DigitsValue(s[..|s| - 1]) * 10 + DigitValue(s[|s| - 1])
  }

  lemma {:induction false} NatToStringRoundTrip(n: nat)
    ensures DigitsValue(NatToString(n)) == n
    decreases n
  {
    var s := NatToString(n);
    if n < 10 {
      DigitRoundTrip(n);
      assert s[..0] == [];
    } else {
      NatToStringRoundTrip(n / 10);
      assert s[..|s| - 1] == NatToString(n / 10);
      DigitRoundTrip(n % 10);
    }
  }

  /** A sign Python's `int()` accepts in front of the digits. */
  predicate IsSign(c: char)
  {
    c == '+' || c == '-'
  }

  /** The text `int()` accepts: an optional sign, then a non-empty run of
      ASCII digits. */
  predicate IsNumeral(s: string)
  {
    if |s| > 0 && IsSign(s[0]) then |s| > 1 && AllDigits(s[1..]) else |s| > 0 && AllDigits(s)
  }

  /** `int(field)`: an optional `+` or `-` then decimal digits; on any other
      text Python raises. */
  function ParseInt(s: string): (r: Result<int>)
    ensures r.Ok? <==> IsNumeral(s)
    ensures r.Err? ==> r == Err(NotAnInteger(s))
    ensures r.Ok? && !IsSign(s[0]) ==> r == Ok(DigitsValue(s))
    ensures r.Ok? && s[0] == '+' ==> r == Ok(DigitsValue(s[1..]))
    ensures r.Ok? && s[0] == '-' ==> r == Ok(-(DigitsValue(s[1..]) as int))
  {
    if |s| > 1 && IsSign(s[0]) && AllDigits(s[1..]) then
      if s[0] == '-' then Ok(-(DigitsValue(s[1..]) as int)) else Ok(DigitsValue(s[1..]))
    else if |s| > 0 && !IsSign(s[0]) && AllDigits(s) then Ok(DigitsValue(s))
    else Err(NotAnInteger(s))
  }

  /** A field that starts with a digit carries no sign, so it reads as a
      natural number. */
  lemma ParseIntUnsigned(s: string)
    requires StartsWithDigit(s) && ParseInt(s).Ok?
    ensures ParseInt(s).value >= 0 && AllDigits(s)
  {
  }

  /** A sign in front of a run of digits: `-` negates the value, `+` keeps it. */
  lemma ParseIntSigned(d: string)
    requires |d| > 0 && AllDigits(d)
    ensures ParseInt("-" + d) == Ok(-(DigitsValue(d) as int))
    ensures ParseInt("+" + d) == Ok(DigitsValue(d))
  {
    assert ("-" + d)[1..] == d;
    assert ("+" + d)[1..] == d;
  }

  /** An unsigned run of digits reads as its decimal value. */
  lemma ParseIntDigits(d: string)
    requires |d| > 0 && AllDigits(d)
    ensures ParseInt(d) == Ok(DigitsValue(d))
  {
    assert !IsSign(d[0]);
  }

  /** Reading back a rendered integer gives the integer, for either sign. */
  lemma ParseIntOfString(n: int)
    ensures ParseInt(IntToString(n)) == Ok(n)
  {
    if n < 0 {
      ParseIntOfNegative(-n);
    } else {
      ParseIntOfNatural(n);
    }
  }

  lemma ParseIntOfNatural(n: nat)
    ensures ParseInt(IntToString(n)) == Ok(n)
  {
    var d := NatToString(n);
    assert IntToString(n) == d;
    NatToStringRoundTrip(n);
    ParseIntDigits(d);
  }

  lemma ParseIntOfNegative(m: int)
    requires m > 0
    ensures ParseInt(IntToString(-m)) == Ok(-m)
  {
    var d := NatToString(m);
    assert IntToString(-m) == "-" + d;
    NatToStringRoundTrip(m);
    ParseIntSigned(d);
  }

  /** A leading `+` does not change the value. */
  lemma ParseIntPlus(n: nat)
    ensures ParseInt("+" + NatToString(n)) == Ok(n)
  {
    NatToStringRoundTrip(n);
    ParseIntSigned(NatToString(n));
  }

  // ---------------------------------------------------------------------
  // Substrings

  /** `sub in s`. */
  predicate Contains(s: string, sub: string)
    decreases |s|
  {
    if |s| < |sub| then false else s[..|sub|] == sub || Contains(s[1..], sub)
  }

  lemma {:induction false} ContainsAt(s: string, sub: string, i: nat)
    requires i + |sub| <= |s| && s[i..i + |sub|] == sub
    ensures Contains(s, sub)
    decreases i
  {
    if i > 0 {
      assert s[1..][i - 1..i - 1 + |sub|] == s[i..i + |sub|];
      ContainsAt(s[1..], sub, i - 1);
    }
  }
}

/** The two Go standard-library routines the import parsers rely on:
    `strings.Split` with a one-character separator and `strconv.Atoi` on a
    64-bit platform, with `strconv.Itoa` as the partner that Atoi inverts. */
module GoStrings {

  /** Number of occurrences of `c` in `s`. */
  function Count(s: string, c: char): (n: nat)
    ensures n <= |s|
    ensures n == 0 <==> c !in s
  {
    if |s| == 0 then 0
    else (if s[0] == c then 1 else 0) + Count(s[1..], c)
  }

  /** `strings.Split(s, string(sep))`: cuts `s` at EVERY occurrence of `sep`;
      the empty string gives one empty part. */
  function Split(s: string, sep: char): (parts: seq<string>)
    ensures |parts| >= 1
    ensures s == "" ==> parts == [""]
    ensures |s| > 0 && s[0] == sep ==> parts[0] == ""
    decreases |s|
  {
    if |s| == 0 then [""]
    else
      var rest := Split(s[1..], sep);
      if s[0] == sep then [""] + rest
      else [[s[0]] + rest[0]] + rest[1..]
  }

  /** `strings.Join(parts, string(sep))`. */
  function Join(parts: seq<string>, sep: char): string
    requires |parts| >= 1
  {
    if |parts| == 1 then parts[0] else parts[0] + [sep] + Join(parts[1..], sep)
  }

  /** Split yields one part more than there are separators, and no part holds one. */
  lemma {:induction false} SplitShape(s: string, sep: char)
    ensures |Split(s, sep)| == Count(s, sep) + 1
    ensures forall i :: 0 <= i < |Split(s, sep)| ==> sep !in Split(s, sep)[i]
    decreases |s|
  {
    if |s| > 0 {
      SplitShape(s[1..], sep);
      var rest := Split(s[1..], sep);
      if s[0] != sep {
        assert Split(s, sep)[0] == [s[0]] + rest[0];
        assert forall i :: 1 <= i < |Split(s, sep)| ==> Split(s, sep)[i] == rest[i];
      } else {
        assert forall i :: 1 <= i < |Split(s, sep)| ==> Split(s, sep)[i] == rest[i - 1];
      }
    }
  }

  /** Joining the parts again gives back the input. */
  lemma {:induction false} JoinSplit(s: string, sep: char)
    ensures Join(Split(s, sep), sep) == s
    decreases |s|
  {
    if |s| > 0 {
      JoinSplit(s[1..], sep);
      var rest := Split(s[1..], sep);
      if s[0] == sep {
        assert Split(s, sep)[1..] == rest;
        assert s == [s[0]] + s[1..];
      } else {
        var parts := Split(s, sep);
        assert parts[1..] == rest[1..];
        if |rest| == 1 {
          assert s == [s[0]] + s[1..];
        } else {
          assert Join(rest, sep) == rest[0] + [sep] + Join(rest[1..], sep);
          assert s == [s[0]] + s[1..];
        }
      }
    }
  }

  /** A separator-free prefix only extends the first part. */
  lemma {:induction false} SplitFreePrefix(p: string, t: string, sep: char)
    requires sep !in p
    ensures Split(p + t, sep) == [p + Split(t, sep)[0]] + Split(t, sep)[1..]
    decreases |p|
  {
    if |p| == 0 {
      assert p + t == t;
      assert p + Split(t, sep)[0] == Split(t, sep)[0];
      assert [Split(t, sep)[0]] + Split(t, sep)[1..] == Split(t, sep);
    } else {
      assert (p + t)[1..] == p[1..] + t;
      SplitFreePrefix(p[1..], t, sep);
      assert [p[0]] + (p[1..] + Split(t, sep)[0]) == p + Split(t, sep)[0];
    }
  }

  /** Splitting `p + sep + t` with `p` free of separators gives `p` and then the parts of `t`. */
  lemma SplitAtFirst(p: string, t: string, sep: char)
    requires sep !in p
    ensures Split(p + [sep] + t, sep) == [p] + Split(t, sep)
    ensures sep !in t ==> Split(p + [sep] + t, sep) == [p, t]
  {
    assert p + [sep] + t == p + ([sep] + t);
    SplitFreePrefix(p, [sep] + t, sep);
    assert ([sep] + t)[1..] == t;
    assert Split([sep] + t, sep) == [""] + Split(t, sep);
    assert p + "" == p;
    if sep !in t {
      SplitFreePrefix(t, "", sep);
      assert t + "" == t;
    }
  }

  predicate IsDigit(c: char) { '0' <= c <= '9' }

  predicate AllDigits(s: string) { forall i :: 0 <= i < |s| ==> IsDigit(s[i]) }

  /** The value of a string of decimal digits, most significant first. */
  function DigitsValue(s: string): nat
    requires AllDigits(s)
  {
    if |s| == 0 then 0 else DigitsValue(s[..|s| - 1]) * 10 + (s[|s| - 1] as int - '0' as int)
  }

  const MIN_INT64: int := -0x8000_0000_0000_0000
  const MAX_INT64: int := 0x7FFF_FFFF_FFFF_FFFF

  /** The outcome of `strconv.Atoi`: the number, or a `*NumError` of one of its two kinds. */
  datatype AtoiResult = Parsed(n: int) | SyntaxError | RangeError

  /** `strconv.Atoi` with 64-bit `int`: an optional `+` or `-`, then one or more
      ASCII decimal digits (leading zeros allowed); a value outside the 64-bit
      range is a range error. */
  function Atoi(s: string): (r: AtoiResult)
    ensures r.Parsed? ==> MIN_INT64 <= r.n <= MAX_INT64
    ensures r.Parsed? ==> |s| >= 1
  {
    var signed := |s| > 0 && (s[0] == '+' || s[0] == '-');
    var digits := if signed then s[1..] else s;
    if |digits| == 0 || !AllDigits(digits) then SyntaxError
    else
      var n: int := if signed && s[0] == '-' then -(DigitsValue(digits) as int) else DigitsValue(digits);
      if MIN_INT64 <= n <= MAX_INT64 then Parsed(n) else RangeError
  }

  /** The message of `strconv.ErrSyntax` or `strconv.ErrRange`. */
  function NumErrorReason(e: AtoiResult): string
    requires !e.Parsed?
  {
    if e.SyntaxError? then "invalid syntax" else "value out of range"
  }

  /** The text `strconv` gives a `*NumError` from Atoi. */
  function AtoiErrorText(s: string, e: AtoiResult): (text: string)
    requires !e.Parsed?
    ensures |text| > 23 + |s|
    ensures text[..23] == "strconv.Atoi: parsing \"" && text[23..23 + |s|] == s
    ensures text[23 + |s|..] == "\": " + NumErrorReason(e)
  {
    var prefix := "strconv.Atoi: parsing \"";
    var suffix := "\": " + NumErrorReason(e);
    var text := prefix + s + suffix;
    assert text[..23] == prefix && text[23..23 + |s|] == s && text[23 + |s|..] == suffix;
    text
  }

  function DigitChar(d: nat): (c: char)
    requires d < 10
    ensures IsDigit(c) && c as int - '0' as int == d
  {
    ('0' as int + d) as char
  }

  /** The decimal digits of a natural number, without leading zeros. */
  function NatDigits(n: nat): (s: string)
    ensures |s| >= 1 && AllDigits(s)
  {
    if n < 10 then [DigitChar(n)] else NatDigits(n / 10) + [DigitChar(n % 10)]
  }

  /** `strconv.Itoa`: decimal digits with a leading `-` for negative numbers. */
  function Itoa(n: int): (s: string)
    ensures |s| >= 1
  {
    if n < 0 then "-" + NatDigits(-n) else NatDigits(n)
  }

  lemma {:induction false} NatDigitsValue(n: nat)
    ensures DigitsValue(NatDigits(n)) == n
  {
    if n >= 10 {
      NatDigitsValue(n / 10);
      var s := NatDigits(n);
      assert s[..|s| - 1] == NatDigits(n / 10);
    }
  }

  /** Atoi inverts Itoa on the whole 64-bit range. */
  lemma AtoiItoa(n: int)
    requires MIN_INT64 <= n <= MAX_INT64
    ensures Atoi(Itoa(n)) == Parsed(n)
  {
    var s := Itoa(n);
    if n < 0 {
      var d := NatDigits(-n);
      NatDigitsValue(-n);
      assert s[0] == '-' && s[1..] == d;
      assert Atoi(s) == Parsed(-(DigitsValue(d) as int));
    } else {
      NatDigitsValue(n);
      assert IsDigit(s[0]);
      assert Atoi(s) == Parsed(DigitsValue(s));
    }
  }

  /** Itoa never produces the separator used in import identifiers. */
  lemma ItoaHasNoColon(n: int)
    ensures ':' !in Itoa(n)
  {
    var s := Itoa(n);
    if n < 0 {
      assert forall i :: 1 <= i < |s| ==> s[i] == NatDigits(-n)[i - 1];
    }
    assert forall i :: 0 <= i < |s| ==> s[i] != ':';
  }
}

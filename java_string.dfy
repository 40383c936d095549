/**
 * The parts of `java.lang.String` and `java.lang.Integer` the address parse and the
 * tags depend on: `indexOf`, `split` with a one-character separator, `Integer.parseInt`,
 * `Integer.toString`, and the text `"null"` that concatenation gives a null reference.
 */
module JavaString {
  import opened Wrappers
  import opened JavaLong

  /** `"" + s` for a reference that may be null. */
  function ValueOf(s: Option<string>): (r: string)
    ensures s.Some? ==> r == s.value
    ensures s.None? ==> r == "null"
  {
    match s
    case None => "null"
    case Some(v) => v
  }

  /** `s.indexOf(c)` when `c` occurs: the first position holding `c`. */
  function IndexOf(s: string, c: char): (i: nat)
    requires c in s
    ensures i < |s| && s[i] == c && c !in s[..i]
  {
    if s[0] == c then 0
    else
      var j := IndexOf(s[1..], c);
      assert s[..j + 1] == [s[0]] + s[1..][..j];
      j + 1
  }

  /** In `a`, the separator, then `b`, with no separator in `a`, the first separator follows `a`. */
  lemma IndexOfAfterPrefix(a: string, c: char, b: string)
    requires c !in a
    ensures c in a + [c] + b && IndexOf(a + [c] + b, c) == |a|
  {
    var s := a + [c] + b;
    assert s[|a|] == c;
    assert s[..|a|] == a;
  }

  /**
   * Every piece of `s` between separators, empty pieces included, one more piece
   * than there are separators. This is the list `split` starts from.
   */
  function Fields(s: string, sep: char): (r: seq<string>)
    ensures |r| >= 1
    ensures forall i :: 0 <= i < |r| ==> sep !in r[i]
  {
    if s == [] then [""]
    else
      var rest := Fields(s[1..], sep);
      if s[0] == sep then [""] + rest else [[s[0]] + rest[0]] + rest[1..]
  }

  /** The pieces put back together with the separator between them. */
  function Join(parts: seq<string>, sep: char): string
    requires |parts| >= 1
  {
    if |parts| == 1 then parts[0] else parts[0] + [sep] + Join(parts[1..], sep)
  }

  /** The trailing empty strings that `split` with limit 0 discards. */
  function DropTrailingEmpty(p: seq<string>): (r: seq<string>)
    ensures |r| <= |p| && r == p[..|r|]
    ensures r == [] || r[|r| - 1] != ""
    ensures forall i :: |r| <= i < |p| ==> p[i] == ""
  {
    if p != [] && p[|p| - 1] == "" then DropTrailingEmpty(p[..|p| - 1]) else p
  }

  /**
   * `s.split(sep)` for a separator that is not a regular-expression metacharacter:
   * a string without the separator gives itself, otherwise its pieces with the
   * trailing empty ones removed.
   */
  function Split(s: string, sep: char): (r: seq<string>)
    ensures |r| <= |Fields(s, sep)| && r == Fields(s, sep)[..|r|]
    ensures forall i :: |r| <= i < |Fields(s, sep)| ==> Fields(s, sep)[i] == ""
    ensures s == "" ==> r == [""]
    ensures s != "" ==> r == [] || r[|r| - 1] != ""
  {
    if sep !in s then FieldsWithoutSep(s, sep); [s] else DropTrailingEmpty(Fields(s, sep))
  }

  /** The limit-0 edge cases: the empty string, a lone separator, a trailing separator. */
  lemma SplitEdgeCases()
    ensures Split("", ':') == [""]
    ensures Split(":", ':') == []
    ensures Split("a:", ':') == ["a"]
  {
    assert ":" == "" + [':'] + "";
    FieldsAfterPrefix("", "", ':');
    assert "a:" == "a" + [':'] + "";
    FieldsAfterPrefix("a", "", ':');
  }

  /** A daemon address splits into its host and its port. */
  lemma SplitAddressExample()
    ensures Split("localhost:8125", ':') == ["localhost", "8125"]
  {
    assert "localhost:8125" == "localhost" + [':'] + "8125";
    FieldsAfterPrefix("localhost", "8125", ':');
    FieldsWithoutSep("8125", ':');
  }

  /** Splitting and joining are inverse: the pieces rebuild the string. */
  lemma {:induction false} JoinFields(s: string, sep: char)
    ensures Join(Fields(s, sep), sep) == s
  {
    if s != [] {
      var rest := Fields(s[1..], sep);
      JoinFields(s[1..], sep);
      if s[0] == sep {
        assert Fields(s, sep) == [""] + rest;
        assert Join(Fields(s, sep), sep) == "" + [sep] + Join(rest, sep);
      } else {
        JoinPrepend([s[0]], rest, sep);
      }
    }
  }

  lemma JoinPrepend(x: string, parts: seq<string>, sep: char)
    requires |parts| >= 1
    ensures Join([x + parts[0]] + parts[1..], sep) == x + Join(parts, sep)
  {
  }

  /** A string without the separator is a single piece. */
  lemma {:induction false} FieldsWithoutSep(s: string, sep: char)
    requires sep !in s
    ensures Fields(s, sep) == [s]
  {
    if s != [] {
      assert sep !in s[1..];
      FieldsWithoutSep(s[1..], sep);
      assert [s[0]] + s[1..] == s;
    }
  }

  /** The text before the first separator is the first piece; the rest splits on its own. */
  lemma {:induction false} FieldsAfterPrefix(a: string, b: string, sep: char)
    requires sep !in a
    ensures Fields(a + [sep] + b, sep) == [a] + Fields(b, sep)
  {
    var s := a + [sep] + b;
    if a == [] {
      assert s[1..] == b;
    } else {
      assert s[1..] == a[1..] + [sep] + b && s[0] == a[0] != sep;
      FieldsAfterPrefix(a[1..], b, sep);
      assert [a[0]] + a[1..] == a;
    }
  }

  /** Joining pieces without separators and splitting again gives the same pieces. */
  lemma {:induction false} FieldsJoin(parts: seq<string>, sep: char)
    requires |parts| >= 1
    requires forall i :: 0 <= i < |parts| ==> sep !in parts[i]
    ensures Fields(Join(parts, sep), sep) == parts
  {
    if |parts| == 1 {
      FieldsWithoutSep(parts[0], sep);
    } else {
      FieldsJoin(parts[1..], sep);
      FieldsAfterPrefix(parts[0], Join(parts[1..], sep), sep);
    }
  }

  /** Where the first separator is, the pieces are the text before it and the pieces after it. */
  lemma FieldsAtFirstSep(s: string, sep: char)
    requires sep in s
    ensures var i := IndexOf(s, sep);
      Fields(s, sep) == [s[..i]] + Fields(s[i + 1..], sep)
  {
    var i := IndexOf(s, sep);
    assert s == s[..i] + [sep] + s[i + 1..];
    FieldsAfterPrefix(s[..i], s[i + 1..], sep);
  }

  /** `split` keeps every piece up to the last non-empty one, unchanged. */
  lemma SplitKeepsNonEmpty(s: string, sep: char, k: nat)
    requires k < |Fields(s, sep)| && Fields(s, sep)[k] != ""
    ensures k < |Split(s, sep)| && Split(s, sep)[k] == Fields(s, sep)[k]
  {
  }

  predicate IsDigit(c: char) { '0' <= c <= '9' }

  predicate AllDigits(s: string) { forall i :: 0 <= i < |s| ==> IsDigit(s[i]) }

  function DigitValue(c: char): nat
    requires IsDigit(c)
  {
    (c as int) - ('0' as int)
  }

  /** The value of a decimal numeral, accumulated left to right as `parseInt` does. */
  function DigitsValue(s: string): nat
    requires AllDigits(s)
  {
    if s == [] then 0 else 10 * DigitsValue(s[..|s| - 1]) + DigitValue(s[|s| - 1])
  }

  /**
   * `Integer.parseInt(s)`: an optional `-` or `+`, then at least one decimal digit,
   * and a value inside the `int` range; `None` wherever Java throws
   * `NumberFormatException`.
   */
  function ParseInt(s: string): (r: Option<int>)
    ensures r.Some? ==> IsInt(r.value)
    ensures r.Some? ==> s != [] && s != "-" && s != "+"
  {
    if s == [] then None
    else
      var signed := s[0] == '-' || s[0] == '+';
      var digits := if signed then s[1..] else s;
      if digits == [] || !AllDigits(digits) then None
      else
        var magnitude: int := DigitsValue(digits);
        var v := if s[0] == '-' then -magnitude else magnitude;
        if IsInt(v) then Some(v) else None
  }

  function Digit(d: nat): (c: char)
    requires d < 10
    ensures IsDigit(c) && DigitValue(c) == d
  {
    ('0' as int + d) as char
  }

  /** `Integer.toString(n)` for a non-negative `n`: no sign, no leading zeros. */
  function NatDecimal(n: nat): (s: string)
    ensures s != [] && AllDigits(s)
  {
    if n < 10 then [Digit(n)] else NatDecimal(n / 10) + [Digit(n % 10)]
  }

  /** `Integer.toString(n)`. */
  function Decimal(n: int): (s: string)
    ensures s != []
  {
    if n < 0 then "-" + NatDecimal(-n) else NatDecimal(n)
  }

  /** Reading back the numeral of `n` gives `n`. */
  lemma {:induction false} DigitsValueOfNatDecimal(n: nat)
    ensures DigitsValue(NatDecimal(n)) == n
  {
    if n >= 10 {
      var s := NatDecimal(n);
      assert s[..|s| - 1] == NatDecimal(n / 10);
      DigitsValueOfNatDecimal(n / 10);
    }
  }

  /** `Integer.parseInt(Integer.toString(n)) == n` for every `int`. */
  lemma ParseIntOfDecimal(n: int)
    requires IsInt(n)
    ensures ParseInt(Decimal(n)) == Some(n)
  {
    if n < 0 {
      assert Decimal(n)[1..] == NatDecimal(-n);
      DigitsValueOfNatDecimal(-n);
    } else {
      DigitsValueOfNatDecimal(n);
      assert NatDecimal(n)[0] != '-' && NatDecimal(n)[0] != '+';
    }
  }

  /** A numeral never holds a colon, so it is one piece of a `host:port` string. */
  lemma NoColonInDecimal(n: int)
    ensures ':' !in Decimal(n)
  {
  }

  /**
   * On a numeral, an optional sign then at least one digit, `parseInt` gives exactly
   * its value when that value is an `int`, and throws when it is out of range.
   */
  lemma ParseIntOfNumeral(sign: string, d: string)
    requires sign == "" || sign == "+" || sign == "-"
    requires d != [] && AllDigits(d)
    ensures var v := if sign == "-" then -(DigitsValue(d) as int) else DigitsValue(d) as int;
      ParseInt(sign + d) == if IsInt(v) then Some(v) else None
  {
    var s := sign + d;
    if sign == "" {
      assert s == d;
    } else {
      assert s[0] == sign[0] && s[1..] == d;
    }
  }

  /** Appending a digit shifts the value one decimal place. */
  lemma DigitsValueAppend(d: string, c: char)
    requires AllDigits(d) && IsDigit(c)
    ensures AllDigits(d + [c]) && DigitsValue(d + [c]) == 10 * DigitsValue(d) + DigitValue(c)
  {
    assert (d + [c])[..|d|] == d;
  }

  lemma Value8125()
    ensures AllDigits("8125") && DigitsValue("8125") == 8125
    ensures AllDigits("08125") && DigitsValue("08125") == 8125
  {
    DigitsValueAppend("", '8');
    assert "8" == "" + ['8'];
    DigitsValueAppend("8", '1');
    assert "81" == "8" + ['1'];
    DigitsValueAppend("81", '2');
    assert "812" == "81" + ['2'];
    DigitsValueAppend("812", '5');
    assert "8125" == "812" + ['5'];
    DigitsValueAppend("", '0');
    assert "0" == "" + ['0'];
    DigitsValueAppend("0", '8');
    assert "08" == "0" + ['8'];
    DigitsValueAppend("08", '1');
    assert "081" == "08" + ['1'];
    DigitsValueAppend("081", '2');
    assert "0812" == "081" + ['2'];
    DigitsValueAppend("0812", '5');
    assert "08125" == "0812" + ['5'];
  }

  /** Forms `parseInt` accepts beyond `Integer.toString`: a plus sign, leading zeros, minus zero. */
  lemma ParseIntExamples()
    ensures ParseInt("+8125") == Some(8125)
    ensures ParseInt("08125") == Some(8125)
    ensures ParseInt("-0") == Some(0)
  {
    Value8125();
    ParseIntOfNumeral("+", "8125");
    assert "+" + "8125" == "+8125";
    ParseIntOfNumeral("", "08125");
    assert "" + "08125" == "08125";
    ParseIntOfNumeral("-", "0");
    assert "-" + "0" == "-0";
  }

  lemma Value2147483648()
    ensures AllDigits("2147483648") && DigitsValue("2147483648") == 2147483648
  {
    DigitsValueAppend("", '2');
    assert "2" == "" + ['2'];
    DigitsValueAppend("2", '1');
    assert "21" == "2" + ['1'];
    DigitsValueAppend("21", '4');
    assert "214" == "21" + ['4'];
    DigitsValueAppend("214", '7');
    assert "2147" == "214" + ['7'];
    DigitsValueAppend("2147", '4');
    assert "21474" == "2147" + ['4'];
    DigitsValueAppend("21474", '8');
    assert "214748" == "21474" + ['8'];
    DigitsValueAppend("214748", '3');
    assert "2147483" == "214748" + ['3'];
    DigitsValueAppend("2147483", '6');
    assert "21474836" == "2147483" + ['6'];
    DigitsValueAppend("21474836", '4');
    assert "214748364" == "21474836" + ['4'];
    DigitsValueAppend("214748364", '8');
    assert "2147483648" == "214748364" + ['8'];
  }

  /** The `int` range: `-2147483648` is accepted and `2147483648` is refused. */
  lemma ParseIntRangeEnds()
    ensures ParseInt("-2147483648") == Some(IntMin)
    ensures ParseInt("2147483648") == None
  {
    Value2147483648();
    ParseIntOfNumeral("-", "2147483648");
    var minus := "-" + "2147483648";
    assert |minus| == 11 && forall i | 0 <= i < 11 :: minus[i] == "-2147483648"[i];
    ParseIntOfNumeral("", "2147483648");
    assert "" + "2147483648" == "2147483648";
  }

  /** A character other than a digit after the optional sign makes `parseInt` throw. */
  lemma ParseIntRejectsNonDigit(s: string, k: nat)
    requires k < |s| && !IsDigit(s[k])
    requires k > 0 || (s[0] != '-' && s[0] != '+')
    ensures ParseInt(s) == None
  {
  }
}

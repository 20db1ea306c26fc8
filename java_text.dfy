/** The java.lang string and integer operations the chat program relies on:
    String.startsWith, String.split with a one-space separator,
    Integer.parseInt (radix 10) and Integer.toString. */
module JavaText {

  datatype Option<T> = None | Some(value: T)

  /** The range of a Java int. */
  const MinInt: int := -0x8000_0000
  const MaxInt: int := 0x7fff_ffff

  predicate InInt(n: int) {
    MinInt <= n <= MaxInt
  }

  /** String.startsWith: s is prefix followed by the rest of s. */
  predicate StartsWith(s: string, prefix: string)
  {
    |prefix| <= |s| && s[..|prefix|] == prefix
  }

  /** A string that starts with prefix is prefix followed by the rest of it. */
  lemma StartsWithSplits(s: string, prefix: string)
    requires StartsWith(s, prefix)
    ensures s == prefix + s[|prefix|..]
  {
    assert s == s[..|prefix|] + s[|prefix|..];
  }

  /** Every string starts with what it was built from. */
  lemma StartsWithConcat(prefix: string, rest: string)
    ensures StartsWith(prefix + rest, prefix)
  {
    assert (prefix + rest)[..|prefix|] == prefix;
  }

  /** A string that differs from prefix at some position of both does not start with it. */
  lemma NotPrefixAt(s: string, prefix: string, k: nat)
    requires k < |s| && k < |prefix| && s[k] != prefix[k]
    ensures !StartsWith(s, prefix)
  {
  }

  // ---------------------------------------------------------------------------
  // String.split

  /** All pieces of s between occurrences of sep, in order, empty pieces included. */
  function Fields(s: string, sep: char): (r: seq<string>)
    ensures |r| >= 1
    ensures forall i :: 0 <= i < |r| ==> sep !in r[i]
    decreases |s|
  {
    if s == [] then [""]
    else
      var rest := Fields(s[1..], sep);
      if s[0] == sep then [""] + rest
      else [[s[0]] + rest[0]] + rest[1..]
  }

  /** The pieces put back together, one sep between neighbours. */
  function Join(parts: seq<string>, sep: char): string
    requires |parts| >= 1
  {
    if |parts| == 1 then parts[0] else parts[0] + [sep] + Join(parts[1..], sep)
  }

  /** Cutting a string at sep and joining the pieces again gives the string back. */
  lemma {:induction false} JoinFields(s: string, sep: char)
    ensures Join(Fields(s, sep), sep) == s
  {
    if s != [] {
      var rest := Fields(s[1..], sep);
      JoinFields(s[1..], sep);
      if s[0] == sep {
        assert Fields(s, sep) == [""] + rest;
        assert ([""] + rest)[1..] == rest;
      } else {
        var r := Fields(s, sep);
        assert r == [[s[0]] + rest[0]] + rest[1..];
        if |rest| > 1 {
          assert r[1..] == rest[1..];
          assert Join(rest, sep) == rest[0] + [sep] + Join(rest[1..], sep);
        }
      }
    }
  }

  /** A sep-free prefix x is glued to the first piece of what follows it. */
  lemma {:induction false} FieldsOfSepFreePrefix(x: string, y: string, sep: char)
    requires sep !in x
    ensures Fields(x + y, sep) == [x + Fields(y, sep)[0]] + Fields(y, sep)[1..]
    decreases |x|
  {
    if x == [] {
      var f := Fields(y, sep);
      assert x + y == y && x + f[0] == f[0];
      assert [f[0]] + f[1..] == f;
    } else {
      assert (x + y)[1..] == x[1..] + y;
      FieldsOfSepFreePrefix(x[1..], y, sep);
      assert [x[0]] + (x[1..] + Fields(y, sep)[0]) == x + Fields(y, sep)[0];
    }
  }

  /** Joining sep-free pieces and cutting again gives the pieces back. */
  lemma {:induction false} FieldsJoin(parts: seq<string>, sep: char)
    requires |parts| >= 1
    requires forall i :: 0 <= i < |parts| ==> sep !in parts[i]
    ensures Fields(Join(parts, sep), sep) == parts
  {
    if |parts| == 1 {
      FieldsOfSepFreePrefix(parts[0], "", sep);
      assert parts[0] + "" == parts[0];
    } else {
      var tail := Join(parts[1..], sep);
      FieldsJoin(parts[1..], sep);
      FieldsOfSepFreePrefix(parts[0], [sep] + tail, sep);
      assert parts[0] + [sep] + tail == parts[0] + ([sep] + tail);
      assert ([sep] + tail)[1..] == tail;
      assert Fields([sep] + tail, sep) == [""] + parts[1..];
      assert parts[0] + "" == parts[0];
    }
  }

  /** The pieces with every trailing empty piece removed. */
  function DropTrailingEmpty(parts: seq<string>): (r: seq<string>)
    ensures |r| <= |parts| && r == parts[..|r|]
    ensures forall j :: |r| <= j < |parts| ==> parts[j] == ""
    ensures r == [] || r[|r| - 1] != ""
  {
    if parts == [] || parts[|parts| - 1] != "" then parts
    else DropTrailingEmpty(parts[..|parts| - 1])
  }

  /** s.split(sep) in Java for a separator that is no regular-expression
      metacharacter: a string without sep is its own single piece; otherwise
      the pieces between separators with the trailing empty ones dropped. */
  function Split(s: string, sep: char): (r: seq<string>)
    ensures sep !in s ==> r == [s]
    ensures sep in s ==> |r| <= |Fields(s, sep)| && r == Fields(s, sep)[..|r|]
    ensures sep in s ==> forall j :: |r| <= j < |Fields(s, sep)| ==> Fields(s, sep)[j] == ""
    ensures sep in s ==> r == [] || r[|r| - 1] != ""
  {
    if sep !in s then [s] else DropTrailingEmpty(Fields(s, sep))
  }

  /** parts[1] of command.split(" ") when the split yields more than one piece. */
  function SecondToken(command: string): (r: Option<string>)
    ensures r.Some? ==> ' ' in command && |Fields(command, ' ')| > 1 && r.value == Fields(command, ' ')[1]
    ensures r.Some? ==> ' ' !in r.value
    ensures r.None? && ' ' in command ==> forall j :: 1 <= j < |Fields(command, ' ')| ==> Fields(command, ' ')[j] == ""
  {
    var parts := Split(command, ' ');
    if |parts| > 1 then Some(parts[1]) else None
  }

  /** parts[1] exists only when some piece after the first space is not
      empty; parts[1] itself is the piece right after the first space, and
      it may be empty. */
  lemma SecondTokenNeedsLaterPiece(command: string)
    requires SecondToken(command).Some?
    ensures exists j :: 1 <= j < |Fields(command, ' ')| && Fields(command, ' ')[j] != ""
  {
    var parts := Split(command, ' ');
    assert Fields(command, ' ')[|parts| - 1] == parts[|parts| - 1];
  }

  /** "name arg" with a space-free name and a non-empty space-free arg has arg as its second token. */
  lemma SecondTokenOf(name: string, arg: string)
    requires ' ' !in name && ' ' !in arg && arg != ""
    ensures SecondToken(name + " " + arg) == Some(arg)
  {
    var parts := [name, arg];
    assert Join(parts, ' ') == name + " " + arg by {
      assert parts[1..] == [arg];
    }
    FieldsJoin(parts, ' ');
    assert (name + " " + arg)[|name|] == ' ';
  }

  /** "name" followed by one space and nothing else has no second token. */
  lemma NoSecondTokenAfterTrailingSpace(name: string)
    requires ' ' !in name
    ensures SecondToken(name + " ") == None
  {
    var parts := [name, ""];
    assert Join(parts, ' ') == name + " " by {
      assert parts[1..] == [""];
    }
    FieldsJoin(parts, ' ');
    assert (name + " ")[|name|] == ' ';
  }

  // ---------------------------------------------------------------------------
  // Integer.parseInt and Integer.toString

  predicate IsDigit(c: char) {
    '0' <= c <= '9'
  }

  predicate AllDigits(s: string) {
    forall i :: 0 <= i < |s| ==> IsDigit(s[i])
  }

  function DigitValue(c: char): nat
    requires IsDigit(c)
  {
    (c as int) - ('0' as int)
  }

  function DigitChar(d: nat): (c: char)
    requires d < 10
    ensures IsDigit(c) && DigitValue(c) == d
  {
    ('0' as int + d) as char
  }

  /** The value of a string of decimal digits, most significant first. */
  function DigitsValue(s: string): nat
    requires AllDigits(s)
  {
    if s == [] then 0 else DigitsValue(s[..|s| - 1]) * 10 + DigitValue(s[|s| - 1])
  }

  /** The digits after an optional leading sign. */
  function Magnitude(s: string): string {
    if |s| > 0 && (s[0] == '-' || s[0] == '+') then s[1..] else s
  }

  /** What Integer.parseInt accepts before the range check: an optional sign and at least one digit. */
  predicate Numeral(s: string) {
    Magnitude(s) != [] && AllDigits(Magnitude(s))
  }

  function NumeralValue(s: string): int
    requires Numeral(s)
  {
    if s[0] == '-' then 0 - DigitsValue(Magnitude(s)) else DigitsValue(Magnitude(s))
  }

  /** Integer.parseInt(s): the value of a signed decimal numeral that fits in
      an int; None stands for the NumberFormatException. */
  function ParseInt(s: string): (r: Option<int>)
    ensures r.Some? ==> InInt(r.value)
    ensures r.Some? <==> Numeral(s) && InInt(NumeralValue(s))
    ensures r.Some? ==> r.value == NumeralValue(s)
    ensures s == [] ==> r.None?
  {
    if Numeral(s) && InInt(NumeralValue(s)) then Some(NumeralValue(s)) else None
  }

  /** The decimal digits of n, without leading zeros. */
  function NatToString(n: nat): (r: string)
    ensures r != [] && AllDigits(r)
    ensures DigitsValue(r) == n
    ensures r[0] != '-' && r[0] != '+'
  {
    if n < 10 then [DigitChar(n)]
    else
      var front := NatToString(n / 10);
      var r := front + [DigitChar(n % 10)];
      assert r[..|r| - 1] == front;
      r
  }

  /** Integer.toString(n). */
  function IntToString(n: int): (r: string)
    ensures r != [] && ' ' !in r
  {
    if n < 0 then
      var d := NatToString(-n);
      assert forall i :: 1 <= i < |d| + 1 ==> ("-" + d)[i] == d[i - 1];
      "-" + d
    else NatToString(n)
  }

  /** Integer.parseInt reads back what Integer.toString writes. */
  lemma ParseIntToString(n: int)
    requires InInt(n)
    ensures ParseInt(IntToString(n)) == Some(n)
  {
    var s := IntToString(n);
    if n < 0 {
      assert s[1..] == NatToString(-n);
      assert Magnitude(s) == NatToString(-n);
    } else {
      assert Magnitude(s) == NatToString(n);
    }
  }

  /** "name n", with n an int written in decimal, has that numeral as its
      second token, and the numeral parses back to n. */
  lemma NumberArgument(name: string, n: int)
    requires ' ' !in name && InInt(n)
    ensures StartsWith(name + " " + IntToString(n), name)
    ensures SecondToken(name + " " + IntToString(n)) == Some(IntToString(n))
    ensures ParseInt(IntToString(n)) == Some(n)
  {
    var t := IntToString(n);
    SecondTokenOf(name, t);
    assert name + " " + t == name + (" " + t);
    StartsWithConcat(name, " " + t);
    ParseIntToString(n);
  }
}

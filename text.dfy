/**
 * The pieces of Go's standard string handling that the handlers and the
 * form checks depend on, written out so that their edge cases are part of
 * the model: strconv.Atoi / strconv.Itoa, strings.Split on one separator,
 * strings.TrimSpace, and len() of a string (its UTF-8 byte count).
 */
module Text {
  import opened Models

  predicate IsDigit(c: char) {
    '0' <= c <= '9'
  }

  predicate AllDigits(s: string) {
    forall i :: 0 <= i < |s| ==> IsDigit(s[i])
  }

  /** The number a string of decimal digits denotes (leading zeros allowed). */
  function DigitsValue(s: string): nat
    requires AllDigits(s)
  {
    if s == [] then 0
    else DigitsValue(s[..|s| - 1]) * 10 + (s[|s| - 1] as int - '0' as int)
  }

  /** What follows an optional leading sign. */
  function Unsigned(s: string): string {
    if s != [] && (s[0] == '-' || s[0] == '+') then s[1..] else s
  }

  /** The signed number a sign followed by digits denotes. */
  function Signed(s: string): int
    requires AllDigits(Unsigned(s))
  {
    if s != [] && s[0] == '-' then -(DigitsValue(Unsigned(s)) as int) else DigitsValue(Unsigned(s))
  }

  /** strconv.Atoi: an optional sign, then at least one ASCII digit, with the
      value inside the range of a 64-bit int; anything else is a syntax or
      range error. */
  function Atoi(s: string): (r: Option<int>)
    ensures Unsigned(s) == [] ==> r.None?
    ensures (exists i :: 0 <= i < |Unsigned(s)| && !IsDigit(Unsigned(s)[i])) ==> r.None?
    ensures r.Some? ==> s != [] && AllDigits(Unsigned(s)) && IsInt(r.value)
    ensures r.Some? ==> r.value == Signed(s)
    ensures r.None? && Unsigned(s) != [] && AllDigits(Unsigned(s)) ==> !IsInt(Signed(s))
    ensures r.Some? ==> IsDigit(s[|s| - 1])
  {
    var digits := Unsigned(s);
    if |digits| == 0 || !AllDigits(digits) then None
    else
      var n := Signed(s);
      if IsInt(n) then Some(n) else None
  }

  function DigitChar(d: nat): (c: char)
    requires d < 10
    ensures IsDigit(c) && c as int - '0' as int == d
  {
    ('0' as int + d) as char
  }

  /** The shortest decimal form of a natural number. */
  function NatDigits(n: nat): (s: string)
    ensures |s| >= 1 && AllDigits(s)
    ensures |s| > 1 ==> s[0] != '0'
    decreases n
  {
    if n < 10 then [DigitChar(n)] else NatDigits(n / 10) + [DigitChar(n % 10)]
  }

  /** strconv.Itoa: a minus sign for negative numbers, then the digits. */
  function Itoa(n: int): (s: string)
    ensures |s| >= 1
    ensures s[0] == '-' <==> n < 0
  {
    if n < 0 then "-" + NatDigits(-n) else NatDigits(n)
  }

  lemma {:induction false} NatDigitsValue(n: nat)
    ensures DigitsValue(NatDigits(n)) == n
    decreases n
  {
    if n >= 10 {
      NatDigitsValue(n / 10);
      var s := NatDigits(n);
      assert s[..|s| - 1] == NatDigits(n / 10);
    }
  }

  /** Parsing what Itoa printed gives the number back. */
  lemma AtoiItoa(n: int)
    requires IsInt(n)
    ensures Atoi(Itoa(n)) == Some(n)
  {
    var s := Itoa(n);
    if n < 0 {
      var digits := NatDigits(-n);
      NatDigitsValue(-n);
      assert s == "-" + digits;
      assert s[0] == '-' && s[1..] == digits;
      assert DigitsValue(digits) == -n;
    } else {
      var digits := NatDigits(n);
      NatDigitsValue(n);
      assert s == digits;
      assert IsDigit(s[0]);
      assert DigitsValue(digits) == n;
    }
  }

  /** The form Itoa prints: no plus sign, no leading zero, no "-0". */
  predicate Canonical(s: string) {
    && s != [] && s[0] != '+' && Unsigned(s) != []
    && (|Unsigned(s)| > 1 ==> Unsigned(s)[0] != '0')
    && (s[0] == '-' ==> Unsigned(s) != "0")
  }

  /** Digits that do not start with 0 denote a positive number. */
  lemma {:induction false} DigitsPositive(u: string)
    requires AllDigits(u) && u != [] && u[0] != '0'
    ensures DigitsValue(u) >= 1
    decreases |u|
  {
    if |u| > 1 {
      var init := u[..|u| - 1];
      assert init[0] == u[0];
      DigitsPositive(init);
    }
  }

  /** Printing the value of digits without a leading zero gives them back. */
  lemma {:induction false} NatDigitsOfValue(u: string)
    requires AllDigits(u) && u != [] && (|u| > 1 ==> u[0] != '0')
    ensures NatDigits(DigitsValue(u)) == u
    decreases |u|
  {
    var n := DigitsValue(u);
    var c := u[|u| - 1] as int - '0' as int;
    if |u| == 1 {
      assert u[..0] == [];
      assert n == c;
      assert DigitChar(c) == u[0];
    } else {
      var init := u[..|u| - 1];
      assert init[0] == u[0];
      DigitsPositive(init);
      NatDigitsOfValue(init);
      assert n / 10 == DigitsValue(init) && n % 10 == c;
      assert DigitChar(c) == u[|u| - 1];
      assert u == init + [u[|u| - 1]];
    }
  }

  /** Printing what Atoi parsed from a string in Itoa's form gives the
      string back. */
  lemma ItoaAtoi(s: string)
    requires Canonical(s) && Atoi(s).Some?
    ensures Itoa(Atoi(s).value) == s
  {
    var u := Unsigned(s);
    if s[0] == '-' {
      assert u[0] != '0' by {
        assert u != "0";
      }
      DigitsPositive(u);
      NatDigitsOfValue(u);
      assert s == "-" + u;
    } else {
      assert u == s;
      NatDigitsOfValue(u);
    }
  }

  /** Distinct ints print differently, so keys built from them do not clash. */
  lemma ItoaInjective(a: int, b: int)
    requires IsInt(a) && IsInt(b)
    ensures Itoa(a) == Itoa(b) ==> a == b
  {
    AtoiItoa(a);
    AtoiItoa(b);
  }

  /** strings.Split(s, string(sep)): the pieces between separators, at least one. */
  function Split(s: string, sep: char): (parts: seq<string>)
    ensures |parts| >= 1
    ensures forall i, j :: 0 <= i < |parts| && 0 <= j < |parts[i]| ==> parts[i][j] != sep
    decreases |s|
  {
    if s == [] then [""]
    else
      var rest := Split(s[1..], sep);
      if s[0] == sep then [""] + rest else [[s[0]] + rest[0]] + rest[1..]
  }

  /** A string without the separator is a single piece. */
  lemma {:induction false} SplitNone(a: string, sep: char)
    requires sep !in a
    ensures Split(a, sep) == [a]
    decreases |a|
  {
    if a != [] {
      SplitNone(a[1..], sep);
      assert [a[0]] + a[1..] == a;
    }
  }

  /** The separator ends the first piece, and the rest splits on its own. */
  lemma {:induction false} SplitAt(a: string, b: string, sep: char)
    requires sep !in a
    ensures Split(a + [sep] + b, sep) == [a] + Split(b, sep)
    decreases |a|
  {
    if a == [] {
      assert a + [sep] + b == [sep] + b;
      assert ([sep] + b)[1..] == b;
    } else {
      assert (a + [sep] + b)[1..] == a[1..] + [sep] + b;
      SplitAt(a[1..], b, sep);
      assert [a[0]] + a[1..] == a;
    }
  }

  function Join(parts: seq<string>, sep: char): string
    requires |parts| >= 1
  {
    if |parts| == 1 then parts[0] else parts[0] + [sep] + Join(parts[1..], sep)
  }

  /** Split loses nothing: joining the pieces gives the string back. */
  lemma {:induction false} JoinSplit(s: string, sep: char)
    ensures Join(Split(s, sep), sep) == s
    decreases |s|
  {
    if s != [] {
      var rest := Split(s[1..], sep);
      JoinSplit(s[1..], sep);
      if s[0] != sep && |rest| > 1 {
        var parts := Split(s, sep);
        assert parts[1..] == rest[1..];
        assert Join(rest, sep) == rest[0] + [sep] + Join(rest[1..], sep);
      }
    }
  }

  /** unicode.IsSpace: the White_Space property of Unicode. */
  predicate IsSpace(c: char) {
    var x := c as int;
    (0x09 <= x <= 0x0d) || x == 0x20 || x == 0x85 || x == 0xa0 || x == 0x1680
    || (0x2000 <= x <= 0x200a) || x == 0x2028 || x == 0x2029 || x == 0x202f
    || x == 0x205f || x == 0x3000
  }

  function TrimLeft(s: string): (r: string)
    ensures |r| <= |s| && r == s[|s| - |r|..]
    ensures r != [] ==> !IsSpace(r[0])
  {
    if s != [] && IsSpace(s[0]) then TrimLeft(s[1..]) else s
  }

  function TrimRight(s: string): (r: string)
    ensures |r| <= |s| && r == s[..|r|]
  {
    if s != [] && IsSpace(s[|s| - 1]) then TrimRight(s[..|s| - 1]) else s
  }

  /** strings.TrimSpace: drop leading and trailing white space. */
  function TrimSpace(s: string): string {
    TrimRight(TrimLeft(s))
  }

  predicate AllSpace(s: string) {
    forall i :: 0 <= i < |s| ==> IsSpace(s[i])
  }

  lemma {:induction false} TrimLeftEmpty(s: string)
    ensures TrimLeft(s) == [] <==> AllSpace(s)
    decreases |s|
  {
    if s != [] && IsSpace(s[0]) {
      TrimLeftEmpty(s[1..]);
      assert AllSpace(s[1..]) ==> AllSpace(s) by {
        if AllSpace(s[1..]) {
          forall i | 0 <= i < |s| ensures IsSpace(s[i]) {
            if i > 0 { assert s[i] == s[1..][i - 1]; }
          }
        }
      }
    }
  }

  lemma {:induction false} TrimRightKeepsNonSpace(s: string)
    requires s != [] && !AllSpace(s)
    ensures TrimRight(s) != []
    decreases |s|
  {
    if IsSpace(s[|s| - 1]) {
      var t := s[..|s| - 1];
      assert !AllSpace(t) by {
        var i :| 0 <= i < |s| && !IsSpace(s[i]);
        assert i < |s| - 1 && t[i] == s[i];
      }
      TrimRightKeepsNonSpace(t);
    }
  }

  /** A value trims to the empty string exactly when it is all white space. */
  lemma TrimSpaceEmpty(s: string)
    ensures TrimSpace(s) == [] <==> AllSpace(s)
  {
    TrimLeftEmpty(s);
    var l := TrimLeft(s);
    if !AllSpace(s) {
      assert l != [];
      assert !AllSpace(l) by {
        assert !IsSpace(l[0]);
      }
      TrimRightKeepsNonSpace(l);
    }
  }

  /** The number of bytes the UTF-8 encoding of one character takes. */
  function Utf8Width(c: char): (w: nat)
    ensures 1 <= w <= 4
  {
    if c as int < 0x80 then 1
    else if c as int < 0x800 then 2
    else if c as int < 0x10000 then 3
    else 4
  }

  /** len(s) in Go: the UTF-8 byte count of the string. */
  function ByteLength(s: string): (n: nat)
    ensures |s| <= n <= 4 * |s|
  {
    if s == [] then 0 else ByteLength(s[..|s| - 1]) + Utf8Width(s[|s| - 1])
  }
}

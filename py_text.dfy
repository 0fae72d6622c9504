/**
 * The pieces of Python's `str` the form normalisers and the notification
 * listener rely on: `strip()`, the ASCII part of `lower()`, `split(sep)`,
 * `int(text, base)` for bases 10 and 16, and `str(int)`.
 */
module PyText {
  import opened Wrappers

  /** `str.isspace()` for one character: the ASCII whitespace, the
    * separators 0x1C..0x1F, and the Unicode spaces Python counts. */
  predicate IsSpace(c: char)
  {
    var n := c as int;
    n == 0x20 || 0x09 <= n <= 0x0D || 0x1C <= n <= 0x1F || n == 0x85 || n == 0xA0 ||
    n == 0x1680 || 0x2000 <= n <= 0x200A || n == 0x2028 || n == 0x2029 ||
    n == 0x202F || n == 0x205F || n == 0x3000
  }

  /** `str.lstrip()`: the suffix left once the leading whitespace is gone. */
  function LStrip(s: string): (r: string)
    ensures |r| <= |s|
  {
    if s != [] && IsSpace(s[0]) then LStrip(s[1..]) else s
  }

  /** `str.rstrip()`: the prefix left once the trailing whitespace is gone. */
  function RStrip(s: string): (r: string)
    ensures |r| <= |s|
  {
    if s != [] && IsSpace(s[|s| - 1]) then RStrip(s[..|s| - 1]) else s
  }

  /** `str.strip()`. */
  function Strip(s: string): string
  {
    RStrip(LStrip(s))
  }

  /** lstrip removes a run of leading whitespace, and only that: what is left
    * is the rest of the text and does not start with whitespace. */
  lemma {:induction false} LStripMeaning(s: string)
    ensures var r := LStrip(s);
      r == s[|s| - |r|..] && (r == [] || !IsSpace(r[0])) &&
      (forall j :: 0 <= j < |s| - |r| ==> IsSpace(s[j]))
  {
    if s != [] && IsSpace(s[0]) {
      LStripMeaning(s[1..]);
    }
  }

  /** rstrip removes a run of trailing whitespace, and only that: what is
    * left is the start of the text and does not end with whitespace. */
  lemma {:induction false} RStripMeaning(s: string)
    ensures var r := RStrip(s);
      r == s[..|r|] && (r == [] || !IsSpace(r[|r| - 1])) &&
      (forall j :: |r| <= j < |s| ==> IsSpace(s[j]))
  {
    if s != [] && IsSpace(s[|s| - 1]) {
      RStripMeaning(s[..|s| - 1]);
    }
  }

  /** Stripping keeps the contiguous middle part of the text that starts
    * where the leading whitespace ends, and removes only whitespace around
    * it. */
  lemma StripMeaning(s: string)
    ensures var i := |s| - |LStrip(s)|; var r := Strip(s);
      i + |r| <= |s| && r == s[i..i + |r|] &&
      (forall j :: 0 <= j < i ==> IsSpace(s[j])) &&
      (forall j :: i + |r| <= j < |s| ==> IsSpace(s[j]))
  {
    var l := LStrip(s);
    LStripMeaning(s);
    RStripMeaning(l);
    TrimmedSlice(s, l, RStrip(l));
  }

  /** The stripped text neither starts nor ends with whitespace. */
  lemma StripEnds(s: string)
    ensures Strip(s) == [] || (!IsSpace(Strip(s)[0]) && !IsSpace(Strip(s)[|Strip(s)| - 1]))
  {
    var l := LStrip(s);
    LStripMeaning(s);
    RStripMeaning(l);
    var r := RStrip(l);
    if r != [] {
      assert r[0] == l[0];
    }
  }

  /** A prefix r of a suffix l of s, with whitespace only around them, is
    * the slice of s between that whitespace. */
  lemma TrimmedSlice(s: string, l: string, r: string)
    requires |l| <= |s| && l == s[|s| - |l|..] && (forall j :: 0 <= j < |s| - |l| ==> IsSpace(s[j]))
    requires |r| <= |l| && r == l[..|r|] && (forall j :: |r| <= j < |l| ==> IsSpace(l[j]))
    ensures var i := |s| - |l|;
      i + |r| <= |s| && r == s[i..i + |r|] &&
      (forall j :: 0 <= j < i ==> IsSpace(s[j])) &&
      (forall j :: i + |r| <= j < |s| ==> IsSpace(s[j]))
  {
    var i := |s| - |l|;
    forall j | i + |r| <= j < |s|
      ensures IsSpace(s[j])
    {
      assert s[j] == l[j - i];
    }
  }

  /** Text that neither starts nor ends with whitespace is its own strip. */
  lemma StripUnspaced(s: string)
    requires s == [] || (!IsSpace(s[0]) && !IsSpace(s[|s| - 1]))
    ensures Strip(s) == s
  {
  }

  /** Stripping twice is stripping once. */
  lemma StripIdempotent(s: string)
    ensures Strip(Strip(s)) == Strip(s)
  {
    StripEnds(s);
    StripUnspaced(Strip(s));
  }

  /** `str.lower()` on ASCII letters.  No other character lowers to a letter
    * of the words the normalisers compare with (only the Kelvin sign lowers
    * to ASCII, to 'k'), so the comparisons are exact. */
  function Lower(s: string): (r: string)
    ensures |r| == |s|
    ensures forall i :: 0 <= i < |s| ==> r[i] == LowerChar(s[i])
  {
    if s == [] then [] else [LowerChar(s[0])] + Lower(s[1..])
  }

  function LowerChar(c: char): char
  {
    if 'A' <= c <= 'Z' then (c as int - 'A' as int + 'a' as int) as char else c
  }

  /** `s.split(sep)` with a one-character separator: always at least one
    * piece. */
  function Split(s: string, sep: char): (r: seq<string>)
    ensures |r| >= 1
  {
    if s == [] then [[]]
    else
      var rest := Split(s[1..], sep);
      if s[0] == sep then [[]] + rest else [[s[0]] + rest[0]] + rest[1..]
  }

  /** No piece of a split holds the separator. */
  lemma {:induction false} SplitPiecesFree(s: string, sep: char)
    ensures forall k :: 0 <= k < |Split(s, sep)| ==> sep !in Split(s, sep)[k]
  {
    if s != [] {
      var rest := Split(s[1..], sep);
      SplitPiecesFree(s[1..], sep);
      var r := Split(s, sep);
      if s[0] == sep {
        assert forall k :: 1 <= k < |r| ==> r[k] == rest[k - 1];
      } else {
        assert forall k :: 1 <= k < |r| ==> r[k] == rest[k];
        assert r[0] == [s[0]] + rest[0];
      }
    }
  }

  /** `sep.join(pieces)`. */
  function Join(pieces: seq<string>, sep: char): string
    requires |pieces| >= 1
  {
    if |pieces| == 1 then pieces[0] else pieces[0] + [sep] + Join(pieces[1..], sep)
  }

  /** Joining the pieces gives back the text that was split. */
  lemma {:induction false} JoinSplit(s: string, sep: char)
    ensures Join(Split(s, sep), sep) == s
  {
    if s != [] {
      var rest := Split(s[1..], sep);
      JoinSplit(s[1..], sep);
      if s[0] == sep {
        assert Split(s, sep)[1..] == rest;
      } else if |rest| == 1 {
        assert Split(s, sep) == [[s[0]] + rest[0]];
      } else {
        var r := Split(s, sep);
        assert r[1..] == rest[1..];
        assert Join(rest, sep) == rest[0] + [sep] + Join(rest[1..], sep);
      }
    }
  }

  /** Splitting joined pieces that hold no separator gives back the pieces. */
  lemma {:induction false} SplitJoin(pieces: seq<string>, sep: char)
    requires |pieces| >= 1
    requires forall k :: 0 <= k < |pieces| ==> sep !in pieces[k]
    ensures Split(Join(pieces, sep), sep) == pieces
  {
    if |pieces| == 1 {
      SplitNoSep(pieces[0], sep);
    } else {
      var tail := Join(pieces[1..], sep);
      SplitJoin(pieces[1..], sep);
      SplitPrefix(pieces[0], tail, sep);
      assert Join(pieces, sep) == pieces[0] + [sep] + tail;
      assert [pieces[0]] + pieces[1..] == pieces;
    }
  }

  lemma {:induction false} SplitNoSep(s: string, sep: char)
    requires sep !in s
    ensures Split(s, sep) == [s]
  {
    if s != [] {
      SplitNoSep(s[1..], sep);
      assert [s[0]] + s[1..] == s;
    }
  }

  /** A separator-free head is the first piece; the rest is split on its own. */
  lemma {:induction false} SplitPrefix(a: string, b: string, sep: char)
    requires sep !in a
    ensures Split(a + [sep] + b, sep) == [a] + Split(b, sep)
  {
    var s := a + [sep] + b;
    if a == [] {
      assert s[1..] == b;
    } else {
      assert s[1..] == a[1..] + [sep] + b;
      SplitPrefix(a[1..], b, sep);
      assert [a[0]] + a[1..] == a;
    }
  }

  /** Splitting text before and after a piece without the separator: the
    * pieces of the head, except the last, are kept, and the last one is
    * continued by the tail. */
  lemma {:induction false} SplitAppend(a: string, b: string, sep: char)
    ensures var pa := Split(a, sep);
      Split(a + b, sep) == pa[..|pa| - 1] + Split(pa[|pa| - 1] + b, sep)
  {
    if a == [] {
      assert a + b == b && Split(a, sep) == [[]];
    } else {
      SplitAppend(a[1..], b, sep);
      SplitAppendStep(a[0], a[1..], b, sep);
      assert [a[0]] + a[1..] == a;
    }
  }

  /** One character more in front of the head, given the property for the
    * rest of the head. */
  lemma SplitAppendStep(c: char, a: string, b: string, sep: char)
    requires var r := Split(a, sep);
      Split(a + b, sep) == r[..|r| - 1] + Split(r[|r| - 1] + b, sep)
    ensures var pa := Split([c] + a, sep);
      Split([c] + a + b, sep) == pa[..|pa| - 1] + Split(pa[|pa| - 1] + b, sep)
  {
    if c == sep {
      SplitAppendSep(c, a, b, sep);
    } else if |Split(a, sep)| == 1 {
      SplitAppendOne(c, a, b, sep);
    } else {
      SplitAppendMore(c, a, b, sep);
    }
  }

  /** The character in front is the separator: it opens an empty piece. */
  lemma SplitAppendSep(c: char, a: string, b: string, sep: char)
    requires var r := Split(a, sep);
      Split(a + b, sep) == r[..|r| - 1] + Split(r[|r| - 1] + b, sep)
    requires c == sep
    ensures var pa := Split([c] + a, sep);
      Split([c] + a + b, sep) == pa[..|pa| - 1] + Split(pa[|pa| - 1] + b, sep)
  {
    var r := Split(a, sep);
    SplitCons(c, a, sep);
    SplitCons(c, a + b, sep);
    assert [c] + a + b == [c] + (a + b);
    PiecesCons([], r, Split(r[|r| - 1] + b, sep));
  }

  /** The head has no separator: its one piece is continued by the tail. */
  lemma SplitAppendOne(c: char, a: string, b: string, sep: char)
    requires var r := Split(a, sep);
      Split(a + b, sep) == r[..|r| - 1] + Split(r[|r| - 1] + b, sep)
    requires c != sep && |Split(a, sep)| == 1
    ensures var pa := Split([c] + a, sep);
      Split([c] + a + b, sep) == pa[..|pa| - 1] + Split(pa[|pa| - 1] + b, sep)
  {
    var r := Split(a, sep);
    var t := Split(a + b, sep);
    assert r[..0] == [];
    assert t == Split(r[0] + b, sep);
    SplitCons(c, a + b, sep);
    assert [c] + a + b == [c] + (a + b);
    assert Split([c] + a + b, sep) == [[c] + t[0]] + t[1..];
    SplitCons(c, r[0] + b, sep);
    assert ([c] + r[0]) + b == [c] + (r[0] + b);
    assert Split(([c] + r[0]) + b, sep) == [[c] + t[0]] + t[1..];
    SplitCons(c, a, sep);
    var pa := Split([c] + a, sep);
    assert pa == [[c] + r[0]];
    assert pa[..|pa| - 1] == [];
  }

  /** The head has a separator: the character joins the first piece only. */
  lemma SplitAppendMore(c: char, a: string, b: string, sep: char)
    requires var r := Split(a, sep);
      Split(a + b, sep) == r[..|r| - 1] + Split(r[|r| - 1] + b, sep)
    requires c != sep && |Split(a, sep)| > 1
    ensures var pa := Split([c] + a, sep);
      Split([c] + a + b, sep) == pa[..|pa| - 1] + Split(pa[|pa| - 1] + b, sep)
  {
    var r := Split(a, sep);
    var n := |r|;
    var q := Split(r[n - 1] + b, sep);
    SplitCons(c, a, sep);
    SplitCons(c, a + b, sep);
    assert [c] + a + b == [c] + (a + b);
    var t := Split(a + b, sep);
    assert t[0] == r[0] && t[1..] == r[1..][..n - 2] + q;
    PiecesCons([c] + r[0], r[1..], q);
  }

  /** A piece put in front of pieces r whose last one is replaced by q. */
  lemma PiecesCons(x: string, r: seq<string>, q: seq<string>)
    requires |r| >= 1
    ensures var p := [x] + r; [x] + (r[..|r| - 1] + q) == p[..|p| - 1] + q && p[|p| - 1] == r[|r| - 1]
  {
    var p := [x] + r;
    assert p[..|p| - 1] == [x] + r[..|r| - 1];
  }

  /** Split of a text with one more character in front. */
  lemma SplitCons(c: char, t: string, sep: char)
    ensures Split([c] + t, sep) ==
      (if c == sep then [[]] + Split(t, sep) else [[c] + Split(t, sep)[0]] + Split(t, sep)[1..])
  {
    assert ([c] + t)[1..] == t;
  }

  /** The value of a digit in bases up to 36, either case; 99 for a character
    * that is no digit. */
  function DigitOf(c: char): (r: nat)
  {
    if '0' <= c <= '9' then c as int - '0' as int
    else if 'a' <= c <= 'z' then c as int - 'a' as int + 10
    else if 'A' <= c <= 'Z' then c as int - 'A' as int + 10
    else 99
  }

  /** The digit text `int(text, base)` accepts after its sign and prefix: at
    * least one digit, starting with a digit, and each underscore between
    * two digits. */
  predicate ValidDigits(u: string, base: nat)
  {
    |u| > 0 && DigitOf(u[0]) < base &&
    forall i :: 0 <= i < |u| ==> DigitAt(u, i, base) || UnderscoreAt(u, i, base)
  }

  predicate DigitAt(u: string, i: nat, base: nat)
    requires i < |u|
  {
    DigitOf(u[i]) < base
  }

  /** An underscore with a digit right after it. */
  predicate UnderscoreAt(u: string, i: nat, base: nat)
    requires i < |u|
  {
    u[i] == '_' && i + 1 < |u| && DigitOf(u[i + 1]) < base
  }

  /** The value of the digits, underscores skipped. */
  function DigitsValue(u: string, base: nat): nat
  {
    if u == [] then 0
    else if u[|u| - 1] == '_' then DigitsValue(u[..|u| - 1], base)
    else DigitsValue(u[..|u| - 1], base) * base + DigitOf(u[|u| - 1])
  }

  /** `int(text, base)` for base 10 or 16: surrounding whitespace, one sign,
    * for base 16 an optional `0x`/`0X` prefix that may be followed by one
    * underscore, then digits.  `None` is the `ValueError` it raises. */
  function PyInt(s: string, base: nat): Option<int>
    requires base == 10 || base == 16
  {
    PyIntStripped(Strip(s), base)
  }

  /** The stripped text: an optional sign, then the digits. */
  function PyIntStripped(t: string, base: nat): Option<int>
    requires base == 10 || base == 16
  {
    if |t| > 0 && (t[0] == '+' || t[0] == '-') then Signed(t[0] == '-', t[1..], base)
    else Signed(false, t, base)
  }

  /** The text after the sign: the prefix dropped, the digits read. */
  function Signed(neg: bool, u: string, base: nat): Option<int>
    requires base == 10 || base == 16
  {
    var d := Unprefixed(u, base);
    var v: int := DigitsValue(d, base);
    if ValidDigits(d, base) then Some(if neg then -v else v) else None
  }

  /** The digits behind a base-16 `0x` or `0X` prefix and one optional underscore. */
  function Unprefixed(u: string, base: nat): string
  {
    if base == 16 && |u| >= 2 && u[0] == '0' && (u[1] == 'x' || u[1] == 'X') then
      (if |u| >= 3 && u[2] == '_' then u[3..] else u[2..])
    else u
  }

  /** The character of a digit value, upper case past 9. */
  function DigitChar(d: nat): (c: char)
    requires d < 36
    ensures DigitOf(c) == d
  {
    if d < 10 then ('0' as int + d) as char else ('A' as int + d - 10) as char
  }

  /** The digits of n in a base, most significant first, without leading
    * zeros (`format(n, 'd')`, `format(n, 'X')`). */
  function ToDigits(n: nat, base: nat): (r: string)
    requires 2 <= base <= 36
    ensures |r| >= 1
  {
    if n < base then [DigitChar(n)] else ToDigits(n / base, base) + [DigitChar(n % base)]
  }

  lemma DivShrinks(n: nat, base: nat)
    requires 2 <= base <= n
    ensures n / base < n && n == base * (n / base) + n % base
  {
  }

  /** Every character is a digit of the base. */
  predicate AllDigits(u: string, base: nat)
  {
    forall i :: 0 <= i < |u| ==> DigitOf(u[i]) < base
  }

  lemma AllDigitsValid(u: string, base: nat)
    requires |u| > 0 && AllDigits(u, base)
    ensures ValidDigits(u, base)
  {
    assert forall i :: 0 <= i < |u| ==> DigitAt(u, i, base);
  }

  lemma {:induction false} ToDigitsAll(n: nat, base: nat)
    requires 2 <= base <= 36
    ensures AllDigits(ToDigits(n, base), base)
  {
    if n >= base {
      var h := ToDigits(n / base, base);
      DivShrinks(n, base);
      ToDigitsAll(n / base, base);
      var r := h + [DigitChar(n % base)];
      assert forall i :: 0 <= i < |h| ==> r[i] == h[i];
    }
  }

  /** The digits of a number read back as the number. */
  lemma {:induction false} ToDigitsValue(n: nat, base: nat)
    requires 2 <= base <= 36
    ensures DigitsValue(ToDigits(n, base), base) == n
  {
    var r := ToDigits(n, base);
    var c := r[|r| - 1];
    if n < base {
      assert r[..0] == [];
    } else {
      var h := ToDigits(n / base, base);
      DivShrinks(n, base);
      ToDigitsValue(n / base, base);
      assert r[..|r| - 1] == h;
      assert c == DigitChar(n % base);
      assert DigitOf(c) == n % base;
      assert c != '_';
      assert DigitsValue(r, base) == DigitsValue(h, base) * base + n % base;
    }
  }

  /** `str(i)` for an int. */
  function DecStr(i: int): (r: string)
    ensures |r| >= 1
  {
    if i < 0 then "-" + ToDigits(-i, 10) else ToDigits(i, 10)
  }

  /** Text that starts with a digit or a minus sign and ends with a digit
    * is read without stripping. */
  lemma PyIntUnspaced(s: string, base: nat)
    requires base == 10 || base == 16
    requires |s| > 0 && (DigitOf(s[0]) < 36 || s[0] == '-') && DigitOf(s[|s| - 1]) < 36
    ensures PyInt(s, base) == PyIntStripped(s, base)
  {
    DigitOfNotSpace(s[|s| - 1]);
    if s[0] != '-' {
      DigitOfNotSpace(s[0]);
    }
    StripUnspaced(s);
  }

  /** Digits without a prefix read as their value, negated after a minus. */
  lemma SignedDigits(neg: bool, ds: string, base: nat)
    requires base == 10 || base == 16
    requires |ds| > 0 && AllDigits(ds, base)
    ensures var v: int := DigitsValue(ds, base); Signed(neg, ds, base) == Some(if neg then -v else v)
  {
    AllDigitsValid(ds, base);
    if base == 16 && |ds| >= 2 {
      assert DigitOf(ds[1]) < 16;
    }
  }

  /** Decimal digits read as their value. */
  lemma PyIntDigits(ds: string)
    requires |ds| > 0 && AllDigits(ds, 10)
    ensures PyInt(ds, 10) == Some(DigitsValue(ds, 10))
  {
    assert DigitOf(ds[0]) < 10 && DigitOf(ds[|ds| - 1]) < 10;
    DigitOfNotSpace(ds[0]);
    PyIntUnspaced(ds, 10);
    SignedDigits(false, ds, 10);
  }

  /** Decimal digits behind a minus sign read as the negated value. */
  lemma PyIntMinusDigits(ds: string)
    requires |ds| > 0 && AllDigits(ds, 10)
    ensures var v: int := DigitsValue(ds, 10); PyInt("-" + ds, 10) == Some(-v)
  {
    MinusSign(ds);
    MinusUnspaced(ds);
    NegatedDigits(ds);
  }

  lemma NegatedDigits(ds: string)
    requires |ds| > 0 && AllDigits(ds, 10)
    ensures var v: int := DigitsValue(ds, 10); Signed(true, ds, 10) == Some(-v)
  {
    SignedDigits(true, ds, 10);
  }

  lemma MinusSign(ds: string)
    ensures PyIntStripped("-" + ds, 10) == Signed(true, ds, 10)
  {
    var s := "-" + ds;
    assert s[0] == '-' && s[1..] == ds;
  }

  lemma MinusUnspaced(ds: string)
    requires |ds| > 0 && AllDigits(ds, 10)
    ensures PyInt("-" + ds, 10) == PyIntStripped("-" + ds, 10)
  {
    var s := "-" + ds;
    assert DigitOf(ds[|ds| - 1]) < 10;
    assert s[0] == '-' && s[|s| - 1] == ds[|ds| - 1];
    PyIntUnspaced(s, 10);
  }

  /** `int(str(i))` is i: the decimal text of every int reads back. */
  lemma PyIntDecStr(i: int)
    ensures PyInt(DecStr(i), 10) == Some(i)
  {
    var n := if i < 0 then -i else i;
    ToDigitsValue(n, 10);
    ToDigitsAll(n, 10);
    if i < 0 {
      PyIntMinusDigits(ToDigits(n, 10));
    } else {
      PyIntDigits(ToDigits(n, 10));
    }
  }

  lemma DigitOfNotSpace(c: char)
    requires DigitOf(c) < 36
    ensures !IsSpace(c) && c != '-' && c != '+'
  {
  }

  /** The digits of a number in base 16 read back. */
  lemma PyIntHex(n: nat)
    ensures PyInt(ToDigits(n, 16), 16) == Some(n)
  {
    var ds := ToDigits(n, 16);
    ToDigitsValue(n, 16);
    ToDigitsAll(n, 16);
    assert DigitOf(ds[0]) < 16 && DigitOf(ds[|ds| - 1]) < 16;
    PyIntUnspaced(ds, 16);
    SignedDigits(false, ds, 16);
  }

  /** The same digits behind a `0x` prefix read back too. */
  lemma PyIntHexPrefixed(n: nat)
    ensures PyInt("0x" + ToDigits(n, 16), 16) == Some(n)
  {
    var ds := ToDigits(n, 16);
    ToDigitsValue(n, 16);
    ToDigitsAll(n, 16);
    PrefixUnspaced(ds);
    PrefixDropped(ds);
    AllDigitsValid(ds, 16);
  }

  lemma PrefixUnspaced(ds: string)
    requires |ds| > 0 && AllDigits(ds, 16)
    ensures PyInt("0x" + ds, 16) == Signed(false, "0x" + ds, 16)
  {
    var p := "0x" + ds;
    assert p[|p| - 1] == ds[|ds| - 1] && DigitOf(ds[|ds| - 1]) < 16;
    assert p[0] == '0';
    PyIntUnspaced(p, 16);
  }

  lemma PrefixDropped(ds: string)
    requires |ds| > 0 && AllDigits(ds, 16)
    ensures Unprefixed("0x" + ds, 16) == ds
  {
    var p := "0x" + ds;
    assert p[0] == '0' && p[1] == 'x' && p[2] == ds[0] && p[2..] == ds;
    assert DigitOf(ds[0]) < 16;
  }
}

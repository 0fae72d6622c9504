/**
 * The form and payload normalisers of the Python web side: the integer
 * list parsers `to_int_list` / `_to_int_list` and `normalize_list`, the
 * truth-value readers `_as_bool` and `_to_bit`, the defaults a payload or
 * form fills in, and the LED target builder `_build_targets`.
 *
 * A form field is a string or absent (`Option<string>`); a JSON payload
 * value is a `Value`.
 */
module PyForms {
  import opened Wrappers
  import opened PyText
  import Seqs

  /** A value of a parsed JSON payload or form.  `DictValue` stands for a
    * mapping, which `int()` refuses; only whether it is empty (and so
    * false to `or`) is kept.  Floats are not modelled. */
  datatype Value =
    | NoneValue
    | BoolValue(b: bool)
    | IntValue(i: int)
    | StrValue(s: string)
    | ListValue(items: seq<Value>)
    | DictValue(empty: bool)

  // ---------------------------------------------------------------------------
  // Padding to a fixed length

  /** `xs` padded with `d` up to n entries, or cut to its first n. */
  function FitTo<T>(xs: seq<T>, n: nat, d: T): (r: seq<T>)
    ensures |r| == n
    ensures forall k :: 0 <= k < n ==> r[k] == if k < |xs| then xs[k] else d
  {
    if |xs| >= n then xs[..n] else xs + seq(n - |xs|, _ => d)
  }

  /** The padding loop `while len(out) < n: out.append(default)` followed by
    * the cut `out[:n]`. */
  method PadAndCut<T>(xs: seq<T>, n: nat, d: T) returns (r: seq<T>)
    ensures r == FitTo(xs, n, d)
  {
    var out := xs;
    while |out| < n
      invariant |out| >= |xs| && out[..|xs|] == xs
      invariant forall k :: |xs| <= k < |out| ==> out[k] == d
      invariant |out| > |xs| ==> |out| <= n
      decreases n - |out|
    {
      out := out + [d];
    }
    r := out[..n];
  }

  // ---------------------------------------------------------------------------
  // to_int_list / _to_int_list

  function StartsWith(s: string, p: string): bool
  {
    |p| <= |s| && s[..|p|] == p
  }

  /** One stripped, non-empty token: base 16 when it starts with `0x` in
    * either case, base 10 otherwise; `None` when `int()` raises. */
  function TokenValue(tok: string): Option<int>
  {
    PyInt(tok, if StartsWith(Lower(tok), "0x") then 16 else 10)
  }

  /** The values of the comma-split tokens, blank ones skipped; `None` when
    * any token fails to parse. */
  function TokenValues(toks: seq<string>): Option<seq<int>>
  {
    if toks == [] then Some([])
    else
      match TokenValues(toks[..|toks| - 1])
      case None => None
      case Some(vs) =>
        var t := Strip(toks[|toks| - 1]);
        if t == [] then Some(vs)
        else match TokenValue(t)
          case None => None
          case Some(v) => Some(vs + [v])
  }

  /** What `to_int_list(s, n, default)` returns: `None` for the ValueError
    * a bad token raises. */
  function IntListOf(s: Option<string>, n: nat, d: int): Option<seq<int>>
  {
    if s.None? || s.value == [] then Some(FitTo([], n, d))
    else match TokenValues(Split(s.value, ','))
      case None => None
      case Some(vs) => Some(FitTo(vs, n, d))
  }

  /** The `for tok in s.split(',')` loop: each non-blank token parsed and
    * appended, stopping at the first one `int()` refuses. */
  method ParseTokens(toks: seq<string>) returns (r: Option<seq<int>>)
    ensures r == TokenValues(toks)
  {
    var out: seq<int> := [];
    var i := 0;
    while i < |toks|
      invariant 0 <= i <= |toks|
      invariant TokenValues(toks[..i]) == Some(out)
    {
      assert toks[..i + 1][..i] == toks[..i];
      var tok := Strip(toks[i]);
      if tok != [] {
        var v := TokenValue(tok);
        if v.None? {
          FailureSticks(toks, i + 1);
          return None;
        }
        out := out + [v.value];
      }
      i := i + 1;
    }
    assert toks[..|toks|] == toks;
    r := Some(out);
  }

  /** `to_int_list` / `_to_int_list`: the token loop, then the padding. */
  method ToIntList(s: Option<string>, n: nat, d: int) returns (r: Option<seq<int>>)
    ensures r == IntListOf(s, n, d)
    ensures r.Some? ==> |r.value| == n
  {
    var out: seq<int> := [];
    if s.Some? && s.value != [] {
      var parsed := ParseTokens(Split(s.value, ','));
      if parsed.None? {
        return None;
      }
      out := parsed.value;
    }
    var padded := PadAndCut(out, n, d);
    r := Some(padded);
  }

  /** A token that fails makes the whole list fail. */
  lemma {:induction false} FailureSticks(toks: seq<string>, k: nat)
    requires k <= |toks| && TokenValues(toks[..k]) == None
    ensures TokenValues(toks) == None
    decreases |toks| - k
  {
    if k < |toks| {
      assert toks[..k + 1][..k] == toks[..k];
      FailureSticks(toks, k + 1);
    } else {
      assert toks[..k] == toks;
    }
  }

  /** `str(x)` for each x, the text a client writes for a list of ints. */
  function DecStrs(xs: seq<int>): (r: seq<string>)
    ensures |r| == |xs|
    ensures forall k :: 0 <= k < |xs| ==> r[k] == DecStr(xs[k])
  {
    if xs == [] then [] else DecStrs(xs[..|xs| - 1]) + [DecStr(xs[|xs| - 1])]
  }

  lemma ToDigitsNoSign(n: nat)
    ensures var ds := ToDigits(n, 10);
      DigitOf(ds[0]) < 10 && DigitOf(ds[|ds| - 1]) < 10 && ',' !in ds &&
      (|ds| >= 2 ==> DigitOf(ds[1]) < 10)
  {
    ToDigitsAll(n, 10);
  }

  /** The decimal text of an int is its own strip, holds no comma and is
    * read in base 10. */
  lemma DecStrToken(x: int)
    ensures Strip(DecStr(x)) == DecStr(x) && DecStr(x) != [] && ',' !in DecStr(x)
    ensures TokenValue(DecStr(x)) == Some(x)
  {
    var n := if x < 0 then -x else x;
    var s := DecStr(x);
    ToDigitsNoSign(n);
    DigitOfNotSpace(s[|s| - 1]);
    if x >= 0 {
      DigitOfNotSpace(s[0]);
    }
    StripUnspaced(s);
    NoHexPrefix(s);
    PyIntDecStr(x);
  }

  /** Text whose second character is a decimal digit, or that starts with a
    * minus sign, is not read as `0x`-prefixed. */
  lemma NoHexPrefix(s: string)
    requires |s| < 2 || s[0] == '-' || DigitOf(s[1]) < 10
    ensures !StartsWith(Lower(s), "0x")
  {
    if |s| >= 2 {
      if s[0] == '-' {
        assert Lower(s)[0] == '-';
      } else {
        assert Lower(s)[1] == s[1] != 'x';
      }
    }
  }

  lemma TokenValuesOfDecStrs(xs: seq<int>)
    ensures TokenValues(DecStrs(xs)) == Some(xs)
  {
    var ts := DecStrs(xs);
    forall k | 0 <= k < |xs| ensures ReadsAs(ts[k], xs[k]) {
      DecStrToken(xs[k]);
    }
    TokenValuesOfReadable(ts, xs);
  }

  /** A token that is its own strip, is not blank and reads as v. */
  predicate ReadsAs(t: string, v: int)
  {
    Strip(t) == t && t != [] && TokenValue(t) == Some(v)
  }

  /** Tokens that read one by one as xs read together as xs. */
  lemma {:induction false} TokenValuesOfReadable(ts: seq<string>, xs: seq<int>)
    requires |ts| == |xs| && forall k :: 0 <= k < |xs| ==> ReadsAs(ts[k], xs[k])
    ensures TokenValues(ts) == Some(xs)
  {
    if xs != [] {
      var front, t := ts[..|ts| - 1], ts[|ts| - 1];
      var init, x := xs[..|xs| - 1], xs[|xs| - 1];
      TokenValuesOfReadable(front, init);
      Seqs.SplitLast(ts);
      Seqs.SplitLast(xs);
      TokenValuesSnoc(front, t, init, x);
    }
  }

  /** One more token that is its own strip and reads as v adds v. */
  lemma TokenValuesSnoc(toks: seq<string>, t: string, vs: seq<int>, v: int)
    requires TokenValues(toks) == Some(vs)
    requires ReadsAs(t, v)
    ensures TokenValues(toks + [t]) == Some(vs + [v])
  {
    assert (toks + [t])[..|toks|] == toks;
  }

  /** A list a client writes as `",".join(str(x) for x in xs)` reads back as
    * xs, padded with the default or cut to n. */
  lemma IntListRoundTrip(xs: seq<int>, n: nat, d: int)
    requires |xs| >= 1
    ensures IntListOf(Some(Join(DecStrs(xs), ',')), n, d) == Some(FitTo(xs, n, d))
  {
    var ts := DecStrs(xs);
    forall k | 0 <= k < |ts| ensures ',' !in ts[k] {
      DecStrToken(xs[k]);
    }
    SplitJoin(ts, ',');
    TokenValuesOfDecStrs(xs);
    DecStrToken(xs[0]);
    assert Join(ts, ',') != [] by {
      JoinStartsWith(ts, ',');
    }
  }

  lemma JoinStartsWith(pieces: seq<string>, sep: char)
    requires |pieces| >= 1
    ensures |Join(pieces, sep)| >= |pieces[0]|
  {
  }

  // ---------------------------------------------------------------------------
  // normalize_list

  /** `int(x)` on a payload value: ints as they are, booleans as 1 and 0,
    * strings through `int(text)`; `None` for everything `int()` refuses. */
  function IntCast(x: Value): Option<int>
  {
    match x
    case IntValue(i) => Some(i)
    case BoolValue(b) => Some(if b then 1 else 0)
    case StrValue(s) => PyInt(s, 10)
    case _ => None
  }

  /** The stripped, non-blank comma-separated items of a string, in order. */
  function NonBlankItems(pieces: seq<string>): (r: seq<Value>)
    ensures forall k :: 0 <= k < |r| ==> r[k].StrValue? && r[k].s != []
  {
    if pieces == [] then []
    else
      var t := Strip(pieces[|pieces| - 1]);
      NonBlankItems(pieces[..|pieces| - 1]) + (if t == [] then [] else [StrValue(t)])
  }

  /** The items `normalize_list` walks: a string's non-blank items, a list
    * as it is, nothing for any other value. */
  function Items(v: Value): seq<Value>
  {
    match v
    case StrValue(s) => NonBlankItems(Split(s, ','))
    case ListValue(xs) => xs
    case _ => []
  }

  /** Each item cast, or the default where the cast raises. */
  function CastAll(xs: seq<Value>, d: int): (r: seq<int>)
    ensures |r| == |xs|
    ensures forall k :: 0 <= k < |xs| ==> r[k] == if IntCast(xs[k]).Some? then IntCast(xs[k]).value else d
  {
    if xs == [] then [] else CastAll(xs[..|xs| - 1], d) + [
      var c := IntCast(xs[|xs| - 1]); if c.Some? then c.value else d]
  }

  function NormalizedOf(v: Value, n: nat, d: int): seq<int>
  {
    FitTo(CastAll(Items(v), d), n, d)
  }

  /** The `for x in items` loop: each item cast, the default where `cast`
    * raises. */
  method CastItems(items: seq<Value>, d: int) returns (out: seq<int>)
    ensures out == CastAll(items, d)
  {
    out := [];
    var i := 0;
    while i < |items|
      invariant 0 <= i <= |items|
      invariant out == CastAll(items[..i], d)
    {
      assert items[..i + 1][..i] == items[..i];
      var c := IntCast(items[i]);
      if c.Some? {
        out := out + [c.value];
      } else {
        out := out + [d];
      }
      i := i + 1;
    }
    assert items[..|items|] == items;
  }

  /** `normalize_list(val, n, default, int)`: the cast loop, then the
    * padding or cut to exactly n. */
  method NormalizeList(v: Value, n: nat, d: int) returns (r: seq<int>)
    ensures r == NormalizedOf(v, n, d)
    ensures |r| == n
  {
    var out := CastItems(Items(v), d);
    if |out| < n {
      out := out + seq(n - |out|, _ => d);
    } else {
      out := out[..n];
    }
    r := out;
  }

  /** A list of ints is kept as it is, padded or cut to n. */
  lemma NormalizeInts(xs: seq<int>, n: nat, d: int)
    ensures NormalizedOf(ListValue(seq(|xs|, k requires 0 <= k < |xs| => IntValue(xs[k]))), n, d) ==
      FitTo(xs, n, d)
  {
    var vs := seq(|xs|, k requires 0 <= k < |xs| => IntValue(xs[k]));
    assert CastAll(vs, d) == xs;
  }

  /** Values `int()` refuses, and values that are neither a string nor a
    * list, give the default in every position. */
  lemma NormalizeRefused(v: Value, n: nat, d: int)
    requires !v.StrValue? && !v.ListValue?
    ensures NormalizedOf(v, n, d) == seq(n, _ => d)
  {
  }

  /** The items `normalize_list` sees in the decimal text of a list. */
  function DecStrItems(xs: seq<int>): (r: seq<Value>)
    ensures |r| == |xs|
  {
    seq(|xs|, k requires 0 <= k < |xs| => StrValue(DecStr(xs[k])))
  }

  lemma {:induction false} NonBlankDecStrs(xs: seq<int>)
    ensures NonBlankItems(DecStrs(xs)) == DecStrItems(xs)
  {
    if xs != [] {
      var ts := DecStrs(xs);
      assert ts[..|ts| - 1] == DecStrs(xs[..|xs| - 1]);
      NonBlankDecStrs(xs[..|xs| - 1]);
      DecStrToken(xs[|xs| - 1]);
      DecStrItemsSnoc(xs);
    }
  }

  lemma DecStrItemsSnoc(xs: seq<int>)
    requires xs != []
    ensures DecStrItems(xs) == DecStrItems(xs[..|xs| - 1]) + [StrValue(DecStr(xs[|xs| - 1]))]
  {
  }

  lemma ItemsOfDecStrs(xs: seq<int>)
    requires |xs| >= 1
    ensures Items(StrValue(Join(DecStrs(xs), ','))) == DecStrItems(xs)
  {
    var ts := DecStrs(xs);
    forall k | 0 <= k < |ts| ensures ',' !in ts[k] {
      DecStrToken(xs[k]);
    }
    SplitJoin(ts, ',');
    NonBlankDecStrs(xs);
  }

  lemma CastDecStrs(xs: seq<int>, d: int)
    ensures CastAll(DecStrItems(xs), d) == xs
  {
    var items := DecStrItems(xs);
    forall k | 0 <= k < |xs| ensures IntCast(items[k]) == Some(xs[k]) {
      PyIntDecStr(xs[k]);
    }
  }

  /** The same text a client writes for `to_int_list` reads back through
    * `normalize_list` too. */
  lemma NormalizeRoundTrip(xs: seq<int>, n: nat, d: int)
    requires |xs| >= 1
    ensures NormalizedOf(StrValue(Join(DecStrs(xs), ',')), n, d) == FitTo(xs, n, d)
  {
    ItemsOfDecStrs(xs);
    CastDecStrs(xs, d);
  }

  /** `0x` followed by the upper-case hex digits of n. */
  function HexText(n: nat): (t: string)
    ensures |t| >= 3 && t[0] == '0' && t[1] == 'x'
  {
    "0x" + ToDigits(n, 16)
  }

  lemma HexTextShape(n: nat)
    ensures var t := HexText(n);
      ',' !in t && Strip(t) == t && StartsWith(Lower(t), "0x")
  {
    HexTextNoComma(n);
    HexTextStripped(n);
    HexTextPrefix(n);
  }

  lemma HexTextNoComma(n: nat)
    ensures ',' !in HexText(n)
  {
    var ds := ToDigits(n, 16);
    var t := HexText(n);
    ToDigitsAll(n, 16);
    assert forall k :: 2 <= k < |t| ==> t[k] == ds[k - 2];
  }

  lemma HexTextStripped(n: nat)
    ensures Strip(HexText(n)) == HexText(n)
  {
    var ds := ToDigits(n, 16);
    var t := HexText(n);
    ToDigitsAll(n, 16);
    assert t[|t| - 1] == ds[|ds| - 1];
    DigitOfNotSpace(t[|t| - 1]);
    StripUnspaced(t);
  }

  lemma HexTextPrefix(n: nat)
    ensures StartsWith(Lower(HexText(n)), "0x")
  {
    var l := Lower(HexText(n));
    assert l[0] == '0' && l[1] == 'x';
    assert l[..2] == "0x";
  }

  /** `to_int_list` reads a `0x`-prefixed item in base 16. */
  lemma IntListHex(n: nat, d: int)
    ensures IntListOf(Some(HexText(n)), 1, d) == Some([n])
  {
    var t := HexText(n);
    HexTextShape(n);
    SplitNoSep(t, ',');
    HexTokenValue(n);
    SingleToken(t, n);
    FitOne(n, d);
  }

  lemma FitOne<T>(x: T, d: T)
    ensures FitTo([x], 1, d) == [x]
  {
  }

  lemma HexTokenValue(n: nat)
    ensures TokenValue(HexText(n)) == Some(n)
  {
    HexTextShape(n);
    PyIntHexPrefixed(n);
  }

  lemma SingleToken(t: string, v: int)
    requires Strip(t) == t && t != [] && TokenValue(t) == Some(v)
    ensures TokenValues([t]) == Some([v])
  {
    var toks := [t];
    assert toks[..|toks| - 1] == [];
    assert toks[|toks| - 1] == t;
    var empty: seq<int> := [];
    assert TokenValues(toks[..|toks| - 1]) == Some(empty);
    assert empty + [v] == [v];
  }

  /** `normalize_list` casts with `int(x)` in base 10, so the same item
    * falls back to the default. */
  lemma NormalizeHexRefused(n: nat, d: int)
    ensures NormalizedOf(StrValue(HexText(n)), 1, d) == [d]
  {
    var t := HexText(n);
    HexTextShape(n);
    SplitNoSep(t, ',');
    SingleItem(t);
    HexNotDecimal(t);
    CastOne(StrValue(t), d);
    FitOne(d, d);
  }

  lemma CastOne(x: Value, d: int)
    ensures CastAll([x], d) == [if IntCast(x).Some? then IntCast(x).value else d]
  {
  }

  lemma SingleItem(t: string)
    requires Strip(t) == t && t != []
    ensures NonBlankItems([t]) == [StrValue(t)]
  {
    var none: seq<string> := [];
    assert [t][..0] == none;
  }

  lemma HexNotDecimal(t: string)
    requires |t| >= 2 && t[0] == '0' && t[1] == 'x' && Strip(t) == t
    ensures IntCast(StrValue(t)) == None
  {
    HexStrippedNotDecimal(t);
  }

  lemma HexStrippedNotDecimal(t: string)
    requires |t| >= 2 && t[0] == '0' && t[1] == 'x'
    ensures PyIntStripped(t, 10) == None
  {
    assert Unprefixed(t, 10) == t;
    assert !(DigitAt(t, 1, 10) || UnderscoreAt(t, 1, 10));
  }

  // ---------------------------------------------------------------------------
  // _as_bool and _to_bit

  const FalseWords: set<string> := {"0", "false", "no", "off", ""}
  const TrueWords: set<string> := {"1", "true", "on", "yes"}

  /** `str(v)` for the values whose text can matter; a list or a dict prints
    * as `[...]`, `{}` or `{...}`, which is never one of the words compared with. */
  function StrOf(v: Value): string
  {
    match v
    case NoneValue => "None"
    case BoolValue(b) => if b then "True" else "False"
    case IntValue(i) => DecStr(i)
    case StrValue(s) => s
    case ListValue(_) => "[...]"
    case DictValue(empty) => if empty then "{}" else "{...}"
  }

  /** `_as_bool(v, default)`. */
  function AsBool(v: Value, default: bool): bool
  {
    if v.NoneValue? then default else Lower(Strip(StrOf(v))) !in FalseWords
  }

  /** A missing value gives the default, an int is true exactly when it is
    * not zero, and a boolean is itself. */
  lemma AsBoolMeaning(default: bool, i: int, b: bool)
    ensures AsBool(NoneValue, default) == default
    ensures AsBool(IntValue(i), default) == (i != 0)
    ensures AsBool(BoolValue(b), default) == b
  {
    AsBoolInt(i, default);
    AsBoolBool(b, default);
  }

  lemma AsBoolBool(b: bool, default: bool)
    ensures AsBool(BoolValue(b), default) == b
  {
    if b {
      TrueFolded();
    } else {
      FalseFolded();
    }
  }

  lemma AsBoolInt(i: int, default: bool)
    ensures AsBool(IntValue(i), default) == (i != 0)
  {
    if i == 0 {
      AsBoolZero(i, default);
    } else {
      AsBoolNonZero(i, default);
    }
  }

  lemma AsBoolZero(i: int, default: bool)
    requires i == 0
    ensures !AsBool(IntValue(i), default)
  {
    DecStrFolded(i);
    ZeroText(i);
  }

  lemma ZeroText(i: int)
    requires i == 0
    ensures Lower(DecStr(i)) == "0"
  {
    assert DecStr(i) == "0";
    assert Lower("0") == "0";
  }

  lemma AsBoolNonZero(i: int, default: bool)
    requires i != 0
    ensures AsBool(IntValue(i), default)
  {
    DecStrFolded(i);
    NonZeroDecStr(i);
  }

  /** The decimal text of an int is its own strip. */
  lemma DecStrFolded(i: int)
    ensures Strip(DecStr(i)) == DecStr(i)
  {
    var s := DecStr(i);
    var n := if i < 0 then -i else i;
    ToDigitsNoSign(n);
    DigitOfNotSpace(s[|s| - 1]);
    if i >= 0 {
      DigitOfNotSpace(s[0]);
    }
    StripUnspaced(s);
  }

  lemma TrueFolded()
    ensures Lower(Strip("True")) == "true"
  {
    StripUnspaced("True");
    LowerIs("True", "true");
  }

  /** Lowering text character by character. */
  lemma LowerIs(s: string, r: string)
    requires |r| == |s| && forall i :: 0 <= i < |s| ==> r[i] == LowerChar(s[i])
    ensures Lower(s) == r
  {
  }

  lemma FalseFolded()
    ensures Lower(Strip("False")) == "false"
  {
    StripUnspaced("False");
    LowerIs("False", "false");
  }

  /** The decimal text of a nonzero int is none of the false words. */
  lemma NonZeroDecStr(i: int)
    requires i != 0
    ensures Lower(DecStr(i)) !in FalseWords
  {
    var s := DecStr(i);
    var n := if i < 0 then -i else i;
    ToDigitsNoSign(n);
    if |s| == 1 {
      ToDigitsValue(n, 10);
      assert i > 0 && s == ToDigits(n, 10);
      assert s[..0] == [];
      assert DigitsValue(s, 10) == DigitOf(s[0]);
      assert Lower(s)[0] == s[0] != '0';
    } else {
      assert Lower(s)[1] == LowerChar(s[1]);
      if i < 0 {
        assert s[1] == ToDigits(n, 10)[0];
      }
      assert DigitOf(Lower(s)[1]) < 10;
    }
    NotFalseWord(Lower(s));
  }

  /** Text whose second character is a digit, or a single character other
    * than `0`, is none of the false words. */
  lemma NotFalseWord(t: string)
    requires |t| >= 1
    requires |t| == 1 ==> t[0] != '0'
    requires |t| >= 2 ==> DigitOf(t[1]) < 10
    ensures t !in FalseWords
  {
    assert "false"[1] == 'a' && "no"[1] == 'o' && "off"[1] == 'f';
  }

  /** `_to_bit(s, default)`. */
  function ToBit(s: Option<string>, default: int): (r: int)
    ensures s.Some? ==> r == 0 || r == 1
  {
    if s.None? then default else if Lower(Strip(s.value)) in TrueWords then 1 else 0
  }

  /** A present field reads as 0 or 1, and as 1 exactly for the true words
    * in any case and surrounded by whitespace. */
  lemma ToBitMeaning(s: string, default: int)
    ensures ToBit(Some(s), default) in {0, 1}
    ensures ToBit(Some(s), default) == 1 <==> Lower(Strip(s)) in TrueWords
    ensures ToBit(None, default) == default
  {
  }

  // ---------------------------------------------------------------------------
  // Payload and form defaults

  /** The four tables an apply request yields: index lists always, and the
    * integer gains unless a float gain key is present. */
  datatype Tables = Tables(idxA: seq<int>, gainA: seq<int>, idxB: seq<int>, gainB: seq<int>)
                  | FloatGainTables(idxA: seq<int>, idxB: seq<int>)

  function Get(m: map<string, Value>, k: string): Value
  {
    if k in m then m[k] else NoneValue
  }

  /** `_apply_payload` in the Flask server, up to the word building. */
  function PayloadTables(payload: map<string, Value>): (r: Tables)
  {
    var idxA := NormalizedOf(Get(payload, "idxA"), 8, 0);
    var idxB := NormalizedOf(Get(payload, "idxB"), 8, 8);
    if "gainA_f" in payload || "gainB_f" in payload then FloatGainTables(idxA, idxB)
    else Tables(idxA, NormalizedOf(Get(payload, "gainA"), 8, 0), idxB, NormalizedOf(Get(payload, "gainB"), 8, 0))
  }

  /** The WEN polarity of a payload: active-high unless `wen_active` is a
    * false word (a missing key reads as 1). */
  function PayloadWenActiveHigh(payload: map<string, Value>): bool
  {
    AsBool(if "wen_active" in payload then payload["wen_active"] else IntValue(1), true)
  }

  /** Every table has 8 entries; missing index lists are all 0 for A and all
    * 8 for B; the float path is taken exactly when a float gain key is there. */
  lemma PayloadDefaults(payload: map<string, Value>)
    ensures var r := PayloadTables(payload);
      |r.idxA| == 8 && |r.idxB| == 8 &&
      (r.Tables? ==> |r.gainA| == 8 && |r.gainB| == 8) &&
      (r.FloatGainTables? <==> ("gainA_f" in payload || "gainB_f" in payload)) &&
      ("idxA" !in payload ==> r.idxA == seq(8, _ => 0)) &&
      ("idxB" !in payload ==> r.idxB == seq(8, _ => 8)) &&
      (r.Tables? && "gainA" !in payload ==> r.gainA == seq(8, _ => 0))
  {
  }

  lemma PayloadWenDefault(payload: map<string, Value>)
    ensures "wen_active" !in payload ==> PayloadWenActiveHigh(payload)
  {
    AsBoolMeaning(true, 1, true);
  }

  /** `DEF_WEN_US` and `DEF_WEN_OFF` of both the Flask core and the CGI. */
  const DefWenUs: int := 1
  const DefWenOffset: int := 0

  /** Python's false values among those a payload carries: `None`, `False`,
    * `0`, the empty string, the empty list and the empty dict. */
  predicate Falsy(v: Value)
  {
    v.NoneValue? || v == BoolValue(false) || v == IntValue(0) || v == StrValue([]) || v == ListValue([]) ||
    v == DictValue(true)
  }

  /** `int(payload.get(k, d) or d)`: a missing or false value reads as d;
    * `None` is the exception `int()` raises. */
  function PayloadInt(payload: map<string, Value>, k: string, d: int): Option<int>
  {
    if k !in payload || Falsy(payload[k]) then Some(d) else IntCast(payload[k])
  }

  /** The pulse width `_apply_payload` reads before it writes anything. */
  function PayloadPulse(payload: map<string, Value>): Option<int>
  {
    PayloadInt(payload, "wen_pulse_us", DefWenUs)
  }

  /** A missing key, a zero, an empty string or an empty object fall back
    * to d; any other integer is taken as it is, and a non-empty list or
    * object makes `int()` raise. */
  lemma PayloadIntMeaning(payload: map<string, Value>, k: string, d: int, x: int)
    ensures k !in payload ==> PayloadInt(payload, k, d) == Some(d)
    ensures PayloadInt(payload[k := IntValue(x)], k, d) == Some(if x == 0 then d else x)
    ensures PayloadInt(payload[k := StrValue([])], k, d) == Some(d)
    ensures PayloadInt(payload[k := DictValue(true)], k, d) == Some(d)
    ensures PayloadInt(payload[k := ListValue([IntValue(x)])], k, d).None?
    ensures PayloadInt(payload[k := DictValue(false)], k, d).None?
  {
  }

  /** A decimal text reads back as its number; a text that is no number
    * makes `int()` raise. */
  lemma PayloadIntText(payload: map<string, Value>, k: string, d: int, x: int)
    ensures PayloadInt(payload[k := StrValue(DecStr(x))], k, d) == Some(x)
    ensures PayloadInt(payload[k := StrValue(['x'])], k, d).None?
  {
    PyIntDecStr(x);
    NotANumber();
  }

  /** `int("x")` raises. */
  lemma NotANumber()
    ensures PyInt(['x'], 10).None?
  {
    StripUnspaced(['x']);
  }

  /** `int(form.get(k, d) or d)` on a CGI field: a missing or empty field
    * reads as d; `None` is the exception `int()` raises. */
  function FormInt(form: map<string, string>, k: string, d: int): Option<int>
  {
    if k !in form || form[k] == [] then Some(d) else PyInt(form[k], 10)
  }

  lemma FormIntMeaning(form: map<string, string>, k: string, d: int, x: int)
    ensures k !in form ==> FormInt(form, k, d) == Some(d)
    ensures FormInt(form[k := []], k, d) == Some(d)
    ensures FormInt(form[k := DecStr(x)], k, d) == Some(x)
    ensures FormInt(form[k := ['x']], k, d).None?
  {
    PyIntDecStr(x);
    NotANumber();
  }

  function FormGet(form: map<string, string>, k: string): Option<string>
  {
    if k in form then Some(form[k]) else None
  }

  /** The CGI's WEN polarity: active-high unless the stripped field is
    * exactly `0`, `false` or `False` (no case folding, unlike `_as_bool`). */
  function FormWenActiveHigh(form: map<string, string>): bool
  {
    "wen_active" !in form || Strip(form["wen_active"]) !in {"0", "false", "False"}
  }

  /** A missing field keeps the default polarity, a padded `0` turns it
    * low, and `FALSE` keeps the CGI's WEN active-high although `_as_bool`
    * reads it as false. */
  lemma FormWenMeaning(form: map<string, string>)
    ensures "wen_active" !in form ==> FormWenActiveHigh(form)
    ensures FormWenActiveHigh(map["wen_active" := "FALSE"])
    ensures !AsBool(StrValue("FALSE"), true)
    ensures !FormWenActiveHigh(map["wen_active" := " 0 "])
  {
    var upper := map["wen_active" := "FALSE"];
    var padded := map["wen_active" := " 0 "];
    assert upper["wen_active"] == "FALSE" && padded["wen_active"] == " 0 ";
    FalseStrips();
    UpperFalseIsNoFalseWord();
    StripPadded0();
  }

  lemma FalseStrips()
    ensures Strip("FALSE") == "FALSE" && Lower("FALSE") == "false"
  {
    StripUnspaced("FALSE");
    LowerIs("FALSE", "false");
  }

  lemma UpperFalseIsNoFalseWord()
    ensures "FALSE" !in {"0", "false", "False"}
  {
    assert "FALSE"[1] != "False"[1] && "FALSE"[1] != "false"[1];
  }

  lemma StripPadded0()
    ensures Strip(" 0 ") == "0"
  {
    assert LStrip(" 0 ") == "0 " by { assert " 0 "[1..] == "0 "; }
    assert RStrip("0 ") == "0" by { assert "0 "[..1] == "0"; }
  }

  /** The CGI `awg_apply.py` main, up to the word building: `None` when an
    * integer field (`wen_offset`, `wen_pulse_us`, an index or integer gain
    * list) fails to parse. */
  function FormTables(form: map<string, string>): Option<Tables>
  {
    var idxA := IntListOf(FormGet(form, "idxA"), 8, 0);
    var idxB := IntListOf(FormGet(form, "idxB"), 8, 8);
    if FormInt(form, "wen_offset", DefWenOffset).None? || FormInt(form, "wen_pulse_us", DefWenUs).None? then None
    else if idxA.None? || idxB.None? then None
    else if "gainA_f" in form || "gainB_f" in form then Some(FloatGainTables(idxA.value, idxB.value))
    else
      var gainA := IntListOf(FormGet(form, "gainA"), 8, 0);
      var gainB := IntListOf(FormGet(form, "gainB"), 8, 0);
      if gainA.None? || gainB.None? then None
      else Some(Tables(idxA.value, gainA.value, idxB.value, gainB.value))
  }

  lemma FormDefaults(form: map<string, string>)
    requires FormTables(form).Some?
    ensures var r := FormTables(form).value;
      |r.idxA| == 8 && |r.idxB| == 8 &&
      (r.Tables? ==> |r.gainA| == 8 && |r.gainB| == 8) &&
      (r.FloatGainTables? <==> ("gainA_f" in form || "gainB_f" in form)) &&
      ("idxA" !in form ==> r.idxA == seq(8, _ => 0)) &&
      ("idxB" !in form ==> r.idxB == seq(8, _ => 8))
  {
  }

  // ---------------------------------------------------------------------------
  // _build_targets

  const DefaultChip: string := "/dev/gpiochip2"

  /** The R, G, B offsets of the two LEDs. */
  const Led0Offsets: (int, int, int) := (2, 1, 0)
  const Led1Offsets: (int, int, int) := (5, 4, 3)

  /** The three fields of one LED as `form.get` reads them. */
  datatype Rgb = Rgb(r: Option<string>, g: Option<string>, b: Option<string>)

  predicate Absent(c: Rgb)
  {
    c.r.None? && c.g.None? && c.b.None?
  }

  /** LED0's fields: `r0`/`g0`/`b0`, or the legacy `r`/`g`/`b` when none of
    * those three is present and at least one legacy key is. */
  function Led0Fields(form: map<string, string>): Rgb
  {
    var c := Rgb(FormGet(form, "r0"), FormGet(form, "g0"), FormGet(form, "b0"));
    if Absent(c) && ("r" in form || "g" in form || "b" in form) then
      Rgb(FormGet(form, "r"), FormGet(form, "g"), FormGet(form, "b"))
    else c
  }

  function Led1Fields(form: map<string, string>): Rgb
  {
    Rgb(FormGet(form, "r1"), FormGet(form, "g1"), FormGet(form, "b1"))
  }

  /** `chip = form.get("chip", DEFAULT_CHIP) or DEFAULT_CHIP`. */
  function ChipOf(form: map<string, string>): string
  {
    if "chip" in form && form["chip"] != [] then form["chip"] else DefaultChip
  }

  /** One LED as `add_led` sees it: whether any of its fields is present,
    * and its three bits, a missing colour read as 0. */
  datatype Led = Led(present: bool, bits: (int, int, int))

  function LedOf(c: Rgb): (l: Led)
    ensures l.bits.0 in {0, 1} && l.bits.1 in {0, 1} && l.bits.2 in {0, 1}
  {
    Led(!Absent(c), (ToBit(c.r, 0), ToBit(c.g, 0), ToBit(c.b, 0)))
  }

  /** The mapping `add_led` merges in for a present LED. */
  function LedMapping(offs: (int, int, int), bits: (int, int, int)): map<int, int>
  {
    map[offs.0 := bits.0, offs.1 := bits.1, offs.2 := bits.2]
  }

  /** `targets` after one `add_led`. */
  function Added(targets: map<int, int>, offs: (int, int, int), l: Led): map<int, int>
  {
    if l.present then targets + LedMapping(offs, l.bits) else targets
  }

  /** `detail["apply"]` after one `add_led`. */
  function Tagged(applied: seq<string>, l: Led, tag: string): seq<string>
  {
    if l.present then applied + [tag] else applied
  }

  function AllOff(): map<int, int>
  {
    map[2 := 0, 1 := 0, 0 := 0, 5 := 0, 4 := 0, 3 := 0]
  }

  /** The targets after both `add_led` calls and the all-off fallback. */
  function LedTargets(l0: Led, l1: Led): map<int, int>
  {
    var t := Added(Added(map[], Led0Offsets, l0), Led1Offsets, l1);
    if t == map[] then AllOff() else t
  }

  function LedTags(l0: Led, l1: Led): seq<string>
  {
    var t := Added(Added(map[], Led0Offsets, l0), Led1Offsets, l1);
    var a := Tagged(Tagged([], l0, "LED0"), l1, "LED1");
    if t == map[] then a + ["LED0+LED1:default_off"] else a
  }

  /** The targets `_build_targets` settles on. */
  function TargetsOf(form: map<string, string>): map<int, int>
  {
    LedTargets(LedOf(Led0Fields(form)), LedOf(Led1Fields(form)))
  }

  function AppliedOf(form: map<string, string>): seq<string>
  {
    LedTags(LedOf(Led0Fields(form)), LedOf(Led1Fields(form)))
  }

  /** `add_led`: nothing for an LED whose three fields are absent, otherwise
    * its three bits merged into the targets and its tag recorded. */
  method AddLed(targets: map<int, int>, applied: seq<string>, offs: (int, int, int), c: Rgb, tag: string)
    returns (targets': map<int, int>, applied': seq<string>)
    ensures targets' == Added(targets, offs, LedOf(c)) && applied' == Tagged(applied, LedOf(c), tag)
  {
    if Absent(c) {
      return targets, applied;
    }
    var vals := (ToBit(c.r, 0), ToBit(c.g, 0), ToBit(c.b, 0));
    var mapping := map[offs.0 := vals.0, offs.1 := vals.1, offs.2 := vals.2];
    targets' := targets + mapping;
    applied' := applied + [tag];
  }

  /** `_build_targets(form)`: the chip path, the offset-to-bit targets and the
    * tags of what was applied. */
  method BuildTargets(form: map<string, string>) returns (chip: string, targets: map<int, int>, applied: seq<string>)
    ensures chip == ChipOf(form) && targets == TargetsOf(form) && applied == AppliedOf(form)
  {
    chip := if "chip" in form then form["chip"] else DefaultChip;
    if chip == [] {
      chip := DefaultChip;
    }
    var c0 := Rgb(FormGet(form, "r0"), FormGet(form, "g0"), FormGet(form, "b0"));
    if Absent(c0) {
      if "r" in form || "g" in form || "b" in form {
        c0 := Rgb(FormGet(form, "r"), FormGet(form, "g"), FormGet(form, "b"));
      }
    }
    var c1 := Rgb(FormGet(form, "r1"), FormGet(form, "g1"), FormGet(form, "b1"));
    targets, applied := ApplyLeds(c0, c1);
  }

  /** The two `add_led` calls and the all-off fallback when neither LED was
    * given. */
  method ApplyLeds(c0: Rgb, c1: Rgb) returns (targets: map<int, int>, applied: seq<string>)
    ensures targets == LedTargets(LedOf(c0), LedOf(c1)) && applied == LedTags(LedOf(c0), LedOf(c1))
  {
    targets, applied := map[], [];
    targets, applied := AddLed(targets, applied, Led0Offsets, c0, "LED0");
    targets, applied := AddLed(targets, applied, Led1Offsets, c1, "LED1");
    if targets == map[] {
      targets := targets + AllOff();
      applied := applied + ["LED0+LED1:default_off"];
    }
  }

  /** Which lines the two LEDs end up driving: the offsets of each present
    * LED with its bits, and every line off exactly when neither is present. */
  lemma LedTargetsMeaning(l0: Led, l1: Led)
    ensures !l0.present && !l1.present ==> LedTargets(l0, l1) == AllOff()
    ensures !l0.present && !l1.present ==> LedTags(l0, l1) == ["LED0+LED1:default_off"]
    ensures l0.present || l1.present ==>
      LedTargets(l0, l1).Keys ==
        (if l0.present then {2, 1, 0} else {}) + (if l1.present then {5, 4, 3} else {})
    ensures l1.present ==>
      (LedTargets(l0, l1)[5] == l1.bits.0 && LedTargets(l0, l1)[4] == l1.bits.1 &&
       LedTargets(l0, l1)[3] == l1.bits.2)
    ensures l0.present ==>
      (LedTargets(l0, l1)[2] == l0.bits.0 && LedTargets(l0, l1)[1] == l0.bits.1 &&
       LedTargets(l0, l1)[0] == l0.bits.2)
  {
    var t0 := Added(map[], Led0Offsets, l0);
    var t := Added(t0, Led1Offsets, l1);
    if l0.present {
      assert 2 in t;
    } else if l1.present {
      assert 5 in t;
    } else {
      assert t == map[];
    }
  }

  /** Every target is one of the six offsets and holds 0 or 1. */
  lemma TargetsAreBits(form: map<string, string>)
    ensures forall o :: o in TargetsOf(form) ==> 0 <= o <= 5 && TargetsOf(form)[o] in {0, 1}
  {
    var l0, l1 := LedOf(Led0Fields(form)), LedOf(Led1Fields(form));
    LedBitsOnly(l0, l1);
  }

  lemma LedBitsOnly(l0: Led, l1: Led)
    requires l0.bits.0 in {0, 1} && l0.bits.1 in {0, 1} && l0.bits.2 in {0, 1}
    requires l1.bits.0 in {0, 1} && l1.bits.1 in {0, 1} && l1.bits.2 in {0, 1}
    ensures forall o :: o in LedTargets(l0, l1) ==> 0 <= o <= 5 && LedTargets(l0, l1)[o] in {0, 1}
  {
    LedTargetsMeaning(l0, l1);
    var t := LedTargets(l0, l1);
    forall o | o in t
      ensures 0 <= o <= 5 && t[o] in {0, 1}
    {
      assert o in {2, 1, 0, 5, 4, 3};
    }
  }

  /** A form naming no LED field at all turns all six lines off. */
  lemma TargetsDefaultOff(form: map<string, string>)
    requires forall k :: k in form ==> k !in {"r0", "g0", "b0", "r1", "g1", "b1", "r", "g", "b"}
    ensures TargetsOf(form) == AllOff()
    ensures AppliedOf(form) == ["LED0+LED1:default_off"]
  {
    LedTargetsMeaning(LedOf(Led0Fields(form)), LedOf(Led1Fields(form)));
  }

  /** A present LED always drives its three offsets: a missing colour is 0. */
  lemma PresentLedDriven(form: map<string, string>)
    requires !Absent(Led1Fields(form))
    ensures 5 in TargetsOf(form) && 4 in TargetsOf(form) && 3 in TargetsOf(form)
    ensures "g1" !in form ==> TargetsOf(form)[4] == 0
    ensures TargetsOf(form)[5] == ToBit(FormGet(form, "r1"), 0)
  {
    LedTargetsMeaning(LedOf(Led0Fields(form)), LedOf(Led1Fields(form)));
  }

  /** The legacy keys drive LED0 only when none of `r0`, `g0`, `b0` is given. */
  lemma LegacyKeys(form: map<string, string>)
    ensures ("r0" in form || "g0" in form || "b0" in form) ==>
      Led0Fields(form) == Rgb(FormGet(form, "r0"), FormGet(form, "g0"), FormGet(form, "b0"))
    ensures ("r0" !in form && "g0" !in form && "b0" !in form && "r" in form) ==>
      TargetsOf(form)[2] == ToBit(Some(form["r"]), 0)
  {
    LedTargetsMeaning(LedOf(Led0Fields(form)), LedOf(Led1Fields(form)));
  }
}

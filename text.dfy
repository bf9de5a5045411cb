/**
 * The text primitives the radar line parsers rely on: whitespace stripping,
 * splitting on a separator character, and the integer conversions of the
 * three host languages (Python `int`, C++ `std::stoi`, Qt `QString::toInt`),
 * each with the decimal or hexadecimal rendering it inverts.
 */
module Text {
  import opened Wrappers

  const INT32_MIN: int := -0x8000_0000
  const INT32_MAX: int := 0x7FFF_FFFF

  // ---------------------------------------------------------------- whitespace

  /** `isspace` in the C locale. */
  predicate IsCSpace(c: char) {
    c == ' ' || c == '\t' || c == '\n' || c == '\r' || c == '\U{000B}' || c == '\U{000C}'
  }

  /** Python's `str.isspace` restricted to Latin-1 (adds the ASCII separators and NEL, NBSP). */
  predicate IsPySpace(c: char) {
    IsCSpace(c) || ('\U{001C}' <= c <= '\U{001F}') || c == '\U{0085}' || c == '\U{00A0}'
  }

  /** `QChar::isSpace` restricted to Latin-1. */
  predicate IsQtSpace(c: char) {
    IsCSpace(c) || c == '\U{0085}' || c == '\U{00A0}'
  }

  /** Which language's notion of whitespace a trimming operation uses; `CrOrSpace` is a hand-written trim of '\r' and ' '. */
  datatype Spaces = CSpaces | PySpaces | QtSpaces | CrOrSpace

  predicate IsSpace(sp: Spaces, c: char) {
    match sp
    case CSpaces => IsCSpace(c)
    case PySpaces => IsPySpace(c)
    case QtSpaces => IsQtSpace(c)
    case CrOrSpace => c == '\r' || c == ' '
  }

  function DropLeading(s: string, sp: Spaces): (r: string)
    ensures |r| <= |s| && r == s[|s| - |r|..]
    ensures r == [] || !IsSpace(sp, r[0])
  {
    if s != [] && IsSpace(sp, s[0]) then DropLeading(s[1..], sp) else s
  }

  /** Everything DropLeading removes is whitespace. */
  lemma {:induction false} DropLeadingSpaces(s: string, sp: Spaces)
    ensures forall i :: 0 <= i < |s| - |DropLeading(s, sp)| ==> IsSpace(sp, s[i])
  {
    if s != [] && IsSpace(sp, s[0]) {
      DropLeadingSpaces(s[1..], sp);
      forall i | 1 <= i < |s| - |DropLeading(s, sp)|
        ensures IsSpace(sp, s[i])
      {
        assert s[i] == s[1..][i - 1];
      }
    }
  }

  function DropTrailing(s: string, sp: Spaces): (r: string)
    ensures |r| <= |s| && r == s[..|r|]
    ensures r == [] || !IsSpace(sp, r[|r| - 1])
  {
    if s != [] && IsSpace(sp, s[|s| - 1]) then DropTrailing(s[..|s| - 1], sp) else s
  }

  /** Everything DropTrailing removes is whitespace. */
  lemma {:induction false} DropTrailingSpaces(s: string, sp: Spaces)
    ensures forall i :: |DropTrailing(s, sp)| <= i < |s| ==> IsSpace(sp, s[i])
  {
    if s != [] && IsSpace(sp, s[|s| - 1]) {
      DropTrailingSpaces(s[..|s| - 1], sp);
      forall i | |DropTrailing(s, sp)| <= i < |s| - 1
        ensures IsSpace(sp, s[i])
      {
        assert s[i] == s[..|s| - 1][i];
      }
    }
  }

  /** Removes leading and trailing characters of the class `sp` (Python `strip()`, Qt `trimmed()`). */
  function Strip(s: string, sp: Spaces): string {
    DropTrailing(DropLeading(s, sp), sp)
  }

  /** Stripping leaves no whitespace at either end. */
  lemma StripEnds(s: string, sp: Spaces)
    ensures var r := Strip(s, sp); r == [] || (!IsSpace(sp, r[0]) && !IsSpace(sp, r[|r| - 1]))
  {
    var t := DropLeading(s, sp);
    var r := DropTrailing(t, sp);
    if r != [] {
      assert r[0] == t[0];
    }
  }

  /** Everything stripping removes is whitespace. */
  lemma StripRemovesSpaces(s: string, sp: Spaces)
    ensures var r, k := Strip(s, sp), |s| - |DropLeading(s, sp)|;
      (forall i :: 0 <= i < k ==> IsSpace(sp, s[i]))
      && (forall i :: k + |r| <= i < |s| ==> IsSpace(sp, s[i]))
  {
    var t := DropLeading(s, sp);
    var r := DropTrailing(t, sp);
    var k := |s| - |t|;
    DropLeadingSpaces(s, sp);
    DropTrailingSpaces(t, sp);
    forall i | k + |r| <= i < |s| ensures IsSpace(sp, s[i]) {
      assert s[i] == t[i - k];
    }
  }

  lemma StripUntouched(s: string, sp: Spaces)
    requires s == [] || (!IsSpace(sp, s[0]) && !IsSpace(sp, s[|s| - 1]))
    ensures Strip(s, sp) == s
  {
  }

  // ---------------------------------------------------------------- splitting

  /** `str.split(sep)` / `QString::split(sep)`: every part, empty ones included. */
  function Split(s: string, sep: char): (parts: seq<string>)
    ensures |parts| >= 1
    ensures forall i :: 0 <= i < |parts| ==> sep !in parts[i]
  {
    if sep !in s then [s]
    else
      var k := IndexOf(s, sep);
      [s[..k]] + Split(s[k + 1..], sep)
  }

  /** The first position of `c` in `s`. */
  function IndexOf(s: string, c: char): (k: nat)
    requires c in s
    ensures k < |s| && s[k] == c && c !in s[..k]
  {
    if s[0] == c then 0 else 1 + IndexOf(s[1..], c)
  }

  function Join(parts: seq<string>, sep: char): string
    requires |parts| >= 1
  {
    if |parts| == 1 then parts[0] else parts[0] + [sep] + Join(parts[1..], sep)
  }

  /** Splitting loses nothing: re-joining the parts with the separator gives the input back. */
  lemma {:induction false} SplitJoin(s: string, sep: char)
    ensures Join(Split(s, sep), sep) == s
    decreases |s|
  {
    if sep in s {
      var k := IndexOf(s, sep);
      SplitJoin(s[k + 1..], sep);
      assert s == s[..k] + [sep] + s[k + 1..];
    }
  }

  lemma {:induction false} IndexOfAfter(p: string, rest: string, sep: char)
    requires sep !in p
    ensures IndexOf(p + [sep] + rest, sep) == |p|
  {
    if p != [] {
      assert (p + [sep] + rest)[1..] == p[1..] + [sep] + rest;
      IndexOfAfter(p[1..], rest, sep);
    }
  }

  /** Splitting a join of separator-free parts gives the parts back. */
  lemma {:induction false} JoinSplit(parts: seq<string>, sep: char)
    requires |parts| >= 1
    requires forall i :: 0 <= i < |parts| ==> sep !in parts[i]
    ensures Split(Join(parts, sep), sep) == parts
  {
    if |parts| > 1 {
      var s := Join(parts, sep);
      var p := parts[0];
      assert s == p + [sep] + Join(parts[1..], sep);
      assert s[|p|] == sep;
      assert s[..|p|] == p;
      IndexOfAfter(p, Join(parts[1..], sep), sep);
      assert s[|p| + 1..] == Join(parts[1..], sep);
      JoinSplit(parts[1..], sep);
    } else {
      assert sep !in parts[0];
    }
  }

  /** The longest prefix of `s` without a character of the class `sp`. */
  function WordPrefix(s: string, sp: Spaces): (w: string)
    ensures |w| <= |s| && w == s[..|w|]
    ensures forall i :: 0 <= i < |w| ==> !IsSpace(sp, w[i])
    ensures |w| == |s| || IsSpace(sp, s[|w|])
  {
    if s != [] && !IsSpace(sp, s[0]) then [s[0]] + WordPrefix(s[1..], sp) else []
  }

  /** A non-empty run of non-whitespace characters. */
  predicate IsPyWord(w: string) {
    w != [] && forall j :: 0 <= j < |w| ==> !IsSpace(PySpaces, w[j])
  }

  /** Python `str.split()` without arguments: the maximal runs of non-whitespace. */
  function PyWords(s: string): (ws: seq<string>)
    decreases |s|
  {
    var t := DropLeading(s, PySpaces);
    if t == [] then []
    else
      var w := WordPrefix(t, PySpaces);
      assert |w| >= 1 by { assert !IsSpace(PySpaces, t[0]); }
      [w] + PyWords(t[|w|..])
  }

  /** Every word `str.split()` yields is non-empty and free of whitespace. */
  lemma {:induction false} PyWordsAreWords(s: string)
    ensures forall i :: 0 <= i < |PyWords(s)| ==> IsPyWord(PyWords(s)[i])
    decreases |s|
  {
    var t := DropLeading(s, PySpaces);
    if t != [] {
      var w := WordPrefix(t, PySpaces);
      assert |w| >= 1 by { assert !IsSpace(PySpaces, t[0]); }
      PyWordsAreWords(t[|w|..]);
      var ws := PyWords(s);
      assert ws == [w] + PyWords(t[|w|..]);
      forall i | 0 <= i < |ws| ensures IsPyWord(ws[i]) {
        if i > 0 { assert ws[i] == PyWords(t[|w|..])[i - 1]; }
      }
    }
  }

  lemma {:induction false} WordPrefixOfWord(w: string, rest: string)
    requires w == [] || IsPyWord(w)
    requires rest == [] || IsSpace(PySpaces, rest[0])
    ensures WordPrefix(w + rest, PySpaces) == w
  {
    if w != [] {
      assert (w + rest)[1..] == w[1..] + rest;
      WordPrefixOfWord(w[1..], rest);
    }
  }

  lemma PyWordsSkipsSpace(rest: string)
    ensures PyWords([' '] + rest) == PyWords(rest)
  {
    assert ([' '] + rest)[1..] == rest;
    assert DropLeading([' '] + rest, PySpaces) == DropLeading(rest, PySpaces);
  }

  lemma PyWordsOfWordFirst(w: string, rest: string)
    requires IsPyWord(w)
    requires rest == [] || IsSpace(PySpaces, rest[0])
    ensures PyWords(w + rest) == [w] + PyWords(rest)
  {
    var s := w + rest;
    assert !IsSpace(PySpaces, s[0]);
    assert DropLeading(s, PySpaces) == s;
    WordPrefixOfWord(w, rest);
    assert s[|w|..] == rest;
  }

  lemma ConsSplit<T>(s: seq<T>)
    requires |s| >= 1
    ensures s == [s[0]] + s[1..]
  {
  }

  lemma PyWordsJoinStep(w: string, tail: seq<string>)
    requires IsPyWord(w) && |tail| >= 1 && IsPyWord(tail[0])
    ensures PyWords(Join([w] + tail, ' ')) == [w] + PyWords(Join(tail, ' '))
  {
    var rest := Join(tail, ' ');
    assert ([w] + tail)[1..] == tail;
    assert Join([w] + tail, ' ') == w + ([' '] + rest);
    JoinStart(tail);
    PyWordsOfWordFirst(w, [' '] + rest);
    PyWordsSkipsSpace(rest);
  }

  /** Splitting words joined by single spaces gives the words back. */
  lemma {:induction false} PyWordsOfJoin(words: seq<string>)
    requires |words| >= 1
    requires forall i :: 0 <= i < |words| ==> IsPyWord(words[i])
    ensures PyWords(Join(words, ' ')) == words
  {
    if |words| == 1 {
      assert Join(words, ' ') == words[0] + [];
      PyWordsOfWordFirst(words[0], []);
    } else {
      ConsSplit(words);
      PyWordsJoinStep(words[0], words[1..]);
      PyWordsOfJoin(words[1..]);
    }
  }

  lemma JoinStart(words: seq<string>)
    requires |words| >= 1 && words[0] != []
    ensures Join(words, ' ') != [] && Join(words, ' ')[0] == words[0][0]
  {
  }

  // ---------------------------------------------------------------- decimal

  predicate IsDigit(c: char) { '0' <= c <= '9' }

  predicate AllDigits(s: string) { forall i :: 0 <= i < |s| ==> IsDigit(s[i]) }

  function DigitChar(d: int): char
    requires 0 <= d < 10
  {
    ['0', '1', '2', '3', '4', '5', '6', '7', '8', '9'][d]
  }

  function DigitValue(c: char): int
    requires IsDigit(c)
  {
    c as int - '0' as int
  }

  /** The value of a string of decimal digits, most significant first. */
  function DigitsValue(s: string): (v: nat)
    requires AllDigits(s)
  {
    if s == [] then 0 else DigitsValue(s[..|s| - 1]) * 10 + DigitValue(s[|s| - 1])
  }

  /** Decimal rendering of a natural number, without leading zeros. */
  function ShowNat(n: nat): (s: string)
    ensures |s| >= 1 && AllDigits(s)
  {
    if n < 10 then [DigitChar(n)] else ShowNat(n / 10) + [DigitChar(n % 10)]
  }

  /** Decimal rendering with a leading '-' for negative values, as `str(n)` and `std::to_string(n)` give. */
  function ShowInt(n: int): (s: string)
    ensures |s| >= 1 && (n >= 0 ==> AllDigits(s)) && (n < 0 ==> s[0] == '-' && AllDigits(s[1..]))
  {
    if n < 0 then "-" + ShowNat(-n) else ShowNat(n)
  }

  lemma {:induction false} ShowNatValue(n: nat)
    ensures DigitsValue(ShowNat(n)) == n
  {
    if n >= 10 {
      var s := ShowNat(n);
      assert s[..|s| - 1] == ShowNat(n / 10);
      ShowNatValue(n / 10);
    }
  }

  /** An optional sign followed by at least one decimal digit, all of `t`. */
  function SignedDecimal(t: string): (r: Option<int>)
    ensures r.Some? <==> (|t| >= 1 && AllDigits(t) && t != [])
                         || (|t| >= 2 && (t[0] == '+' || t[0] == '-') && AllDigits(t[1..]))
  {
    if |t| >= 1 && (t[0] == '+' || t[0] == '-') then
      if |t| >= 2 && AllDigits(t[1..]) then
        Some(if t[0] == '-' then -(DigitsValue(t[1..]) as int) else DigitsValue(t[1..]) as int)
      else None
    else if |t| >= 1 && AllDigits(t) then Some(DigitsValue(t))
    else None
  }

  lemma SignedDecimalOfShow(n: int)
    ensures SignedDecimal(ShowInt(n)) == Some(n)
  {
    var t := ShowInt(n);
    if n < 0 {
      var m: nat := -n;
      ShowNatValue(m);
      assert t == "-" + ShowNat(m);
      assert t[1..] == ShowNat(m);
      assert t[0] == '-' && |t| >= 2;
      assert SignedDecimal(t) == Some(-(DigitsValue(ShowNat(m)) as int));
    } else {
      ShowNatValue(n);
      assert t == ShowNat(n);
      assert IsDigit(t[0]);
      assert SignedDecimal(t) == Some(DigitsValue(t) as int);
    }
  }

  /** Python `int(s)`: surrounding whitespace, an optional sign, decimal digits. */
  function PyInt(s: string): (r: Option<int>)
    ensures var t := Strip(s, PySpaces); r.Some? ==> t != [] && IsDigit(t[|t| - 1])
    ensures r.Some? && r.value < 0 ==> Strip(s, PySpaces)[0] == '-'
  {
    SignedDecimal(Strip(s, PySpaces))
  }

  /** Qt `QString::toInt(&ok)`: like `PyInt`, but the value must fit in 32 bits. */
  function QtToInt(s: string): (r: Option<int>)
    ensures r.Some? ==> INT32_MIN <= r.value <= INT32_MAX
  {
    var v := SignedDecimal(Strip(s, QtSpaces));
    if v.Some? && INT32_MIN <= v.value <= INT32_MAX then v else None
  }

  /** `int(str(n)) == n` and `QString::number(n).toInt() == n`. */
  lemma {:induction false} DecimalRoundTrip(n: int)
    ensures PyInt(ShowInt(n)) == Some(n)
    ensures INT32_MIN <= n <= INT32_MAX ==> QtToInt(ShowInt(n)) == Some(n)
  {
    var s := ShowInt(n);
    assert !IsSpace(PySpaces, s[0]) && !IsSpace(PySpaces, s[|s| - 1]);
    StripUntouched(s, PySpaces);
    StripUntouched(s, QtSpaces);
    SignedDecimalOfShow(n);
  }

  /** The longest prefix of `s` made of decimal digits. */
  function DigitPrefix(s: string): (d: string)
    ensures |d| <= |s| && d == s[..|d|] && AllDigits(d)
    ensures |d| == |s| || !IsDigit(s[|d|])
  {
    if s != [] && IsDigit(s[0]) then [s[0]] + DigitPrefix(s[1..]) else []
  }

  /**
   * C++ `std::stoi(s)`: leading whitespace, an optional sign and the longest
   * run of digits; the rest is ignored. No digit raises invalid_argument and
   * a value outside 32 bits raises out_of_range: both are None here.
   */
  function CStoi(s: string): (r: Option<int>)
    ensures r.Some? ==> INT32_MIN <= r.value <= INT32_MAX
  {
    var t := DropLeading(s, CSpaces);
    if |t| >= 1 && (t[0] == '+' || t[0] == '-') then StoiDigits(t[0] == '-', t[1..])
    else StoiDigits(false, t)
  }

  /** The number in front of `body`, negated when a '-' preceded it, if it has digits and fits in 32 bits. */
  function StoiDigits(negative: bool, body: string): (r: Option<int>)
    ensures r.Some? ==> INT32_MIN <= r.value <= INT32_MAX
  {
    var d := DigitPrefix(body);
    if d == [] then None
    else
      var v: int := if negative then -(DigitsValue(d) as int) else DigitsValue(d);
      if INT32_MIN <= v <= INT32_MAX then Some(v) else None
  }

  lemma {:induction false} DigitPrefixOfDigits(d: string, rest: string)
    requires AllDigits(d)
    requires rest == [] || !IsDigit(rest[0])
    ensures DigitPrefix(d + rest) == d
    decreases |d|
  {
    if d != [] {
      var s := d + rest;
      assert s[0] == d[0] && IsDigit(d[0]);
      assert s[1..] == d[1..] + rest;
      assert AllDigits(d[1..]);
      DigitPrefixOfDigits(d[1..], rest);
      assert d == [d[0]] + d[1..];
    } else {
      assert d + rest == rest;
    }
  }

  /** `std::stoi(std::to_string(n) + rest) == n` for any rest that does not continue the number. */
  lemma {:induction false} StoiRoundTrip(n: int, rest: string)
    requires INT32_MIN <= n <= INT32_MAX
    requires rest == [] || !IsDigit(rest[0])
    ensures CStoi(ShowInt(n) + rest) == Some(n)
  {
    if n < 0 {
      StoiNegative(-n, rest);
    } else {
      StoiNonNegative(n, rest);
    }
  }

  lemma StoiNegative(m: nat, rest: string)
    requires 0 < m <= -INT32_MIN
    requires rest == [] || !IsDigit(rest[0])
    ensures CStoi(ShowInt(-(m as int)) + rest) == Some(-(m as int))
  {
    var body := ShowNat(m) + rest;
    var s := ShowInt(-(m as int)) + rest;
    assert s == "-" + body;
    StoiAfterSign(body);
    StoiDigitsOfShow(true, m, rest);
  }

  lemma StoiNonNegative(n: nat, rest: string)
    requires n <= INT32_MAX
    requires rest == [] || !IsDigit(rest[0])
    ensures CStoi(ShowInt(n) + rest) == Some(n)
  {
    var s := ShowNat(n) + rest;
    assert ShowInt(n) + rest == s;
    StoiDigitsOfShow(false, n, rest);
    StoiOfDigits(s);
  }

  /** A '-' in front is the sign that std::stoi reads. */
  lemma StoiAfterSign(body: string)
    ensures CStoi("-" + body) == StoiDigits(true, body)
  {
    var s := "-" + body;
    assert s[0] == '-' && s[1..] == body;
    assert DropLeading(s, CSpaces) == s;
  }

  /** A digit in front: std::stoi reads the number from the start. */
  lemma StoiOfDigits(s: string)
    requires s != [] && IsDigit(s[0])
    ensures CStoi(s) == StoiDigits(false, s)
  {
    assert DropLeading(s, CSpaces) == s;
  }

  /** The digits of a rendering, followed by anything that is not a digit, read back as the number. */
  lemma StoiDigitsOfShow(negative: bool, m: nat, rest: string)
    requires if negative then m <= -INT32_MIN else m <= INT32_MAX
    requires rest == [] || !IsDigit(rest[0])
    ensures StoiDigits(negative, ShowNat(m) + rest) == Some(if negative then -(m as int) else m)
    ensures ShowNat(m) + rest != [] && IsDigit((ShowNat(m) + rest)[0])
  {
    DigitPrefixOfDigits(ShowNat(m), rest);
    ShowNatValue(m);
  }

  // ---------------------------------------------------------------- hexadecimal

  predicate IsHexDigit(c: char) { ('0' <= c <= '9') || ('a' <= c <= 'f') || ('A' <= c <= 'F') }

  predicate AllHexDigits(s: string) { forall i :: 0 <= i < |s| ==> IsHexDigit(s[i]) }

  function HexDigitValue(c: char): (v: int)
    requires IsHexDigit(c)
    ensures 0 <= v < 16
  {
    if '0' <= c <= '9' then c as int - '0' as int
    else if 'a' <= c <= 'f' then c as int - 'a' as int + 10
    else c as int - 'A' as int + 10
  }

  function HexDigitsValue(s: string): (v: nat)
    requires AllHexDigits(s)
  {
    if s == [] then 0 else HexDigitsValue(s[..|s| - 1]) * 16 + HexDigitValue(s[|s| - 1])
  }

  function HexChar(d: int): (c: char)
    requires 0 <= d < 16
    ensures IsHexDigit(c) && HexDigitValue(c) == d
  {
    "0123456789ABCDEF"[d]
  }

  /** Upper-case hexadecimal rendering, as the `X` format gives. */
  function ShowHex(n: nat): (s: string)
    ensures |s| >= 1 && AllHexDigits(s)
  {
    if n < 16 then [HexChar(n)] else ShowHex(n / 16) + [HexChar(n % 16)]
  }

  lemma {:induction false} ShowHexValue(n: nat)
    ensures HexDigitsValue(ShowHex(n)) == n
  {
    if n >= 16 {
      var s := ShowHex(n);
      assert s[..|s| - 1] == ShowHex(n / 16);
      ShowHexValue(n / 16);
    }
  }

  /** Hex digits after an optional `0x`/`0X` prefix. */
  function HexBody(t: string): Option<int> {
    var u := if |t| >= 2 && t[0] == '0' && (t[1] == 'x' || t[1] == 'X') then t[2..] else t;
    if |u| >= 1 && AllHexDigits(u) then Some(HexDigitsValue(u)) else None
  }

  /** Python `int(s, 16)`: surrounding whitespace, an optional sign, an optional `0x` prefix, hex digits. */
  function PyHexInt(s: string): (r: Option<int>)
    ensures r.Some? ==> Strip(s, PySpaces) != []
    ensures r.Some? && r.value < 0 ==> Strip(s, PySpaces)[0] == '-'
  {
    SignedHex(Strip(s, PySpaces))
  }

  /** An optional sign, then the hex body. */
  function SignedHex(t: string): Option<int> {
    if |t| >= 1 && (t[0] == '+' || t[0] == '-') then
      match HexBody(t[1..])
      case Some(v) => Some(if t[0] == '-' then -v else v)
      case None => None
    else HexBody(t)
  }

  /** `int(format(n, 'X'), 16) == n`. */
  lemma {:induction false} HexRoundTrip(n: nat)
    ensures PyHexInt(ShowHex(n)) == Some(n)
  {
    PyHexIntOfDigits(ShowHex(n));
    ShowHexValue(n);
  }

  /** A plain run of hex digits parses to its value: no spaces, sign or `0x` prefix to strip. */
  lemma PyHexIntOfDigits(s: string)
    requires |s| >= 1 && AllHexDigits(s)
    ensures PyHexInt(s) == Some(HexDigitsValue(s))
  {
    DigitsUnstripped(s);
    SignedHexOfDigits(s);
  }

  lemma DigitsUnstripped(s: string)
    requires |s| >= 1 && AllHexDigits(s)
    ensures Strip(s, PySpaces) == s
  {
    HexDigitNotSpace(s[0]);
    HexDigitNotSpace(s[|s| - 1]);
    StripUntouched(s, PySpaces);
  }

  lemma SignedHexOfDigits(s: string)
    requires |s| >= 1 && AllHexDigits(s)
    ensures SignedHex(s) == Some(HexDigitsValue(s))
  {
    assert s[0] != '+' && s[0] != '-';
    assert |s| >= 2 ==> s[1] != 'x' && s[1] != 'X';
    assert HexBody(s) == Some(HexDigitsValue(s));
  }

  lemma HexDigitNotSpace(c: char)
    requires IsHexDigit(c)
    ensures !IsSpace(PySpaces, c)
  {
  }

  // ---------------------------------------------------------------- bits

  function Pow2(k: nat): (p: nat)
    ensures p >= 1
  {
    if k == 0 then 1 else 2 * Pow2(k - 1)
  }

  /** Bit k of an integer, `(v >> k) & 1` in Python (two's complement, so also for negative values). */
  predicate Bit(v: int, k: nat) {
    (v / Pow2(k)) % 2 == 1
  }

  /** The four low bits as the masks 0x01, 0x02, 0x04 and 0x08 select them. */
  lemma LowBits(v: int)
    ensures Bit(v, 0) == (v % 2 == 1) && Bit(v, 1) == ((v / 2) % 2 == 1)
    ensures Bit(v, 2) == ((v / 4) % 2 == 1) && Bit(v, 3) == ((v / 8) % 2 == 1)
  {
    assert Pow2(0) == 1 && Pow2(1) == 2 && Pow2(2) == 4 && Pow2(3) == 8;
  }
}

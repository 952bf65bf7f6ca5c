/** The Go string operations the source relies on, over sequences of Unicode
    characters: trimming, splitting, joining, cutting, lower-casing, decimal
    and hexadecimal text, and host:port splitting. */
module Text {
  import opened Wrappers

  const MinInt64: int := -0x8000_0000_0000_0000
  const MaxInt64: int := 0x7FFF_FFFF_FFFF_FFFF
  const MaxUint64: int := 0xFFFF_FFFF_FFFF_FFFF

  type int64 = x: int | MinInt64 <= x <= MaxInt64

  /** unicode.IsSpace. */
  predicate IsSpace(c: char) {
    var n := c as int;
    || n == 0x20 || 0x09 <= n <= 0x0D || n == 0x85 || n == 0xA0 || n == 0x1680
    || 0x2000 <= n <= 0x200A || n == 0x2028 || n == 0x2029 || n == 0x202F
    || n == 0x205F || n == 0x3000
  }

  /** unicode.ToLower on every character whose lower case is an ASCII letter. */
  function LowerChar(c: char): char {
    if 'A' <= c <= 'Z' then ((c as int) + 32) as char
    else if c as int == 0x212A then 'k'
    else if c as int == 0x130 then 'i'
    else c
  }

  function Lower(s: string): (r: string)
    ensures |r| == |s|
    ensures forall i :: 0 <= i < |s| ==> r[i] == LowerChar(s[i])
  {
    seq(|s|, i requires 0 <= i < |s| => LowerChar(s[i]))
  }

  /** unicode.ToUpper on every character whose upper case is an ASCII letter. */
  function UpperChar(c: char): char {
    if 'a' <= c <= 'z' then ((c as int) - 32) as char
    else if c as int == 0x131 then 'I'
    else if c as int == 0x17F then 'S'
    else c
  }

  function Upper(s: string): (r: string)
    ensures |r| == |s|
  {
    seq(|s|, i requires 0 <= i < |s| => UpperChar(s[i]))
  }

  // ---------------------------------------------------------------- trimming

  function TrimLeft(s: string): string {
    if s != [] && IsSpace(s[0]) then TrimLeft(s[1..]) else s
  }

  function TrimRight(s: string): string {
    if s != [] && IsSpace(s[|s| - 1]) then TrimRight(s[..|s| - 1]) else s
  }

  /** strings.TrimSpace. */
  function Trim(s: string): string {
    TrimRight(TrimLeft(s))
  }

  predicate Trimmed(s: string) {
    s == [] || (!IsSpace(s[0]) && !IsSpace(s[|s| - 1]))
  }

  lemma {:induction false} TrimLeftShape(s: string)
    ensures |TrimLeft(s)| <= |s| && TrimLeft(s) == s[|s| - |TrimLeft(s)|..]
    ensures TrimLeft(s) == [] || !IsSpace(TrimLeft(s)[0])
  {
    if s != [] && IsSpace(s[0]) {
      TrimLeftShape(s[1..]);
    }
  }

  lemma {:induction false} TrimRightShape(s: string)
    ensures |TrimRight(s)| <= |s| && TrimRight(s) == s[..|TrimRight(s)|]
    ensures TrimRight(s) == [] || !IsSpace(TrimRight(s)[|TrimRight(s)| - 1])
  {
    if s != [] && IsSpace(s[|s| - 1]) {
      TrimRightShape(s[..|s| - 1]);
    }
  }

  /** A trimmed text is trimmed, and trimming only removes characters. */
  lemma {:induction false} TrimIsTrimmed(s: string)
    ensures Trimmed(Trim(s))
    ensures forall c :: c in Trim(s) ==> c in s
  {
    TrimLeftShape(s);
    TrimRightShape(TrimLeft(s));
  }

  lemma {:induction false} TrimOfTrimmed(s: string)
    requires Trimmed(s)
    ensures TrimLeft(s) == s && TrimRight(s) == s && Trim(s) == s
  {
  }

  lemma {:induction false} TrimLeftBefore(b: string, c: char, a: string)
    requires !IsSpace(c)
    ensures TrimLeft(b + [c] + a) == TrimLeft(b) + [c] + a
  {
    if b == [] {
      assert b + [c] + a == [c] + a;
    } else {
      assert (b + [c] + a)[1..] == b[1..] + [c] + a;
      if IsSpace(b[0]) { TrimLeftBefore(b[1..], c, a); }
    }
  }

  lemma {:induction false} TrimRightAfter(b: string, c: char, a: string)
    requires !IsSpace(c)
    ensures TrimRight(b + [c] + a) == b + [c] + TrimRight(a)
  {
    if a == [] {
      assert b + [c] + a == b + [c];
    } else {
      var s := b + [c] + a;
      assert s[..|s| - 1] == b + [c] + a[..|a| - 1];
      if IsSpace(a[|a| - 1]) { TrimRightAfter(b, c, a[..|a| - 1]); }
    }
  }

  lemma TrimLeftTwice(s: string)
    ensures TrimLeft(TrimLeft(s)) == TrimLeft(s)
  {
  }

  lemma TrimRightTwice(s: string)
    ensures TrimRight(TrimRight(s)) == TrimRight(s)
  {
  }

  lemma {:induction false} TrimCommutes(s: string)
    ensures TrimLeft(TrimRight(s)) == TrimRight(TrimLeft(s))
    decreases |s|
  {
    if s != [] && IsSpace(s[|s| - 1]) {
      var t := s[..|s| - 1];
      TrimCommutes(t);
      TrimLeftDropLast(s);
    } else if s != [] {
      TrimLeftShape(s);
      TrimLeftKeepsLast(s);
    }
  }

  lemma TrimLeftKeepsLast(s: string)
    requires s != [] && !IsSpace(s[|s| - 1])
    ensures TrimLeft(s) != [] && TrimLeft(s)[|TrimLeft(s)| - 1] == s[|s| - 1]
  {
  }

  lemma {:induction false} TrimLeftDropLast(s: string)
    requires s != [] && IsSpace(s[|s| - 1])
    ensures TrimRight(TrimLeft(s)) == TrimRight(TrimLeft(s[..|s| - 1]))
  {
    if IsSpace(s[0]) {
      if |s| > 1 {
        TrimLeftDropLast(s[1..]);
        assert s[1..][..|s| - 2] == s[..|s| - 1][1..];
      }
    }
  }

  // ---------------------------------------------------------------- cutting

  /** strings.Cut at the first occurrence of c. */
  function Cut(s: string, c: char): Option<(string, string)> {
    if s == [] then None
    else if s[0] == c then Some(("", s[1..]))
    else match Cut(s[1..], c)
      case None => None
      case Some((a, b)) => Some(([s[0]] + a, b))
  }

  lemma {:induction false} CutAt(a: string, c: char, b: string)
    requires c !in a
    ensures Cut(a + [c] + b, c) == Some((a, b))
  {
    var s := a + [c] + b;
    if a == [] {
      assert s[1..] == b;
    } else {
      assert s[1..] == a[1..] + [c] + b;
      CutAt(a[1..], c, b);
      assert [a[0]] + a[1..] == a;
    }
  }

  lemma CutParts(s: string, c: char)
    ensures Cut(s, c).Some? ==> s == Cut(s, c).value.0 + [c] + Cut(s, c).value.1
    ensures Cut(s, c).None? <==> c !in s
  {
  }

  /** A "key = value" line, read the way both parsers read it: trim the line,
      cut it at the first '=', trim both sides. */
  function KeyValue(line: string): Option<(string, string)> {
    match Cut(Trim(line), '=')
    case None => None
    case Some((k, v)) => Some((Trim(k), Trim(v)))
  }

  /** Trimming before the cut changes nothing after the cut. */
  lemma {:induction false} KeyValueOf(k: string, v: string)
    requires '=' !in k
    ensures KeyValue(k + ['='] + v) == Some((Trim(k), Trim(v)))
  {
    TrimLeftBefore(k, '=', v);
    TrimRightAfter(TrimLeft(k), '=', v);
    TrimLeftShape(k);
    CutAt(TrimLeft(k), '=', TrimRight(v));
    TrimLeftTwice(k);
    TrimRightTwice(v);
    TrimCommutes(v);
    TrimCommutes(TrimRight(v));
  }

  // ---------------------------------------------------------------- splitting

  /** strings.Split on a one-character separator. */
  function Split(s: string, sep: char): (r: seq<string>)
    ensures |r| > 0
  {
    if s == [] then [""]
    else
      var r := Split(s[1..], sep);
      if s[0] == sep then [""] + r else [[s[0]] + r[0]] + r[1..]
  }

  /** strings.Join. */
  function Join(xs: seq<string>, sep: string): string {
    if xs == [] then ""
    else if |xs| == 1 then xs[0]
    else xs[0] + sep + Join(xs[1..], sep)
  }

  lemma {:induction false} SplitCons(a: string, sep: char, b: string)
    requires sep !in a
    ensures Split(a + [sep] + b, sep) == [a] + Split(b, sep)
  {
    var s := a + [sep] + b;
    if a == [] {
      assert s[1..] == b;
    } else {
      assert s[1..] == a[1..] + [sep] + b;
      SplitCons(a[1..], sep, b);
      assert [a[0]] + a[1..] == a;
    }
  }

  lemma {:induction false} SplitPlain(a: string, sep: char)
    requires sep !in a
    ensures Split(a, sep) == [a]
  {
    if a != [] {
      SplitPlain(a[1..], sep);
      assert [a[0]] + a[1..] == a;
    }
  }

  lemma {:induction false} SplitPieces(s: string, sep: char)
    ensures forall p :: p in Split(s, sep) ==> sep !in p
    ensures forall p, c :: p in Split(s, sep) && c in p ==> c in s
  {
    if s != [] {
      SplitPieces(s[1..], sep);
      var r := Split(s[1..], sep);
      assert r[0] in r;
      forall p | p in Split(s, sep)
        ensures sep !in p && forall c :: c in p ==> c in s
      {
        if p == "" {
        } else if s[0] == sep {
          assert p in r;
        } else if p == [s[0]] + r[0] {
        } else {
          assert p in r[1..];
          assert p in r;
        }
      }
    }
  }

  predicate AllFree(xs: seq<string>, c: char) {
    forall i :: 0 <= i < |xs| ==> c !in xs[i]
  }

  /** The pieces with one more character before the first. */
  function Prepend(c: char, r: seq<string>): seq<string>
    requires |r| > 0
  {
    [[c] + r[0]] + r[1..]
  }

  lemma {:induction false} PrependConcat(c: char, r: seq<string>, q: seq<string>)
    requires |r| > 0
    ensures Prepend(c, r + q) == Prepend(c, r) + q
  {
    assert (r + q)[0] == r[0] && (r + q)[1..] == r[1..] + q;
  }

  lemma {:induction false} SplitFirst(s: string, sep: char)
    requires s != []
    ensures Split(s, sep) == if s[0] == sep then [""] + Split(s[1..], sep) else Prepend(s[0], Split(s[1..], sep))
  {
  }

  lemma {:induction false} SplitNothing(sep: char)
    ensures Split("", sep) == [""]
  {
  }

  lemma {:induction false} SplitConcat(a: string, sep: char, b: string)
    ensures Split(a + [sep] + b, sep) == Split(a, sep) + Split(b, sep)
  {
    hide Split, Prepend;
    var s := a + [sep] + b;
    SplitFirst(s, sep);
    if a == [] {
      assert s[1..] == b && s[0] == sep;
      SplitNothing(sep);
    } else {
      assert s[1..] == a[1..] + [sep] + b && s[0] == a[0];
      SplitFirst(a, sep);
      SplitConcat(a[1..], sep, b);
      var first, rest := Split(a[1..], sep), Split(b, sep);
      PrependConcat(a[0], first, rest);
      assert [""] + (first + rest) == [""] + first + rest;
    }
  }

  /** Joining undoes splitting. */
  lemma {:induction false} JoinSplit(s: string, sep: char)
    ensures Join(Split(s, sep), [sep]) == s
  {
    if s != [] {
      JoinSplit(s[1..], sep);
      var r := Split(s[1..], sep);
      if s[0] == sep {
        assert ([""] + r)[1..] == r;
      } else {
        assert Split(s, sep)[1..] == r[1..];
      }
    }
  }

  /** Every line followed by a newline. */
  function Unlines(lines: seq<string>): string {
    if lines == [] then "" else lines[0] + "\n" + Unlines(lines[1..])
  }

  lemma {:induction false} UnlinesConcat(a: seq<string>, b: seq<string>)
    ensures Unlines(a + b) == Unlines(a) + Unlines(b)
  {
    if a == [] {
      assert a + b == b;
    } else {
      assert (a + b)[1..] == a[1..] + b;
      UnlinesConcat(a[1..], b);
    }
  }

  lemma {:induction false} SplitUnlines(lines: seq<string>)
    requires AllFree(lines, '\n')
    ensures Split(Unlines(lines), '\n') == lines + [""]
  {
    if lines != [] {
      SplitCons(lines[0], '\n', Unlines(lines[1..]));
      SplitUnlines(lines[1..]);
      assert [lines[0]] + (lines[1..] + [""]) == lines + [""];
    }
  }

  // ---------------------------------------------------------------- numbers

  function DigitChar(d: nat): (c: char)
    requires d < 10
    ensures '0' <= c <= '9' && c as int - '0' as int == d
  {
    (d + '0' as int) as char
  }

  /** fmt's %d on a non-negative integer. */
  function Itoa(n: nat): (s: string)
    ensures s != [] && forall i :: 0 <= i < |s| ==> '0' <= s[i] <= '9'
  {
    if n < 10 then [DigitChar(n)] else Itoa(n / 10) + [DigitChar(n % 10)]
  }

  predicate Digits(s: string) {
    s != [] && forall i :: 0 <= i < |s| ==> '0' <= s[i] <= '9'
  }

  function DigitsValue(s: string): nat
    requires forall i :: 0 <= i < |s| ==> '0' <= s[i] <= '9'
  {
    if s == [] then 0
    else 10 * DigitsValue(s[..|s| - 1]) + (s[|s| - 1] as int - '0' as int)
  }

  /** strconv.Atoi, and strconv.ParseInt(s, 10, 64). */
  function Atoi(s: string): Option<int64> {
    if s == [] then None
    else
      var signed := s[0] == '-' || s[0] == '+';
      var body := if signed then s[1..] else s;
      if !Digits(body) then None
      else
        var n: int := (if s[0] == '-' then -1 else 1) * DigitsValue(body);
        if MinInt64 <= n <= MaxInt64 then Some(n) else None
  }

  /** strconv.ParseUint(s, 10, 64). */
  function ParseUint(s: string): Option<nat> {
    if Digits(s) && DigitsValue(s) <= MaxUint64 then Some(DigitsValue(s)) else None
  }

  lemma {:induction false} DigitsOfItoa(n: nat)
    ensures DigitsValue(Itoa(n)) == n
  {
    if n >= 10 {
      DigitsOfItoa(n / 10);
      var s := Itoa(n);
      assert s[..|s| - 1] == Itoa(n / 10);
    }
  }

  /** Reading back a printed number gives the number. */
  lemma {:induction false} AtoiOfItoa(n: nat)
    requires n <= MaxInt64
    ensures Atoi(Itoa(n)) == Some(n)
    ensures Trimmed(Itoa(n)) && '\n' !in Itoa(n)
  {
    DigitsOfItoa(n);
  }

  // ---------------------------------------------------------------- hexadecimal

  newtype byte = x: int | 0 <= x < 256

  function HexDigit(d: int): (c: char)
    requires 0 <= d < 16
    ensures '0' <= c <= '9' || 'a' <= c <= 'f'
  {
    if d < 10 then ('0' as int + d) as char else ('a' as int + d - 10) as char
  }

  /** encoding/hex.EncodeToString. */
  function Hex(b: seq<byte>): (s: string)
    ensures forall i :: 0 <= i < |s| ==> '0' <= s[i] <= '9' || 'a' <= s[i] <= 'f'
  {
    if b == [] then ""
    else [HexDigit(b[0] as int / 16), HexDigit(b[0] as int % 16)] + Hex(b[1..])
  }

  function HexValue(c: char): int {
    if '0' <= c <= '9' then c as int - '0' as int else c as int - 'a' as int + 10
  }

  lemma {:induction false} HexDigitValue(d: int)
    requires 0 <= d < 16
    ensures HexValue(HexDigit(d)) == d
  {
  }

  /** Two digits a byte, the high half first. */
  lemma {:induction false} HexDigits(b: seq<byte>, i: nat)
    requires i < |b|
    ensures |Hex(b)| == 2 * |b| && HexValue(Hex(b)[2 * i]) * 16 + HexValue(Hex(b)[2 * i + 1]) == b[i] as int
  {
    hide HexValue, HexDigit;
    HexDigitValue(b[0] as int / 16);
    HexDigitValue(b[0] as int % 16);
    if |b| > 1 { HexDigits(b[1..], if i > 0 then i - 1 else 0); }
  }

  // ---------------------------------------------------------------- host:port

  function IndexOf(s: string, c: char): (r: int)
    ensures -1 <= r < |s|
    ensures r >= 0 ==> s[r] == c
  {
    if s == [] then -1
    else if s[0] == c then 0
    else var r := IndexOf(s[1..], c); if r < 0 then -1 else r + 1
  }

  function LastIndexOf(s: string, c: char): (r: int)
    ensures -1 <= r < |s|
    ensures r >= 0 ==> s[r] == c
  {
    if s == [] then -1
    else if s[|s| - 1] == c then |s| - 1
    else LastIndexOf(s[..|s| - 1], c)
  }

  /** net.SplitHostPort. */
  function SplitHostPort(s: string): Option<(string, string)> {
    var i := LastIndexOf(s, ':');
    if i < 0 then None
    else if s[0] == '[' then
      var end := IndexOf(s, ']');
      if end < 0 || end + 1 != i || '[' in s[1..] || ']' in s[end + 1..] then None
      else Some((s[1..end], s[i + 1..]))
    else if ':' in s[..i] || '[' in s || ']' in s then None
    else Some((s[..i], s[i + 1..]))
  }

  predicate PlainHost(s: string) {
    ':' !in s && '[' !in s && ']' !in s
  }

  lemma {:induction false} LastIndexAt(a: string, c: char, b: string)
    requires c !in b
    ensures LastIndexOf(a + [c] + b, c) == |a|
    decreases |b|
  {
    var s := a + [c] + b;
    if b != [] {
      assert s[..|s| - 1] == a + [c] + b[..|b| - 1];
      assert b[|b| - 1] in b;
      LastIndexAt(a, c, b[..|b| - 1]);
    }
  }

  lemma {:induction false} SplitHostPortOf(h: string, p: string)
    requires PlainHost(h) && PlainHost(p)
    ensures SplitHostPort(h + ":" + p) == Some((h, p))
  {
    var s := h + [':'] + p;
    LastIndexAt(h, ':', p);
    assert s[..|h|] == h && s[|h| + 1..] == p;
    assert s == h + ":" + p;
  }
}

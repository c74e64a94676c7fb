/** String primitives with the JavaScript semantics the core relies on:
    `trim`, `split` on one character, `join`, `padStart` and the decimal
    rendering of integers that `String(n)` and template literals produce. */
module Text {

  /** The characters `String.prototype.trim` removes: ECMAScript's
      WhiteSpace and LineTerminator code points. */
  predicate IsJsWhitespace(c: char) {
    c == '\t' || c == '\n' || c == '\U{B}' || c == '\U{C}' || c == '\r' || c == ' '
    || c == '\U{A0}' || c == '\U{1680}' || ('\U{2000}' <= c <= '\U{200A}')
    || c == '\U{2028}' || c == '\U{2029}' || c == '\U{202F}' || c == '\U{205F}'
    || c == '\U{3000}' || c == '\U{FEFF}'
  }

  /** `s.trimStart()`: the longest suffix of `s` that does not start with whitespace. */
  function TrimStart(s: string): string {
    if |s| > 0 && IsJsWhitespace(s[0]) then TrimStart(s[1..]) else s
  }

  /** `trimStart` removes a whitespace prefix, and all of it. */
  lemma {:induction false} TrimStartSpec(s: string)
    ensures |TrimStart(s)| <= |s| && TrimStart(s) == s[|s| - |TrimStart(s)|..]
    ensures forall k :: 0 <= k < |s| - |TrimStart(s)| ==> IsJsWhitespace(s[k])
    ensures TrimStart(s) == [] || !IsJsWhitespace(TrimStart(s)[0])
  {
    if |s| > 0 && IsJsWhitespace(s[0]) {
      TrimStartSpec(s[1..]);
      assert s[1..][|s| - 1 - |TrimStart(s)|..] == s[|s| - |TrimStart(s)|..];
    }
  }

  /** `s.trimEnd()`: the longest prefix of `s` that does not end with whitespace. */
  function TrimEnd(s: string): string {
    if |s| > 0 && IsJsWhitespace(s[|s| - 1]) then TrimEnd(s[..|s| - 1]) else s
  }

  /** `trimEnd` removes a whitespace suffix, and all of it. */
  lemma {:induction false} TrimEndSpec(s: string)
    ensures |TrimEnd(s)| <= |s| && TrimEnd(s) == s[..|TrimEnd(s)|]
    ensures forall k :: |TrimEnd(s)| <= k < |s| ==> IsJsWhitespace(s[k])
    ensures TrimEnd(s) == [] || !IsJsWhitespace(TrimEnd(s)[|TrimEnd(s)| - 1])
  {
    if |s| > 0 && IsJsWhitespace(s[|s| - 1]) {
      TrimEndSpec(s[..|s| - 1]);
      assert s[..|s| - 1][..|TrimEnd(s)|] == s[..|TrimEnd(s)|];
    }
  }

  /** `s.trim()`. */
  function Trim(s: string): string {
    TrimEnd(TrimStart(s))
  }

  /** A string that `trim` leaves as it is. */
  predicate IsTrimmed(s: string) {
    s == [] || (!IsJsWhitespace(s[0]) && !IsJsWhitespace(s[|s| - 1]))
  }

  lemma TrimResultIsTrimmed(s: string)
    ensures IsTrimmed(Trim(s))
    ensures Trim(s) == [] <==> forall k :: 0 <= k < |s| ==> IsJsWhitespace(s[k])
  {
    var t := TrimStart(s);
    var r := TrimEnd(t);
    TrimStartSpec(s);
    TrimEndSpec(t);
    if r != [] {
      assert r[0] == t[0];
    }
    if t != [] {
      assert t[0] == s[|s| - |t|];
    }
  }

  lemma TrimOfTrimmed(s: string)
    requires IsTrimmed(s)
    ensures Trim(s) == s
  {
    assert TrimStart(s) == s;
  }

  /** One space in front of a trimmed string is exactly what `trim` removes. */
  lemma TrimAfterSpace(v: string)
    requires IsTrimmed(v)
    ensures Trim(" " + v) == v
  {
    assert (" " + v)[1..] == v;
    assert TrimStart(v) == v;
  }

  predicate IsDigit(c: char) {
    '0' <= c <= '9'
  }

  predicate AllDigits(s: string) {
    forall i :: 0 <= i < |s| ==> IsDigit(s[i])
  }

  function DigitChar(d: nat): (c: char)
    requires d < 10
    ensures IsDigit(c) && c as int - '0' as int == d
  {
    ('0' as int + d) as char
  }

  /** `String(n)` for a non-negative integer: its decimal digits, no leading zero. */
  function NatToString(n: nat): string
    decreases n
  {
    if n < 10 then [DigitChar(n)] else NatToString(n / 10) + [DigitChar(n % 10)]
  }

  /** At least one digit, and no leading zero. */
  lemma {:induction false} NatToStringDigits(n: nat)
    ensures |NatToString(n)| >= 1 && AllDigits(NatToString(n))
    ensures NatToString(n)[0] == '0' ==> n == 0
    decreases n
  {
    if n >= 10 {
      NatToStringDigits(n / 10);
      assert NatToString(n)[0] == NatToString(n / 10)[0];
    }
  }

  /** `String(i)` for an integer. */
  function IntToString(i: int): string {
    if i < 0 then "-" + NatToString(-i) else NatToString(i)
  }

  /** A sign exactly for the negative numbers. */
  lemma IntToStringSign(i: int)
    ensures |IntToString(i)| >= 1
    ensures IntToString(i)[0] == '-' <==> i < 0
  {
    NatToStringDigits(if i < 0 then -i else i);
  }

  /** The number a string of decimal digits denotes (leading zeros allowed);
      the reading back of `NatToString`. */
  function DigitsValue(s: string): nat
    requires AllDigits(s)
  {
    if s == [] then 0
    else DigitsValue(s[..|s| - 1]) * 10 + (s[|s| - 1] as int - '0' as int)
  }

  lemma {:induction false} NatToStringRoundTrip(n: nat)
    ensures AllDigits(NatToString(n)) && DigitsValue(NatToString(n)) == n
    decreases n
  {
    NatToStringDigits(n);
    if n >= 10 {
      var s := NatToString(n / 10) + [DigitChar(n % 10)];
      assert s[..|s| - 1] == NatToString(n / 10);
      NatToStringRoundTrip(n / 10);
    }
  }

  lemma NatToStringInjective(m: nat, n: nat)
    requires NatToString(m) == NatToString(n)
    ensures m == n
  {
    NatToStringRoundTrip(m);
    NatToStringRoundTrip(n);
  }

  function Pow10(k: nat): nat {
    if k == 0 then 1 else 10 * Pow10(k - 1)
  }

  /** A number below `10^k` has at most `k` digits. */
  lemma {:induction false} NatToStringLength(n: nat, k: nat)
    requires 1 <= k && n < Pow10(k)
    ensures |NatToString(n)| <= k
    decreases k
  {
    if n >= 10 {
      assert k >= 2;
      NatToStringLength(n / 10, k - 1);
    }
  }

  function Repeat(c: char, k: nat): string {
    if k == 0 then "" else [c] + Repeat(c, k - 1)
  }

  lemma {:induction false} RepeatSpec(c: char, k: nat)
    ensures |Repeat(c, k)| == k && forall i :: 0 <= i < k ==> Repeat(c, k)[i] == c
  {
    if k > 0 {
      RepeatSpec(c, k - 1);
    }
  }

  /** Digits in front that are zero do not change the value. */
  lemma {:induction false} LeadingZerosValue(k: nat, s: string)
    requires AllDigits(s)
    ensures AllDigits(Repeat('0', k) + s)
    ensures DigitsValue(Repeat('0', k) + s) == DigitsValue(s)
    decreases |s|
  {
    var z := Repeat('0', k);
    RepeatSpec('0', k);
    if s == [] {
      assert z + s == z;
      ZerosValue(k);
    } else {
      var t := z + s;
      assert t[..|t| - 1] == z + s[..|s| - 1];
      LeadingZerosValue(k, s[..|s| - 1]);
    }
  }

  lemma {:induction false} ZerosValue(k: nat)
    ensures AllDigits(Repeat('0', k)) && DigitsValue(Repeat('0', k)) == 0
  {
    RepeatSpec('0', k);
    if k > 0 {
      var z := Repeat('0', k);
      RepeatSpec('0', k - 1);
      assert z[..k - 1] == Repeat('0', k - 1);
      ZerosValue(k - 1);
    }
  }

  /** `s.padStart(len, c)` for a one-character filler. */
  function PadStart(s: string, len: nat, c: char): string {
    if |s| >= len then s else Repeat(c, len - |s|) + s
  }

  /** The padded string ends with `s`, after nothing but filler. */
  lemma PadStartSpec(s: string, len: nat, c: char)
    ensures |PadStart(s, len, c)| == if |s| >= len then |s| else len
    ensures PadStart(s, len, c)[|PadStart(s, len, c)| - |s|..] == s
    ensures forall i :: 0 <= i < |PadStart(s, len, c)| - |s| ==> PadStart(s, len, c)[i] == c
  {
    if |s| < len {
      RepeatSpec(c, len - |s|);
    }
  }

  /** `s.split(sep)` for a one-character separator: the pieces between
      separators, always at least one. */
  function Split(s: string, sep: char): (r: seq<string>)
    ensures |r| >= 1
  {
    if |s| == 0 then [""]
    else if s[0] == sep then [""] + Split(s[1..], sep)
    else var t := Split(s[1..], sep); [[s[0]] + t[0]] + t[1..]
  }

  /** `parts.join(sep)`. */
  function Join(parts: seq<string>, sep: string): string {
    if |parts| == 0 then ""
    else if |parts| == 1 then parts[0]
    else parts[0] + sep + Join(parts[1..], sep)
  }

  predicate Free(s: string, c: char) {
    forall i :: 0 <= i < |s| ==> s[i] != c
  }

  /** A separator-free prefix glues onto the first piece. */
  lemma {:induction false} SplitFreePrefix(p: string, s: string, sep: char)
    requires Free(p, sep)
    ensures Split(p + s, sep) == [p + Split(s, sep)[0]] + Split(s, sep)[1..]
    decreases |p|
  {
    if p != [] {
      assert (p + s)[0] == p[0];
      assert (p + s)[1..] == p[1..] + s;
      SplitFreePrefix(p[1..], s, sep);
      assert [p[0]] + (p[1..] + Split(s, sep)[0]) == p + Split(s, sep)[0];
    } else {
      assert p + s == s;
      assert p + Split(s, sep)[0] == Split(s, sep)[0];
      assert [Split(s, sep)[0]] + Split(s, sep)[1..] == Split(s, sep);
    }
  }

  lemma SplitFree(p: string, sep: char)
    requires Free(p, sep)
    ensures Split(p, sep) == [p]
  {
    SplitFreePrefix(p, "", sep);
    assert p + "" == p;
  }

  /** Splitting a one-character join gives back the pieces, when no piece
      contains the separator. */
  lemma {:induction false} SplitJoin(parts: seq<string>, sep: char)
    requires |parts| >= 1
    requires forall i :: 0 <= i < |parts| ==> Free(parts[i], sep)
    ensures Split(Join(parts, [sep]), sep) == parts
  {
    if |parts| == 1 {
      SplitFree(parts[0], sep);
    } else {
      var rest := Join(parts[1..], [sep]);
      SplitJoin(parts[1..], sep);
      assert parts[0] + [sep] + rest == parts[0] + ([sep] + rest);
      SplitFreePrefix(parts[0], [sep] + rest, sep);
      assert ([sep] + rest)[1..] == rest;
      assert parts[0] + "" == parts[0];
      assert [parts[0]] + parts[1..] == parts;
    }
  }

  /** One space in front of every piece. */
  function AddSpace(ps: seq<string>): (r: seq<string>)
    ensures |r| == |ps|
  {
    if ps == [] then [] else [" " + ps[0]] + AddSpace(ps[1..])
  }

  lemma {:induction false} AddSpaceAt(ps: seq<string>, i: nat)
    requires i < |ps|
    ensures AddSpace(ps)[i] == " " + ps[i]
  {
    if i > 0 {
      AddSpaceAt(ps[1..], i - 1);
    }
  }

  /** The pieces a `c + " "` join splits into on `c`: every piece after the
      first carries the space. */
  function Spaced(ps: seq<string>): (r: seq<string>)
    requires |ps| >= 1
    ensures |r| == |ps|
  {
    [ps[0]] + AddSpace(ps[1..])
  }

  lemma {:induction false} JoinAddSpace(ps: seq<string>, c: char)
    requires |ps| >= 1
    ensures Join(AddSpace(ps), [c]) == " " + Join(ps, [c, ' '])
    decreases |ps|
  {
    if |ps| > 1 {
      JoinAddSpace(ps[1..], c);
      assert (" " + ps[0]) + [c] + (" " + Join(ps[1..], [c, ' ']))
          == " " + (ps[0] + [c, ' '] + Join(ps[1..], [c, ' ']));
    }
  }

  /** A two-character join `c + " "` is a one-character join of the spaced pieces. */
  lemma JoinSpaced(ps: seq<string>, c: char)
    requires |ps| >= 1
    ensures Join(ps, [c, ' ']) == Join(Spaced(ps), [c])
  {
    var sp := Spaced(ps);
    assert sp[0] == ps[0];
    if |ps| > 1 {
      var rest := Join(ps[1..], [c, ' ']);
      assert sp[1..] == AddSpace(ps[1..]);
      JoinAddSpace(ps[1..], c);
      assert Join(sp, [c]) == ps[0] + [c] + (" " + rest);
      assert Join(ps, [c, ' ']) == ps[0] + [c, ' '] + rest;
      JoinSeparatorSplit(ps[0], c, rest);
    }
  }

  lemma JoinSeparatorSplit(a: string, c: char, rest: string)
    ensures a + [c, ' '] + rest == a + [c] + (" " + rest)
  {
  }

  /** Splitting a `c + " "` join on `c` gives the spaced pieces, when no
      piece contains `c`. */
  lemma SplitJoinSpaced(ps: seq<string>, c: char)
    requires |ps| >= 1 && c != ' '
    requires forall i :: 0 <= i < |ps| ==> Free(ps[i], c)
    ensures Split(Join(ps, [c, ' ']), c) == Spaced(ps)
  {
    JoinSpaced(ps, c);
    var sp := Spaced(ps);
    forall i | 0 <= i < |sp| ensures Free(sp[i], c) {
      if i > 0 {
        AddSpaceAt(ps[1..], i - 1);
      }
    }
    SplitJoin(sp, c);
  }

  /** Trimming the spaced pieces of trimmed strings gives back the strings. */
  lemma SpacedTrim(ps: seq<string>)
    requires |ps| >= 1
    requires forall i :: 0 <= i < |ps| ==> IsTrimmed(ps[i])
    ensures forall i :: 0 <= i < |ps| ==> Trim(Spaced(ps)[i]) == ps[i]
  {
    forall i | 0 <= i < |ps| ensures Trim(Spaced(ps)[i]) == ps[i] {
      if i == 0 {
        TrimOfTrimmed(ps[0]);
      } else {
        AddSpaceAt(ps[1..], i - 1);
        TrimAfterSpace(ps[i]);
      }
    }
  }

  /** `toUpperCase` of one character, for the ASCII letters. */
  function ToUpperAscii(c: char): (u: char)
    ensures 'a' <= c <= 'z' ==> 'A' <= u <= 'Z' && u as int == c as int - 32
    ensures !('a' <= c <= 'z') ==> u == c
  {
    if 'a' <= c <= 'z' then (c as int - 32) as char else c
  }
}

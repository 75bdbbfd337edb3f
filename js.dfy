/** The JavaScript built-ins the widgets and the consent script rely on: `undefined`,
    the `||` default idiom on numbers, String.prototype.split / trim, Array.prototype.join,
    Number.prototype.toString on integers and JSON.stringify on arrays of integers. */
module Js {

  /** A value that may be `undefined`. */
  datatype Option<+T> = None | Some(value: T)

  /** `setting || fallback` for a number: `undefined` and `0` are falsy. */
  function OrDefault(setting: Option<int>, fallback: int): (r: int)
    ensures r == fallback <==> setting == None || setting == Some(0) || setting == Some(fallback)
    ensures setting.Some? && setting.value != 0 ==> r == setting.value
  {
    match setting
    case Some(v) => if v != 0 then v else fallback
    case None => fallback
  }

  // ---------------------------------------------------------------- split and join

  /** Array.prototype.join with a one-character separator. */
  function Join(pieces: seq<string>, sep: char): string
  {
    if pieces == [] then ""
    else if |pieces| == 1 then pieces[0]
    else pieces[0] + [sep] + Join(pieces[1..], sep)
  }

  /** String.prototype.split with a one-character separator: never empty, no piece holds the
      separator, and joining the pieces gives the input back. */
  function Split(s: string, sep: char): (pieces: seq<string>)
    ensures |pieces| >= 1
    ensures forall i :: 0 <= i < |pieces| ==> sep !in pieces[i]
    ensures Join(pieces, sep) == s
  {
    if s == [] then [""]
    else
      var rest := Split(s[1..], sep);
      if s[0] == sep then
        assert ([""] + rest)[1..] == rest;
        [""] + rest
      else
        var r := [[s[0]] + rest[0]] + rest[1..];
        assert r[1..] == rest[1..];
        assert s == [s[0]] + s[1..];
        r
  }

  /** A string without the separator splits into itself. */
  lemma {:induction false} SplitNoSeparator(x: string, sep: char)
    requires sep !in x
    ensures Split(x, sep) == [x]
  {
    if x != [] {
      SplitNoSeparator(x[1..], sep);
    }
  }

  /** Splitting stops at the first separator. */
  lemma {:induction false} SplitFirstPiece(x: string, sep: char, y: string)
    requires sep !in x
    ensures Split(x + [sep] + y, sep) == [x] + Split(y, sep)
  {
    var s := x + [sep] + y;
    if x == [] {
      assert s[1..] == y;
    } else {
      assert s[1..] == x[1..] + [sep] + y;
      SplitFirstPiece(x[1..], sep, y);
      assert [s[0]] + x[1..] == x;
    }
  }

  /** Split is the inverse of Join on separator-free pieces. */
  lemma {:induction false} SplitJoin(pieces: seq<string>, sep: char)
    requires |pieces| >= 1
    requires forall i :: 0 <= i < |pieces| ==> sep !in pieces[i]
    ensures Split(Join(pieces, sep), sep) == pieces
  {
    if |pieces| == 1 {
      SplitNoSeparator(pieces[0], sep);
    } else {
      SplitJoin(pieces[1..], sep);
      SplitFirstPiece(pieces[0], sep, Join(pieces[1..], sep));
      assert [pieces[0]] + pieces[1..] == pieces;
    }
  }

  /** Join is injective on lists of non-empty, separator-free pieces. */
  lemma JoinInjective(p: seq<string>, q: seq<string>, sep: char)
    requires forall i :: 0 <= i < |p| ==> p[i] != [] && sep !in p[i]
    requires forall i :: 0 <= i < |q| ==> q[i] != [] && sep !in q[i]
    requires Join(p, sep) == Join(q, sep)
    ensures p == q
  {
    if p != [] && q != [] {
      SplitJoin(p, sep);
      SplitJoin(q, sep);
    }
  }

  // ---------------------------------------------------------------- trim

  /** The code points String.prototype.trim removes: ECMAScript WhiteSpace and LineTerminator. */
  predicate IsWhitespace(c: char)
  {
    || c == '\t' || c == '\n' || c == '\U{000B}' || c == '\U{000C}' || c == '\r' || c == ' '
    || c == '\U{00A0}' || c == '\U{1680}' || ('\U{2000}' <= c <= '\U{200A}')
    || c == '\U{2028}' || c == '\U{2029}' || c == '\U{202F}' || c == '\U{205F}'
    || c == '\U{3000}' || c == '\U{FEFF}'
  }

  /** Drops leading whitespace: the result is a suffix of the input that does not start with whitespace. */
  function TrimStart(s: string): (r: string)
    ensures |r| <= |s|
    ensures r == [] || !IsWhitespace(r[0])
  {
    if s != [] && IsWhitespace(s[0]) then TrimStart(s[1..]) else s
  }

  lemma {:induction false} TrimStartIsSuffix(s: string)
    ensures TrimStart(s) == s[|s| - |TrimStart(s)|..]
  {
    if s != [] && IsWhitespace(s[0]) {
      TrimStartIsSuffix(s[1..]);
    }
  }

  /** What TrimStart drops is whitespace. */
  lemma {:induction false} TrimStartDropsWhitespace(s: string)
    ensures forall i :: 0 <= i < |s| - |TrimStart(s)| ==> IsWhitespace(s[i])
  {
    if s != [] && IsWhitespace(s[0]) {
      TrimStartDropsWhitespace(s[1..]);
      assert forall i :: 1 <= i < |s| ==> s[i] == s[1..][i - 1];
    }
  }

  /** Drops trailing whitespace: the result is a prefix of the input that does not end in whitespace. */
  function TrimEnd(s: string): (r: string)
    ensures |r| <= |s|
    ensures r == [] || !IsWhitespace(r[|r| - 1])
  {
    if s != [] && IsWhitespace(s[|s| - 1]) then TrimEnd(s[..|s| - 1]) else s
  }

  lemma {:induction false} TrimEndIsPrefix(s: string)
    ensures TrimEnd(s) == s[..|TrimEnd(s)|]
  {
    if s != [] && IsWhitespace(s[|s| - 1]) {
      TrimEndIsPrefix(s[..|s| - 1]);
    }
  }

  /** What TrimEnd drops is whitespace. */
  lemma {:induction false} TrimEndDropsWhitespace(s: string)
    ensures forall i :: |TrimEnd(s)| <= i < |s| ==> IsWhitespace(s[i])
  {
    if s != [] && IsWhitespace(s[|s| - 1]) {
      TrimEndDropsWhitespace(s[..|s| - 1]);
    }
  }

  /** String.prototype.trim: the input with whitespace cut off both ends. */
  function Trim(s: string): (r: string)
    ensures r == [] || (!IsWhitespace(r[0]) && !IsWhitespace(r[|r| - 1]))
  {
    TrimEndIsPrefix(TrimStart(s));
    TrimEnd(TrimStart(s))
  }

  /** Trimming leaves nothing exactly when the input is all whitespace. */
  lemma TrimEmpty(s: string)
    ensures (forall i :: 0 <= i < |s| ==> IsWhitespace(s[i])) <==> Trim(s) == []
  {
    var t := TrimStart(s);
    TrimStartIsSuffix(s);
    TrimStartDropsWhitespace(s);
    if t != [] {
      assert !IsWhitespace(s[|s| - |t|]);
      TrimEndDropsWhitespace(t);
      assert !IsWhitespace(t[0]);
    } else {
      assert |s| - |t| == |s|;
    }
  }

  /** Trimming adds no character: one absent from the input is absent from the result. */
  lemma TrimKeepsOut(s: string, c: char)
    requires c !in s
    ensures c !in Trim(s)
  {
    var t := TrimStart(s);
    var r := TrimEnd(t);
    TrimStartIsSuffix(s);
    TrimEndIsPrefix(t);
    assert forall i :: 0 <= i < |r| ==> r[i] == s[|s| - |t| + i];
  }

  // ---------------------------------------------------------------- numbers as text

  function DigitChar(d: nat): (c: char)
    requires d < 10
    ensures '0' <= c <= '9'
  {
    (d + '0' as int) as char
  }

  predicate IsDigits(s: string)
  {
    forall i :: 0 <= i < |s| ==> '0' <= s[i] <= '9'
  }

  /** Decimal notation of a natural number, most significant digit first, no leading zeros. */
  function NatToDecimal(n: nat): (s: string)
    ensures |s| >= 1 && IsDigits(s)
  {
    if n < 10 then [DigitChar(n)] else NatToDecimal(n / 10) + [DigitChar(n % 10)]
  }

  /** The number a string of decimal digits denotes. */
  function DecimalValue(s: string): nat
    requires IsDigits(s)
  {
    if s == [] then 0 else DecimalValue(s[..|s| - 1]) * 10 + (s[|s| - 1] as int - '0' as int)
  }

  /** Reading back the decimal notation gives the number. */
  lemma {:induction false} DecimalRoundTrip(n: nat)
    ensures DecimalValue(NatToDecimal(n)) == n
  {
    if n >= 10 {
      DecimalRoundTrip(n / 10);
      var s := NatToDecimal(n);
      assert s[..|s| - 1] == NatToDecimal(n / 10);
    }
  }

  /** Number.prototype.toString on an integer (below 10^21, where no exponent is used). */
  function IntToDecimal(i: int): (s: string)
    ensures s != [] && ',' !in s
    ensures s[0] == '-' <==> i < 0
  {
    var s := if i < 0 then "-" + NatToDecimal(-i) else NatToDecimal(i);
    assert forall k :: 0 <= k < |s| ==> s[k] != ',';
    s
  }

  lemma NatToDecimalInjective(m: nat, n: nat)
    requires NatToDecimal(m) == NatToDecimal(n)
    ensures m == n
  {
    DecimalRoundTrip(m);
    DecimalRoundTrip(n);
  }

  /** Distinct integers print differently. */
  lemma IntToDecimalInjective(a: int, b: int)
    requires IntToDecimal(a) == IntToDecimal(b)
    ensures a == b
  {
    var t := IntToDecimal(a);
    if a < 0 {
      assert b < 0;
      assert t == "-" + NatToDecimal(-a) == "-" + NatToDecimal(-b);
      assert NatToDecimal(-a) == t[1..] == NatToDecimal(-b);
      NatToDecimalInjective(-a, -b);
    } else {
      assert b >= 0;
      assert NatToDecimal(a) == t == NatToDecimal(b);
      NatToDecimalInjective(a, b);
    }
  }

  function DecimalPieces(s: seq<int>): (r: seq<string>)
    ensures |r| == |s|
    ensures forall i :: 0 <= i < |s| ==> r[i] == IntToDecimal(s[i])
  {
    seq(|s|, i requires 0 <= i < |s| => IntToDecimal(s[i]))
  }

  /** JSON.stringify of an array of integers. */
  function Stringify(s: seq<int>): (text: string)
    ensures |text| >= 2 && text[0] == '[' && text[|text| - 1] == ']'
  {
    "[" + Join(DecimalPieces(s), ',') + "]"
  }

  /** Two integer arrays have the same JSON text exactly when they are equal element by element, in order. */
  lemma StringifyInjective(a: seq<int>, b: seq<int>)
    ensures Stringify(a) == Stringify(b) <==> a == b
  {
    if Stringify(a) == Stringify(b) {
      var ta, tb := Stringify(a), Stringify(b);
      assert Join(DecimalPieces(a), ',') == ta[1..|ta| - 1];
      assert Join(DecimalPieces(b), ',') == tb[1..|tb| - 1];
      JoinInjective(DecimalPieces(a), DecimalPieces(b), ',');
      forall i | 0 <= i < |a|
        ensures a[i] == b[i]
      {
        IntToDecimalInjective(a[i], b[i]);
      }
    }
  }
}

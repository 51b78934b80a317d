/** The JavaScript built-ins the tool adapters rely on, as functions on strings:
    `String.prototype.split` and `Array.prototype.join`, the text that a template
    literal interpolates for a value, and `Number.prototype.toString` on integers
    together with a reader that inverts it. */
module JsText {

  datatype Option<+T> = None | Some(value: T)

  /** A value read from an untyped JSON response: a number (integers only), a string,
      or a field that is absent (`undefined`) or `null`. */
  datatype JsValue = Num(n: int) | Str(s: string) | Undefined | Null

  predicate StartsWith(s: string, prefix: string) {
    |prefix| <= |s| && s[..|prefix|] == prefix
  }

  predicate EndsWith(s: string, suffix: string) {
    |suffix| <= |s| && s[|s| - |suffix|..] == suffix
  }

  // ---------------------------------------------------------------------------
  // split / join

  /** `s.split(sep)` for a one-character separator: the pieces between separators,
      empty pieces included, so there is always one piece more than separators. */
  function Split(s: string, sep: char): (r: seq<string>)
    ensures |r| >= 1
    ensures forall k :: 0 <= k < |r| ==> sep !in r[k]
    decreases |s|
  {
    if s == [] then [""]
    else
      var rest := Split(s[1..], sep);
      if s[0] == sep then [""] + rest
      else [[s[0]] + rest[0]] + rest[1..]
  }

  /** `ws.join(sep)`: the pieces with `sep` between neighbours; no pieces give "". */
  function Join(ws: seq<string>, sep: string): string
    decreases |ws|
  {
    if |ws| == 0 then ""
    else if |ws| == 1 then ws[0]
    else ws[0] + sep + Join(ws[1..], sep)
  }

  /** Joining what `split` cut on the same separator gives back the original text. */
  lemma {:induction false} JoinSplit(s: string, sep: char)
    ensures Join(Split(s, sep), [sep]) == s
    decreases |s|
  {
    if s != [] {
      var rest := Split(s[1..], sep);
      JoinSplit(s[1..], sep);
      assert s == [s[0]] + s[1..];
      if s[0] == sep {
        assert ([""] + rest)[1..] == rest;
      } else {
        var first := [s[0]] + rest[0];
        assert Split(s, sep) == [first] + rest[1..];
        if |rest| > 1 {
          assert ([first] + rest[1..])[1..] == rest[1..];
          assert Join(rest, [sep]) == rest[0] + [sep] + Join(rest[1..], [sep]);
        }
      }
    }
  }

  /** Text without the separator in front of `t` becomes part of `t`'s first piece. */
  lemma {:induction false} SplitPrepend(w: string, t: string, sep: char)
    requires sep !in w
    ensures Split(w + t, sep) == [w + Split(t, sep)[0]] + Split(t, sep)[1..]
    decreases |w|
  {
    if w == [] {
      var tail := Split(t, sep);
      assert w + t == t;
      assert w + tail[0] == tail[0];
      assert tail == [tail[0]] + tail[1..];
    } else {
      var tail := Split(t, sep);
      SplitPrepend(w[1..], t, sep);
      var rest := Split(w[1..] + t, sep);
      assert rest == [w[1..] + tail[0]] + tail[1..];
      assert w[0] in w;
      assert (w + t)[0] == w[0] != sep;
      assert (w + t)[1..] == w[1..] + t;
      assert Split(w + t, sep) == [[w[0]] + rest[0]] + rest[1..];
      assert [w[0]] + (w[1..] + tail[0]) == w + tail[0];
    }
  }

  /** Splitting what was joined gives back the pieces, when no piece holds the separator. */
  lemma {:induction false} SplitJoin(ws: seq<string>, sep: char)
    requires |ws| >= 1
    requires forall k :: 0 <= k < |ws| ==> sep !in ws[k]
    ensures Split(Join(ws, [sep]), sep) == ws
    decreases |ws|
  {
    if |ws| == 1 {
      SplitPrepend(ws[0], "", sep);
      assert ws[0] + "" == ws[0];
    } else {
      var t := Join(ws[1..], [sep]);
      SplitJoin(ws[1..], sep);
      SplitPrepend(ws[0], [sep] + t, sep);
      assert Join(ws, [sep]) == ws[0] + ([sep] + t);
      assert ([sep] + t)[1..] == t;
      assert Split([sep] + t, sep) == [""] + ws[1..];
      assert ws[0] + "" == ws[0];
      assert ws == [ws[0]] + ws[1..];
    }
  }

  /** `join("")` of a non-empty list is its first piece followed by the join of the rest. */
  lemma JoinConcatCons(ws: seq<string>)
    requires |ws| >= 1
    ensures Join(ws, "") == ws[0] + Join(ws[1..], "")
  {
  }

  /** In `join("")` every piece appears once, verbatim, after all the pieces before it. */
  lemma {:induction false} JoinConcatAt(ws: seq<string>, k: nat)
    requires k < |ws|
    ensures Join(ws, "") == Join(ws[..k], "") + ws[k] + Join(ws[k + 1..], "")
    decreases k
  {
    JoinConcatCons(ws);
    if k > 0 {
      var tail := ws[1..];
      JoinConcatAt(tail, k - 1);
      assert tail[..k - 1] == ws[1..k];
      assert tail[k..] == ws[k + 1..];
      assert tail[k - 1] == ws[k];
      JoinConcatCons(ws[..k]);
      assert ws[..k][1..] == ws[1..k];
    }
  }

  /** Two texts of equal length with the character `c` at the same positions. */
  predicate SameLayout(a: string, b: string, c: char) {
    |a| == |b| && forall i :: 0 <= i < |a| ==> (a[i] == c <==> b[i] == c)
  }

  lemma SameLayoutConcat(a: string, b: string, x: string, y: string, c: char)
    requires SameLayout(a, b, c) && SameLayout(x, y, c)
    ensures SameLayout(a + x, b + y, c)
  {
  }

  /** Joining piecewise-alike lists on `sep` gives alike texts. */
  lemma {:induction false} JoinSameLayout(ws: seq<string>, vs: seq<string>, sep: char)
    requires |ws| == |vs|
    requires forall k :: 0 <= k < |ws| ==> SameLayout(ws[k], vs[k], sep)
    ensures SameLayout(Join(ws, [sep]), Join(vs, [sep]), sep)
    decreases |ws|
  {
    if |ws| > 1 {
      JoinSameLayout(ws[1..], vs[1..], sep);
      SameLayoutConcat(ws[0], vs[0], [sep], [sep], sep);
      SameLayoutConcat(ws[0] + [sep], vs[0] + [sep], Join(ws[1..], [sep]), Join(vs[1..], [sep]), sep);
    }
  }

  // ---------------------------------------------------------------------------
  // numbers as text

  predicate IsDigit(c: char) {
    '0' <= c <= '9'
  }

  predicate AllDigits(s: string) {
    forall k :: 0 <= k < |s| ==> IsDigit(s[k])
  }

  function DigitChar(d: nat): (c: char)
    requires d < 10
    ensures IsDigit(c)
  {
    ('0' as int + d) as char
  }

  /** The decimal text of a natural number, without leading zeros. */
  function NatToDecimal(n: nat): (r: string)
    ensures |r| >= 1 && AllDigits(r)
    ensures r[0] == '0' <==> n == 0
    ensures n == 0 ==> r == "0"
    decreases n
  {
    if n < 10 then [DigitChar(n)] else NatToDecimal(n / 10) + [DigitChar(n % 10)]
  }

  /** The value of a string of decimal digits ("" reads as 0). */
  function ParseDigits(s: string): nat
    requires AllDigits(s)
    decreases |s|
  {
    if s == [] then 0 else ParseDigits(s[..|s| - 1]) * 10 + (s[|s| - 1] as int - '0' as int)
  }

  lemma {:induction false} DecimalRoundTrip(n: nat)
    ensures ParseDigits(NatToDecimal(n)) == n
    decreases n
  {
    if n >= 10 {
      var p := NatToDecimal(n / 10);
      var r := p + [DigitChar(n % 10)];
      assert r[..|r| - 1] == p;
      DecimalRoundTrip(n / 10);
    }
  }

  /** `n.toString()` for an integer number. */
  function IntToString(n: int): string {
    if n < 0 then "-" + NatToDecimal(-n) else NatToDecimal(n)
  }

  /** Reads an optionally negative decimal integer; anything else is `None`. */
  function ParseInt(s: string): Option<int> {
    if |s| >= 2 && s[0] == '-' && AllDigits(s[1..]) then Some(0 - ParseDigits(s[1..]) as int)
    else if |s| >= 1 && AllDigits(s) then Some(ParseDigits(s))
    else None
  }

  /** `toString` on an integer loses nothing: reading its text back gives the number. */
  lemma IntToStringRoundTrip(n: int)
    ensures ParseInt(IntToString(n)) == Some(n)
  {
    if n < 0 {
      var d := NatToDecimal(-n);
      DecimalRoundTrip(-n);
      assert ("-" + d)[1..] == d;
      assert !IsDigit('-');
    } else {
      DecimalRoundTrip(n);
    }
  }

  /** The text a template literal `${v}` inserts for a JSON value. */
  function Interpolate(v: JsValue): string {
    match v
    case Num(n) => IntToString(n)
    case Str(s) => s
    case Undefined => "undefined"
    case Null => "null"
  }

  /** Numbers, `undefined` and `null` never interpolate to a text holding a line break. */
  lemma InterpolateNoNewline(v: JsValue)
    requires v.Str? ==> '\n' !in v.s
    ensures '\n' !in Interpolate(v)
  {
  }
}

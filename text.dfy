/**
 * The string rendering the app does with Swift's standard library:
 * decimal rendering of integers (`String(n)`, `"\(n)"`), `joined(separator:)`,
 * and the fallback rendering of a payload as a bracketed list of byte
 * values. A parser for that rendering shows it loses no information.
 */
module Text {
  import opened Common

  predicate IsDigit(c: char) {
    '0' <= c <= '9'
  }

  predicate AllDigits(s: string) {
    forall i :: 0 <= i < |s| ==> IsDigit(s[i])
  }

  function DigitChar(d: nat): (c: char)
    requires d < 10
    ensures IsDigit(c)
  {
    ('0' as int + d) as char
  }

  function DigitValue(c: char): (d: nat)
    requires IsDigit(c)
    ensures d < 10
  {
    c as int - '0' as int
  }

  /** `String(n)` for a non-negative integer: its decimal digits, no leading zero. */
  function Decimal(n: nat): (s: string)
    ensures |s| > 0 && AllDigits(s)
    ensures |s| > 1 ==> s[0] != '0'
    decreases n
  {
    if n < 10 then [DigitChar(n)] else Decimal(n / 10) + [DigitChar(n % 10)]
  }

  /** The number a string of decimal digits denotes. */
  function DigitsValue(s: string): nat
    requires AllDigits(s)
  {
    if s == [] then 0 else DigitsValue(s[..|s| - 1]) * 10 + DigitValue(s[|s| - 1])
  }

  lemma {:induction false} DecimalRoundTrip(n: nat)
    ensures DigitsValue(Decimal(n)) == n
    decreases n
  {
    if n >= 10 {
      DecimalRoundTrip(n / 10);
      var s := Decimal(n);
      assert s[..|s| - 1] == Decimal(n / 10);
    }
  }

  /** The summed lengths of `parts`. */
  function TotalLength(parts: seq<string>): nat {
    if parts == [] then 0 else |parts[0]| + TotalLength(parts[1..])
  }

  /** `joined(separator:)`: the parts in order, with `sep` between each neighbouring two. */
  function Join(parts: seq<string>, sep: string): (r: string)
    ensures parts != [] ==> parts[0] <= r
    ensures |r| == TotalLength(parts) + (if parts == [] then 0 else |parts| - 1) * |sep|
  {
    if parts == [] then ""
    else if |parts| == 1 then parts[0]
    else parts[0] + sep + Join(parts[1..], sep)
  }

  /** Appending a part adds the separator and then the part. */
  lemma {:induction false} JoinSnoc(parts: seq<string>, p: string, sep: string)
    requires parts != []
    ensures Join(parts + [p], sep) == Join(parts, sep) + sep + p
  {
    if |parts| == 1 {
      assert (parts + [p])[1..] == [p];
    } else {
      assert (parts + [p])[1..] == parts[1..] + [p];
      JoinSnoc(parts[1..], p, sep);
    }
  }

  /** `payload.map({ String($0) })`. */
  function Decimals(bytes: seq<Byte>): (r: seq<string>)
    ensures |r| == |bytes|
    ensures forall i :: 0 <= i < |bytes| ==> r[i] == Decimal(bytes[i])
  {
    if bytes == [] then [] else [Decimal(bytes[0])] + Decimals(bytes[1..])
  }

  /** A payload that is not text, rendered as `[b0, b1, ...]`. */
  function RenderBytes(bytes: seq<Byte>): (r: string)
    ensures |r| >= 2 && r[0] == '[' && r[|r| - 1] == ']'
    ensures bytes == [] <==> r == "[]"
  {
    "[" + Join(Decimals(bytes), ", ") + "]"
  }

  /** The longest prefix of `s` made of digits. */
  function DigitPrefix(s: string): (d: string)
    ensures d <= s && AllDigits(d)
    ensures |d| < |s| ==> !IsDigit(s[|d|])
  {
    if s == [] || !IsDigit(s[0]) then [] else [s[0]] + DigitPrefix(s[1..])
  }

  /** A digit string as `String(n)` writes it: non-empty, no leading zero. */
  predicate Canonical(d: string) {
    |d| > 0 && AllDigits(d) && (|d| > 1 ==> d[0] != '0')
  }

  /** Reads back the inside of a rendered byte list; a number with a leading zero is not one `String(n)` writes. */
  function ParseItems(s: string): Option<seq<nat>>
    decreases |s|
  {
    if s == [] then Some([])
    else
      var d := DigitPrefix(s);
      var rest := s[|d|..];
      if !Canonical(d) then None
      else if rest == [] then Some([DigitsValue(d)])
      else if |rest| > 2 && rest[..2] == ", " then
        match ParseItems(rest[2..])
        case None => None
        case Some(tail) => Some([DigitsValue(d)] + tail)
      else None
  }

  /** Reads back a rendered byte list. */
  function ParseBytes(s: string): Option<seq<nat>> {
    if |s| >= 2 && s[0] == '[' && s[|s| - 1] == ']' then ParseItems(s[1..|s| - 1]) else None
  }

  lemma {:induction false} DigitPrefixOfDigits(d: string, t: string)
    requires AllDigits(d)
    requires t == [] || !IsDigit(t[0])
    ensures DigitPrefix(d + t) == d
  {
    if d != [] {
      assert (d + t)[1..] == d[1..] + t;
      DigitPrefixOfDigits(d[1..], t);
    } else {
      assert d + t == t;
    }
  }

  lemma {:induction false} ParseJoinedDecimals(bytes: seq<Byte>)
    ensures ParseItems(Join(Decimals(bytes), ", ")) == Some(bytes)
  {
    if bytes == [] {
    } else {
      var d := Decimal(bytes[0]);
      DecimalRoundTrip(bytes[0]);
      if |bytes| == 1 {
        assert Decimals(bytes) == [d];
        assert Join(Decimals(bytes), ", ") == d;
        DigitPrefixOfDigits(d, []);
        assert d + [] == d;
        assert d[|d|..] == [];
        assert bytes == [bytes[0]];
      } else {
        var tail := Join(Decimals(bytes[1..]), ", ");
        assert Join(Decimals(bytes), ", ") == d + (", " + tail);
        DigitPrefixOfDigits(d, ", " + tail);
        assert Decimals(bytes[1..])[0] == Decimal(bytes[1]);
        JoinNonEmpty(Decimals(bytes[1..]));
        var s := d + (", " + tail);
        assert s[|d|..] == ", " + tail;
        assert (", " + tail)[2..] == tail;
        ParseJoinedDecimals(bytes[1..]);
        assert [bytes[0]] + bytes[1..] == bytes;
      }
    }
  }

  lemma {:induction false} JoinNonEmpty(parts: seq<string>)
    requires parts != [] && parts[0] != []
    ensures Join(parts, ", ") != []
  {
  }

  /** A canonical digit string starts with a non-zero digit unless it is "0". */
  lemma {:induction false} CanonicalPositive(d: string)
    requires Canonical(d) && d[0] != '0'
    ensures DigitsValue(d) > 0
    decreases |d|
  {
    if |d| > 1 {
      CanonicalPositive(d[..|d| - 1]);
    }
  }

  /** `String(n)` is the only canonical way to write `n`. */
  lemma {:induction false} CanonicalRoundTrip(d: string)
    requires Canonical(d)
    ensures Decimal(DigitsValue(d)) == d
    decreases |d|
  {
    var last := d[|d| - 1];
    if |d| == 1 {
      assert d == [last];
    } else {
      var front := d[..|d| - 1];
      CanonicalPositive(front);
      CanonicalRoundTrip(front);
      var n := DigitsValue(d);
      assert n == DigitsValue(front) * 10 + DigitValue(last);
      assert n / 10 == DigitsValue(front) && n % 10 == DigitValue(last);
      assert DigitChar(DigitValue(last)) == last;
      assert d == front + [last];
    }
  }

  /** One step of the item parser: a canonical number, then the end or ", " and more items. */
  lemma ParseItemsStep(s: string)
    requires s != [] && ParseItems(s).Some?
    ensures var d := DigitPrefix(s); var rest := s[|d|..];
      && Canonical(d)
      && (rest == [] ==> ParseItems(s) == Some([DigitsValue(d)]))
      && (rest != [] ==>
            && |rest| > 2 && rest[..2] == ", " && ParseItems(rest[2..]).Some?
            && ParseItems(s) == Some([DigitsValue(d)] + ParseItems(rest[2..]).value))
  {
  }

  /** Joining the renderings of two or more bytes: the first, a separator, the rest. */
  lemma JoinDecimalsCons(bytes: seq<Byte>)
    requires |bytes| >= 2
    ensures Join(Decimals(bytes), ", ") == Decimal(bytes[0]) + ", " + Join(Decimals(bytes[1..]), ", ")
  {
    assert Decimals(bytes)[1..] == Decimals(bytes[1..]);
  }

  /** A string that starts with `d` and continues with ", " is `d`, ", " and the remainder. */
  lemma SplitAfterPrefix(s: string, d: string, more: string)
    requires d <= s && |s| > |d| + 2 && s[|d|..][..2] == ", " && more == s[|d|..][2..]
    ensures s == d + ", " + more
  {
    assert s == s[..|d|] + s[|d|..];
    assert s[|d|..] == s[|d|..][..2] + more;
  }

  /** A rendered first byte, a separator and the rendered rest are the rendering of the whole. */
  lemma JoinedCons(s: string, d: string, more: string, bytes: seq<Byte>)
    requires |bytes| >= 2 && Decimal(bytes[0]) == d
    requires more == Join(Decimals(bytes[1..]), ", ")
    requires s == d + ", " + more
    ensures s == Join(Decimals(bytes), ", ")
  {
    JoinDecimalsCons(bytes);
  }

  /** Whatever the item parser accepts is exactly the joined rendering of what it returns. */
  lemma {:induction false} ParseItemsJoined(s: string, bytes: seq<Byte>)
    requires ParseItems(s) == Some(bytes)
    ensures s == Join(Decimals(bytes), ", ")
    decreases |s|
  {
    if s != [] {
      ParseItemsStep(s);
      var d := DigitPrefix(s);
      var rest := s[|d|..];
      CanonicalRoundTrip(d);
      if rest == [] {
        assert s == d;
        assert Decimals(bytes) == [d];
      } else {
        var more := rest[2..];
        var tail := ParseItems(more).value;
        assert bytes[1..] == tail;
        ParseItemsJoined(more, bytes[1..]);
        assert tail != [] by {
          ParseItemsStep(more);
        }
        assert bytes[0] == DigitsValue(d);
        SplitAfterPrefix(s, d, more);
        JoinedCons(s, d, more, bytes);
      }
    }
  }

  /** Only the rendering of `bytes` parses back to `bytes`. */
  lemma ParseBytesRendered(s: string, bytes: seq<Byte>)
    requires ParseBytes(s) == Some(bytes)
    ensures s == RenderBytes(bytes)
  {
    var inner := s[1..|s| - 1];
    ParseItemsJoined(inner, bytes);
    assert s == s[..1] + inner + s[|s| - 1..];
    assert s[..1] == "[" && s[|s| - 1..] == "]";
  }

  /** The byte-list rendering is lossless: parsing it gives the payload back. */
  lemma RenderBytesRoundTrip(bytes: seq<Byte>)
    ensures ParseBytes(RenderBytes(bytes)) == Some(bytes)
  {
    var inner := Join(Decimals(bytes), ", ");
    var s := RenderBytes(bytes);
    assert s[1..|s| - 1] == inner;
    ParseJoinedDecimals(bytes);
  }
}

/** Page cursors (`freshness.rs`): two `u32` numbers printed as "ledger_offset" and read back. */
module Cursor {
  import opened Base
  import opened Calendar

  const UNDERSCORE: byte := 95
  const PLUS: byte := 43

  /** The decimal digits of a number, without leading zeros. */
  function Digits(v: nat): (s: seq<byte>)
    ensures |s| >= 1
  {
    if v < 10 then [(ZERO + v) as byte] else Digits(v / 10) + [(ZERO + v % 10) as byte]
  }

  /** The text of a cursor. */
  function CursorText(ledger: nat, offset: nat): seq<byte> { Digits(ledger) + [UNDERSCORE] + Digits(offset) }

  /* ---- writing ---- */

  lemma {:induction false} DigitCount(v: nat, n: nat)
    requires v < Power10(n) && n >= 1
    ensures |Digits(v)| <= n
    decreases n
  {
    if v >= 10 {
      DigitCount(v / 10, n - 1);
    }
  }

  /** No `u32` has more than ten digits, so no cursor more than 21 bytes. */
  lemma TenDigits(v: u32)
    ensures |Digits(v)| <= 10
  {
    SmallFields();
    assert Power10(5) == 100_000 && Power10(6) == 1_000_000 && Power10(7) == 10_000_000;
    assert Power10(8) == 100_000_000 && Power10(9) == 1_000_000_000 && Power10(10) == 10_000_000_000;
    DigitCount(v, 10);
  }

  function Reversed(s: seq<byte>): (r: seq<byte>)
    ensures |r| == |s|
  {
    if |s| == 0 then [] else Reversed(s[1..]) + [s[0]]
  }

  lemma {:induction false} ReversedAt(s: seq<byte>, k: nat)
    requires k < |s|
    ensures Reversed(s)[k] == s[|s| - 1 - k]
  {
    if k < |s| - 1 {
      ReversedAt(s[1..], k);
    }
  }

  lemma {:induction false} ReversedAppend(s: seq<byte>, b: byte)
    ensures Reversed(s + [b]) == [b] + Reversed(s)
  {
    if |s| > 0 {
      ReversedAppend(s[1..], b);
      assert (s + [b])[1..] == s[1..] + [b];
    }
  }

  /** The last digit first. */
  lemma ReversedDigits(v: nat)
    requires v > 0
    ensures Reversed(Digits(v)) == [(ZERO + v % 10) as byte] + if v >= 10 then Reversed(Digits(v / 10)) else []
  {
    if v >= 10 {
      ReversedAppend(Digits(v / 10), (ZERO + v % 10) as byte);
    }
  }

  /** The digit loop leaves the digits in reverse. */
  method ExtractDigits(value: u32, tmp: array<byte>) returns (len: nat)
    requires value > 0 && tmp.Length == 10
    modifies tmp
    ensures len <= 10 && tmp[..len] == Reversed(Digits(value))
  {
    hide Digits, Reversed;
    TenDigits(value);
    ghost var all := Reversed(Digits(value));
    var v: nat := value;
    len := 0;
    while v > 0
      invariant len <= 10
      invariant v > 0 ==> all == tmp[..len] + Reversed(Digits(v))
      invariant v == 0 ==> all == tmp[..len]
      decreases v
    {
      ReversedDigits(v);
      ghost var written := tmp[..len];
      tmp[len] := (ZERO + v % 10) as byte;
      assert tmp[..len + 1] == written + [tmp[len]];
      v := v / 10;
      len := len + 1;
    }
  }

  /** The digits are extracted in reverse and copied back in order. */
  method U32ToAscii(value: u32, buf: array<byte>) returns (len: nat)
    requires buf.Length == 10
    modifies buf
    ensures 1 <= len <= 10 && buf[..len] == Digits(value)
  {
    if value == 0 {
      buf[0] := ZERO;
      return 1;
    }
    var tmp := new byte[10](_ => 0);
    len := ExtractDigits(value, tmp);
    for i := 0 to len
      modifies buf
      invariant tmp[..len] == Reversed(Digits(value))
      invariant forall k :: 0 <= k < i ==> buf[k] == Digits(value)[k]
    {
      ReversedAt(Digits(value), len - 1 - i);
      assert tmp[..len][len - 1 - i] == tmp[len - 1 - i];
      buf[i] := tmp[len - 1 - i];
    }
  }

  /** Copy the first `len` bytes of `source` to `target`, from position `at`. */
  method CopyBytes(source: array<byte>, len: nat, target: array<byte>, at: nat)
    requires len <= source.Length && at + len <= target.Length && source != target
    modifies target
    ensures target[..at + len] == old(target[..at]) + source[..len]
  {
    for i := 0 to len
      invariant target[..at + i] == old(target[..at]) + source[..i]
    {
      ghost var written := target[..at + i];
      target[at + i] := source[i];
      assert target[..at + i + 1] == written + [source[i]];
    }
  }

  method WriteCursorBytes(buf: array<byte>, ledger: u32, offset: u32) returns (len: nat)
    requires buf.Length == 22
    modifies buf
    ensures len <= 21 && buf[..len] == CursorText(ledger, offset)
  {
    var tmp := new byte[10](_ => 0);
    var ledgerLen := U32ToAscii(ledger, tmp);
    CopyBytes(tmp, ledgerLen, buf, 0);
    assert buf[..ledgerLen] == Digits(ledger);
    buf[ledgerLen] := UNDERSCORE;
    assert buf[..ledgerLen + 1] == Digits(ledger) + [UNDERSCORE];
    var offsetLen := U32ToAscii(offset, tmp);
    CopyBytes(tmp, offsetLen, buf, ledgerLen + 1);
    len := ledgerLen + 1 + offsetLen;
  }

  method BuildCursor(ledger: u32, offset: u32) returns (text: seq<byte>)
    ensures text == CursorText(ledger, offset) && |text| <= 21
  {
    var buf := new byte[22](_ => 0);
    var len := WriteCursorBytes(buf, ledger, offset);
    text := buf[..len];
  }

  /* ---- reading ---- */

  predicate IsDigit(b: byte) { ZERO <= b < ZERO + 10 }

  /** The value of a string of digits, if it fits a `u32`. */
  function ValueOf(s: seq<byte>): Option<nat> {
    if |s| == 0 then Some(0)
    else
      var last := s[|s| - 1];
      match ValueOf(s[..|s| - 1])
      case None => None
      case Some(v) => if IsDigit(last) && v * 10 + (last - ZERO) <= U32_MAX then Some(v * 10 + (last - ZERO)) else None
  }

  /** `str::parse::<u32>`: an optional plus sign and at least one digit. */
  function ParseU32(s: seq<byte>): Option<nat> {
    var digits := if |s| > 0 && s[0] == PLUS then s[1..] else s;
    if |digits| == 0 then None else ValueOf(digits)
  }

  function SplitAt(s: seq<byte>): (i: nat)
    ensures i <= |s| && UNDERSCORE !in s[..i] && (i < |s| ==> s[i] == UNDERSCORE)
  {
    if |s| == 0 || s[0] == UNDERSCORE then 0
    else
      assert s[..SplitAt(s[1..]) + 1] == [s[0]] + s[1..][..SplitAt(s[1..])];
      SplitAt(s[1..]) + 1
  }

  /** `parse_cursor`. */
  function ParseCursor(s: seq<byte>): Option<(nat, nat)> {
    var i := SplitAt(s);
    if |s| == 0 || |s| > 21 || i == |s| then None
    else
      match ParseU32(s[..i])
      case None => None
      case Some(ledger) =>
        match ParseU32(s[i + 1..])
        case None => None
        case Some(offset) => Some((ledger, offset))
  }

  method ParseDigits(s: seq<byte>) returns (r: Option<nat>)
    ensures r == ParseU32(s)
  {
    var start := if |s| > 0 && s[0] == PLUS then 1 else 0;
    ghost var digits := s[start..];
    if start == |s| {
      return None;
    }
    var v := 0;
    for i := start to |s|
      invariant ValueOf(digits[..i - start]) == Some(v)
      invariant 0 <= v
    {
      assert digits[..i - start + 1][..i - start] == digits[..i - start];
      if !(IsDigit(s[i]) && v * 10 + (s[i] - ZERO) <= U32_MAX) {
        NoValue(digits, i - start + 1);
        return None;
      }
      v := v * 10 + (s[i] - ZERO);
    }
    assert digits[..|s| - start] == digits;
    r := Some(v);
  }

  lemma {:induction false} NoValue(s: seq<byte>, n: nat)
    requires n <= |s| && ValueOf(s[..n]) == None
    ensures ValueOf(s) == None
    decreases |s|
  {
    if n == |s| {
      assert s[..n] == s;
    } else {
      assert s[..|s| - 1][..n] == s[..n];
      NoValue(s[..|s| - 1], n);
    }
  }

  method ParseCursorText(s: seq<byte>) returns (r: Option<(nat, nat)>)
    ensures r == ParseCursor(s)
  {
    if |s| == 0 || |s| > 21 {
      return None;
    }
    var i := 0;
    while i < |s| && s[i] != UNDERSCORE
      invariant 0 <= i <= |s| && UNDERSCORE !in s[..i]
    {
      i := i + 1;
    }
    FirstUnderscore(s, i);
    if i == |s| {
      return None;
    }
    var ledger := ParseDigits(s[..i]);
    if ledger.None? {
      return None;
    }
    var offset := ParseDigits(s[i + 1..]);
    if offset.None? {
      return None;
    }
    r := Some((ledger.value, offset.value));
  }

  lemma {:induction false} FirstUnderscore(s: seq<byte>, i: nat)
    requires i <= |s| && UNDERSCORE !in s[..i] && (i < |s| ==> s[i] == UNDERSCORE)
    ensures SplitAt(s) == i
  {
    if i > 0 {
      assert s[0] == s[..i][0];
      assert s[1..][..i - 1] == s[..i][1..];
      FirstUnderscore(s[1..], i - 1);
    }
  }

  /* ---- the round trip ---- */

  lemma {:induction false} DigitsAreDigits(v: nat)
    ensures forall b :: b in Digits(v) ==> IsDigit(b)
  {
    if v >= 10 {
      DigitsAreDigits(v / 10);
    }
  }

  lemma {:induction false} DigitsHaveTheirValue(v: u32)
    ensures ValueOf(Digits(v)) == Some(v)
  {
    if v < 10 {
      assert ValueOf([]) == Some(0);
      assert Digits(v)[..0] == [];
    } else {
      DigitsHaveTheirValue(v / 10);
      assert Digits(v)[..|Digits(v)| - 1] == Digits(v / 10);
    }
  }

  lemma DigitsParse(v: u32)
    ensures ParseU32(Digits(v)) == Some(v)
  {
    DigitsAreDigits(v);
    DigitsHaveTheirValue(v);
    assert Digits(v)[0] in Digits(v);
  }

  /** Reading a built cursor gives back the pair it was built from, for every pair. */
  lemma CursorRoundTrip(ledger: u32, offset: u32)
    ensures ParseCursor(CursorText(ledger, offset)) == Some((ledger, offset))
  {
    var text, a, b := CursorText(ledger, offset), Digits(ledger), Digits(offset);
    TenDigits(ledger);
    TenDigits(offset);
    DigitsAreDigits(ledger);
    assert text[..|a|] == a && text[|a| + 1..] == b;
    FirstUnderscore(text, |a|);
    DigitsParse(ledger);
    DigitsParse(offset);
  }

  /** Different pairs have different cursors. */
  lemma CursorsAreUnique(l1: u32, o1: u32, l2: u32, o2: u32)
    ensures CursorText(l1, o1) == CursorText(l2, o2) <==> l1 == l2 && o1 == o2
  {
    CursorRoundTrip(l1, o1);
    CursorRoundTrip(l2, o2);
  }

  /** How the writer prints a number: no plus sign, and no leading zero except in "0" itself. */
  predicate Plain(part: seq<byte>) { |part| > 0 && part[0] != PLUS && (part[0] == ZERO ==> |part| == 1) }

  /** Without a leading zero, a string of digits is the one that is printed for its value. */
  lemma {:induction false} DigitsOfValue(s: seq<byte>)
    requires |s| > 0 && ValueOf(s).Some? && (s[0] == ZERO ==> |s| == 1)
    ensures Digits(ValueOf(s).value) == s && (s[0] != ZERO ==> ValueOf(s).value > 0)
  {
    var front, last := s[..|s| - 1], s[|s| - 1];
    assert s == front + [last];
    if |s| == 1 {
      assert front == [] && ValueOf(front) == Some(0);
    } else {
      DigitsOfValue(front);
    }
  }

  lemma {:induction false} NoLeadingZero(v: nat)
    ensures Digits(v)[0] == ZERO <==> v == 0
  {
    if v >= 10 {
      NoLeadingZero(v / 10);
    }
  }

  /** A part that can be read is printed for its value iff it is plain. */
  lemma PlainIffPrinted(part: seq<byte>)
    requires ParseU32(part).Some?
    ensures part == Digits(ParseU32(part).value) <==> Plain(part)
  {
    var v := ParseU32(part).value;
    if Plain(part) {
      DigitsOfValue(part);
    }
    if part == Digits(v) {
      DigitsAreDigits(v);
      NoLeadingZero(v);
      assert part[0] in part;
    }
  }

  /**
    Of the texts that can be read, the built ones are exactly those both parts of which are plain; every other
    one is an alias of the cursor built for what it reads as.
   */
  lemma BuiltIffPlain(text: seq<byte>, ledger: nat, offset: nat)
    requires ParseCursor(text) == Some((ledger, offset))
    ensures var i := SplitAt(text); text == CursorText(ledger, offset) <==> Plain(text[..i]) && Plain(text[i + 1..])
  {
    var i, a, b := SplitAt(text), Digits(ledger), Digits(offset);
    PlainIffPrinted(text[..i]);
    PlainIffPrinted(text[i + 1..]);
    assert text == text[..i] + [UNDERSCORE] + text[i + 1..];
    if text == CursorText(ledger, offset) {
      DigitsAreDigits(ledger);
      assert text[..|a|] == a && text[|a| + 1..] == b;
      FirstUnderscore(text, |a|);
    }
  }

  /** The reader accepts more than the writer produces: "+0_00" reads as (0, 0). */
  lemma NotOnlyBuiltCursorsParse()
    ensures var text := [PLUS, ZERO, UNDERSCORE, ZERO, ZERO]; ParseCursor(text) == Some((0, 0)) && text != CursorText(0, 0)
  {
    var text: seq<byte> := [PLUS, ZERO, UNDERSCORE, ZERO, ZERO];
    FirstUnderscore(text, 2);
    var z: seq<byte> := [ZERO];
    assert ValueOf([]) == Some(0) && z[..0] == [];
    assert ValueOf(z) == Some(0);
    assert text[..2][1..] == z;
    var zz: seq<byte> := [ZERO, ZERO];
    assert zz[..1] == z;
    assert ValueOf(zz) == Some(0);
    assert text[3..] == zz;
    assert |CursorText(0, 0)| == 3;
  }
}

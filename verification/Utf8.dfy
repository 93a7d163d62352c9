/**
 * Texts as bytes (RFC 3629): the encoder that the scanners measure with, and the strict decoder in front of
 * them. It decides what comparing the measured length with the number of bytes received can detect.
 */
module Utf8 {
  import opened Foundation
  import opened JsonText
  import opened JsonReader

  type Byte = n: int | 0 <= n < 0x100

  /** Half of a surrogate pair by itself is replaced. */
  function Whole(u: Unit): Unit {
    if 0xD800 <= u < 0xE000 then 0xFFFD else u
  }

  function EncodeUnit(u: Unit): seq<Byte> {
    var w := Whole(u);
    if w < 0x80 then [w]
    else if w < 0x800 then [0xC0 + w / 64, 0x80 + w % 64]
    else [0xE0 + w / 0x1000, 0x80 + w / 64 % 64, 0x80 + w % 64]
  }

  function Point(high: Unit, low: Unit): (c: int)
    requires IsHigh(high) && IsLow(low)
    ensures 0x1_0000 <= c < 0x11_0000
  {
    0x1_0000 + (high - 0xD800) * 0x400 + (low - 0xDC00)
  }

  function EncodePoint(c: int): seq<Byte>
    requires 0x1_0000 <= c < 0x11_0000
  {
    [0xF0 + c / 0x4_0000, 0x80 + c / 0x1000 % 64, 0x80 + c / 64 % 64, 0x80 + c % 64]
  }

  function Encode(t: Text): seq<Byte> {
    if t == [] then []
    else if PairAt(t, 0) then EncodePoint(Point(t[0], t[1])) + Encode(t[2..])
    else EncodeUnit(t[0]) + Encode(t[1..])
  }

  // ---- decoding -------------------------------------------------------------------------------

  /** One character, as one or two units, and the bytes it took. */
  datatype Character = Character(units: Text, width: nat)

  predicate Follows(b: Byte) {
    0x80 <= b < 0xC0
  }

  function Two(a: int, b: int): int {
    (a - 0xC0) * 64 + (b - 0x80)
  }

  function Three(a: int, b: int, c: int): int {
    (a - 0xE0) * 0x1000 + (b - 0x80) * 64 + (c - 0x80)
  }

  function Four(a: int, b: int, c: int, d: int): int {
    (a - 0xF0) * 0x4_0000 + (b - 0x80) * 0x1000 + (c - 0x80) * 64 + (d - 0x80)
  }

  function High(c: int): Unit
    requires 0x1_0000 <= c < 0x11_0000
  {
    0xD800 + (c - 0x1_0000) / 0x400
  }

  function Low(c: int): Unit
    requires 0x1_0000 <= c < 0x11_0000
  {
    0xDC00 + (c - 0x1_0000) % 0x400
  }

  /** The shortest form only, no surrogates, nothing above 0x10FFFF. */
  function CharacterAt(b: seq<Byte>): Option<Character>
    requires b != []
  {
    if b[0] < 0x80 then Some(Character([b[0]], 1))
    else if |b| >= 2 && 0xC2 <= b[0] < 0xE0 && Follows(b[1]) then
      Some(Character([Two(b[0], b[1])], 2))
    else if |b| >= 3 && 0xE0 <= b[0] < 0xF0 && Follows(b[1]) && Follows(b[2]) then
      var u := Three(b[0], b[1], b[2]);
      if u < 0x800 || 0xD800 <= u < 0xE000 then None else Some(Character([u], 3))
    else if |b| >= 4 && 0xF0 <= b[0] < 0xF5 && Follows(b[1]) && Follows(b[2]) && Follows(b[3]) then
      var c := Four(b[0], b[1], b[2], b[3]);
      if 0x1_0000 <= c < 0x11_0000 then Some(Character([High(c), Low(c)], 4)) else None
    else None
  }

  lemma CharacterMoves(b: seq<Byte>)
    requires b != [] && CharacterAt(b).Some?
    ensures 1 <= CharacterAt(b).value.width <= |b|
  {
  }

  function Decode(b: seq<Byte>): Option<Text>
    decreases |b|
  {
    if b == [] then Some([])
    else if CharacterAt(b).None? then None
    else
      CharacterMoves(b);
      var c := CharacterAt(b).value;
      var rest := Decode(b[c.width..]);
      if rest.None? then None else Some(c.units + rest.value)
  }

  // ---- what is encoded is decoded -------------------------------------------------------------

  lemma {:induction false} EncodedLength(t: Text)
    ensures |Encode(t)| == Utf8Length(t)
    decreases |t|
  {
    if t != [] {
      EncodedLength(if PairAt(t, 0) then t[2..] else t[1..]);
    }
  }

  lemma UnitIsDecoded(u: Unit, rest: seq<Byte>)
    ensures EncodeUnit(u) != []
    ensures CharacterAt(EncodeUnit(u) + rest) == Some(Character([Whole(u)], |EncodeUnit(u)|))
  {
    var w := Whole(u);
    assert w / 64 == w / 0x1000 * 64 + w / 64 % 64;
  }

  lemma PointParts(c: int)
    ensures c / 0x1000 == c / 0x4_0000 * 64 + c / 0x1000 % 64
    ensures c / 64 == c / 0x1000 * 64 + c / 64 % 64
  {
  }

  lemma PointIsDecoded(c: int, rest: seq<Byte>)
    requires 0x1_0000 <= c < 0x11_0000
    ensures |EncodePoint(c)| == 4
    ensures CharacterAt(EncodePoint(c) + rest) == Some(Character([High(c), Low(c)], 4))
  {
    PointParts(c);
    var b := EncodePoint(c);
    assert Four(b[0], b[1], b[2], b[3]) == c;
    hide High, Low, Two, Three;
  }

  lemma PairOfPoint(high: Unit, low: Unit)
    requires IsHigh(high) && IsLow(low)
    ensures High(Point(high, low)) == high && Low(Point(high, low)) == low
  {
  }

  /** The text with every lone surrogate replaced. */
  function Replaced(t: Text): Text {
    if t == [] then []
    else if PairAt(t, 0) then t[..2] + Replaced(t[2..])
    else [Whole(t[0])] + Replaced(t[1..])
  }

  lemma {:induction false} EncodedIsDecoded(t: Text)
    ensures Decode(Encode(t)) == Some(Replaced(t))
    decreases |t|
  {
    hide EncodeUnit, EncodePoint, CharacterAt, Point, High, Low, Whole, IsHigh, IsLow;
    if t == [] {
    } else if PairAt(t, 0) {
      EncodedIsDecoded(t[2..]);
      var b := EncodePoint(Point(t[0], t[1]));
      PointIsDecoded(Point(t[0], t[1]), Encode(t[2..]));
      PairOfPoint(t[0], t[1]);
      assert t[..2] == [t[0], t[1]];
      FrontIsDecoded(b, Character(t[..2], 4), Encode(t[2..]));
    } else {
      EncodedIsDecoded(t[1..]);
      UnitIsDecoded(t[0], Encode(t[1..]));
      FrontIsDecoded(EncodeUnit(t[0]), Character([Whole(t[0])], |EncodeUnit(t[0])|), Encode(t[1..]));
    }
  }

  lemma FrontIsDecoded(b: seq<Byte>, c: Character, rest: seq<Byte>)
    requires b != [] && CharacterAt(b + rest) == Some(c) && c.width == |b|
    ensures Decode(b + rest) == if Decode(rest).Some? then Some(c.units + Decode(rest).value) else None
  {
    hide CharacterAt;
    assert (b + rest)[|b|..] == rest;
  }

  // ---- what is decoded was encoded ------------------------------------------------------------

  lemma TwoBytes(a: Byte, b: Byte)
    requires 0xC2 <= a < 0xE0 && Follows(b)
    ensures EncodeUnit(Two(a, b)) == [a, b]
  {
  }

  lemma ThreeBytes(a: Byte, b: Byte, c: Byte)
    requires 0xE0 <= a < 0xF0 && Follows(b) && Follows(c)
    requires 0x800 <= Three(a, b, c) && !(0xD800 <= Three(a, b, c) < 0xE000)
    ensures EncodeUnit(Three(a, b, c)) == [a, b, c]
  {
    assert Three(a, b, c) / 64 == Two(a - 0x20, b);
  }

  lemma FourBytes(a: Byte, b: Byte, c: Byte, d: Byte)
    requires 0xF0 <= a < 0xF5 && Follows(b) && Follows(c) && Follows(d) && 0x1_0000 <= Four(a, b, c, d) < 0x11_0000
    ensures EncodePoint(Four(a, b, c, d)) == [a, b, c, d]
  {
    hide EncodePoint;
    EncodesFour(a as int - 0xF0, b as int - 0x80, c as int - 0x80, d as int - 0x80);
  }

  lemma EncodesFour(a: int, b: int, c: int, d: int)
    requires 0 <= b < 64 && 0 <= c < 64 && 0 <= d < 64
    requires 0x1_0000 <= a * 0x4_0000 + b * 0x1000 + c * 64 + d < 0x11_0000
    ensures EncodePoint(a * 0x4_0000 + b * 0x1000 + c * 64 + d) == [0xF0 + a, 0x80 + b, 0x80 + c, 0x80 + d]
  {
    FourParts(a, b, c, d);
  }

  lemma FourParts(a: int, b: int, c: int, d: int)
    requires 0 <= b < 64 && 0 <= c < 64 && 0 <= d < 64
    ensures var p := a * 0x4_0000 + b * 0x1000 + c * 64 + d;
            p / 0x4_0000 == a && p / 0x1000 % 64 == b && p / 64 % 64 == c && p % 64 == d
  {
    var p := a * 0x4_0000 + b * 0x1000 + c * 64 + d;
    assert p / 64 == a * 0x1000 + b * 64 + c;
    assert p / 0x1000 == a * 64 + b;
  }

  lemma PointOfPair(c: int)
    requires 0x1_0000 <= c < 0x11_0000
    ensures IsHigh(High(c)) && IsLow(Low(c)) && Point(High(c), Low(c)) == c
  {
  }

  /** The strict decoder accepts exactly what the encoder writes. */
  lemma {:induction false} DecodedIsEncoded(b: seq<Byte>)
    requires Decode(b).Some?
    ensures Encode(Decode(b).value) == b
    decreases |b|
  {
    if b != [] {
      CharacterMoves(b);
      var c := CharacterAt(b).value;
      DecodedIsEncoded(b[c.width..]);
      CharacterIsEncoded(b, Decode(b[c.width..]).value);
      assert b == b[..c.width] + b[c.width..];
    }
  }

  lemma CharacterIsEncoded(b: seq<Byte>, rest: Text)
    requires b != [] && CharacterAt(b).Some?
    ensures CharacterAt(b).value.width <= |b|
    ensures Encode(CharacterAt(b).value.units + rest) == b[..CharacterAt(b).value.width] + Encode(rest)
  {
    var c := CharacterAt(b).value;
    var t := c.units + rest;
    if c.width == 4 {
      FourBytes(b[0], b[1], b[2], b[3]);
      PointOfPair(Four(b[0], b[1], b[2], b[3]));
      assert t[2..] == rest;
    } else {
      assert t[1..] == rest;
      if c.width == 2 {
        TwoBytes(b[0], b[1]);
      } else if c.width == 3 {
        ThreeBytes(b[0], b[1], b[2]);
      }
    }
  }

  // ---- printed values -------------------------------------------------------------------------

  lemma {:induction false} ReplacedConcat(a: Text, b: Text)
    requires Joins(b)
    ensures Replaced(a + b) == Replaced(a) + Replaced(b)
    decreases |a|
  {
    hide Whole;
    if a == [] {
      assert a + b == b;
    } else if PairAt(a, 0) {
      assert (a + b)[2..] == a[2..] + b && (a + b)[..2] == a[..2];
      ReplacedConcat(a[2..], b);
    } else {
      assert (a + b)[1..] == a[1..] + b;
      assert |a| == 1 && b != [] ==> (a + b)[1] == b[0];
      ReplacedConcat(a[1..], b);
    }
  }

  /** The text holds no half of a surrogate pair by itself. */
  predicate IsWhole(t: Text) {
    Replaced(t) == t
  }

  lemma WholeConcat(a: Text, b: Text)
    requires IsWhole(a) && IsWhole(b) && Joins(b)
    ensures IsWhole(a + b)
  {
    ReplacedConcat(a, b);
  }

  lemma {:induction false} AsciiIsWhole(t: Text)
    requires forall k :: 0 <= k < |t| ==> t[k] < 0x80
    ensures IsWhole(t) && Joins(t)
    decreases |t|
  {
    if t != [] {
      AsciiIsWhole(t[1..]);
    }
  }

  lemma {:induction false} EscapeIsWhole(t: Text)
    ensures IsWhole(Escape(t)) && Joins(Escape(t))
    decreases |t|
  {
    if t == [] {
    } else if PairAt(t, 0) {
      EscapeIsWhole(t[2..]);
      assert [t[0], t[1]][2..] == [];
      WholeConcat([t[0], t[1]], Escape(t[2..]));
    } else {
      EscapeIsWhole(t[1..]);
      UnitIsWhole(t[0]);
      WholeConcat(EscapeUnit(t[0]), Escape(t[1..]));
    }
  }

  lemma UnitIsWhole(u: Unit)
    ensures IsWhole(EscapeUnit(u))
  {
    if |EscapeUnit(u)| == 1 {
      assert EscapeUnit(u)[1..] == [];
    } else {
      AsciiIsWhole(EscapeUnit(u));
    }
  }

  lemma QuotedIsWhole(t: Text)
    ensures IsWhole(Quoted(t))
  {
    EscapeIsWhole(t);
    AsciiIsWhole(QUOTE);
    WholeConcat(QUOTE, Escape(t));
    WholeConcat(QUOTE + Escape(t), QUOTE);
  }

  lemma {:induction false} PrintIsWhole(v: Json)
    ensures IsWhole(Print(v))
    decreases v
  {
    match v
    case Str(chars) => QuotedIsWhole(chars);
    case Number(text) =>
      if text != NULL {
        NumberInNumber(text);
      }
      AsciiIsWhole(text);
    case Arr(ms) => BracketsAreWhole(ms, false);
    case Obj(ms) => BracketsAreWhole(ms, true);
    case _ => AsciiIsWhole(Print(v));
  }

  lemma {:induction false} BracketsAreWhole(ms: seq<Member>, keyed: bool)
    ensures IsWhole(Open(keyed) + PrintMembers(ms, keyed) + Close(keyed))
    decreases ms, 1
  {
    MembersAreWhole(ms, keyed);
    AsciiIsWhole(Open(keyed));
    AsciiIsWhole(Close(keyed));
    WholeConcat(Open(keyed), PrintMembers(ms, keyed));
    WholeConcat(Open(keyed) + PrintMembers(ms, keyed), Close(keyed));
  }

  lemma {:induction false} MembersAreWhole(ms: seq<Member>, keyed: bool)
    ensures IsWhole(PrintMembers(ms, keyed)) && Joins(PrintMembers(ms, keyed))
    decreases ms, 0
  {
    if ms != [] {
      var m := ms[0];
      PrintIsWhole(m.value);
      PrintMemberJoins(m, keyed);
      PrintJoins(m.value);
      if keyed {
        QuotedIsWhole(m.key);
        AsciiIsWhole(COLON);
        WholeConcat(Quoted(m.key), COLON);
        WholeConcat(Quoted(m.key) + COLON, Print(m.value));
      }
      MembersAreWhole(ms[1..], keyed);
      var comma: Text := if |ms| == 1 then [] else COMMA;
      AsciiIsWhole(comma);
      WholeConcat(PrintMember(m, keyed), comma);
      WholeConcat(PrintMember(m, keyed) + comma, PrintMembers(ms[1..], keyed));
    }
  }

  const MARK: seq<Byte> := [0xEF, 0xBB, 0xBF]

  /** The decoder drops one byte order mark from the front. */
  function Received(b: seq<Byte>): Option<Text> {
    if MARK <= b then Decode(b[3..]) else Decode(b)
  }

  lemma PrintedBytes(v: Json)
    ensures |Encode(Print(v))| == Cost(v) > 0 && Encode(Print(v))[0] < 0x80
  {
    EncodedLength(Print(v));
    PrintCosts(v);
    PrintStarts(v);
    if v.Number? && v.text != NULL {
      NumberInNumber(v.text);
    }
  }

  /** A printed value arrives as it was sent, in as many bytes as the scanners count. */
  lemma SentIsReceived(v: Json)
    ensures |Encode(Print(v))| == Bytes(v) && Received(Encode(Print(v))) == Some(Print(v))
    ensures ReadAll(Print(v)) == Some(Tidy(v))
  {
    EncodedLength(Print(v));
    PrintedBytes(v);
    EncodedIsDecoded(Print(v));
    PrintIsWhole(v);
    PrintedIsRead(v);
  }

  /**
   * Bytes that are received as the printed form of a value are as many as the scanners count for that value,
   * unless a byte order mark was dropped: that is all the comparison with the received length detects.
   */
  lemma LengthDetectsMark(b: seq<Byte>, v: Json)
    requires Received(b) == Some(Print(v))
    ensures |b| == Bytes(v) <==> !(MARK <= b)
    ensures b == (if MARK <= b then MARK else []) + Encode(Print(v))
  {
    EncodedLength(Print(v));
    if MARK <= b {
      DecodedIsEncoded(b[3..]);
      assert b == MARK + b[3..];
    } else {
      DecodedIsEncoded(b);
    }
  }
}

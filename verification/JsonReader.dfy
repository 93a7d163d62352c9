/**
 * What the compact printed form is: a text that a reader of JSON, defined without the printer, reads back as
 * the value that was printed, at a cost in bytes that is counted unit by unit.
 */
module JsonReader {
  import opened Foundation
  import opened JsonText

  /** What was read from the front of a text, and what is left of it. */
  datatype Reading<+T> = Unreadable | Reading(value: T, rest: Text)

  function Prepend(front: Text, r: Reading<Text>): Reading<Text> {
    if r.Unreadable? then Unreadable else Reading(front + r.value, r.rest)
  }

  // ---- strings --------------------------------------------------------------------------------

  function HexValue(u: Unit): Option<nat> {
    if 0x30 <= u <= 0x39 then Some(u - 0x30)
    else if 0x41 <= u <= 0x46 then Some(u - 0x37)
    else if 0x61 <= u <= 0x66 then Some(u - 0x57)
    else None
  }

  /** Four hexadecimal digits. */
  function ReadHex(t: Text): (r: Reading<Unit>)
    ensures r.Reading? ==> |r.rest| < |t|
  {
    if |t| < 4 then Unreadable
    else
      match (HexValue(t[0]), HexValue(t[1]), HexValue(t[2]), HexValue(t[3]))
      case (Some(a), Some(b), Some(c), Some(d)) =>
        HexBelow16(t[0]);
        HexBelow16(t[1]);
        HexBelow16(t[2]);
        HexBelow16(t[3]);
        Reading(a * 0x1000 + b * 0x100 + c * 16 + d, t[4..])
      case _ => Unreadable
  }

  lemma HexBelow16(u: Unit)
    ensures HexValue(u).Some? ==> HexValue(u).value < 16
  {
  }

  /** What may follow a backslash. */
  function ReadEscape(t: Text): (r: Reading<Unit>)
    ensures r.Reading? ==> |r.rest| < |t|
  {
    if t == [] then Unreadable
    else match t[0]
      case 0x22 => Reading(0x22, t[1..])
      case 0x5C => Reading(0x5C, t[1..])
      case 0x2F => Reading(0x2F, t[1..])
      case 0x62 => Reading(0x08, t[1..])
      case 0x66 => Reading(0x0C, t[1..])
      case 0x6E => Reading(0x0A, t[1..])
      case 0x72 => Reading(0x0D, t[1..])
      case 0x74 => Reading(0x09, t[1..])
      case 0x75 => ReadHex(t[1..])
      case _ => Unreadable
  }

  /** From behind the opening quote to behind the closing one: no control unit, no half of a surrogate pair. */
  function ReadText(t: Text): (r: Reading<Text>)
    ensures r.Reading? ==> |r.rest| < |t|
    decreases |t|
  {
    if t == [] || t[0] < 0x20 then Unreadable
    else if t[0] == 0x22 then Reading([], t[1..])
    else if t[0] == 0x5C then
      var unit := ReadEscape(t[1..]);
      if unit.Unreadable? then Unreadable else Prepend([unit.value], ReadText(unit.rest))
    else if t[0] < 0xD800 || 0xE000 <= t[0] then Prepend([t[0]], ReadText(t[1..]))
    else if |t| >= 2 && t[0] < 0xDC00 <= t[1] < 0xE000 then Prepend(t[..2], ReadText(t[2..]))
    else Unreadable
  }

  // ---- values ---------------------------------------------------------------------------------

  /** Digits, signs, the point and the letter of the exponent. */
  predicate InNumber(u: Unit) {
    0x30 <= u <= 0x39 || u == 0x2B || u == 0x2D || u == 0x2E || u == 0x45 || u == 0x65
  }

  function NumberLength(t: Text): (n: nat)
    ensures n <= |t|
  {
    if t == [] || !InNumber(t[0]) then 0 else 1 + NumberLength(t[1..])
  }

  const TRUE: Text := [0x74, 0x72, 0x75, 0x65]
  const FALSE: Text := [0x66, 0x61, 0x6C, 0x73, 0x65]

  function ReadWord(t: Text, word: Text, v: Json): (r: Reading<Json>)
    requires word != []
    ensures r.Reading? ==> |r.rest| < |t|
  {
    if word <= t then Reading(v, t[|word|..]) else Unreadable
  }

  /** As many units as can belong to a number, if they are one. */
  function ReadNumber(t: Text): (r: Reading<Json>)
    ensures r.Reading? ==> |r.rest| < |t|
  {
    var n := NumberLength(t);
    if n > 0 && IsNumber(t[..n]) then Reading(Number(t[..n]), t[n..]) else Unreadable
  }

  /** One value at the front of a text. */
  function ReadValue(t: Text): (r: Reading<Json>)
    ensures r.Reading? ==> |r.rest| < |t|
    decreases |t|, 0
  {
    if t == [] then Unreadable
    else match t[0]
      case 0x6E => ReadWord(t, NULL, Null)
      case 0x74 => ReadWord(t, TRUE, Bool(true))
      case 0x66 => ReadWord(t, FALSE, Bool(false))
      case 0x22 =>
        var chars := ReadText(t[1..]);
        if chars.Unreadable? then Unreadable else Reading(Str(chars.value), chars.rest)
      case 0x5B =>
        if |t| >= 2 && t[1] == 0x5D then Reading(Arr([]), t[2..])
        else
          var items := ReadMembers(t[1..], false);
          if items.Unreadable? then Unreadable else Reading(Arr(items.value), items.rest)
      case 0x7B =>
        if |t| >= 2 && t[1] == 0x7D then Reading(Obj([]), t[2..])
        else
          var fields := ReadMembers(t[1..], true);
          if fields.Unreadable? then Unreadable else Reading(Obj(fields.value), fields.rest)
      case _ => ReadNumber(t)
  }

  /** A key in quotes and its colon; members of arrays have none. */
  function ReadKey(t: Text, keyed: bool): (r: Reading<Text>)
    ensures r.Reading? ==> |r.rest| <= |t|
  {
    if !keyed then Reading([], t)
    else if t == [] || t[0] != 0x22 then Unreadable
    else
      var key := ReadText(t[1..]);
      if key.Unreadable? || key.rest == [] || key.rest[0] != 0x3A then Unreadable else Reading(key.value, key.rest[1..])
  }

  /** One member or more, with commas between them, up to and with the closing bracket. */
  function ReadMembers(t: Text, keyed: bool): (r: Reading<seq<Member>>)
    ensures r.Reading? ==> |r.rest| < |t|
    decreases |t|, 1
  {
    var key := ReadKey(t, keyed);
    if key.Unreadable? then Unreadable
    else
      var value := ReadValue(key.rest);
      if value.Unreadable? || value.rest == [] then Unreadable
      else
        var first := Member(key.value, value.value);
        if value.rest[0] == (if keyed then 0x7D else 0x5D) then Reading([first], value.rest[1..])
        else if value.rest[0] != 0x2C then Unreadable
        else
          var others := ReadMembers(value.rest[1..], keyed);
          if others.Unreadable? then Unreadable else Reading([first] + others.value, others.rest)
  }

  /** The whole text is one value. */
  function ReadAll(t: Text): Option<Json> {
    var r := ReadValue(t);
    if r.Reading? && r.rest == [] then Some(r.value) else None
  }

  /** What printing keeps: no keys of array members, and null for a number that is not finite. */
  function Tidy(v: Json): Json
    decreases v
  {
    match v
    case Number(text) => if text == NULL then Null else v
    case Arr(members) => Arr(TidyMembers(members, false))
    case Obj(members) => Obj(TidyMembers(members, true))
    case _ => v
  }

  function TidyMembers(ms: seq<Member>, keyed: bool): seq<Member>
    decreases ms
  {
    if ms == [] then []
    else [Member(if keyed then ms[0].key else [], Tidy(ms[0].value))] + TidyMembers(ms[1..], keyed)
  }

  // ---- reading back ---------------------------------------------------------------------------

  lemma DigitsAreRead(a: nat, b: nat, c: nat, d: nat, rest: Text)
    requires a < 16 && b < 16 && c < 16 && d < 16
    ensures ReadHex([Hex(a), Hex(b), Hex(c), Hex(d)] + rest) == Reading(a * 0x1000 + b * 0x100 + c * 16 + d, rest)
  {
    var t: Text := [Hex(a), Hex(b), Hex(c), Hex(d)] + rest;
    assert HexValue(t[0]) == Some(a) && HexValue(t[1]) == Some(b) && HexValue(t[2]) == Some(c) && HexValue(t[3]) == Some(d);
    assert t[4..] == rest;
  }

  lemma HexDigits(u: Unit)
    ensures u == u / 0x1000 * 0x1000 + u / 0x100 % 16 * 0x100 + u / 16 % 16 * 16 + u % 16
  {
    assert u / 0x100 == u / 0x1000 * 16 + u / 0x100 % 16;
    assert u / 16 == u / 0x100 * 16 + u / 16 % 16;
  }

  lemma HexIsRead(u: Unit, rest: Text)
    ensures ReadHex([Hex(u / 0x1000), Hex(u / 0x100 % 16), Hex(u / 16 % 16), Hex(u % 16)] + rest) == Reading(u, rest)
  {
    hide Hex, ReadHex;
    HexDigits(u);
    DigitsAreRead(u / 0x1000, u / 0x100 % 16, u / 16 % 16, u % 16, rest);
  }

  /** What is printed for a unit outside a pair is read as that unit, and one that must be escaped is. */
  lemma UnitIsRead(u: Unit, rest: Text)
    ensures ReadText(EscapeUnit(u) + rest) == Prepend([u], ReadText(rest))
  {
    var printed := EscapeUnit(u);
    assert (printed + rest)[|printed|..] == rest;
    if |printed| == 1 {
      assert (printed + rest)[1..] == rest;
    } else if |printed| == 2 {
      assert (printed + rest)[1..] == printed[1..] + rest;
      assert (printed + rest)[1..][1..] == rest;
    } else {
      HexIsRead(u, rest);
      assert (printed + rest)[1..][1..] == printed[2..] + rest;
    }
  }

  lemma PairIsRead(high: Unit, low: Unit, rest: Text)
    requires IsHigh(high) && IsLow(low)
    ensures ReadText([high, low] + rest) == Prepend([high, low], ReadText(rest))
  {
    var t := [high, low] + rest;
    assert t[..2] == [high, low] && t[2..] == rest;
  }

  lemma QuoteIsRead(rest: Text)
    ensures ReadText(QUOTE + rest) == Reading([], rest)
  {
    assert (QUOTE + rest)[1..] == rest;
  }

  /** Unescaping undoes escaping. */
  lemma {:induction false} TextIsRead(t: Text, rest: Text)
    ensures ReadText(Escape(t) + QUOTE + rest) == Reading(t, rest)
    decreases |t|
  {
    hide ReadText, EscapeUnit, IsHigh, IsLow;
    if t == [] {
      assert Escape(t) + QUOTE + rest == QUOTE + rest;
      QuoteIsRead(rest);
    } else if PairAt(t, 0) {
      TextIsRead(t[2..], rest);
      var after := Escape(t[2..]) + QUOTE + rest;
      assert Escape(t) + QUOTE + rest == [t[0], t[1]] + after;
      PairIsRead(t[0], t[1], after);
      assert [t[0], t[1]] + t[2..] == t;
    } else {
      TextIsRead(t[1..], rest);
      var after := Escape(t[1..]) + QUOTE + rest;
      assert Escape(t) + QUOTE + rest == EscapeUnit(t[0]) + after;
      UnitIsRead(t[0], after);
      assert [t[0]] + t[1..] == t;
    }
  }

  /** What may stand behind a value inside another one, or nothing. */
  predicate Ends(rest: Text) {
    rest == [] || rest[0] == 0x2C || rest[0] == 0x5D || rest[0] == 0x7D
  }

  lemma {:induction false} DigitsInNumber(t: Text)
    ensures Digits(t) == |t| ==> forall k :: 0 <= k < |t| ==> InNumber(t[k])
  {
  }

  lemma ExponentInNumber(t: Text)
    requires IsExponent(t)
    ensures forall k :: 0 <= k < |t| ==> InNumber(t[k])
  {
    var n := if t[1] == 0x2B || t[1] == 0x2D then 2 else 1;
    forall k | n <= k < |t| ensures InNumber(t[k]) {
      assert t[n..][k - n] == t[k];
    }
  }

  lemma FractionInNumber(t: Text)
    requires IsFraction(t)
    ensures forall k :: 0 <= k < |t| ==> InNumber(t[k])
  {
    var n := 1 + Digits(t[1..]);
    if n < |t| {
      ExponentInNumber(t[n..]);
    }
    forall k | 0 < k < |t| ensures InNumber(t[k]) {
      if k < n {
        assert t[1..][k - 1] == t[k];
      } else {
        assert t[n..][k - n] == t[k];
      }
    }
  }

  /** Numbers are written with their own units only. */
  lemma NumberInNumber(t: Text)
    requires IsNumber(t)
    ensures t != [] && (t[0] == 0x2D || IsDigit(t[0]))
    ensures forall k :: 0 <= k < |t| ==> InNumber(t[k])
  {
    var m := |t| - |Unsigned(t)|;
    var n := m + Digits(Unsigned(t));
    if n < |t| {
      assert Unsigned(t)[n - m..] == t[n..];
      if IsFraction(t[n..]) {
        FractionInNumber(t[n..]);
      } else {
        ExponentInNumber(t[n..]);
      }
    }
    forall k | m <= k < |t| ensures InNumber(t[k]) {
      if k < n {
        assert Unsigned(t)[k - m] == t[k];
      } else {
        assert t[n..][k - n] == t[k];
      }
    }
  }

  lemma {:induction false} NumberStops(t: Text, rest: Text)
    requires Ends(rest) && forall k :: 0 <= k < |t| ==> InNumber(t[k])
    ensures NumberLength(t + rest) == |t|
  {
    if t == [] {
      assert t + rest == rest;
    } else {
      assert (t + rest)[1..] == t[1..] + rest;
      NumberStops(t[1..], rest);
    }
  }

  lemma NumberIsRead(t: Text, rest: Text)
    requires IsNumber(t) && Ends(rest)
    ensures ReadNumber(t + rest) == Reading(Number(t), rest)
  {
    hide IsNumber, InNumber;
    NumberInNumber(t);
    NumberStops(t, rest);
    assert (t + rest)[..|t|] == t && (t + rest)[|t|..] == rest;
  }

  lemma WordIsRead(word: Text, v: Json, rest: Text)
    requires word != []
    ensures ReadWord(word + rest, word, v) == Reading(v, rest)
  {
    assert (word + rest)[|word|..] == rest;
  }

  /** A value without members. */
  lemma LeafIsRead(v: Json, rest: Text)
    requires !Container(v) && Ends(rest)
    ensures ReadValue(Print(v) + rest) == Reading(Tidy(v), rest)
  {
    var all := Print(v) + rest;
    hide ReadNumber, ReadWord, ReadText, IsNumber, Escape;
    match v
    case Null => WordIsRead(NULL, Null, rest);
    case Bool(b) => WordIsRead(Print(v), v, rest);
    case Number(text) =>
      if text == NULL {
        WordIsRead(NULL, Null, rest);
      } else {
        NumberInNumber(text);
        NumberIsRead(text, rest);
        assert all[0] == text[0];
      }
    case Str(chars) =>
      TextIsRead(chars, rest);
      assert all[1..] == Escape(chars) + QUOTE + rest;
  }

  /** No value begins like the end of a container. */
  lemma PrintStarts(v: Json)
    ensures Print(v) != [] && !Ends([Print(v)[0]])
  {
    if v.Number? && v.text != NULL {
      NumberInNumber(v.text);
    }
  }

  lemma MemberStarts(ms: seq<Member>, keyed: bool)
    requires ms != []
    ensures PrintMembers(ms, keyed) != [] && !Ends([PrintMembers(ms, keyed)[0]])
  {
    PrintStarts(ms[0].value);
  }

  lemma ColonIsRead(u: Text, key: Text, rest: Text)
    requires ReadText(u) == Reading(key, COLON + rest)
    ensures ReadKey(QUOTE + u, true) == Reading(key, rest)
  {
    hide ReadText;
    assert (QUOTE + u)[1..] == u && (COLON + rest)[1..] == rest;
  }

  lemma KeyIsRead(m: Member, keyed: bool, rest: Text)
    ensures ReadKey(PrintMember(m, keyed) + rest, keyed) == Reading(if keyed then m.key else [], Print(m.value) + rest)
  {
    if keyed {
      var value := Print(m.value) + rest;
      hide ReadKey, ReadText, Escape, Print;
      TextIsRead(m.key, COLON + value);
      ColonIsRead(Escape(m.key) + QUOTE + (COLON + value), m.key, value);
      Regrouped(Escape(m.key), Print(m.value), rest);
    }
  }

  lemma Regrouped(key: Text, value: Text, rest: Text)
    ensures QUOTE + key + QUOTE + COLON + value + rest == QUOTE + (key + QUOTE + (COLON + (value + rest)))
  {
  }

  function Open(keyed: bool): Text {
    if keyed then [0x7B] else [0x5B]
  }

  function Close(keyed: bool): Text {
    if keyed then [0x7D] else [0x5D]
  }

  lemma OpenIsRead(keyed: bool, inner: Text, ms: seq<Member>, rest: Text)
    requires inner != [] && !Ends([inner[0]]) && ReadMembers(inner, keyed) == Reading(ms, rest)
    ensures ReadValue(Open(keyed) + inner) == Reading(if keyed then Obj(ms) else Arr(ms), rest)
  {
    hide ReadMembers;
    assert (Open(keyed) + inner)[1..] == inner && (Open(keyed) + inner)[1] == inner[0];
  }

  lemma EmptyIsRead(keyed: bool, rest: Text)
    ensures ReadValue(Open(keyed) + Close(keyed) + rest) == Reading(if keyed then Obj([]) else Arr([]), rest)
  {
    assert (Open(keyed) + Close(keyed) + rest)[2..] == rest;
  }

  lemma LastIsRead(t: Text, keyed: bool, m: Member, u: Text, rest: Text)
    requires ReadKey(t, keyed) == Reading(m.key, u) && ReadValue(u) == Reading(m.value, Close(keyed) + rest)
    ensures ReadMembers(t, keyed) == Reading([m], rest)
  {
    hide ReadKey, ReadValue;
    assert (Close(keyed) + rest)[1..] == rest;
  }

  lemma NextIsRead(t: Text, keyed: bool, m: Member, u: Text, more: Text, ms: seq<Member>, rest: Text)
    requires ReadKey(t, keyed) == Reading(m.key, u) && ReadValue(u) == Reading(m.value, COMMA + more)
    requires ReadMembers(more, keyed) == Reading(ms, rest)
    ensures ReadMembers(t, keyed) == Reading([m] + ms, rest)
  {
    hide ReadKey, ReadValue;
    assert (COMMA + more)[1..] == more;
  }

  /** What stands behind the first of some members. */
  function Behind(ms: seq<Member>, keyed: bool, rest: Text): Text
    requires ms != []
  {
    if |ms| == 1 then Close(keyed) + rest else COMMA + (PrintMembers(ms[1..], keyed) + Close(keyed) + rest)
  }

  lemma FirstAndBehind(ms: seq<Member>, keyed: bool, rest: Text)
    requires ms != []
    ensures PrintMembers(ms, keyed) + Close(keyed) + rest == PrintMember(ms[0], keyed) + Behind(ms, keyed, rest)
    ensures Ends(Behind(ms, keyed, rest))
  {
    var first, others := PrintMember(ms[0], keyed), PrintMembers(ms[1..], keyed);
    if |ms| == 1 {
      assert others == [];
      assert PrintMembers(ms, keyed) == first + [] + [];
      RegroupedLast(first, Close(keyed), rest);
    } else {
      assert PrintMembers(ms, keyed) == first + COMMA + others;
      hide PrintMember, PrintMembers;
      RegroupedNext(first, others, Close(keyed), rest);
    }
  }

  lemma RegroupedLast(first: Text, close: Text, rest: Text)
    ensures first + [] + [] + close + rest == first + (close + rest)
  {
  }

  lemma RegroupedNext(first: Text, others: Text, close: Text, rest: Text)
    ensures first + COMMA + others + close + rest == first + (COMMA + (others + close + rest))
  {
  }

  /** Reading gives every printed value back, whatever ends it. */
  lemma {:induction false} PrintIsRead(v: Json, rest: Text)
    requires Ends(rest)
    ensures ReadValue(Print(v) + rest) == Reading(Tidy(v), rest)
    decreases v
  {
    hide ReadValue, ReadMembers;
    if !Container(v) {
      LeafIsRead(v, rest);
    } else {
      var keyed := v.Obj?;
      assert Print(v) + rest == Open(keyed) + (PrintMembers(v.members, keyed) + Close(keyed) + rest);
      if v.members == [] {
        assert Print(v) + rest == Open(keyed) + Close(keyed) + rest;
        EmptyIsRead(keyed, rest);
      } else {
        MemberStarts(v.members, keyed);
        MembersAreRead(v.members, keyed, rest);
        OpenIsRead(keyed, PrintMembers(v.members, keyed) + Close(keyed) + rest, TidyMembers(v.members, keyed), rest);
      }
    }
  }

  lemma {:induction false} MembersAreRead(ms: seq<Member>, keyed: bool, rest: Text)
    requires ms != []
    ensures ReadMembers(PrintMembers(ms, keyed) + Close(keyed) + rest, keyed) == Reading(TidyMembers(ms, keyed), rest)
    decreases ms
  {
    hide ReadKey, ReadValue, ReadMembers, PrintMember, PrintMembers, Print;
    var after := Behind(ms, keyed, rest);
    FirstAndBehind(ms, keyed, rest);
    KeyIsRead(ms[0], keyed, after);
    PrintIsRead(ms[0].value, after);
    var first := Member(if keyed then ms[0].key else [], Tidy(ms[0].value));
    var t := PrintMember(ms[0], keyed) + after;
    if |ms| == 1 {
      assert TidyMembers(ms, keyed) == [first] + TidyMembers(ms[1..], keyed) == [first];
      LastIsRead(t, keyed, first, Print(ms[0].value) + after, rest);
    } else {
      var more := PrintMembers(ms[1..], keyed) + Close(keyed) + rest;
      MembersAreRead(ms[1..], keyed, rest);
      NextIsRead(t, keyed, first, Print(ms[0].value) + after, more, TidyMembers(ms[1..], keyed), rest);
    }
  }

  /** The round trip of whole texts. */
  lemma PrintedIsRead(v: Json)
    ensures ReadAll(Print(v)) == Some(Tidy(v))
  {
    PrintIsRead(v, []);
    assert Print(v) + [] == Print(v);
  }

  /** Digits read from the left. */
  function Decimal(digits: Text, before: nat): nat {
    if digits == [] || !IsDigit(digits[0]) then before else Decimal(digits[1..], before * 10 + (digits[0] - 0x30))
  }

  lemma {:induction false} DecimalIsValue(digits: Text, before: nat, all: Text)
    requires Digits(digits) == |digits| && Digits(all) == |all| && Value(all) == before
    requires Digits(all + digits) == |all + digits|
    ensures Decimal(digits, before) == Value(all + digits)
    decreases |digits|
  {
    if digits == [] {
      assert all + digits == all;
    } else {
      var longer := all + [digits[0]];
      assert longer[..|all|] == all;
      assert longer + digits[1..] == all + digits;
      PrefixDigits(longer, digits[1..]);
      DecimalIsValue(digits[1..], before * 10 + (digits[0] - 0x30), longer);
    }
  }

  lemma {:induction false} PrefixDigits(a: Text, b: Text)
    requires Digits(a + b) == |a + b|
    ensures Digits(a) == |a|
  {
    assert forall k :: 0 <= k < |a| ==> (a + b)[k] == a[k];
  }

  /** Safe are exactly the texts of integers below 2 to the power of 53. */
  lemma SafeExactly(t: NumberText)
    ensures Safe(t) <==>
              var whole := if t[0] == 0x2D then t[1..] else t;
              whole != [] && (forall k :: 0 <= k < |whole| ==> IsDigit(whole[k])) && Decimal(whole, 0) < 0x20_0000_0000_0000
  {
    var whole := Unsigned(t);
    if Digits(whole) == |whole| {
      assert [] + whole == whole;
      DecimalIsValue(whole, 0, []);
    }
  }

  // ---- what a printed text costs --------------------------------------------------------------

  /** Two bytes for the seven short escapes, six for the others, otherwise the width of the character. */
  function UnitCost(u: Unit): nat {
    if u in {0x08, 0x09, 0x0A, 0x0C, 0x0D, 0x22, 0x5C} then 2
    else if u < 0x20 || 0xD800 <= u < 0xE000 then 6
    else if u < 0x80 then 1
    else if u < 0x800 then 2
    else 3
  }

  /** A surrogate pair is one character of four bytes. */
  function TextCost(t: Text): nat {
    if t == [] then 0
    else if |t| >= 2 && 0xD800 <= t[0] < 0xDC00 <= t[1] < 0xE000 then 4 + TextCost(t[2..])
    else UnitCost(t[0]) + TextCost(t[1..])
  }

  function Cost(v: Json): nat
    decreases v
  {
    match v
    case Null => 4
    case Bool(b) => if b then 4 else 5
    case Number(text) => |text|
    case Str(chars) => 2 + TextCost(chars)
    case Arr(ms) => 2 + (if ms == [] then 0 else |ms| - 1) + MembersCost(ms, false)
    case Obj(ms) => 2 + (if ms == [] then 0 else |ms| - 1) + MembersCost(ms, true)
  }

  function MembersCost(ms: seq<Member>, keyed: bool): nat
    decreases ms
  {
    if ms == [] then 0
    else (if keyed then 3 + TextCost(ms[0].key) else 0) + Cost(ms[0].value) + MembersCost(ms[1..], keyed)
  }

  lemma {:induction false} AsciiLength(t: Text)
    requires forall k :: 0 <= k < |t| ==> t[k] < 0x80
    ensures Utf8Length(t) == |t|
    decreases |t|
  {
    if t != [] {
      AsciiLength(t[1..]);
    }
  }

  lemma UnitCosts(u: Unit)
    ensures Utf8Length(EscapeUnit(u)) == UnitCost(u) && Joins(EscapeUnit(u))
  {
    if |EscapeUnit(u)| == 1 {
      assert EscapeUnit(u)[1..] == [];
    } else {
      AsciiLength(EscapeUnit(u));
    }
  }

  lemma {:induction false} EscapeCosts(t: Text)
    ensures Utf8Length(Escape(t)) == TextCost(t) && Joins(Escape(t))
    decreases |t|
  {
    if t == [] {
    } else if PairAt(t, 0) {
      EscapeCosts(t[2..]);
      var pair := [t[0], t[1]];
      assert pair[2..] == [];
      Utf8Concat(pair, Escape(t[2..]));
    } else {
      EscapeCosts(t[1..]);
      UnitCosts(t[0]);
      Utf8Concat(EscapeUnit(t[0]), Escape(t[1..]));
    }
  }

  lemma QuotedCosts(t: Text)
    ensures Utf8Length(Quoted(t)) == 2 + TextCost(t)
  {
    EscapeCosts(t);
    AsciiLength(QUOTE);
    Utf8Concat(QUOTE, Escape(t));
    Utf8Concat(QUOTE + Escape(t), QUOTE);
  }

  /** The byte length that both scanners count, unit by unit. */
  lemma {:induction false} PrintCosts(v: Json)
    ensures Bytes(v) == Cost(v)
    decreases v
  {
    match v
    case Str(chars) => QuotedCosts(chars);
    case Number(text) =>
      if text != NULL {
        NumberInNumber(text);
      }
      AsciiLength(text);
      hide IsNumber;
    case Arr(ms) =>
      ContainerBytes(v);
      MembersCosts(ms, false);
    case Obj(ms) =>
      ContainerBytes(v);
      MembersCosts(ms, true);
    case _ => AsciiLength(Print(v));
  }

  lemma {:induction false} MembersCosts(ms: seq<Member>, keyed: bool)
    ensures KeyBytes(ms, keyed) + BytesIn(ms) == MembersCost(ms, keyed)
    decreases ms
  {
    if ms != [] {
      QuotedCosts(ms[0].key);
      PrintCosts(ms[0].value);
      MembersCosts(ms[1..], keyed);
    }
  }
}

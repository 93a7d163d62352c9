/**
 * JSON values, their compact printed form, and the recursive totals that the scanners must reproduce.
 * Strings are UTF-16 code units, as the language of the repository has them.
 */
module JsonText {
  type Unit = n: int | 0 <= n < 0x1_0000
  type Text = seq<Unit>

  // ---- numbers --------------------------------------------------------------------------------

  predicate IsDigit(u: Unit) {
    0x30 <= u <= 0x39
  }

  /** How many digits the text begins with. */
  function Digits(t: Text): (n: nat)
    ensures n <= |t| && (forall k :: 0 <= k < n ==> IsDigit(t[k])) && (n < |t| ==> !IsDigit(t[n]))
  {
    if t == [] || !IsDigit(t[0]) then 0 else 1 + Digits(t[1..])
  }

  function Unsigned(t: Text): Text {
    if t != [] && t[0] == 0x2D then t[1..] else t
  }

  predicate IsExponent(t: Text) {
    && |t| >= 2 && (t[0] == 0x65 || t[0] == 0x45)
    && var power := if t[1] == 0x2B || t[1] == 0x2D then t[2..] else t[1..];
       power != [] && Digits(power) == |power|
  }

  predicate IsFraction(t: Text) {
    t != [] && t[0] == 0x2E && Digits(t[1..]) > 0
    && (Digits(t[1..]) == |t| - 1 || IsExponent(t[1 + Digits(t[1..])..]))
  }

  /** A sign, an integer without leading zeros, a fraction and an exponent. */
  predicate IsNumber(t: Text) {
    var whole := Unsigned(t);
    var n := Digits(whole);
    && n > 0 && (n > 1 ==> whole[0] != 0x30)
    && (n == |whole| || IsFraction(whole[n..]) || IsExponent(whole[n..]))
  }

  function Value(digits: Text): nat
    requires Digits(digits) == |digits|
  {
    if digits == [] then 0
    else
      var k := |digits| - 1;
      AllDigits(digits);
      Value(digits[..k]) * 10 + (digits[k] - 0x30)
  }

  lemma AllDigits(t: Text)
    requires Digits(t) == |t| > 0
    ensures IsDigit(t[|t| - 1]) && Digits(t[..|t| - 1]) == |t| - 1
  {
    var most := t[..|t| - 1];
    assert forall k :: 0 <= k < |most| ==> most[k] == t[k] && IsDigit(most[k]);
  }

  const NULL: Text := [0x6E, 0x75, 0x6C, 0x6C]

  /** A number is kept as it is printed, and one that is not finite is printed as null. */
  type NumberText = t: Text | IsNumber(t) || t == NULL witness NULL

  /** An integer that doubles hold exactly, that is 2^53 - 1 at most; its shortest form is its digits. */
  predicate Safe(t: NumberText) {
    var whole := Unsigned(t);
    whole != [] && Digits(whole) == |whole| && Value(whole) <= 9_007_199_254_740_991
  }

  // ---- values ---------------------------------------------------------------------------------

  /** An element of an array is a member whose key is not looked at. */
  datatype Member = Member(key: Text, value: Json)

  datatype Json =
    | Null
    | Bool(b: bool)
    | Number(text: NumberText)
    | Str(chars: Text)
    | Arr(members: seq<Member>)
    | Obj(members: seq<Member>)

  predicate Container(v: Json) {
    v.Arr? || v.Obj?
  }

  // ---- UTF-8 length ---------------------------------------------------------------------------

  predicate IsHigh(u: Unit) {
    0xD800 <= u < 0xDC00
  }

  predicate IsLow(u: Unit) {
    0xDC00 <= u < 0xE000
  }

  predicate PairAt(t: Text, k: nat) {
    k + 1 < |t| && IsHigh(t[k]) && IsLow(t[k + 1])
  }

  function UnitBytes(u: Unit): nat {
    if u < 0x80 then 1 else if u < 0x800 then 2 else 3
  }

  /** A surrogate pair takes four bytes; a lone surrogate is replaced and takes three. */
  function Utf8Length(t: Text): nat {
    if t == [] then 0
    else if PairAt(t, 0) then 4 + Utf8Length(t[2..])
    else UnitBytes(t[0]) + Utf8Length(t[1..])
  }

  /** Lengths add up unless the cut splits a surrogate pair. */
  lemma {:induction false} Utf8Concat(a: Text, b: Text)
    requires b == [] || !IsLow(b[0])
    ensures Utf8Length(a + b) == Utf8Length(a) + Utf8Length(b)
    decreases |a|
  {
    if a == [] {
      assert a + b == b;
    } else if PairAt(a, 0) {
      assert (a + b)[2..] == a[2..] + b;
      Utf8Concat(a[2..], b);
    } else {
      assert (a + b)[1..] == a[1..] + b;
      assert |a| == 1 && b != [] ==> (a + b)[1] == b[0];
      Utf8Concat(a[1..], b);
    }
  }

  // ---- printing -------------------------------------------------------------------------------

  const QUOTE: Text := [0x22]
  const COLON: Text := [0x3A]
  const COMMA: Text := [0x2C]

  function Hex(n: int): Unit
    requires 0 <= n < 16
  {
    if n < 10 then 0x30 + n else 0x57 + n
  }

  function UnicodeEscape(u: Unit): Text {
    [0x5C, 0x75, Hex(u / 0x1000), Hex(u / 0x100 % 16), Hex(u / 16 % 16), Hex(u % 16)]
  }

  /** Control characters and lone surrogates are escaped, and the two characters that must be. */
  function EscapeUnit(u: Unit): Text {
    if u == 0x22 || u == 0x5C then [0x5C, u]
    else if u == 0x08 then [0x5C, 0x62]
    else if u == 0x09 then [0x5C, 0x74]
    else if u == 0x0A then [0x5C, 0x6E]
    else if u == 0x0C then [0x5C, 0x66]
    else if u == 0x0D then [0x5C, 0x72]
    else if u < 0x20 || IsHigh(u) || IsLow(u) then UnicodeEscape(u)
    else [u]
  }

  function Escape(t: Text): Text {
    if t == [] then []
    else if PairAt(t, 0) then [t[0], t[1]] + Escape(t[2..])
    else EscapeUnit(t[0]) + Escape(t[1..])
  }

  function Quoted(t: Text): Text {
    QUOTE + Escape(t) + QUOTE
  }

  function PrintMember(m: Member, keyed: bool): Text
    decreases m
  {
    if keyed then Quoted(m.key) + COLON + Print(m.value) else Print(m.value)
  }

  function PrintMembers(ms: seq<Member>, keyed: bool): Text
    decreases ms
  {
    if ms == [] then []
    else PrintMember(ms[0], keyed) + (if |ms| == 1 then [] else COMMA) + PrintMembers(ms[1..], keyed)
  }

  /** The compact form: no space anywhere. */
  function Print(v: Json): Text
    decreases v
  {
    match v
    case Null => NULL
    case Bool(b) => if b then [0x74, 0x72, 0x75, 0x65] else [0x66, 0x61, 0x6C, 0x73, 0x65]
    case Number(text) => text
    case Str(chars) => Quoted(chars)
    case Arr(members) => [0x5B] + PrintMembers(members, false) + [0x5D]
    case Obj(members) => [0x7B] + PrintMembers(members, true) + [0x7D]
  }

  // ---- totals ---------------------------------------------------------------------------------

  function Max(a: nat, b: nat): nat {
    if a < b then b else a
  }

  function Bytes(v: Json): nat {
    Utf8Length(Print(v))
  }

  function Nodes(v: Json): nat
    decreases v
  {
    if Container(v) then 1 + NodesIn(v.members) else 1
  }

  function NodesIn(ms: seq<Member>): (n: nat)
    ensures n >= |ms|
    decreases ms
  {
    if ms == [] then 0 else Nodes(ms[0].value) + NodesIn(ms[1..])
  }

  function Depth(v: Json): nat
    decreases v
  {
    if Container(v) && v.members != [] then 1 + DepthIn(v.members) else 0
  }

  function DepthIn(ms: seq<Member>): nat
    decreases ms
  {
    if ms == [] then 0 else Max(Depth(ms[0].value), DepthIn(ms[1..]))
  }

  function LongestString(v: Json): nat
    decreases v
  {
    if v.Str? then Utf8Length(v.chars) else if Container(v) then LongestStringIn(v.members) else 0
  }

  function LongestStringIn(ms: seq<Member>): nat
    decreases ms
  {
    if ms == [] then 0 else Max(LongestString(ms[0].value), LongestStringIn(ms[1..]))
  }

  function LongestKey(v: Json): nat
    decreases v
  {
    if Container(v) then LongestKeyIn(v.members, v.Obj?) else 0
  }

  function LongestKeyIn(ms: seq<Member>, keyed: bool): nat
    decreases ms
  {
    if ms == [] then 0
    else Max(Max(if keyed then Utf8Length(ms[0].key) else 0, LongestKey(ms[0].value)), LongestKeyIn(ms[1..], keyed))
  }

  predicate SafeNumbers(v: Json)
    decreases v
  {
    (v.Number? ==> Safe(v.text)) && (Container(v) ==> SafeNumbersIn(v.members))
  }

  predicate SafeNumbersIn(ms: seq<Member>)
    decreases ms
  {
    ms == [] || (SafeNumbers(ms[0].value) && SafeNumbersIn(ms[1..]))
  }

  // ---- how the printed length splits over the children ----------------------------------------

  function BytesIn(ms: seq<Member>): nat {
    if ms == [] then 0 else Bytes(ms[0].value) + BytesIn(ms[1..])
  }

  /** Keys with their colons. */
  function KeyBytes(ms: seq<Member>, keyed: bool): nat {
    if ms == [] then 0
    else (if keyed then Utf8Length(Quoted(ms[0].key)) + 1 else 0) + KeyBytes(ms[1..], keyed)
  }

  function Brackets(n: nat): nat {
    2 + if n == 0 then 0 else n - 1
  }

  predicate Joins(t: Text) {
    t == [] || !IsLow(t[0])
  }

  lemma {:induction false} PrintJoins(v: Json)
    ensures Joins(Print(v))
  {
  }

  lemma PrintMemberJoins(m: Member, keyed: bool)
    ensures Joins(PrintMember(m, keyed))
    ensures Utf8Length(PrintMember(m, keyed)) ==
              (if keyed then Utf8Length(Quoted(m.key)) + 1 else 0) + Bytes(m.value)
  {
    PrintJoins(m.value);
    if keyed {
      Utf8Concat(Quoted(m.key), COLON);
      Utf8Concat(Quoted(m.key) + COLON, Print(m.value));
    }
  }

  lemma {:induction false} PrintMembersBytes(ms: seq<Member>, keyed: bool)
    ensures Joins(PrintMembers(ms, keyed))
    ensures Utf8Length(PrintMembers(ms, keyed)) ==
              (if ms == [] then 0 else |ms| - 1) + KeyBytes(ms, keyed) + BytesIn(ms)
    decreases |ms|
  {
    if ms != [] {
      PrintMemberJoins(ms[0], keyed);
      PrintMembersBytes(ms[1..], keyed);
      var head := PrintMember(ms[0], keyed);
      var comma := if |ms| == 1 then [] else COMMA;
      Utf8Concat(head, comma);
      Utf8Concat(head + comma, PrintMembers(ms[1..], keyed));
    }
  }

  /** Brackets and commas, keys and colons, and the children: nothing else is printed. */
  lemma ContainerBytes(v: Json)
    requires Container(v)
    ensures Bytes(v) == Brackets(|v.members|) + KeyBytes(v.members, v.Obj?) + BytesIn(v.members)
  {
    var inner := PrintMembers(v.members, v.Obj?);
    PrintMembersBytes(v.members, v.Obj?);
    var open: Text := if v.Obj? then [0x7B] else [0x5B];
    var close: Text := if v.Obj? then [0x7D] else [0x5D];
    Utf8Concat(open, inner);
    Utf8Concat(open + inner, close);
    assert Print(v) == open + inner + close;
  }
}

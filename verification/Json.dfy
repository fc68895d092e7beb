/** JSON values, their compact ASCII text, and a reader for that text (RFC 8259). Numbers are kept
    as the characters they print as. */
module Json {
  import opened Records

  datatype Json =
    | Null
    | Bool(b: bool)
    | Num(lexeme: string)
    | Str(s: string)
    | List(items: seq<Json>)
    | Obj(members: seq<Member>)

  datatype Member = Member(key: string, value: Json)

  predicate NumChar(c: char) {
    '0' <= c <= '9' || c in {'-', '+', '.', 'e', 'E'}
  }

  predicate IsNumber(s: string) {
    s != "" && (s[0] == '-' || '0' <= s[0] <= '9') && forall c <- s :: NumChar(c)
  }

  ghost predicate DistinctKeys(ms: seq<Member>) {
    forall i, j :: 0 <= i < j < |ms| ==> ms[i].key != ms[j].key
  }

  /** Numbers print as numbers, and no object has a key twice. */
  ghost predicate WellFormed(j: Json) {
    match j
    case Num(lexeme) => IsNumber(lexeme)
    case List(items) => forall i :: 0 <= i < |items| ==> WellFormed(items[i])
    case Obj(members) => DistinctKeys(members) && forall i :: 0 <= i < |members| ==> WellFormed(members[i].value)
    case _ => true
  }

  // ---- printing ----

  function HexDigit(d: int): char
    requires 0 <= d < 16
  {
    if d < 10 then (48 + d) as char else (87 + d) as char
  }

  function Hex4(n: int): (digits: string)
    requires 0 <= n < 0x10000
    ensures |digits| == 4
  {
    var n1 := n / 16;
    var n2 := n1 / 16;
    [HexDigit(n2 / 16), HexDigit(n2 % 16), HexDigit(n1 % 16), HexDigit(n % 16)]
  }

  function UnicodeEscape(n: int): string
    requires 0 <= n < 0x10000
  {
    "\\u" + Hex4(n)
  }

  predicate Plain(c: char) {
    ' ' <= c <= '~' && c != '"' && c != '\\'
  }

  function EscapeChar(c: char): string {
    if c == '"' then "\\\""
    else if c == '\\' then "\\\\"
    else if c == '\n' then "\\n"
    else if c == '\r' then "\\r"
    else if c == '\t' then "\\t"
    else if c == '\U{0C}' then "\\f"
    else if c == '\U{08}' then "\\b"
    else if Plain(c) then [c]
    else if c as int < 0x10000 then UnicodeEscape(c as int)
    else
      var n := c as int - 0x10000;
      UnicodeEscape(0xd800 + n / 0x400) + UnicodeEscape(0xdc00 + n % 0x400)
  }

  /** The characters of a string literal after its opening quote. */
  function Quoted(s: string): string {
    if s == "" then "\"" else EscapeChar(s[0]) + Quoted(s[1..])
  }

  function Print(j: Json): string {
    match j
    case Null => "null"
    case Bool(b) => if b then "true" else "false"
    case Num(lexeme) => lexeme
    case Str(s) => "\"" + Quoted(s)
    case List(items) => if items == [] then "[]" else "[" + PrintItems(items)
    case Obj(members) => if members == [] then "{}" else "{" + PrintMembers(members)
  }

  function PrintItems(items: seq<Json>): string
    requires items != []
  {
    Print(items[0]) + if |items| == 1 then "]" else "," + PrintItems(items[1..])
  }

  function PrintMembers(members: seq<Member>): string
    requires members != []
  {
    "\"" + Quoted(members[0].key) + ":" + Print(members[0].value) +
    if |members| == 1 then "}" else "," + PrintMembers(members[1..])
  }

  // ---- reading ----

  /** A reader returns what it read and the rest of the text. */
  type Read<T> = Option<(T, string)>

  function HexValue(c: char): (d: Option<int>)
    ensures d.Some? ==> 0 <= d.value < 16
  {
    if '0' <= c <= '9' then Some(c as int - 48)
    else if 'a' <= c <= 'f' then Some(c as int - 87)
    else if 'A' <= c <= 'F' then Some(c as int - 55)
    else None
  }

  function ReadHex4(s: string): (r: Read<int>)
    ensures r.Some? ==> 0 <= r.value.0 < 0x10000 && |r.value.1| + 4 == |s|
  {
    if |s| < 4 then None
    else
      var a, b, c, d := HexValue(s[0]), HexValue(s[1]), HexValue(s[2]), HexValue(s[3]);
      if a.None? || b.None? || c.None? || d.None? then None
      else Some((((a.value * 16 + b.value) * 16 + c.value) * 16 + d.value, s[4..]))
  }

  /** After `\u`: one unit, or a high surrogate and the low one that must follow it. */
  function ReadUnicode(s: string): (r: Read<char>)
    ensures r.Some? ==> |r.value.1| < |s|
  {
    match ReadHex4(s)
    case None => None
    case Some((hi, rest)) =>
      if hi < 0xd800 || hi >= 0xe000 then Some((hi as char, rest))
      else if hi >= 0xdc00 || |rest| < 2 || rest[..2] != "\\u" then None
      else match ReadHex4(rest[2..])
           case None => None
           case Some((lo, rest1)) =>
             if 0xdc00 <= lo < 0xe000
             then Some(((0x10000 + (hi - 0xd800) * 0x400 + (lo - 0xdc00)) as char, rest1))
             else None
  }

  function ReadChar(s: string): (r: Read<char>)
    requires s != ""
    ensures r.Some? ==> |r.value.1| < |s|
  {
    if Plain(s[0]) then Some((s[0], s[1..]))
    else if s[0] != '\\' || |s| < 2 then None
    else match s[1]
         case '"' => Some(('"', s[2..]))
         case '\\' => Some(('\\', s[2..]))
         case '/' => Some(('/', s[2..]))
         case 'n' => Some(('\n', s[2..]))
         case 'r' => Some(('\r', s[2..]))
         case 't' => Some(('\t', s[2..]))
         case 'f' => Some(('\U{0C}', s[2..]))
         case 'b' => Some(('\U{08}', s[2..]))
         case 'u' => ReadUnicode(s[2..])
         case _ => None
  }

  /** Reads a string literal after its opening quote. */
  function ReadString(s: string): (r: Read<string>)
    ensures r.Some? ==> |r.value.1| < |s|
    decreases |s|
  {
    if s == "" then None
    else if s[0] == '"' then Some(("", s[1..]))
    else match ReadChar(s)
         case None => None
         case Some((c, rest)) =>
           match ReadString(rest)
           case None => None
           case Some((cs, rest1)) => Some(([c] + cs, rest1))
  }

  /** The longest run of number characters. */
  function ReadNumber(s: string): (r: (string, string))
    ensures |r.1| <= |s| && (s != "" && NumChar(s[0]) ==> |r.1| < |s|)
  {
    if s == "" || !NumChar(s[0]) then ("", s)
    else
      var (cs, rest) := ReadNumber(s[1..]);
      ([s[0]] + cs, rest)
  }

  function ReadValue(s: string): (r: Read<Json>)
    ensures r.Some? ==> |r.value.1| < |s|
    decreases |s|, 0
  {
    if s == "" then None
    else match s[0]
         case 'n' => if "null" <= s then Some((Null, s[4..])) else None
         case 't' => if "true" <= s then Some((Bool(true), s[4..])) else None
         case 'f' => if "false" <= s then Some((Bool(false), s[5..])) else None
         case '"' =>
           (match ReadString(s[1..])
            case None => None
            case Some((cs, rest)) => Some((Str(cs), rest)))
         case '[' =>
           if "[]" <= s then Some((List([]), s[2..]))
           else (match ReadItems(s[1..])
                 case None => None
                 case Some((items, rest)) => Some((List(items), rest)))
         case '{' =>
           if "{}" <= s then Some((Obj([]), s[2..]))
           else (match ReadMembers(s[1..])
                 case None => None
                 case Some((members, rest)) => Some((Obj(members), rest)))
         case c =>
           if c == '-' || '0' <= c <= '9' then
             var (lexeme, rest) := ReadNumber(s);
             Some((Num(lexeme), rest))
           else None
  }

  function ReadItems(s: string): (r: Read<seq<Json>>)
    ensures r.Some? ==> |r.value.1| < |s|
    decreases |s|, 1
  {
    match ReadValue(s)
    case None => None
    case Some((v, rest)) =>
      if rest == "" then None
      else if rest[0] == ']' then Some(([v], rest[1..]))
      else if rest[0] != ',' then None
      else match ReadItems(rest[1..])
           case None => None
           case Some((vs, rest1)) => Some(([v] + vs, rest1))
  }

  function ReadMembers(s: string): (r: Read<seq<Member>>)
    ensures r.Some? ==> |r.value.1| < |s|
    decreases |s|, 1
  {
    if s == "" || s[0] != '"' then None
    else match ReadString(s[1..])
         case None => None
         case Some((key, after)) =>
           if after == "" || after[0] != ':' then None
           else match ReadValue(after[1..])
                case None => None
                case Some((v, rest)) =>
                  if rest == "" then None
                  else if rest[0] == '}' then Some(([Member(key, v)], rest[1..]))
                  else if rest[0] != ',' then None
                  else match ReadMembers(rest[1..])
                       case None => None
                       case Some((ms, rest1)) => Some(([Member(key, v)] + ms, rest1))
  }

  // ---- what is printed is read back ----

  lemma DigitRoundTrip(d: int)
    requires 0 <= d < 16
    ensures HexValue(HexDigit(d)) == Some(d)
  {}

  lemma Hex4RoundTrip(n: int, rest: string)
    requires 0 <= n < 0x10000
    ensures ReadHex4(Hex4(n) + rest) == Some((n, rest))
  {
    hide HexDigit, HexValue;
    var n1 := n / 16;
    var n2 := n1 / 16;
    DigitRoundTrip(n2 / 16);
    DigitRoundTrip(n2 % 16);
    DigitRoundTrip(n1 % 16);
    DigitRoundTrip(n % 16);
    var s := Hex4(n) + rest;
    assert s[0] == HexDigit(n2 / 16) && s[1] == HexDigit(n2 % 16);
    assert s[2] == HexDigit(n1 % 16) && s[3] == HexDigit(n % 16);
    assert s[4..] == rest;
  }

  lemma UnitRoundTrip(c: char, rest: string)
    requires c as int < 0x10000
    ensures ReadUnicode(Hex4(c as int) + rest) == Some((c, rest))
  {
    hide Hex4, ReadHex4;
    Hex4RoundTrip(c as int, rest);
  }

  lemma PairRoundTrip(c: char, rest: string)
    requires c as int >= 0x10000
    ensures var n := c as int - 0x10000;
            ReadUnicode(Hex4(0xd800 + n / 0x400) + (UnicodeEscape(0xdc00 + n % 0x400) + rest)) == Some((c, rest))
  {
    hide Hex4, ReadHex4;
    var n := c as int - 0x10000;
    var lo := 0xdc00 + n % 0x400;
    var more := UnicodeEscape(lo) + rest;
    Hex4RoundTrip(0xd800 + n / 0x400, more);
    assert more[..2] == "\\u" && more[2..] == Hex4(lo) + rest;
    Hex4RoundTrip(lo, rest);
  }

  lemma ReadEscape(s: string)
    requires |s| >= 2 && s[..2] == "\\u"
    ensures ReadChar(s) == ReadUnicode(s[2..])
  {}

  lemma ShortEscapeRoundTrip(c: char, rest: string)
    requires |EscapeChar(c)| == 2
    ensures ReadChar(EscapeChar(c) + rest) == Some((c, rest))
  {
    hide ReadUnicode, Hex4;
    var s := EscapeChar(c) + rest;
    assert s[2..] == rest;
    if c == '"' {
      assert s[1] == '"';
    } else if c == '\\' {
      assert s[1] == '\\';
    } else if c == '\n' {
      assert s[1] == 'n';
    } else if c == '\r' {
      assert s[1] == 'r';
    } else if c == '\t' {
      assert s[1] == 't';
    } else if c == '\U{0C}' {
      assert s[1] == 'f';
    } else {
      assert s[1] == 'b';
    }
  }

  lemma CharRoundTrip(c: char, rest: string)
    ensures EscapeChar(c) != "" && EscapeChar(c)[0] != '"'
    ensures ReadChar(EscapeChar(c) + rest) == Some((c, rest))
  {
    hide ReadUnicode, Hex4;
    var s := EscapeChar(c) + rest;
    if |EscapeChar(c)| == 1 {
      assert Plain(c) && s[1..] == rest;
    } else if |EscapeChar(c)| == 2 {
      ShortEscapeRoundTrip(c, rest);
    } else if c as int < 0x10000 {
      assert s[..2] == "\\u" && s[2..] == Hex4(c as int) + rest;
      ReadEscape(s);
      UnitRoundTrip(c, rest);
    } else {
      var n := c as int - 0x10000;
      assert s[..2] == "\\u";
      assert s[2..] == Hex4(0xd800 + n / 0x400) + (UnicodeEscape(0xdc00 + n % 0x400) + rest);
      ReadEscape(s);
      PairRoundTrip(c, rest);
    }
  }

  lemma {:induction false} StringRoundTrip(s: string, rest: string)
    ensures ReadString(Quoted(s) + rest) == Some((s, rest))
  {
    hide ReadChar, EscapeChar;
    if s == "" {
      assert ("\"" + rest)[1..] == rest;
    } else {
      var more := Quoted(s[1..]) + rest;
      assert Quoted(s) + rest == EscapeChar(s[0]) + more;
      CharRoundTrip(s[0], more);
      assert (EscapeChar(s[0]) + more)[0] != '"';
      StringRoundTrip(s[1..], rest);
      assert [s[0]] + s[1..] == s;
    }
  }

  predicate Stops(rest: string) {
    rest == "" || !NumChar(rest[0])
  }

  lemma {:induction false} NumberRoundTrip(lexeme: string, rest: string)
    requires Stops(rest) && forall c <- lexeme :: NumChar(c)
    ensures ReadNumber(lexeme + rest) == (lexeme, rest)
  {
    if lexeme == "" {
      assert lexeme + rest == rest;
    } else {
      assert (lexeme + rest)[1..] == lexeme[1..] + rest;
      NumberRoundTrip(lexeme[1..], rest);
      assert [lexeme[0]] + lexeme[1..] == lexeme;
    }
  }

  /** Reading inverts printing, whatever follows; only a number needs what follows not to look
      like more of it. */
  lemma {:induction false} RoundTrip(j: Json, rest: string)
    requires WellFormed(j) && Stops(rest)
    ensures ReadValue(Print(j) + rest) == Some((j, rest))
    decreases j
  {
    hide PrintItems, PrintMembers, Quoted, ReadValue;
    match j {
      case Null => ConstantRead(j, rest);
      case Bool(_) => ConstantRead(j, rest);
      case Num(lexeme) => NumberRead(lexeme, rest);
      case Str(cs) => StringRead(cs, rest);
      case List(items) =>
        if items == [] {
          ConstantRead(j, rest);
        } else {
          ItemsRoundTrip(items, rest);
          ListRead(items, rest);
        }
      case Obj(members) =>
        if members == [] {
          ConstantRead(j, rest);
        } else {
          MembersRoundTrip(members, rest);
          ObjectRead(members, rest);
        }
    }
  }

  lemma ConstantRead(j: Json, rest: string)
    requires j in {Null, Bool(true), Bool(false), List([]), Obj([])}
    ensures ReadValue(Print(j) + rest) == Some((j, rest))
  {
    hide ReadString, ReadNumber, ReadItems, ReadMembers;
    var s := Print(j) + rest;
    assert s[|Print(j)|..] == rest;
  }

  lemma NumberRead(lexeme: string, rest: string)
    requires IsNumber(lexeme) && Stops(rest)
    ensures ReadValue(lexeme + rest) == Some((Num(lexeme), rest))
  {
    hide ReadString, ReadItems, ReadMembers, ReadNumber;
    NumberRoundTrip(lexeme, rest);
    assert (lexeme + rest)[0] == lexeme[0];
  }

  lemma StringRead(cs: string, rest: string)
    ensures ReadValue("\"" + Quoted(cs) + rest) == Some((Str(cs), rest))
  {
    hide Quoted, ReadString, ReadNumber, ReadItems, ReadMembers;
    assert ("\"" + Quoted(cs) + rest)[1..] == Quoted(cs) + rest;
    StringRoundTrip(cs, rest);
  }

  lemma ListRead(items: seq<Json>, rest: string)
    requires items != [] && WellFormed(items[0])
    requires ReadItems(PrintItems(items) + rest) == Some((items, rest))
    ensures ReadValue("[" + PrintItems(items) + rest) == Some((List(items), rest))
  {
    hide PrintItems, ReadString, ReadNumber, ReadItems, ReadMembers;
    var s := "[" + PrintItems(items) + rest;
    ItemsStart(items);
    assert s[1..] == PrintItems(items) + rest && s[1] == PrintItems(items)[0];
  }

  lemma ObjectRead(members: seq<Member>, rest: string)
    requires members != []
    requires ReadMembers(PrintMembers(members) + rest) == Some((members, rest))
    ensures ReadValue("{" + PrintMembers(members) + rest) == Some((Obj(members), rest))
  {
    hide PrintMembers, ReadString, ReadNumber, ReadItems, ReadMembers;
    var s := "{" + PrintMembers(members) + rest;
    MembersStart(members);
    assert s[1..] == PrintMembers(members) + rest && s[1] == PrintMembers(members)[0];
  }

  lemma MembersStart(members: seq<Member>)
    requires members != []
    ensures PrintMembers(members) != "" && PrintMembers(members)[0] == '"'
  {}

  lemma ItemsStart(items: seq<Json>)
    requires items != [] && WellFormed(items[0])
    ensures PrintItems(items) != "" && PrintItems(items)[0] != ']'
  {}

  lemma {:induction false} ItemsRoundTrip(items: seq<Json>, rest: string)
    requires items != [] && forall i :: 0 <= i < |items| ==> WellFormed(items[i])
    ensures ReadItems(PrintItems(items) + rest) == Some((items, rest))
    decreases items
  {
    if |items| == 1 {
      assert PrintItems(items) + rest == Print(items[0]) + ("]" + rest);
      RoundTrip(items[0], "]" + rest);
      assert ("]" + rest)[1..] == rest && items == [items[0]];
    } else {
      var more := "," + PrintItems(items[1..]) + rest;
      assert PrintItems(items) + rest == Print(items[0]) + more;
      RoundTrip(items[0], more);
      assert more[1..] == PrintItems(items[1..]) + rest;
      ItemsRoundTrip(items[1..], rest);
      assert [items[0]] + items[1..] == items;
    }
  }

  /** One member read, and what is left when it is not the last. */
  lemma MemberRoundTrip(m: Member, more: string)
    requires ReadValue(Print(m.value) + more) == Some((m.value, more))
    requires more != ""
    ensures var s := "\"" + Quoted(m.key) + ":" + Print(m.value) + more;
      ReadMembers(s) ==
      if more[0] == '}' then Some(([m], more[1..]))
      else if more[0] != ',' then None
      else match ReadMembers(more[1..])
           case None => None
           case Some((ms, rest)) => Some(([m] + ms, rest))
  {
    hide ReadValue, ReadString, Print, Quoted;
    var s := "\"" + Quoted(m.key) + ":" + Print(m.value) + more;
    var after := ":" + Print(m.value) + more;
    assert s[1..] == Quoted(m.key) + after;
    StringRoundTrip(m.key, after);
    assert after[1..] == Print(m.value) + more;
  }

  /** What follows the first member. */
  function MembersTail(members: seq<Member>, rest: string): string
    requires members != []
  {
    if |members| == 1 then "}" + rest else "," + (PrintMembers(members[1..]) + rest)
  }

  lemma Regroup(a: string, b: string, c: string)
    ensures a + b + c == a + (b + c)
  {}

  lemma PrintedMembers(members: seq<Member>, rest: string)
    requires members != []
    ensures PrintMembers(members) + rest ==
            "\"" + Quoted(members[0].key) + ":" + Print(members[0].value) + MembersTail(members, rest)
  {
    hide Print, Quoted;
    var head := "\"" + Quoted(members[0].key) + ":" + Print(members[0].value);
    if |members| == 1 {
      Regroup(head, "}", rest);
    } else {
      Regroup(head, "," + PrintMembers(members[1..]), rest);
      Regroup(",", PrintMembers(members[1..]), rest);
    }
  }

  lemma {:induction false} MembersRoundTrip(members: seq<Member>, rest: string)
    requires members != [] && forall i :: 0 <= i < |members| ==> WellFormed(members[i].value)
    ensures ReadMembers(PrintMembers(members) + rest) == Some((members, rest))
    decreases members
  {
    hide ReadValue, ReadString, Print, Quoted, ReadMembers, PrintMembers;
    var m := members[0];
    var more := MembersTail(members, rest);
    PrintedMembers(members, rest);
    RoundTrip(m.value, more);
    MemberRoundTrip(m, more);
    if |members| == 1 {
      assert members == [m] && more[1..] == rest;
    } else {
      assert more[1..] == PrintMembers(members[1..]) + rest;
      MembersRoundTrip(members[1..], rest);
      assert [m] + members[1..] == members;
    }
  }

  /** Different values have different texts. */
  lemma PrintInjective(a: Json, b: Json)
    requires WellFormed(a) && WellFormed(b) && Print(a) == Print(b)
    ensures a == b
  {
    RoundTrip(a, "");
    RoundTrip(b, "");
    assert Print(a) + "" == Print(a) && Print(b) + "" == Print(b);
  }

  // ---- the escapes ----

  const LOWER_HEX := "0123456789abcdef"

  /** A UTF-16 unit as four lower-case hexadecimal digits after a `\u`. */
  function UnitText(n: int): string
    requires 0 <= n < 0x10000
  {
    ['\\', 'u', LOWER_HEX[n / 0x1000], LOWER_HEX[n / 0x100 % 16], LOWER_HEX[n / 16 % 16], LOWER_HEX[n % 16]]
  }

  /** How each character is printed: printable ASCII as itself, seven characters by a short escape,
      everything else by one or two UTF-16 units. */
  lemma EscapesExactly(c: char)
    ensures EscapeChar(c) ==
      match c
      case '"' => "\\\""
      case '\\' => "\\\\"
      case '\n' => "\\n"
      case '\r' => "\\r"
      case '\t' => "\\t"
      case '\U{0C}' => "\\f"
      case '\U{08}' => "\\b"
      case _ =>
        var n := c as int;
        if 32 <= n <= 126 then [c]
        else if n < 0x10000 then UnitText(n)
        else UnitText(0xd800 + (n - 0x10000) / 0x400) + UnitText(0xdc00 + (n - 0x10000) % 0x400)
  {
    forall n | 0 <= n < 0x10000 ensures UnicodeEscape(n) == UnitText(n) {
      UnitIs(n);
    }
    hide UnicodeEscape, UnitText;
  }

  lemma UnitIs(n: int)
    requires 0 <= n < 0x10000
    ensures UnicodeEscape(n) == UnitText(n)
  {
    assert forall d :: 0 <= d < 16 ==> HexDigit(d) == LOWER_HEX[d];
    hide HexDigit;
    var n1 := n / 16;
    assert n1 / 16 == n / 0x100 && n1 / 16 / 16 == n / 0x1000;
  }
}

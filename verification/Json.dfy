/** JSON texts of strings, integers, arrays and objects: a printer with the separators of
    Python's json.dumps(value, ensure_ascii=False), and a reader by the grammar of RFC 8259
    (strings as in its section 7, numbers as in section 6). Fractions, exponents and the
    names true, false and null are not read.
 */
module Json {

  datatype Json =
    | Str(text: string)
    | Num(value: int)
    | Arr(items: seq<Json>)
    | Obj(members: seq<(string, Json)>)

  // ----- Printer -----

  const HEX := "0123456789abcdef"

  /** One character inside a string. */
  function Escape(c: char): string {
    if c == '\"' then "\\\""
    else if c == '\\' then "\\\\"
    else if c == '\n' then "\\n"
    else if c == '\r' then "\\r"
    else if c == '\t' then "\\t"
    else if c == '\U{8}' then "\\b"
    else if c == '\U{c}' then "\\f"
    else if c < ' ' then "\\u00" + [HEX[c as int / 16], HEX[c as int % 16]]
    else [c]
  }

  function Escaped(s: string): string {
    if s == "" then "" else Escape(s[0]) + Escaped(s[1..])
  }

  function Quoted(s: string): string {
    "\"" + Escaped(s) + "\""
  }

  function Digits(n: nat): (r: string)
    ensures r != "" && (r[0] == '0' <==> n == 0) && forall i :: 0 <= i < |r| ==> IsDigit(r[i])
    ensures n == 0 ==> r == "0"
  {
    if n < 10 then [HEX[n]] else Digits(n / 10) + [HEX[n % 10]]
  }

  function Decimal(n: int): string {
    if n < 0 then "-" + Digits(-n) else Digits(n)
  }

  function Print(v: Json): string {
    match v
    case Str(s) => Quoted(s)
    case Num(n) => Decimal(n)
    case Arr(items) => "[" + PrintItems(items) + "]"
    case Obj(members) => "{" + PrintMembers(members) + "}"
  }

  function PrintItems(items: seq<Json>): string {
    if items == [] then ""
    else if |items| == 1 then Print(items[0])
    else Print(items[0]) + ", " + PrintItems(items[1..])
  }

  function PrintMember(member: (string, Json)): string {
    Quoted(member.0) + ": " + Print(member.1)
  }

  function PrintMembers(members: seq<(string, Json)>): string {
    if members == [] then ""
    else if |members| == 1 then PrintMember(members[0])
    else PrintMember(members[0]) + ", " + PrintMembers(members[1..])
  }

  lemma {:induction false} ItemsSnoc(items: seq<Json>, v: Json)
    ensures PrintItems(items + [v]) == PrintItems(items) + (if items == [] then "" else ", ") + Print(v)
    decreases |items|
  {
    hide Print;
    if items == [] {
      assert items + [v] == [v];
    } else {
      assert (items + [v])[1..] == items[1..] + [v];
      ItemsSnoc(items[1..], v);
    }
  }

  lemma {:induction false} MembersSnoc(members: seq<(string, Json)>, m: (string, Json))
    ensures PrintMembers(members + [m]) ==
              PrintMembers(members) + (if members == [] then "" else ", ") + PrintMember(m)
    decreases |members|
  {
    hide PrintMember;
    if members == [] {
      assert members + [m] == [m];
    } else {
      assert (members + [m])[1..] == members[1..] + [m];
      MembersSnoc(members[1..], m);
    }
  }

  // ----- Reader -----

  /** What was read, and the text after it. */
  datatype Parsed<T> = Got(value: T, rest: string) | Bad

  predicate IsDigit(c: char) {
    '0' <= c <= '9'
  }

  predicate IsSpace(c: char) {
    c == ' ' || c == '\t' || c == '\n' || c == '\r'
  }

  function SkipSpace(t: string): (r: string)
    ensures |r| <= |t|
  {
    if t != "" && IsSpace(t[0]) then SkipSpace(t[1..]) else t
  }

  function HexValue(c: char): (r: int)
    ensures -1 <= r < 16
  {
    if '0' <= c <= '9' then c as int - '0' as int
    else if 'a' <= c <= 'f' then c as int - 'a' as int + 10
    else if 'A' <= c <= 'F' then c as int - 'A' as int + 10
    else -1
  }

  /** Four hexadecimal digits. */
  function ReadHex4(t: string): (r: Parsed<nat>)
    ensures r.Got? ==> |r.rest| + 4 == |t| && r.value < 0x1_0000
  {
    if |t| < 4 || HexValue(t[0]) < 0 || HexValue(t[1]) < 0 || HexValue(t[2]) < 0 || HexValue(t[3]) < 0 then Bad
    else
      Got(((HexValue(t[0]) * 16 + HexValue(t[1])) * 16 + HexValue(t[2])) * 16 + HexValue(t[3]), t[4..])
  }

  /** The character after "\u": a code unit outside the surrogates, or a pair of them. */
  function ReadUnicode(t: string): (r: Parsed<char>)
    ensures r.Got? ==> |r.rest| < |t|
  {
    match ReadHex4(t)
    case Bad => Bad
    case Got(u, rest) =>
      if u < 0xD800 || 0xE000 <= u then Got(u as char, rest)
      else if 0xDC00 <= u || |rest| < 2 || rest[..2] != "\\u" then Bad
      else
        match ReadHex4(rest[2..])
        case Bad => Bad
        case Got(low, rest') =>
          if 0xDC00 <= low < 0xE000 then
            Got((0x1_0000 + (u - 0xD800) * 0x400 + (low - 0xDC00)) as char, rest')
          else Bad
  }

  /** One character of a string: not a quote, escaped where section 7 asks for it. */
  function ReadChar(t: string): (r: Parsed<char>)
    ensures r.Got? ==> |r.rest| < |t|
  {
    if t == "" || t[0] == '\"' || t[0] < ' ' then Bad
    else if t[0] != '\\' then Got(t[0], t[1..])
    else if |t| == 1 then Bad
    else
      match t[1]
      case '\"' => Got('\"', t[2..])
      case '\\' => Got('\\', t[2..])
      case '/' => Got('/', t[2..])
      case 'b' => Got('\U{8}', t[2..])
      case 'f' => Got('\U{c}', t[2..])
      case 'n' => Got('\n', t[2..])
      case 'r' => Got('\r', t[2..])
      case 't' => Got('\t', t[2..])
      case 'u' => ReadUnicode(t[2..])
      case _ => Bad
  }

  /** A string after its opening quote. */
  function ReadString(t: string): (r: Parsed<string>)
    ensures r.Got? ==> |r.rest| < |t|
    decreases |t|
  {
    if t != "" && t[0] == '\"' then Got("", t[1..])
    else
      match ReadChar(t)
      case Bad => Bad
      case Got(c, rest) =>
        match ReadString(rest)
        case Bad => Bad
        case Got(s, rest') => Got([c] + s, rest')
  }

  /** The digits at the head of t, continuing the number n. */
  function ReadDigits(t: string, n: nat): (r: (nat, string))
    ensures |r.1| <= |t|
    decreases |t|
  {
    if t != "" && IsDigit(t[0]) then ReadDigits(t[1..], n * 10 + (t[0] as int - '0' as int)) else (n, t)
  }

  predicate ContinuesNumber(c: char) {
    c == '.' || c == 'e' || c == 'E'
  }

  /** An integer without leading zeros. */
  function ReadNat(t: string): (r: Parsed<int>)
    ensures r.Got? ==> |r.rest| < |t|
  {
    if t == "" || !IsDigit(t[0]) then Bad
    else
      var (n, rest) := if t[0] == '0' then (0, t[1..]) else ReadDigits(t[1..], t[0] as int - '0' as int);
      if rest != "" && ContinuesNumber(rest[0]) then Bad else Got(n, rest)
  }

  function ReadInt(t: string): (r: Parsed<int>)
    ensures r.Got? ==> |r.rest| < |t|
  {
    if t != "" && t[0] == '-' then
      match ReadNat(t[1..])
      case Bad => Bad
      case Got(n, rest) => Got(-n, rest)
    else
      match ReadNat(t)
      case Bad => Bad
      case Got(n, rest) => Got(n, rest)
  }

  function Read(t: string): (r: Parsed<Json>)
    ensures r.Got? ==> |r.rest| < |t|
    decreases |t|, 2
  {
    var t := SkipSpace(t);
    if t == "" then Bad
    else if t[0] == '\"' then
      match ReadString(t[1..])
      case Bad => Bad
      case Got(s, rest) => Got(Str(s), rest)
    else if t[0] == '[' then
      var u := SkipSpace(t[1..]);
      if u != "" && u[0] == ']' then Got(Arr([]), u[1..])
      else
        match ReadItems(t[1..])
        case Bad => Bad
        case Got(items, rest) => Got(Arr(items), rest)
    else if t[0] == '{' then
      var u := SkipSpace(t[1..]);
      if u != "" && u[0] == '}' then Got(Obj([]), u[1..])
      else
        match ReadMembers(t[1..])
        case Bad => Bad
        case Got(members, rest) => Got(Obj(members), rest)
    else
      match ReadInt(t)
      case Bad => Bad
      case Got(n, rest) => Got(Num(n), rest)
  }

  /** One value or more, and the closing bracket. */
  function ReadItems(t: string): (r: Parsed<seq<Json>>)
    ensures r.Got? ==> |r.rest| < |t|
    decreases |t|, 3
  {
    match Read(t)
    case Bad => Bad
    case Got(v, rest) =>
      var after := SkipSpace(rest);
      if after == "" then Bad
      else if after[0] == ']' then Got([v], after[1..])
      else if after[0] != ',' then Bad
      else
        match ReadItems(after[1..])
        case Bad => Bad
        case Got(vs, rest') => Got([v] + vs, rest')
  }

  /** A name, a colon and a value. */
  function ReadMember(t: string): (r: Parsed<(string, Json)>)
    ensures r.Got? ==> |r.rest| < |t|
    decreases |t|, 3
  {
    var t := SkipSpace(t);
    if t == "" || t[0] != '\"' then Bad
    else
      match ReadString(t[1..])
      case Bad => Bad
      case Got(name, rest) =>
        var after := SkipSpace(rest);
        if after == "" || after[0] != ':' then Bad
        else
          match Read(after[1..])
          case Bad => Bad
          case Got(v, rest') => Got((name, v), rest')
  }

  /** One member or more, and the closing brace. */
  function ReadMembers(t: string): (r: Parsed<seq<(string, Json)>>)
    ensures r.Got? ==> |r.rest| < |t|
    decreases |t|, 4
  {
    match ReadMember(t)
    case Bad => Bad
    case Got(m, rest) =>
      var after := SkipSpace(rest);
      if after == "" then Bad
      else if after[0] == '}' then Got([m], after[1..])
      else if after[0] != ',' then Bad
      else
        match ReadMembers(after[1..])
        case Bad => Bad
        case Got(ms, rest') => Got([m] + ms, rest')
  }

  /** A whole text: one value with nothing but spaces after it. */
  function Parse(t: string): Parsed<Json> {
    match Read(t)
    case Bad => Bad
    case Got(v, rest) => if SkipSpace(rest) == "" then Got(v, "") else Bad
  }

  // ----- The reader undoes the printer -----

  lemma EscapeRead(c: char, t: string)
    ensures ReadChar(Escape(c) + t) == Got(c, t)
    ensures Escape(c) != "" && Escape(c)[0] != '\"'
  {
    var e := Escape(c) + t;
    if Escape(c) == [c] {
      assert e[1..] == t;
    } else if |Escape(c)| == 2 {
      assert e[2..] == t;
    } else {
      HexRead(c as int / 16, c as int % 16, t);
      assert e[2..] == "00" + [HEX[c as int / 16], HEX[c as int % 16]] + t;
    }
  }

  lemma HexRead(high: nat, low: nat, t: string)
    requires high < 16 && low < 16
    ensures ReadHex4("00" + [HEX[high], HEX[low]] + t) == Got(high * 16 + low, t)
  {
    var h := "00" + [HEX[high], HEX[low]] + t;
    HexDigitRead(high);
    HexDigitRead(low);
    assert h[4..] == t;
  }

  lemma HexDigitRead(d: nat)
    requires d < 16
    ensures HexValue(HEX[d]) == d
  {
  }

  /** The first character read, then the rest of the string. */
  lemma StringStep(t: string, c: char, rest: string)
    requires t != "" && t[0] != '\"' && ReadChar(t) == Got(c, rest)
    ensures ReadString(t) == match ReadString(rest)
                             case Bad => Bad
                             case Got(s, after) => Got([c] + s, after)
  {
  }

  lemma StringEnd(t: string)
    ensures ReadString("\"" + t) == Got("", t)
  {
    assert ("\"" + t)[1..] == t;
  }

  lemma EscapedStep(s: string, t: string)
    requires s != ""
    ensures Escaped(s) + t == Escape(s[0]) + (Escaped(s[1..]) + t)
  {
    hide Escape;
  }

  lemma {:induction false} StringRead(s: string, t: string)
    ensures ReadString(Escaped(s) + ("\"" + t)) == Got(s, t)
    decreases |s|
  {
    var tail := "\"" + t;
    if s == "" {
      StringEnd(t);
      assert Escaped(s) + tail == tail;
    } else {
      var rest := Escaped(s[1..]) + tail;
      StringRead(s[1..], t);
      EscapedStep(s, tail);
      EscapeRead(s[0], rest);
      StringStep(Escape(s[0]) + rest, s[0], rest);
      assert [s[0]] + s[1..] == s;
    }
  }

  lemma DigitRead(d: nat, t: string, n: nat)
    requires d < 10
    ensures ReadDigits([HEX[d]] + t, n) == ReadDigits(t, n * 10 + d)
  {
    assert ([HEX[d]] + t)[1..] == t;
  }

  lemma {:induction false} DigitsRead(n: nat, t: string)
    ensures ReadDigits(Digits(n) + t, 0) == ReadDigits(t, n)
    decreases n
  {
    hide ReadDigits;
    DigitRead(n % 10, t, n / 10);
    if n >= 10 {
      var tail := [HEX[n % 10]] + t;
      DigitsRead(n / 10, tail);
      assert Digits(n) + t == Digits(n / 10) + tail;
    }
  }

  /** The text does not continue a number. */
  predicate EndsNumber(t: string) {
    t == "" || !(IsDigit(t[0]) || ContinuesNumber(t[0]))
  }

  lemma NatRead(n: nat, t: string)
    requires EndsNumber(t)
    ensures ReadNat(Digits(n) + t) == Got(n, t)
  {
    var u := Digits(n) + t;
    DigitsRead(n, t);
    if n == 0 {
      assert u[1..] == t;
    } else {
      assert ReadDigits(u, 0) == ReadDigits(u[1..], u[0] as int - '0' as int);
    }
  }

  lemma IntRead(n: int, t: string)
    requires EndsNumber(t)
    ensures ReadInt(Decimal(n) + t) == Got(n, t)
    ensures Decimal(n) != "" && (Decimal(n)[0] == '-' || IsDigit(Decimal(n)[0]))
  {
    hide ReadNat, Digits;
    if n < 0 {
      NatRead(-n, t);
      assert (Decimal(n) + t)[1..] == Digits(-n) + t;
    } else {
      NatRead(n, t);
    }
  }

  // The reader's choice by the first character, one lemma for each.

  lemma ReadsString(t: string, s: string, rest: string)
    requires ReadString(t) == Got(s, rest)
    ensures Read("\"" + t) == Got(Str(s), rest)
  {
    var u := "\"" + t;
    assert SkipSpace(u) == u && u[1..] == t;
  }

  lemma ReadsNumber(t: string, n: int, rest: string)
    requires t != "" && (t[0] == '-' || IsDigit(t[0])) && ReadInt(t) == Got(n, rest)
    ensures Read(t) == Got(Num(n), rest)
  {
    assert SkipSpace(t) == t;
  }

  lemma ReadsArray(t: string, items: seq<Json>, rest: string)
    requires t != "" && !IsSpace(t[0]) && t[0] != ']' && ReadItems(t) == Got(items, rest)
    ensures Read("[" + t) == Got(Arr(items), rest)
  {
    var u := "[" + t;
    assert SkipSpace(u) == u && u[1..] == t && SkipSpace(t) == t;
  }

  lemma ReadsObject(t: string, members: seq<(string, Json)>, rest: string)
    requires t != "" && t[0] == '\"' && ReadMembers(t) == Got(members, rest)
    ensures Read("{" + t) == Got(Obj(members), rest)
  {
    var u := "{" + t;
    assert SkipSpace(u) == u && u[1..] == t && SkipSpace(t) == t;
  }

  lemma ReadsEmpty(t: string)
    ensures Read("[]" + t) == Got(Arr([]), t)
    ensures Read("{}" + t) == Got(Obj([]), t)
  {
    var u, w := "[]" + t, "{}" + t;
    assert SkipSpace(u) == u && u[1..] == "]" + t && u[1..][1..] == t;
    assert SkipSpace(w) == w && w[1..] == "}" + t && w[1..][1..] == t;
  }

  lemma LastItem(t: string, v: Json, rest: string)
    requires Read(t) == Got(v, "]" + rest)
    ensures ReadItems(t) == Got([v], rest)
  {
    assert ("]" + rest)[1..] == rest && SkipSpace("]" + rest) == "]" + rest;
  }

  lemma NextItem(t: string, v: Json, more: string, vs: seq<Json>, rest: string)
    requires Read(t) == Got(v, ", " + more) && more != "" && !IsSpace(more[0])
    requires ReadItems(more) == Got(vs, rest)
    ensures ReadItems(t) == Got([v] + vs, rest)
  {
    hide Read, ReadMembers, ReadMember, ReadString;
    var tail := ", " + more;
    assert SkipSpace(tail) == tail && tail[1..] == " " + more;
    SpaceIgnored(more);
  }

  lemma LastMember(t: string, m: (string, Json), rest: string)
    requires ReadMember(t) == Got(m, "}" + rest)
    ensures ReadMembers(t) == Got([m], rest)
  {
    assert ("}" + rest)[1..] == rest && SkipSpace("}" + rest) == "}" + rest;
  }

  lemma NextMember(t: string, m: (string, Json), more: string, ms: seq<(string, Json)>, rest: string)
    requires ReadMember(t) == Got(m, ", " + more) && more != "" && !IsSpace(more[0])
    requires ReadMembers(more) == Got(ms, rest)
    ensures ReadMembers(t) == Got([m] + ms, rest)
  {
    hide Read, ReadItems, ReadMember, ReadString;
    var tail := ", " + more;
    assert SkipSpace(tail) == tail && tail[1..] == " " + more;
    SpaceIgnored(more);
  }

  lemma OneMember(t: string, name: string, value: string, v: Json, rest: string)
    requires ReadString(t) == Got(name, ": " + value) && value != "" && !IsSpace(value[0])
    requires Read(value) == Got(v, rest)
    ensures ReadMember("\"" + t) == Got((name, v), rest)
  {
    hide Read, ReadItems, ReadMembers, ReadString;
    var u, tail := "\"" + t, ": " + value;
    assert SkipSpace(u) == u && u[1..] == t;
    assert SkipSpace(tail) == tail && tail[1..] == " " + value;
    SpaceIgnored(value);
  }

  lemma SpaceIgnored(t: string)
    requires t != "" && !IsSpace(t[0])
    ensures Read(" " + t) == Read(t) && ReadItems(" " + t) == ReadItems(t)
    ensures ReadMember(" " + t) == ReadMember(t) && ReadMembers(" " + t) == ReadMembers(t)
  {
    assert (" " + t)[1..] == t;
    assert SkipSpace(" " + t) == t && SkipSpace(t) == t;
  }

  /** Every printed value begins with a character that is neither a space nor a bracket
      that closes. */
  lemma PrintBegins(v: Json)
    ensures Print(v) != "" && !IsSpace(Print(v)[0]) && Print(v)[0] != ']'
  {
  }

  lemma ItemsBegin(items: seq<Json>)
    requires items != []
    ensures PrintItems(items) != "" && !IsSpace(PrintItems(items)[0]) && PrintItems(items)[0] != ']'
  {
    PrintBegins(items[0]);
  }

  lemma MembersBegin(members: seq<(string, Json)>)
    requires members != []
    ensures PrintMembers(members) != "" && PrintMembers(members)[0] == '\"'
  {
    assert PrintMember(members[0]) != "" && PrintMember(members[0])[0] == '\"';
  }

  /** A reader by RFC 8259 gives back exactly the value that was printed, whatever
      characters its strings hold, and stops where it ends. */
  lemma {:induction false} PrintRead(v: Json, t: string)
    requires EndsNumber(t)
    ensures Read(Print(v) + t) == Got(v, t)
    decreases v, 0
  {
    hide Read, ReadString, ReadItems, ReadMembers, ReadInt, Escaped, Decimal;
    match v
    case Str(s) =>
      StringRead(s, t);
      ReadsString(Escaped(s) + ("\"" + t), s, t);
      assert Print(v) + t == "\"" + (Escaped(s) + ("\"" + t));
    case Num(n) =>
      IntRead(n, t);
      ReadsNumber(Decimal(n) + t, n, t);
    case Arr(items) =>
      if items == [] {
        ReadsEmpty(t);
        assert Print(v) == "[]";
      } else {
        ItemsRead(items, t, v);
        ReadsArray(PrintItems(items) + ("]" + t), items, t);
        assert Print(v) + t == "[" + (PrintItems(items) + ("]" + t));
      }
    case Obj(members) =>
      if members == [] {
        ReadsEmpty(t);
        assert Print(v) == "{}";
      } else {
        MembersRead(members, t, v);
        ReadsObject(PrintMembers(members) + ("}" + t), members, t);
        assert Print(v) + t == "{" + (PrintMembers(members) + ("}" + t));
      }
  }

  lemma {:induction false} ItemsRead(items: seq<Json>, t: string, whole: Json)
    requires items != [] && forall i :: 0 <= i < |items| ==> items[i] < whole
    ensures var u := PrintItems(items) + ("]" + t);
            u != "" && !IsSpace(u[0]) && u[0] != ']' && ReadItems(u) == Got(items, t)
    decreases whole, 0, |items|
  {
    hide Read, ReadItems, Print;
    var u := PrintItems(items) + ("]" + t);
    ItemsBegin(items);
    if |items| == 1 {
      PrintRead(items[0], "]" + t);
      LastItem(u, items[0], t);
      assert [items[0]] == items;
    } else {
      var more := PrintItems(items[1..]) + ("]" + t);
      PrintRead(items[0], ", " + more);
      assert u == Print(items[0]) + (", " + more);
      ItemsRead(items[1..], t, whole);
      NextItem(u, items[0], more, items[1..], t);
      assert [items[0]] + items[1..] == items;
    }
  }

  lemma {:induction false} MemberRead(member: (string, Json), t: string)
    requires EndsNumber(t)
    ensures ReadMember(PrintMember(member) + t) == Got(member, t)
    decreases member.1, 1
  {
    hide Read, ReadItems, ReadMember, ReadMembers, ReadString, Escaped, Print;
    var value := Print(member.1) + t;
    StringRead(member.0, ": " + value);
    PrintRead(member.1, t);
    PrintBegins(member.1);
    OneMember(Escaped(member.0) + ("\"" + (": " + value)), member.0, value, member.1, t);
    assert PrintMember(member) + t == "\"" + (Escaped(member.0) + ("\"" + (": " + value)));
  }

  lemma {:induction false} MembersRead(members: seq<(string, Json)>, t: string, whole: Json)
    requires members != [] && forall i :: 0 <= i < |members| ==> members[i].1 < whole
    ensures var u := PrintMembers(members) + ("}" + t);
            u != "" && u[0] == '\"' && ReadMembers(u) == Got(members, t)
    decreases whole, 0, |members|
  {
    hide Read, ReadMember, ReadMembers, ReadString, Print, Escaped;
    var u := PrintMembers(members) + ("}" + t);
    MembersBegin(members);
    if |members| == 1 {
      MemberRead(members[0], "}" + t);
      LastMember(u, members[0], t);
      assert [members[0]] == members;
    } else {
      var more := PrintMembers(members[1..]) + ("}" + t);
      MemberRead(members[0], ", " + more);
      assert u == PrintMember(members[0]) + (", " + more);
      MembersRead(members[1..], t, whole);
      NextMember(u, members[0], more, members[1..], t);
      assert [members[0]] + members[1..] == members;
    }
  }

  lemma PrintParse(v: Json)
    ensures Parse(Print(v)) == Got(v, "")
  {
    PrintRead(v, "");
    assert Print(v) + "" == Print(v);
  }
}

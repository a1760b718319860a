/** Strict, bounded JSON reading and canonical writing: sections 2 to 7 of RFC 8259. */
module Json {

  const MAX_DEPTH: nat := 32
  const MAX_MEMBERS: nat := 4096
  const MAX_ELEMENTS: nat := 65536
  const MAX_STRING: nat := 8192
  const UINT64_MAX: nat := 0xFFFF_FFFF_FFFF_FFFF
  const POSITIVE_LIMIT: int := 9223372036854775807
  const NEGATIVE_LIMIT: int := 9223372036854775808

  datatype Value =
    | Null
    | Bool(flag: bool)
    | Number(number: int)
    | Text(text: string)
    | Array(items: seq<Value>)
    | Object(members: seq<Member>)

  datatype Member = Member(key: string, value: Value)

  /** A character is a byte; text beyond ASCII is a run of bytes that passes through untouched. */
  datatype Fault = Syntax | Limit | DuplicateKey

  datatype Read<T> = Ok(value: T, rest: string) | Err(fault: Fault)

  // ----- reading characters -----

  predicate IsSpace(c: char) { c == ' ' || c == '\t' || c == '\n' || c == '\r' }

  function Skip(s: string): (r: string)
    ensures |r| <= |s|
  {
    if s != [] && IsSpace(s[0]) then Skip(s[1..]) else s
  }

  predicate IsDigit(c: char) { '0' <= c <= '9' }

  function DigitValue(c: char): nat
    requires IsDigit(c)
  {
    (c - '0') as nat
  }

  function HexValue(c: char): int {
    if IsDigit(c) then DigitValue(c)
    else if 'a' <= c <= 'f' then 10 + (c - 'a') as int
    else if 'A' <= c <= 'F' then 10 + (c - 'A') as int
    else -1
  }

  // ----- numbers -----

  /** The digits in front, with the 64-bit overflow check before each one. */
  function Digits(s: string, magnitude: nat): (r: Read<nat>)
    ensures r.Ok? ==> |r.rest| <= |s| && (r.rest != [] ==> !IsDigit(r.rest[0]))
    ensures r.Ok? && s != [] && IsDigit(s[0]) ==> |r.rest| < |s|
  {
    if s == [] || !IsDigit(s[0]) then Ok(magnitude, s)
    else if magnitude > (UINT64_MAX - DigitValue(s[0])) / 10 then Err(Syntax)
    else Digits(s[1..], magnitude * 10 + DigitValue(s[0]))
  }

  predicate Fractional(s: string) { s != [] && (s[0] == '.' || s[0] == 'e' || s[0] == 'E') }

  function ReadNumber(s: string): (r: Read<Value>)
    requires s != [] && (s[0] == '-' || IsDigit(s[0]))
    ensures r.Ok? ==> |r.rest| < |s|
  {
    var negative := s[0] == '-';
    var t := if negative then s[1..] else s;
    if t == [] || !IsDigit(t[0]) then Err(Syntax)
    else
      match Digits(t, 0)
      case Err(fault) => Err(fault)
      case Ok(magnitude, rest) =>
        if |t| - |rest| > 1 && t[0] == '0' then Err(Syntax)
        else if Fractional(rest) then Err(Syntax)
        else if magnitude > (if negative then NEGATIVE_LIMIT else POSITIVE_LIMIT) then Err(Syntax)
        else Ok(Number(if negative then 0 - magnitude else magnitude), rest)
  }

  // ----- strings -----

  function Hex4(s: string): (r: Read<nat>)
    ensures r.Ok? ==> r.value < 0x1_0000 && |s| >= 4 && r.rest == s[4..]
  {
    if |s| < 4 || HexValue(s[0]) < 0 || HexValue(s[1]) < 0 || HexValue(s[2]) < 0 || HexValue(s[3]) < 0 then Err(Syntax)
    else Ok(HexValue(s[0]) * 4096 + HexValue(s[1]) * 256 + HexValue(s[2]) * 16 + HexValue(s[3]), s[4..])
  }

  function AppendUtf8(codepoint: nat): string
    requires codepoint < 0x11_0000
  {
    if codepoint <= 0x7F then [codepoint as char]
    else if codepoint <= 0x7FF then [(0xC0 + codepoint / 64) as char, (0x80 + codepoint % 64) as char]
    else if codepoint <= 0xFFFF then
      [(0xE0 + codepoint / 4096) as char, (0x80 + codepoint / 64 % 64) as char, (0x80 + codepoint % 64) as char]
    else
      [(0xF0 + codepoint / 262144) as char, (0x80 + codepoint / 4096 % 64) as char,
       (0x80 + codepoint / 64 % 64) as char, (0x80 + codepoint % 64) as char]
  }

  /** A high surrogate needs a low one right after it; neither may stand alone. */
  function ReadUnicode(s: string): (r: Read<string>)
    ensures r.Ok? ==> |r.rest| < |s|
  {
    match Hex4(s)
    case Err(fault) => Err(fault)
    case Ok(unit, rest) =>
      if 0xD800 <= unit <= 0xDBFF then
        if |rest| < 2 || rest[0] != '\\' || rest[1] != 'u' then Err(Syntax)
        else
          match Hex4(rest[2..])
          case Err(fault) => Err(fault)
          case Ok(low, after) =>
            if low < 0xDC00 || low > 0xDFFF then Err(Syntax)
            else Ok(AppendUtf8(0x1_0000 + (unit - 0xD800) * 1024 + (low - 0xDC00)), after)
      else if 0xDC00 <= unit <= 0xDFFF then Err(Syntax)
      else Ok(AppendUtf8(unit), rest)
  }

  function ReadEscape(s: string): (r: Read<string>)
    ensures r.Ok? ==> |r.rest| < |s|
  {
    if s == [] then Err(Syntax)
    else if s[0] == '"' || s[0] == '\\' || s[0] == '/' then Ok([s[0]], s[1..])
    else if s[0] == 'b' then Ok([8 as char], s[1..])
    else if s[0] == 'f' then Ok([12 as char], s[1..])
    else if s[0] == 'n' then Ok(['\n'], s[1..])
    else if s[0] == 'r' then Ok(['\r'], s[1..])
    else if s[0] == 't' then Ok(['\t'], s[1..])
    else if s[0] == 'u' then ReadUnicode(s[1..])
    else Err(Syntax)
  }

  /** The characters of a string up to its closing quote. */
  function ReadChars(s: string, text: string): (r: Read<string>)
    ensures r.Ok? ==> |r.rest| < |s|
    decreases |s|
  {
    if s == [] then Err(Syntax)
    else if s[0] == '"' then Ok(text, s[1..])
    else if (s[0] as int) < 0x20 then Err(Syntax)
    else if s[0] != '\\' then
      if |text| + 1 > MAX_STRING then Err(Limit) else ReadChars(s[1..], text + [s[0]])
    else
      match ReadEscape(s[1..])
      case Err(fault) => Err(fault)
      case Ok(more, rest) =>
        if |text + more| > MAX_STRING then Err(Limit) else ReadChars(rest, text + more)
  }

  function ReadString(s: string): (r: Read<string>)
    requires s != []
    ensures r.Ok? ==> |r.rest| < |s|
  {
    ReadChars(s[1..], [])
  }

  function ReadLiteral(s: string, literal: string, value: Value): (r: Read<Value>)
    requires literal != []
    ensures r.Ok? ==> |r.rest| < |s|
  {
    if |s| < |literal| || s[..|literal|] != literal then Err(Syntax) else Ok(value, s[|literal|..])
  }

  // ----- values -----

  predicate HasKey(members: seq<Member>, key: string) {
    exists i :: 0 <= i < |members| && members[i].key == key
  }

  function ReadValue(s: string, depth: nat): (r: Read<Value>)
    ensures r.Ok? ==> |r.rest| < |s|
    decreases |s|, 0
  {
    if depth > MAX_DEPTH then Err(Limit)
    else if s == [] then Err(Syntax)
    else if s[0] == '{' then
      var t := Skip(s[1..]);
      if t != [] && t[0] == '}' then Ok(Object([]), t[1..]) else ReadMembers(s[1..], depth, [])
    else if s[0] == '[' then
      var t := Skip(s[1..]);
      if t != [] && t[0] == ']' then Ok(Array([]), t[1..]) else ReadItems(s[1..], depth, [])
    else if s[0] == '"' then
      match ReadString(s)
      case Err(fault) => Err(fault)
      case Ok(text, rest) => Ok(Text(text), rest)
    else if s[0] == 't' then ReadLiteral(s, "true", Bool(true))
    else if s[0] == 'f' then ReadLiteral(s, "false", Bool(false))
    else if s[0] == 'n' then ReadLiteral(s, "null", Null)
    else if s[0] == '-' || IsDigit(s[0]) then ReadNumber(s)
    else Err(Syntax)
  }

  /** The elements of an array after what has been read already. */
  function ReadItems(s: string, depth: nat, items: seq<Value>): (r: Read<Value>)
    ensures r.Ok? ==> |r.rest| < |s|
    decreases |s|, 1
  {
    if |items| >= MAX_ELEMENTS then Err(Limit)
    else
      match ReadValue(Skip(s), depth + 1)
      case Err(fault) => Err(fault)
      case Ok(item, rest) =>
        var t := Skip(rest);
        if t == [] then Err(Syntax)
        else if t[0] == ',' then ReadItems(t[1..], depth, items + [item])
        else if t[0] == ']' then Ok(Array(items + [item]), t[1..])
        else Err(Syntax)
  }

  /** The members of an object after what has been read already. */
  function ReadMembers(s: string, depth: nat, members: seq<Member>): (r: Read<Value>)
    ensures r.Ok? ==> |r.rest| < |s|
    decreases |s|, 1
  {
    var t := Skip(s);
    if t == [] || t[0] != '"' then Err(Syntax)
    else
      match ReadString(t)
      case Err(fault) => Err(fault)
      case Ok(key, afterKey) =>
        var colon := Skip(afterKey);
        if colon == [] || colon[0] != ':' then Err(Syntax)
        else if HasKey(members, key) then Err(DuplicateKey)
        else if |members| >= MAX_MEMBERS then Err(Limit)
        else
          match ReadValue(Skip(colon[1..]), depth + 1)
          case Err(fault) => Err(fault)
          case Ok(value, rest) =>
            var u := Skip(rest);
            if u == [] then Err(Syntax)
            else if u[0] == ',' then ReadMembers(u[1..], depth, members + [Member(key, value)])
            else if u[0] == '}' then Ok(Object(members + [Member(key, value)]), u[1..])
            else Err(Syntax)
  }

  function Parse(s: string, maxDocument: nat): Read<Value> {
    if |s| > maxDocument then Err(Limit)
    else
      match ReadValue(Skip(s), 0)
      case Err(fault) => Err(fault)
      case Ok(value, rest) => if Skip(rest) != [] then Err(Syntax) else Ok(value, [])
  }

  // ----- writing -----

  function DigitChar(n: nat): char
    requires n < 10
  {
    '0' + n as char
  }

  function Decimal(n: nat): (s: string)
    ensures s != [] && IsDigit(s[0])
  {
    if n < 10 then [DigitChar(n)] else Decimal(n / 10) + [DigitChar(n % 10)]
  }

  function WriteNumber(n: int): string { if n < 0 then ['-'] + Decimal(-n) else Decimal(n) }

  function HexDigit(n: nat): char
    requires n < 16
  {
    if n < 10 then '0' + n as char else 'a' + (n - 10) as char
  }

  function Escape(c: char): string {
    if c == '"' then ['\\', '"']
    else if c == '\\' then ['\\', '\\']
    else if c as int == 8 then ['\\', 'b']
    else if c as int == 12 then ['\\', 'f']
    else if c == '\n' then ['\\', 'n']
    else if c == '\r' then ['\\', 'r']
    else if c == '\t' then ['\\', 't']
    else if (c as int) < 0x20 then ['\\', 'u', '0', '0', HexDigit(c as int / 16), HexDigit(c as int % 16)]
    else [c]
  }

  function Escapes(text: string): string {
    if text == [] then [] else Escape(text[0]) + Escapes(text[1..])
  }

  function WriteString(text: string): string { ['"'] + Escapes(text) + ['"'] }

  function Spaces(n: nat): string { if n == 0 then [] else [' '] + Spaces(n - 1) }

  /** A line break and the indentation of the next depth, when pretty. */
  function Break(pretty: bool, depth: nat): string {
    if pretty then ['\n'] + Spaces(depth * 2) else []
  }

  function Width(v: Value): nat {
    match v
    case Array(items) => |items|
    case Object(members) => |members|
    case _ => 0
  }

  function Write(v: Value, pretty: bool, depth: nat): string
    decreases v, Width(v) + 1, 0
  {
    match v
    case Null => "null"
    case Bool(flag) => if flag then "true" else "false"
    case Number(n) => WriteNumber(n)
    case Text(text) => WriteString(text)
    case Array(items) => if items == [] then "[]" else ['['] + WriteItems(v, pretty, depth, 0)
    case Object(members) => if members == [] then "{}" else ['{'] + WriteMembers(v, pretty, depth, 0)
  }

  /** The elements from `i` on, with separators and the closing bracket. */
  function WriteItems(v: Value, pretty: bool, depth: nat, i: nat): string
    requires v.Array? && i < |v.items|
    decreases v, |v.items| - i, 1
  {
    Break(pretty, depth + 1) + (Write(v.items[i], pretty, depth + 1) + AfterItem(v, pretty, depth, i))
  }

  function AfterItem(v: Value, pretty: bool, depth: nat, i: nat): string
    requires v.Array? && i < |v.items|
    decreases v, |v.items| - i, 0
  {
    if i + 1 < |v.items| then [','] + WriteItems(v, pretty, depth, i + 1) else Break(pretty, depth) + [']']
  }

  function WriteMembers(v: Value, pretty: bool, depth: nat, i: nat): string
    requires v.Object? && i < |v.members|
    decreases v, |v.members| - i, 1
  {
    Break(pretty, depth + 1) +
    (WriteString(v.members[i].key) +
     ([':'] + ((if pretty then [' '] else []) +
               (Write(v.members[i].value, pretty, depth + 1) + AfterMember(v, pretty, depth, i)))))
  }

  function AfterMember(v: Value, pretty: bool, depth: nat, i: nat): string
    requires v.Object? && i < |v.members|
    decreases v, |v.members| - i, 0
  {
    if i + 1 < |v.members| then [','] + WriteMembers(v, pretty, depth, i + 1) else Break(pretty, depth) + ['}']
  }

  // ----- round trip: spaces -----

  lemma {:induction false} SkipSpaces(n: nat, t: string)
    ensures Skip(Spaces(n) + t) == Skip(t)
  {
    if n == 0 {
      assert Spaces(0) + t == t;
    } else {
      SkipSpaces(n - 1, t);
      assert (Spaces(n) + t)[1..] == Spaces(n - 1) + t;
    }
  }

  lemma SkipBreak(pretty: bool, depth: nat, t: string)
    ensures Skip(Break(pretty, depth) + t) == Skip(t)
  {
    if pretty {
      SkipSpaces(depth * 2, t);
      assert (Break(pretty, depth) + t)[1..] == Spaces(depth * 2) + t;
    } else {
      assert Break(pretty, depth) + t == t;
    }
  }

  /** Text that begins a value or a key: nothing to skip, and no closing bracket. */
  predicate Begins(s: string) { s != [] && !IsSpace(s[0]) && s[0] != ']' && s[0] != '}' }

  lemma WriteBegins(v: Value, pretty: bool, depth: nat, t: string)
    ensures Begins(Write(v, pretty, depth) + t)
  {
  }

  /** A number may end here: nothing that would continue it. */
  predicate Ends(t: string) { t != [] ==> t[0] == ',' || t[0] == ']' || t[0] == '}' || t[0] == '\n' }

  // ----- round trip: numbers -----

  /** Reading the digits of `n` leaves the reader with magnitude `n`, whatever follows. */
  lemma {:induction false} DigitsRead(n: nat, t: string)
    requires n <= UINT64_MAX
    ensures Digits(Decimal(n) + t, 0) == Digits(t, n)
  {
    if n < 10 {
      assert (Decimal(n) + t)[1..] == t;
    } else {
      var last := [DigitChar(n % 10)] + t;
      assert Decimal(n) + t == Decimal(n / 10) + last;
      DigitsRead(n / 10, last);
      assert last[1..] == t;
    }
  }

  lemma {:induction false} DecimalLeads(n: nat)
    ensures n >= 10 ==> Decimal(n)[0] != '0'
    ensures n < 10 ==> |Decimal(n)| == 1
  {
    if n >= 10 {
      DecimalLeads(n / 10);
    }
  }

  lemma NumberReadsBack(n: int, t: string)
    requires -NEGATIVE_LIMIT <= n <= POSITIVE_LIMIT && Ends(t)
    ensures var s := WriteNumber(n) + t;
            (s[0] == '-' || IsDigit(s[0])) && ReadNumber(s) == Ok(Number(n), t)
  {
    var m: nat := if n < 0 then -n else n;
    DigitsRead(m, t);
    DecimalLeads(m);
    var s := WriteNumber(n) + t;
    assert n < 0 ==> s[1..] == Decimal(m) + t;
    assert |Decimal(m) + t| - |t| == |Decimal(m)|;
  }

  // ----- round trip: strings -----

  lemma HexReads(n: nat)
    requires n < 16
    ensures HexValue(HexDigit(n)) == n
  {
  }

  /** One written character reads back as itself. */
  lemma CharReads(c: char, t: string, text: string)
    requires |text| < MAX_STRING
    ensures ReadChars(Escape(c) + t, text) == ReadChars(t, text + [c])
  {
    var e := Escape(c);
    var s := e + t;
    if |e| == 1 {
      assert s[1..] == t;
    } else if |e| == 2 {
      assert s[1..][1..] == t;
    } else {
      var n := c as int;
      HexReads(n / 16);
      HexReads(n % 16);
      UnicodeReads(c, s[2..], t);
      assert s[1..][1..] == s[2..];
    }
  }

  lemma UnicodeReads(c: char, s: string, t: string)
    requires (c as int) < 0x20 && s == ['0', '0', HexDigit(c as int / 16), HexDigit(c as int % 16)] + t
    ensures ReadUnicode(s) == Ok([c], t)
  {
    HexReads(c as int / 16);
    HexReads(c as int % 16);
    assert s[4..] == t;
  }

  lemma {:induction false} CharsReadBack(written: string, text: string, t: string)
    requires |text| + |written| <= MAX_STRING
    ensures ReadChars(Escapes(written) + (['"'] + t), text) == Ok(text + written, t)
  {
    hide ReadChars, Escape;
    if written == [] {
      assert Escapes(written) + (['"'] + t) == ['"'] + t;
      assert text + written == text;
      QuoteCloses(t, text);
    } else {
      var c, more := written[0], Escapes(written[1..]) + (['"'] + t);
      assert Escapes(written) + (['"'] + t) == Escape(c) + more;
      CharReads(c, more, text);
      CharsReadBack(written[1..], text + [c], t);
      assert text + [c] + written[1..] == text + written;
    }
  }

  lemma QuoteCloses(t: string, text: string)
    ensures ReadChars(['"'] + t, text) == Ok(text, t)
  {
    assert (['"'] + t)[1..] == t;
  }

  lemma StringReadsBack(text: string, t: string)
    requires |text| <= MAX_STRING
    ensures ReadString(WriteString(text) + t) == Ok(text, t)
    ensures (WriteString(text) + t)[0] == '"'
  {
    hide ReadChars, Escapes;
    CharsReadBack(text, [], t);
    assert (WriteString(text) + t)[1..] == Escapes(text) + (['"'] + t);
    assert [] + text == text;
  }

  // ----- round trip: values -----

  /** A value within every bound, with distinct keys, whose innermost level is at most the deepest. */
  ghost predicate Fits(v: Value, depth: nat)
    decreases v
  {
    && depth <= MAX_DEPTH
    && match v
       case Null => true
       case Bool(_) => true
       case Number(n) => -NEGATIVE_LIMIT <= n <= POSITIVE_LIMIT
       case Text(text) => |text| <= MAX_STRING
       case Array(items) =>
         |items| <= MAX_ELEMENTS && forall i :: 0 <= i < |items| ==> Fits(items[i], depth + 1)
       case Object(members) =>
         && |members| <= MAX_MEMBERS
         && (forall i, j :: 0 <= i < j < |members| ==> members[i].key != members[j].key)
         && (forall i :: 0 <= i < |members| ==> |members[i].key| <= MAX_STRING && Fits(members[i].value, depth + 1))
  }

  lemma LiteralReads(literal: string, value: Value, t: string)
    requires literal != []
    ensures ReadLiteral(literal + t, literal, value) == Ok(value, t)
  {
    assert (literal + t)[..|literal|] == literal && (literal + t)[|literal|..] == t;
  }

  lemma ScalarReadsBack(v: Value, pretty: bool, depth: nat, t: string)
    requires Fits(v, depth) && Ends(t) && !v.Array? && !v.Object?
    ensures ReadValue(Write(v, pretty, depth) + t, depth) == Ok(v, t)
  {
    hide ReadNumber, ReadString, ReadLiteral, WriteNumber, WriteString;
    match v
    case Null => LiteralReads("null", Null, t);
    case Bool(flag) => LiteralReads(if flag then "true" else "false", v, t);
    case Number(n) => NumberReadsBack(n, t);
    case Text(text) => StringReadsBack(text, t);
  }

  /** What follows element `i` in a written array ends a number. */
  lemma AfterItemEnds(v: Value, pretty: bool, depth: nat, i: nat, t: string)
    requires v.Array? && i < |v.items|
    ensures Ends(AfterItem(v, pretty, depth, i) + t)
  {
  }

  lemma AfterMemberEnds(v: Value, pretty: bool, depth: nat, i: nat, t: string)
    requires v.Object? && i < |v.members|
    ensures Ends(AfterMember(v, pretty, depth, i) + t)
  {
  }

  /** One element of an array: read it, then either the next one or the closing bracket. */
  lemma ItemStep(v: Value, pretty: bool, depth: nat, i: nat, t: string)
    requires v.Array? && i < |v.items| <= MAX_ELEMENTS
    requires ReadValue(Write(v.items[i], pretty, depth + 1) + (AfterItem(v, pretty, depth, i) + t), depth + 1) ==
             Ok(v.items[i], AfterItem(v, pretty, depth, i) + t)
    ensures ReadItems(WriteItems(v, pretty, depth, i) + t, depth, v.items[..i]) ==
            if i + 1 < |v.items| then ReadItems(WriteItems(v, pretty, depth, i + 1) + t, depth, v.items[..i + 1])
            else Ok(v, t)
  {
    hide ReadValue, Write, Skip, WriteItems, AfterItem;
    var item := Write(v.items[i], pretty, depth + 1) + (AfterItem(v, pretty, depth, i) + t);
    ItemsWritten(v, pretty, depth, i, t);
    SkipBreak(pretty, depth + 1, item);
    WriteBegins(v.items[i], pretty, depth + 1, AfterItem(v, pretty, depth, i) + t);
    SkipsNothing(item);
    ItemCloses(v, pretty, depth, i, t);
  }

  lemma ItemsWritten(v: Value, pretty: bool, depth: nat, i: nat, t: string)
    requires v.Array? && i < |v.items|
    ensures WriteItems(v, pretty, depth, i) + t ==
            Break(pretty, depth + 1) +
            (Write(v.items[i], pretty, depth + 1) + (AfterItem(v, pretty, depth, i) + t))
  {
    hide Write, AfterItem, Break;
  }

  /** After an element comes a comma and the next one, or the closing bracket. */
  lemma ItemCloses(v: Value, pretty: bool, depth: nat, i: nat, t: string)
    requires v.Array? && i < |v.items|
    ensures v.items[..i] + [v.items[i]] == v.items[..i + 1]
    ensures var u := Skip(AfterItem(v, pretty, depth, i) + t);
            if i + 1 < |v.items| then u != [] && u[0] == ',' && u[1..] == WriteItems(v, pretty, depth, i + 1) + t
            else u != [] && u[0] == ']' && u[1..] == t && v.items[..i + 1] == v.items
  {
    hide Write, WriteItems, Break;
    var after := AfterItem(v, pretty, depth, i) + t;
    if i + 1 < |v.items| {
      SkipsNothing(after);
    } else {
      assert after == Break(pretty, depth) + ([']'] + t);
      SkipBreak(pretty, depth, [']'] + t);
      SkipsNothing([']'] + t);
    }
  }

  lemma SkipsNothing(s: string)
    requires s != [] && !IsSpace(s[0])
    ensures Skip(s) == s
  {
  }

  lemma KeysAreNew(members: seq<Member>, i: nat)
    requires i < |members| && forall j, k :: 0 <= j < k < |members| ==> members[j].key != members[k].key
    ensures !HasKey(members[..i], members[i].key)
  {
  }

  lemma MemberStep(v: Value, pretty: bool, depth: nat, i: nat, t: string)
    requires v.Object? && i < |v.members| <= MAX_MEMBERS && |v.members[i].key| <= MAX_STRING
    requires forall j, k :: 0 <= j < k < |v.members| ==> v.members[j].key != v.members[k].key
    requires ReadValue(Write(v.members[i].value, pretty, depth + 1) +
                       (AfterMember(v, pretty, depth, i) + t), depth + 1) ==
             Ok(v.members[i].value, AfterMember(v, pretty, depth, i) + t)
    ensures ReadMembers(WriteMembers(v, pretty, depth, i) + t, depth, v.members[..i]) ==
            if i + 1 < |v.members| then
               ReadMembers(WriteMembers(v, pretty, depth, i + 1) + t, depth, v.members[..i + 1])
            else Ok(v, t)
  {
    hide ReadValue, Write, Skip, ReadString, WriteString, HasKey;
    var key, after := v.members[i].key, AfterMember(v, pretty, depth, i) + t;
    var value := Write(v.members[i].value, pretty, depth + 1) + after;
    var gap := if pretty then [' '] else [];
    var colon := [':'] + (gap + value);
    var s := WriteMembers(v, pretty, depth, i) + t;
    assert s == Break(pretty, depth + 1) + (WriteString(key) + colon);
    SkipBreak(pretty, depth + 1, WriteString(key) + colon);
    StringReadsBack(key, colon);
    SkipsNothing(WriteString(key) + colon);
    SkipsNothing(colon);
    assert colon[1..] == gap + value;
    WriteBegins(v.members[i].value, pretty, depth + 1, after);
    SkipsGap(gap, value);
    KeysAreNew(v.members, i);
    MemberCloses(v, pretty, depth, i, t);
  }

  lemma SkipsGap(gap: string, value: string)
    requires gap == [] || gap == [' ']
    requires Begins(value)
    ensures Skip(gap + value) == value
  {
    if gap == [] {
      assert gap + value == value;
    } else {
      assert (gap + value)[1..] == value;
    }
  }

  lemma MemberCloses(v: Value, pretty: bool, depth: nat, i: nat, t: string)
    requires v.Object? && i < |v.members|
    ensures v.members[..i] + [Member(v.members[i].key, v.members[i].value)] == v.members[..i + 1]
    ensures var u := Skip(AfterMember(v, pretty, depth, i) + t);
            if i + 1 < |v.members| then u != [] && u[0] == ',' && u[1..] == WriteMembers(v, pretty, depth, i + 1) + t
            else u != [] && u[0] == '}' && u[1..] == t && v.members[..i + 1] == v.members
  {
    hide Write, WriteMembers, Break;
    var after := AfterMember(v, pretty, depth, i) + t;
    if i + 1 < |v.members| {
      SkipsNothing(after);
    } else {
      assert after == Break(pretty, depth) + (['}'] + t);
      SkipBreak(pretty, depth, ['}'] + t);
      SkipsNothing(['}'] + t);
    }
  }

  lemma {:induction false} ItemsReadBack(v: Value, pretty: bool, depth: nat, i: nat, t: string)
    requires v.Array? && Fits(v, depth) && i < |v.items|
    ensures ReadItems(WriteItems(v, pretty, depth, i) + t, depth, v.items[..i]) == Ok(v, t)
    decreases v, |v.items| - i, 0
  {
    hide ReadItems, WriteItems, AfterItem, ReadValue, Write;
    AfterItemEnds(v, pretty, depth, i, t);
    ReadsBack(v.items[i], pretty, depth + 1, AfterItem(v, pretty, depth, i) + t);
    ItemStep(v, pretty, depth, i, t);
    if i + 1 < |v.items| {
      ItemsReadBack(v, pretty, depth, i + 1, t);
    }
  }

  lemma {:induction false} MembersReadBack(v: Value, pretty: bool, depth: nat, i: nat, t: string)
    requires v.Object? && Fits(v, depth) && i < |v.members|
    ensures ReadMembers(WriteMembers(v, pretty, depth, i) + t, depth, v.members[..i]) == Ok(v, t)
    decreases v, |v.members| - i, 0
  {
    hide ReadMembers, WriteMembers, AfterMember, ReadValue, Write;
    AfterMemberEnds(v, pretty, depth, i, t);
    ReadsBack(v.members[i].value, pretty, depth + 1, AfterMember(v, pretty, depth, i) + t);
    MemberStep(v, pretty, depth, i, t);
    if i + 1 < |v.members| {
      MembersReadBack(v, pretty, depth, i + 1, t);
    }
  }

  lemma BracketOpens(s: string, depth: nat)
    requires s != [] && s[0] == '[' && depth <= MAX_DEPTH && Begins(Skip(s[1..]))
    ensures ReadValue(s, depth) == ReadItems(s[1..], depth, [])
  {
    hide ReadItems, Skip;
  }

  lemma BraceOpens(s: string, depth: nat)
    requires s != [] && s[0] == '{' && depth <= MAX_DEPTH && Begins(Skip(s[1..]))
    ensures ReadValue(s, depth) == ReadMembers(s[1..], depth, [])
  {
    hide ReadMembers, Skip;
  }

  /** An opened array is not an empty one. */
  lemma ArrayOpens(v: Value, pretty: bool, depth: nat, t: string)
    requires v.Array? && v.items != [] && depth <= MAX_DEPTH
    ensures ReadValue(Write(v, pretty, depth) + t, depth) == ReadItems(WriteItems(v, pretty, depth, 0) + t, depth, [])
  {
    hide ReadItems, ReadValue, Skip, Write, WriteItems;
    WrittenArray(v, pretty, depth);
    var s := Write(v, pretty, depth) + t;
    assert s[1..] == WriteItems(v, pretty, depth, 0) + t;
    ItemsBegin(v, pretty, depth, t);
    BracketOpens(s, depth);
  }

  lemma WrittenArray(v: Value, pretty: bool, depth: nat)
    requires v.Array? && v.items != []
    ensures Write(v, pretty, depth) == ['['] + WriteItems(v, pretty, depth, 0)
  {
    hide WriteItems;
  }

  lemma WrittenObject(v: Value, pretty: bool, depth: nat)
    requires v.Object? && v.members != []
    ensures Write(v, pretty, depth) == ['{'] + WriteMembers(v, pretty, depth, 0)
  {
    hide WriteMembers;
  }

  lemma ItemsBegin(v: Value, pretty: bool, depth: nat, t: string)
    requires v.Array? && v.items != []
    ensures Begins(Skip(WriteItems(v, pretty, depth, 0) + t))
  {
    hide Write, Skip;
    var item := Write(v.items[0], pretty, depth + 1) + (AfterItem(v, pretty, depth, 0) + t);
    assert WriteItems(v, pretty, depth, 0) + t == Break(pretty, depth + 1) + item;
    SkipBreak(pretty, depth + 1, item);
    WriteBegins(v.items[0], pretty, depth + 1, AfterItem(v, pretty, depth, 0) + t);
    SkipsNothing(item);
  }

  lemma ObjectOpens(v: Value, pretty: bool, depth: nat, t: string)
    requires v.Object? && v.members != [] && depth <= MAX_DEPTH
    ensures ReadValue(Write(v, pretty, depth) + t, depth) ==
            ReadMembers(WriteMembers(v, pretty, depth, 0) + t, depth, [])
  {
    hide ReadMembers, ReadValue, Skip, Write, WriteMembers;
    WrittenObject(v, pretty, depth);
    var s := Write(v, pretty, depth) + t;
    assert s[1..] == WriteMembers(v, pretty, depth, 0) + t;
    MembersBegin(v, pretty, depth, t);
    BraceOpens(s, depth);
  }

  lemma MembersBegin(v: Value, pretty: bool, depth: nat, t: string)
    requires v.Object? && v.members != []
    ensures Begins(Skip(WriteMembers(v, pretty, depth, 0) + t))
  {
    hide Write, Skip, AfterMember;
    var rest := WriteMembers(v, pretty, depth, 0)[|Break(pretty, depth + 1)|..] + t;
    assert WriteMembers(v, pretty, depth, 0) + t == Break(pretty, depth + 1) + rest;
    assert rest[0] == '"';
    SkipBreak(pretty, depth + 1, rest);
    SkipsNothing(rest);
  }

  lemma EmptyReads(v: Value, pretty: bool, depth: nat, t: string)
    requires (v == Array([]) || v == Object([])) && depth <= MAX_DEPTH
    ensures ReadValue(Write(v, pretty, depth) + t, depth) == Ok(v, t)
  {
    var s := Write(v, pretty, depth) + t;
    SkipsNothing(s[1..]);
    assert s[1..][1..] == t;
  }

  /** Whatever follows it, a written value reads back as itself. */
  lemma {:induction false} ReadsBack(v: Value, pretty: bool, depth: nat, t: string)
    requires Fits(v, depth) && Ends(t)
    ensures ReadValue(Write(v, pretty, depth) + t, depth) == Ok(v, t)
    decreases v, Width(v) + 1, 0
  {
    hide ReadValue, Write, ReadItems, ReadMembers, WriteItems, WriteMembers;
    if v.Array? {
      if v.items == [] {
        EmptyReads(v, pretty, depth, t);
      } else {
        ArrayOpens(v, pretty, depth, t);
        ItemsReadBack(v, pretty, depth, 0, t);
        assert v.items[..0] == [];
      }
    } else if v.Object? {
      if v.members == [] {
        EmptyReads(v, pretty, depth, t);
      } else {
        ObjectOpens(v, pretty, depth, t);
        MembersReadBack(v, pretty, depth, 0, t);
        assert v.members[..0] == [];
      }
    } else {
      ScalarReadsBack(v, pretty, depth, t);
    }
  }

  /**
   * Parsing the compact or the pretty text of any value within the bounds returns that value: escaped
   * strings, the smallest 64-bit integer and values at the depth limit included.
   */
  lemma RoundTrip(v: Value, pretty: bool, maxDocument: nat)
    requires Fits(v, 0) && |Write(v, pretty, 0)| <= maxDocument
    ensures Parse(Write(v, pretty, 0), maxDocument) == Ok(v, [])
  {
    hide ReadValue, Write;
    var s := Write(v, pretty, 0);
    assert s + [] == s;
    WriteBegins(v, pretty, 0, []);
    SkipsNothing(s);
    ReadsBack(v, pretty, 0, []);
  }
}

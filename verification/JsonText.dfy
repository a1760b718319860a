/** The reader and the writer as they run: a position that moves through a document, a buffer that grows. */
module JsonText {
  import opened Json

  datatype Got<+T> = Done(value: T) | Failed(fault: Fault)

  /** A method returned, and left ahead of it, what the specification says. */
  ghost predicate Agrees<T>(spec: Read<T>, got: Got<T>, ahead: string) {
    match spec
    case Ok(value, rest) => got == Done(value) && ahead == rest
    case Err(fault) => got == Failed(fault)
  }

  lemma SkipTwice(s: string)
    ensures Skip(Skip(s)) == Skip(s)
    ensures Skip(s) != [] ==> !IsSpace(Skip(s)[0])
  {
  }

  lemma SkippedItems(s: string, depth: nat, items: seq<Value>)
    ensures ReadItems(Skip(s), depth, items) == ReadItems(s, depth, items)
  {
    SkipTwice(s);
  }

  lemma SkippedMembers(s: string, depth: nat, members: seq<Member>)
    ensures ReadMembers(Skip(s), depth, members) == ReadMembers(s, depth, members)
  {
    SkipTwice(s);
  }

  class JsonReader {
    const text: string
    const maxDocument: nat
    var position: nat

    ghost predicate Valid()
      reads this
    {
      position <= |text|
    }

    ghost function Ahead(): string
      requires Valid()
      reads this
    {
      text[position..]
    }

    constructor (text: string, maxDocument: nat)
      ensures Valid() && Ahead() == text && this.text == text && this.maxDocument == maxDocument
    {
      this.text, this.maxDocument, position := text, maxDocument, 0;
    }

    predicate AtEnd()
      reads this
    {
      position >= |text|
    }

    method Advance(n: nat)
      requires position + n <= |text|
      modifies this`position
      ensures position == old(position) + n && Ahead() == old(text[position..])[n..]
    {
      position := position + n;
    }

    method SkipWhitespace()
      requires Valid()
      modifies this`position
      ensures Valid() && position >= old(position) && Ahead() == Skip(old(Ahead()))
    {
      while position < |text| && IsSpace(text[position])
        invariant Valid() && position >= old(position)
        invariant Skip(Ahead()) == Skip(old(Ahead()))
      {
        Advance(1);
      }
    }

    method ParseLiteral(literal: string, value: Value) returns (got: Got<Value>)
      requires Valid() && literal != []
      modifies this`position
      ensures Valid() && Agrees(ReadLiteral(old(Ahead()), literal, value), got, Ahead())
    {
      if |text| - position < |literal| || text[position..position + |literal|] != literal {
        assert |text| - position >= |literal| ==> Ahead()[..|literal|] == text[position..position + |literal|];
        return Failed(Syntax);
      }
      assert Ahead()[..|literal|] == text[position..position + |literal|];
      Advance(|literal|);
      got := Done(value);
    }

    /** Folds the digits ahead, checking before each that the magnitude stays within 64 bits. */
    method ParseDigits() returns (magnitude: Got<nat>)
      requires Valid()
      modifies this`position
      ensures Valid() && position >= old(position)
      ensures Agrees(Digits(old(Ahead()), 0), magnitude, Ahead())
    {
      var folded: nat := 0;
      while position < |text| && IsDigit(text[position])
        invariant Valid() && position >= old(position)
        invariant Digits(Ahead(), folded) == Digits(old(Ahead()), 0)
      {
        var digit := DigitValue(text[position]);
        if folded > (UINT64_MAX - digit) / 10 {
          return Failed(Syntax);
        }
        folded := folded * 10 + digit;
        Advance(1);
      }
      magnitude := Done(folded);
    }

    method ParseNumber() returns (got: Got<Value>)
      requires Valid() && position < |text| && (text[position] == '-' || IsDigit(text[position]))
      modifies this`position
      ensures Valid() && Agrees(ReadNumber(old(Ahead())), got, Ahead())
    {
      var negative := text[position] == '-';
      if negative {
        Advance(1);
        if AtEnd() || !IsDigit(text[position]) {
          return Failed(Syntax);
        }
      }
      var firstDigit := position;
      ghost var t := Ahead();
      var magnitude := ParseDigits();
      if magnitude.Failed? {
        return Failed(magnitude.fault);
      }
      if position - firstDigit > 1 && text[firstDigit] == '0' {
        return Failed(Syntax);
      }
      if !AtEnd() && (text[position] == '.' || text[position] == 'e' || text[position] == 'E') {
        return Failed(Syntax);
      }
      var limit := if negative then NEGATIVE_LIMIT else POSITIVE_LIMIT;
      if magnitude.value > limit {
        return Failed(Syntax);
      }
      got := Done(Number(if negative then 0 - magnitude.value else magnitude.value));
    }

    method ParseHex4() returns (got: Got<nat>)
      requires Valid()
      modifies this`position
      ensures Valid() && Agrees(Hex4(old(Ahead())), got, Ahead())
    {
      if |text| - position < 4 {
        return Failed(Syntax);
      }
      var value: nat := 0;
      ghost var s := Ahead();
      for offset := 0 to 4
        invariant position == old(position)
        invariant forall k :: 0 <= k < offset ==> HexValue(s[k]) >= 0
        invariant offset == 0 ==> value == 0
        invariant offset == 1 ==> value == HexValue(s[0])
        invariant offset == 2 ==> value == HexValue(s[0]) * 16 + HexValue(s[1])
        invariant offset == 3 ==> value == HexValue(s[0]) * 256 + HexValue(s[1]) * 16 + HexValue(s[2])
        invariant offset == 4 ==>
                    value == HexValue(s[0]) * 4096 + HexValue(s[1]) * 256 + HexValue(s[2]) * 16 + HexValue(s[3])
      {
        assert text[position + offset] == s[offset];
        var digit := HexValue(text[position + offset]);
        if digit < 0 {
          return Failed(Syntax);
        }
        value := value * 16 + digit;
      }
      Advance(4);
      got := Done(value);
    }

    /** After `\u`: one code unit, or a surrogate pair written as two escapes. */
    method ParseUnicode() returns (got: Got<string>)
      requires Valid()
      modifies this`position
      ensures Valid() && Agrees(ReadUnicode(old(Ahead())), got, Ahead())
    {
      hide Hex4, AppendUtf8;
      var unit := ParseHex4();
      if unit.Failed? {
        return Failed(unit.fault);
      }
      var codepoint := unit.value;
      if 0xD800 <= codepoint <= 0xDBFF {
        if |text| - position < 2 || text[position] != '\\' || text[position + 1] != 'u' {
          return Failed(Syntax);
        }
        Advance(2);
        var low := ParseHex4();
        if low.Failed? {
          return Failed(low.fault);
        }
        if low.value < 0xDC00 || low.value > 0xDFFF {
          return Failed(Syntax);
        }
        codepoint := 0x1_0000 + (codepoint - 0xD800) * 1024 + (low.value - 0xDC00);
      } else if 0xDC00 <= codepoint <= 0xDFFF {
        return Failed(Syntax);
      }
      got := Done(AppendUtf8(codepoint));
    }

    method ParseEscape() returns (got: Got<string>)
      requires Valid()
      modifies this`position
      ensures Valid() && Agrees(ReadEscape(old(Ahead())), got, Ahead())
    {
      if AtEnd() {
        return Failed(Syntax);
      }
      var escape := text[position];
      Advance(1);
      if escape == '"' || escape == '\\' || escape == '/' {
        got := Done([escape]);
      } else if escape == 'b' {
        got := Done([8 as char]);
      } else if escape == 'f' {
        got := Done([12 as char]);
      } else if escape == 'n' {
        got := Done(['\n']);
      } else if escape == 'r' {
        got := Done(['\r']);
      } else if escape == 't' {
        got := Done(['\t']);
      } else if escape == 'u' {
        got := ParseUnicode();
      } else {
        got := Failed(Syntax);
      }
    }

    /** The current character is the opening quote. */
    method ParseString() returns (got: Got<string>)
      requires Valid() && position < |text|
      modifies this`position
      ensures Valid() && Agrees(ReadString(old(Ahead())), got, Ahead())
    {
      Advance(1);
      var out := [];
      while true
        invariant Valid()
        invariant ReadChars(Ahead(), out) == ReadString(old(Ahead()))
        decreases |text| - position
      {
        if AtEnd() {
          return Failed(Syntax);
        }
        var character := text[position];
        if character == '"' {
          Advance(1);
          break;
        }
        if character as int < 0x20 {
          return Failed(Syntax);
        }
        if character != '\\' {
          out := out + [character];
          Advance(1);
        } else {
          Advance(1);
          var more := ParseEscape();
          if more.Failed? {
            return Failed(more.fault);
          }
          out := out + more.value;
        }
        if |out| > MAX_STRING {
          return Failed(Limit);
        }
      }
      got := Done(out);
    }

    method ParseValue(depth: nat) returns (got: Got<Value>)
      requires Valid()
      modifies this`position
      ensures Valid() && Agrees(ReadValue(old(Ahead()), depth), got, Ahead())
      decreases |text| - position, 1
    {
      if depth > MAX_DEPTH {
        return Failed(Limit);
      }
      if AtEnd() {
        return Failed(Syntax);
      }
      var first := text[position];
      if first == '{' {
        got := ParseObject(depth);
      } else if first == '[' {
        got := ParseArray(depth);
      } else if first == '"' {
        var chars := ParseString();
        got := if chars.Failed? then Failed(chars.fault) else Done(Text(chars.value));
      } else if first == 't' {
        got := ParseLiteral("true", Bool(true));
      } else if first == 'f' {
        got := ParseLiteral("false", Bool(false));
      } else if first == 'n' {
        got := ParseLiteral("null", Null);
      } else if first == '-' || IsDigit(first) {
        got := ParseNumber();
      } else {
        got := Failed(Syntax);
      }
    }

    method ParseArray(depth: nat) returns (got: Got<Value>)
      requires Valid() && depth <= MAX_DEPTH && position < |text| && text[position] == '['
      modifies this`position
      ensures Valid() && Agrees(ReadValue(old(Ahead()), depth), got, Ahead())
      decreases |text| - position, 0
    {
      Advance(1);
      ghost var inside := Ahead();
      SkipWhitespace();
      if !AtEnd() && text[position] == ']' {
        Advance(1);
        return Done(Array([]));
      }
      SkippedItems(inside, depth, []);
      var items := [];
      while true
        invariant Valid() && position > old(position)
        invariant ReadItems(Ahead(), depth, items) == ReadValue(old(Ahead()), depth)
        decreases |text| - position
      {
        SkippedItems(Ahead(), depth, items);
        SkipWhitespace();
        SkipTwice(Ahead());
        if |items| >= MAX_ELEMENTS {
          return Failed(Limit);
        }
        var value := ParseValue(depth + 1);
        if value.Failed? {
          return Failed(value.fault);
        }
        SkipWhitespace();
        if AtEnd() {
          return Failed(Syntax);
        }
        if text[position] == ',' {
          items := items + [value.value];
          Advance(1);
          continue;
        }
        if text[position] == ']' {
          Advance(1);
          return Done(Array(items + [value.value]));
        }
        return Failed(Syntax);
      }
    }

    method ParseKey() returns (got: Got<string>)
      requires Valid()
      modifies this`position
      ensures Valid() && Agrees(ReadKey(old(Ahead())), got, Ahead())
    {
      SkipWhitespace();
      if AtEnd() || text[position] != '"' {
        return Failed(Syntax);
      }
      got := ParseString();
      if got.Failed? {
        return;
      }
      SkipWhitespace();
      if AtEnd() || text[position] != ':' {
        return Failed(Syntax);
      }
      Advance(1);
    }

    method HasMember(members: seq<Member>, key: string) returns (found: bool)
      ensures found == HasKey(members, key)
    {
      for i := 0 to |members|
        invariant forall k :: 0 <= k < i ==> members[k].key != key
      {
        if members[i].key == key {
          return true;
        }
      }
      found := false;
    }

    /** A key that is new, and its value. */
    method ParseMember(depth: nat, members: seq<Member>) returns (got: Got<Member>)
      requires Valid() && depth <= MAX_DEPTH
      modifies this`position
      ensures Valid() && Agrees(ReadMember(old(Ahead()), depth, members), got, Ahead())
      decreases |text| - position, 2
    {
      hide ReadValue;
      var key := ParseKey();
      if key.Failed? {
        return Failed(key.fault);
      }
      var present := HasMember(members, key.value);
      if present {
        return Failed(DuplicateKey);
      }
      if |members| >= MAX_MEMBERS {
        return Failed(Limit);
      }
      SkipWhitespace();
      var value := ParseValue(depth + 1);
      got := if value.Failed? then Failed(value.fault) else Done(Member(key.value, value.value));
    }

    method ParseObject(depth: nat) returns (got: Got<Value>)
      requires Valid() && depth <= MAX_DEPTH && position < |text| && text[position] == '{'
      modifies this`position
      ensures Valid() && Agrees(ReadValue(old(Ahead()), depth), got, Ahead())
      decreases |text| - position, 0
    {
      Advance(1);
      ghost var inside := Ahead();
      SkipWhitespace();
      if !AtEnd() && text[position] == '}' {
        Advance(1);
        return Done(Object([]));
      }
      SkippedMembers(inside, depth, []);
      got := ParseMembers(depth);
    }

    method ParseMembers(depth: nat) returns (got: Got<Value>)
      requires Valid() && depth <= MAX_DEPTH
      modifies this`position
      ensures Valid() && Agrees(ReadMembers(old(Ahead()), depth, []), got, Ahead())
      decreases |text| - position, 3
    {
      hide ReadMembers, ReadMember;
      var members := [];
      while true
        invariant Valid() && position >= old(position)
        invariant ReadMembers(Ahead(), depth, members) == ReadMembers(old(Ahead()), depth, [])
        decreases |text| - position
      {
        MembersGoOn(Ahead(), depth, members);
        var member := ParseMember(depth, members);
        if member.Failed? {
          return Failed(member.fault);
        }
        SkipWhitespace();
        if AtEnd() {
          return Failed(Syntax);
        }
        if text[position] == ',' {
          members := members + [member.value];
          Advance(1);
          continue;
        }
        if text[position] == '}' {
          Advance(1);
          return Done(Object(members + [member.value]));
        }
        return Failed(Syntax);
      }
    }

    /** A whole document: one value, with nothing but white space around it. */
    method ParseDocument() returns (got: Got<Value>)
      requires Valid() && position == 0
      modifies this`position
      ensures Valid() && Agrees(Parse(text, maxDocument), got, if got.Done? then [] else Ahead())
    {
      assert Ahead() == text;
      if |text| > maxDocument {
        return Failed(Limit);
      }
      SkipWhitespace();
      got := ParseValue(0);
      if got.Failed? {
        return;
      }
      SkipWhitespace();
      if !AtEnd() {
        return Failed(Syntax);
      }
    }
  }

  /** A key and its colon. */
  function ReadKey(s: string): (r: Read<string>)
    ensures r.Ok? ==> |r.rest| < |s|
  {
    var t := Skip(s);
    if t == [] || t[0] != '"' then Err(Syntax)
    else
      match ReadString(t)
      case Err(fault) => Err(fault)
      case Ok(key, afterKey) =>
        var colon := Skip(afterKey);
        if colon == [] || colon[0] != ':' then Err(Syntax) else Ok(key, colon[1..])
  }

  function ReadMember(s: string, depth: nat, members: seq<Member>): (r: Read<Member>)
    ensures r.Ok? ==> |r.rest| < |s|
  {
    match ReadKey(s)
    case Err(fault) => Err(fault)
    case Ok(key, rest) =>
      if HasKey(members, key) then Err(DuplicateKey)
      else if |members| >= MAX_MEMBERS then Err(Limit)
      else
        match ReadValue(Skip(rest), depth + 1)
        case Err(fault) => Err(fault)
        case Ok(value, after) => Ok(Member(key, value), after)
  }

  /** Members are read one after another. */
  lemma MembersGoOn(s: string, depth: nat, members: seq<Member>)
    ensures ReadMembers(s, depth, members) ==
            match ReadMember(s, depth, members)
            case Err(fault) => Err(fault)
            case Ok(member, rest) =>
              var u := Skip(rest);
              if u == [] then Err(Syntax)
              else if u[0] == ',' then ReadMembers(u[1..], depth, members + [member])
              else if u[0] == '}' then Ok(Object(members + [member]), u[1..])
              else Err(Syntax)
  {
  }

  class JsonWriter {
    var out: string

    constructor ()
      ensures out == []
    {
      out := [];
    }

    method Put(more: string)
      modifies this
      ensures out == old(out) + more
    {
      out := out + more;
    }

    method WriteEscapedString(text: string)
      modifies this
      ensures out == old(out) + WriteString(text)
    {
      hide Escape;
      Put(['"']);
      for i := 0 to |text|
        invariant out + Escapes(text[i..]) == old(out) + (['"'] + Escapes(text))
      {
        assert text[i..][1..] == text[i + 1..];
        Put(Escape(text[i]));
      }
      assert out + Escapes(text[|text|..]) == out;
      Put(['"']);
      assert old(out) + WriteString(text) == old(out) + (['"'] + Escapes(text)) + ['"'];
    }

    /** A line break and the indentation of the next line, when pretty. */
    method WriteBreak(pretty: bool, depth: nat)
      modifies this
      ensures out == old(out) + Break(pretty, depth)
    {
      if pretty {
        Put(['\n']);
        for i := 0 to depth * 2
          invariant out + Spaces(depth * 2 - i) == old(out) + (['\n'] + Spaces(depth * 2))
        {
          Put([' ']);
        }
      }
    }

    method WriteScalar(v: Value)
      requires !v.Array? && !v.Object?
      modifies this
      ensures out == old(out) + Write(v, false, 0)
    {
      match v {
        case Null => Put("null");
        case Bool(flag) => Put(if flag then "true" else "false");
        case Number(n) => Put(WriteNumber(n));
        case Text(text) => WriteEscapedString(text);
      }
    }

    method WriteValue(v: Value, pretty: bool, depth: nat)
      modifies this
      ensures out == old(out) + Write(v, pretty, depth)
      decreases v, 1
    {
      if v.Array? {
        WriteArray(v, pretty, depth);
      } else if v.Object? {
        WriteObject(v, pretty, depth);
      } else {
        WriteScalar(v);
        assert Write(v, false, 0) == Write(v, pretty, depth);
      }
    }

    method WriteItem(v: Value, pretty: bool, depth: nat, i: nat)
      requires v.Array? && i < |v.items|
      modifies this
      ensures out + AfterItem(v, pretty, depth, i) == old(out) + WriteItems(v, pretty, depth, i)
      decreases v, 0, 0
    {
      hide Break, Write, AfterItem;
      WriteBreak(pretty, depth + 1);
      WriteValue(v.items[i], pretty, depth + 1);
      JoinThree(old(out), Break(pretty, depth + 1), Write(v.items[i], pretty, depth + 1),
                AfterItem(v, pretty, depth, i));
    }

    method WriteArray(v: Value, pretty: bool, depth: nat)
      requires v.Array?
      modifies this
      ensures out == old(out) + Write(v, pretty, depth)
      decreases v, 0, 1
    {
      hide Break, Write, AfterItem, WriteItems;
      ArrayText(v, pretty, depth);
      if v.items == [] {
        Put("[]");
        return;
      }
      ghost var goal := out + Write(v, pretty, depth);
      JoinTwo(out, ['['], WriteItems(v, pretty, depth, 0));
      Put(['[']);
      for i := 0 to |v.items|
        invariant i == 0 ==> out + WriteItems(v, pretty, depth, 0) == goal
        invariant i > 0 ==> out + AfterItem(v, pretty, depth, i - 1) == goal
      {
        if i != 0 {
          ItemText(v, pretty, depth, i - 1);
          JoinTwo(out, [','], WriteItems(v, pretty, depth, i));
          Put([',']);
        }
        WriteItem(v, pretty, depth, i);
      }
      ItemText(v, pretty, depth, |v.items| - 1);
      JoinTwo(out, Break(pretty, depth), [']']);
      WriteBreak(pretty, depth);
      Put([']']);
    }

    method WriteMember(v: Value, pretty: bool, depth: nat, i: nat)
      requires v.Object? && i < |v.members|
      modifies this
      ensures out + AfterMember(v, pretty, depth, i) == old(out) + WriteMembers(v, pretty, depth, i)
      decreases v, 0, 0
    {
      hide Break, Write, AfterMember, WriteString;
      var gap := if pretty then [' '] else [];
      WriteBreak(pretty, depth + 1);
      WriteEscapedString(v.members[i].key);
      Put([':']);
      Put(gap);
      WriteValue(v.members[i].value, pretty, depth + 1);
      var value, after := Write(v.members[i].value, pretty, depth + 1), AfterMember(v, pretty, depth, i);
      JoinThree(old(out), Break(pretty, depth + 1), WriteString(v.members[i].key), [':'] + (gap + (value + after)));
      JoinThree(old(out) + Break(pretty, depth + 1) + WriteString(v.members[i].key), [':'], gap, value + after);
      JoinTwo(old(out) + Break(pretty, depth + 1) + WriteString(v.members[i].key) + [':'] + gap, value, after);
    }

    method WriteObject(v: Value, pretty: bool, depth: nat)
      requires v.Object?
      modifies this
      ensures out == old(out) + Write(v, pretty, depth)
      decreases v, 0, 1
    {
      hide Break, Write, AfterMember, WriteMembers;
      ObjectText(v, pretty, depth);
      if v.members == [] {
        Put("{}");
        return;
      }
      ghost var goal := out + Write(v, pretty, depth);
      JoinTwo(out, ['{'], WriteMembers(v, pretty, depth, 0));
      Put(['{']);
      for i := 0 to |v.members|
        invariant i == 0 ==> out + WriteMembers(v, pretty, depth, 0) == goal
        invariant i > 0 ==> out + AfterMember(v, pretty, depth, i - 1) == goal
      {
        if i != 0 {
          MemberText(v, pretty, depth, i - 1);
          JoinTwo(out, [','], WriteMembers(v, pretty, depth, i));
          Put([',']);
        }
        WriteMember(v, pretty, depth, i);
      }
      MemberText(v, pretty, depth, |v.members| - 1);
      JoinTwo(out, Break(pretty, depth), ['}']);
      WriteBreak(pretty, depth);
      Put(['}']);
    }
  }

  lemma JoinTwo(a: string, b: string, c: string)
    ensures a + (b + c) == a + b + c
  {
  }

  lemma JoinThree(a: string, b: string, c: string, d: string)
    ensures a + (b + (c + d)) == a + b + c + d
  {
    JoinTwo(a, b, c + d);
    JoinTwo(a + b, c, d);
  }

  lemma ArrayText(v: Value, pretty: bool, depth: nat)
    requires v.Array?
    ensures Write(v, pretty, depth) == if v.items == [] then "[]" else ['['] + WriteItems(v, pretty, depth, 0)
  {
    hide WriteItems;
  }

  lemma ItemText(v: Value, pretty: bool, depth: nat, i: nat)
    requires v.Array? && i < |v.items|
    ensures AfterItem(v, pretty, depth, i) ==
            if i + 1 < |v.items| then [','] + WriteItems(v, pretty, depth, i + 1) else Break(pretty, depth) + [']']
  {
    hide WriteItems;
  }

  lemma ObjectText(v: Value, pretty: bool, depth: nat)
    requires v.Object?
    ensures Write(v, pretty, depth) == if v.members == [] then "{}" else ['{'] + WriteMembers(v, pretty, depth, 0)
  {
    hide WriteMembers;
  }

  lemma MemberText(v: Value, pretty: bool, depth: nat, i: nat)
    requires v.Object? && i < |v.members|
    ensures AfterMember(v, pretty, depth, i) ==
            if i + 1 < |v.members| then [','] + WriteMembers(v, pretty, depth, i + 1) else Break(pretty, depth) + ['}']
  {
    hide WriteMembers;
  }

  /** Writing any value within the bounds and reading the text again gives that value. */
  method WriteThenRead(v: Value, pretty: bool, maxDocument: nat) returns (got: Got<Value>)
    requires Fits(v, 0) && |Write(v, pretty, 0)| <= maxDocument
    ensures got == Done(v)
  {
    var writer := new JsonWriter();
    writer.WriteValue(v, pretty, 0);
    assert writer.out == Write(v, pretty, 0);
    var reader := new JsonReader(writer.out, maxDocument);
    got := reader.ParseDocument();
    RoundTrip(v, pretty, maxDocument);
  }
}

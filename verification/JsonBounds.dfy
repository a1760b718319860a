/** Everything the reader accepts is within the bounds, so it can be written and read again. */
module JsonBounds {
  import opened Json

  lemma {:induction false} CharsAreBounded(s: string, text: string)
    requires |text| <= MAX_STRING
    ensures ReadChars(s, text).Ok? ==> |ReadChars(s, text).value| <= MAX_STRING
    decreases |s|
  {
    hide ReadEscape;
    if s != [] && s[0] != '"' && s[0] as int >= 0x20 {
      if s[0] != '\\' {
        if |text| + 1 <= MAX_STRING { CharsAreBounded(s[1..], text + [s[0]]); }
      } else {
        var escape := ReadEscape(s[1..]);
        if escape.Ok? && |text + escape.value| <= MAX_STRING { CharsAreBounded(escape.rest, text + escape.value); }
      }
    }
  }

  lemma NumberIsBounded(s: string)
    requires s != [] && (s[0] == '-' || IsDigit(s[0]))
    ensures ReadNumber(s).Ok? ==>
              ReadNumber(s).value.Number? && -NEGATIVE_LIMIT <= ReadNumber(s).value.number <= POSITIVE_LIMIT
  {
    hide Digits;
  }

  /**
   * A value is accepted only within the bounds: depth, members, elements,
   * string length, 64-bit integers, distinct keys.
   */
  lemma {:induction false} AcceptedFits(s: string, depth: nat)
    ensures ReadValue(s, depth).Ok? ==> Fits(ReadValue(s, depth).value, depth)
    decreases |s|, 0
  {
    if depth <= MAX_DEPTH && s != [] {
      if s[0] == '{' {
        if Skip(s[1..]) == [] || Skip(s[1..])[0] != '}' { MembersFit(s[1..], depth, []); }
      } else if s[0] == '[' {
        if Skip(s[1..]) == [] || Skip(s[1..])[0] != ']' { ItemsFit(s[1..], depth, []); }
      } else {
        ScalarFits(s, depth);
      }
    }
  }

  lemma ScalarFits(s: string, depth: nat)
    requires depth <= MAX_DEPTH && s != [] && s[0] != '{' && s[0] != '['
    ensures ReadValue(s, depth).Ok? ==> Fits(ReadValue(s, depth).value, depth)
  {
    hide ReadChars, ReadNumber;
    if s[0] == '"' {
      CharsAreBounded(s[1..], []);
    } else if s[0] == '-' || IsDigit(s[0]) {
      NumberIsBounded(s);
    }
  }

  ghost predicate ItemsFitSoFar(items: seq<Value>, depth: nat) {
    forall i :: 0 <= i < |items| ==> Fits(items[i], depth + 1)
  }

  lemma {:induction false} ItemsFit(s: string, depth: nat, items: seq<Value>)
    requires depth <= MAX_DEPTH && |items| <= MAX_ELEMENTS && ItemsFitSoFar(items, depth)
    ensures ReadItems(s, depth, items).Ok? ==> Fits(ReadItems(s, depth, items).value, depth)
    decreases |s|, 1
  {
    hide ReadValue;
    var item := ReadValue(Skip(s), depth + 1);
    if |items| < MAX_ELEMENTS && item.Ok? {
      AcceptedFits(Skip(s), depth + 1);
      var t := Skip(item.rest);
      if t != [] && t[0] == ',' { ItemsFit(t[1..], depth, items + [item.value]); }
    }
  }

  ghost predicate MembersFitSoFar(members: seq<Member>, depth: nat) {
    && (forall i, j :: 0 <= i < j < |members| ==> members[i].key != members[j].key)
    && (forall i :: 0 <= i < |members| ==> |members[i].key| <= MAX_STRING && Fits(members[i].value, depth + 1))
  }

  lemma {:induction false} MembersFit(s: string, depth: nat, members: seq<Member>)
    requires depth <= MAX_DEPTH && |members| <= MAX_MEMBERS && MembersFitSoFar(members, depth)
    ensures ReadMembers(s, depth, members).Ok? ==> Fits(ReadMembers(s, depth, members).value, depth)
    decreases |s|, 1
  {
    hide ReadValue, ReadChars;
    var t := Skip(s);
    if t != [] && t[0] == '"' && ReadString(t).Ok? {
      var key := ReadString(t);
      var colon := Skip(key.rest);
      CharsAreBounded(t[1..], []);
      if colon != [] && colon[0] == ':' && !HasKey(members, key.value) && |members| < MAX_MEMBERS {
        AcceptedFits(Skip(colon[1..]), depth + 1);
        var value := ReadValue(Skip(colon[1..]), depth + 1);
        if value.Ok? {
          var u := Skip(value.rest);
          if u != [] && u[0] == ',' { MembersFit(u[1..], depth, members + [Member(key.value, value.value)]); }
        }
      }
    }
  }

  /** An accepted document, written in either form, is read back as the same value. */
  lemma AcceptedRoundTrips(s: string, maxDocument: nat, pretty: bool, maxAgain: nat)
    requires Parse(s, maxDocument).Ok?
    requires |Write(Parse(s, maxDocument).value, pretty, 0)| <= maxAgain
    ensures Parse(Write(Parse(s, maxDocument).value, pretty, 0), maxAgain) == Ok(Parse(s, maxDocument).value, [])
  {
    hide ReadValue, Write;
    AcceptedFits(Skip(s), 0);
    RoundTrip(Parse(s, maxDocument).value, pretty, maxAgain);
  }
}

/**
 * The JSON text that a `custom_json` operation carries.
 *
 * `Stringify` is the canonical serialisation used when a Hivemind operation
 * is built (the role of `JSON.stringify`): no white space, object members in
 * insertion order, and inside strings the escapes `JSON.stringify` writes:
 * `\"`, `\\`, `\b`, `\f`, `\n`, `\r`, `\t`, and `\u00xx` (lower-case hex)
 * for the other characters below U+0020.  `Parse` is a strict reader of
 * exactly that form.  The two are proved mutually inverse, so the
 * encoding is injective and nothing but its own output decodes.
 */
module Json {
  import opened Wrappers

  datatype Json =
    | JString(str: string)
    | JBool(b: bool)
    | JArray(items: seq<Json>)
    | JObject(members: seq<Member>)

  datatype Member = Member(key: string, value: Json)

  /** The value stored under `key`, taking the first member that has it. */
  function Lookup(members: seq<Member>, key: string): (r: Option<Json>)
    ensures r.Some? <==> exists i :: 0 <= i < |members| && members[i].key == key
    ensures r.Some? ==> exists i :: 0 <= i < |members| && members[i] == Member(key, r.value)
  {
    if members == [] then None
    else if members[0].key == key then Some(members[0].value)
    else
      var r := Lookup(members[1..], key);
      assert forall i :: 1 <= i < |members| ==> members[i] == members[1..][i - 1];
      r
  }

  /** The first member with a key is the one `Lookup` finds. */
  lemma {:induction false} LookupFirst(members: seq<Member>, key: string, i: nat)
    requires i < |members| && members[i].key == key
    requires forall k :: 0 <= k < i ==> members[k].key != key
    ensures Lookup(members, key) == Some(members[i].value)
  {
    if i > 0 {
      LookupFirst(members[1..], key, i - 1);
    }
  }

  // ---------------------------------------------------------------- writing

  /** The letter of the two-character escape written for `c`, if `c` has one. */
  function ShortEscape(c: char): (r: Option<char>)
    ensures r.Some? ==> ShortUnescape(r.value) == Some(c)
  {
    if c == '"' then Some('"')
    else if c == '\\' then Some('\\')
    else if c == 8 as char then Some('b')
    else if c == 12 as char then Some('f')
    else if c == '\n' then Some('n')
    else if c == '\r' then Some('r')
    else if c == '\t' then Some('t')
    else None
  }

  /** The character a two-character escape stands for, given the letter after the backslash. */
  function ShortUnescape(x: char): Option<char> {
    if x == '"' then Some('"')
    else if x == '\\' then Some('\\')
    else if x == 'b' then Some(8 as char)
    else if x == 'f' then Some(12 as char)
    else if x == 'n' then Some('\n')
    else if x == 'r' then Some('\r')
    else if x == 't' then Some('\t')
    else None
  }

  /** Every two-character escape `ShortUnescape` reads is the one `ShortEscape` writes. */
  lemma ShortUnescapeEscape(x: char)
    requires ShortUnescape(x).Some?
    ensures ShortEscape(ShortUnescape(x).value) == Some(x)
  {
  }

  /** A lower-case hexadecimal digit. */
  function HexDigit(n: nat): (d: char)
    requires n < 16
    ensures HexValue(d) == Some(n)
  {
    if n < 10 then ('0' as int + n) as char else ('a' as int + n - 10) as char
  }

  /** The value of a lower-case hexadecimal digit. */
  function HexValue(d: char): Option<nat> {
    if '0' <= d <= '9' then Some(d as int - '0' as int)
    else if 'a' <= d <= 'f' then Some(d as int - 'a' as int + 10)
    else None
  }

  /** Every character `HexValue` reads is the digit `HexDigit` writes for its value. */
  lemma HexValueDigit(d: char)
    requires HexValue(d).Some?
    ensures HexValue(d).value < 16 && HexDigit(HexValue(d).value) == d
  {
  }

  /** How one character of a string is written. */
  function EscapeChar(c: char): string {
    var x := ShortEscape(c);
    if x.Some? then ['\\', x.value]
    else if c < ' ' then ['\\', 'u', '0', '0', HexDigit(c as int / 16), HexDigit(c as int % 16)]
    else [c]
  }

  function Escape(s: string): string {
    if s == [] then [] else EscapeChar(s[0]) + Escape(s[1..])
  }

  function Quote(s: string): string {
    "\"" + Escape(s) + "\""
  }

  /** The first character tells which kind of value follows. */
  predicate StartsValue(c: char) {
    c == '"' || c == 't' || c == 'f' || c == '[' || c == '{'
  }

  function Stringify(j: Json): (out: string)
    ensures out != [] && StartsValue(out[0])
    decreases j, 1
  {
    match j
    case JString(s) => Quote(s)
    case JBool(b) => if b then "true" else "false"
    case JArray(items) => "[" + StringifyItems(items) + "]"
    case JObject(members) => "{" + StringifyMembers(members) + "}"
  }

  function StringifyItems(items: seq<Json>): (out: string)
    ensures items != [] ==> out != [] && StartsValue(out[0])
    decreases items, 0
  {
    if items == [] then ""
    else if |items| == 1 then Stringify(items[0])
    else Stringify(items[0]) + "," + StringifyItems(items[1..])
  }

  function StringifyMembers(members: seq<Member>): (out: string)
    ensures members != [] ==> out != [] && out[0] == '"'
    decreases members, 0
  {
    if members == [] then ""
    else
      var m := Stringify(members[0].value);
      var first := Quote(members[0].key) + ":" + m;
      if |members| == 1 then first else first + "," + StringifyMembers(members[1..])
  }

  // ---------------------------------------------------------------- reading

  /** Reads one character of a string body: an escape sequence, or a character written as itself. */
  function ParseChar(s: string): (r: Option<(char, string)>)
    ensures r.Some? ==> |r.value.1| < |s|
  {
    if s == [] || s[0] == '"' || s[0] < ' ' then None
    else if s[0] != '\\' then Some((s[0], s[1..]))
    else if |s| < 2 then None
    else if ShortUnescape(s[1]).Some? then Some((ShortUnescape(s[1]).value, s[2..]))
    else if s[1] == 'u' && |s| >= 6 && s[2] == '0' && s[3] == '0' && (s[4] == '0' || s[4] == '1') && HexValue(s[5]).Some? then
      HexValueDigit(s[5]);
      var c := ((s[4] as int - '0' as int) * 16 + HexValue(s[5]).value) as char;
      if ShortEscape(c).Some? then None else Some((c, s[6..]))
    else None
  }

  /** Reads the body of a string up to and including its closing quote. */
  function ParseChars(s: string): (r: Option<(string, string)>)
    ensures r.Some? ==> |r.value.1| < |s|
    decreases |s|
  {
    if s == [] then None
    else if s[0] == '"' then Some(([], s[1..]))
    else
      var c := ParseChar(s);
      if c.None? then None
      else
        var p := ParseChars(c.value.1);
        if p.None? then None else Some(([c.value.0] + p.value.0, p.value.1))
  }

  function ParseValue(s: string): (r: Option<(Json, string)>)
    ensures r.Some? ==> |r.value.1| < |s|
    decreases |s|, 0
  {
    if s == [] then None
    else if s[0] == '"' then
      var p := ParseChars(s[1..]);
      if p.None? then None else Some((JString(p.value.0), p.value.1))
    else if |s| >= 4 && s[..4] == "true" then Some((JBool(true), s[4..]))
    else if |s| >= 5 && s[..5] == "false" then Some((JBool(false), s[5..]))
    else if s[0] == '[' then
      if |s| >= 2 && s[1] == ']' then Some((JArray([]), s[2..]))
      else
        var p := ParseItems(s[1..]);
        if p.None? then None else Some((JArray(p.value.0), p.value.1))
    else if s[0] == '{' then
      if |s| >= 2 && s[1] == '}' then Some((JObject([]), s[2..]))
      else
        var p := ParseMembers(s[1..]);
        if p.None? then None else Some((JObject(p.value.0), p.value.1))
    else None
  }

  /** Reads `v (, v)* ]`, the closing bracket included. */
  function ParseItems(s: string): (r: Option<(seq<Json>, string)>)
    ensures r.Some? ==> |r.value.1| < |s| && r.value.0 != []
    decreases |s|, 1
  {
    var v := ParseValue(s);
    if v.None? then None
    else
      var rest := v.value.1;
      if rest == [] then None
      else if rest[0] == ']' then Some(([v.value.0], rest[1..]))
      else if rest[0] == ',' then
        var more := ParseItems(rest[1..]);
        if more.None? then None else Some(([v.value.0] + more.value.0, more.value.1))
      else None
  }

  /** Reads `"k":v (, "k":v)* }`, the closing brace included. */
  function ParseMembers(s: string): (r: Option<(seq<Member>, string)>)
    ensures r.Some? ==> |r.value.1| < |s| && r.value.0 != []
    decreases |s|, 1
  {
    if s == [] || s[0] != '"' then None
    else
      var k := ParseChars(s[1..]);
      if k.None? then None
      else
        var afterKey := k.value.1;
        if afterKey == [] || afterKey[0] != ':' then None
        else
          var v := ParseValue(afterKey[1..]);
          if v.None? then None
          else
            var m := Member(k.value.0, v.value.0);
            var rest := v.value.1;
            if rest == [] then None
            else if rest[0] == '}' then Some(([m], rest[1..]))
            else if rest[0] == ',' then
              var more := ParseMembers(rest[1..]);
              if more.None? then None else Some(([m] + more.value.0, more.value.1))
            else None
  }

  /** A whole text holding exactly one value. */
  function Parse(s: string): Option<Json> {
    var p := ParseValue(s);
    if p.Some? && p.value.1 == [] then Some(p.value.0) else None
  }

  // ---------------------------------------------------------------- text shapes

  lemma Assoc(a: string, b: string, c: string)
    ensures a + b + c == a + (b + c)
  {
  }

  lemma StringText(t: string, rest: string)
    ensures Stringify(JString(t)) + rest == "\"" + (Escape(t) + ("\"" + rest))
  {
    Assoc("\"" + Escape(t), "\"", rest);
    Assoc("\"", Escape(t), "\"" + rest);
  }

  lemma ArrayText(items: seq<Json>, rest: string)
    ensures Stringify(JArray(items)) + rest == "[" + (StringifyItems(items) + ("]" + rest))
  {
    Assoc("[" + StringifyItems(items), "]", rest);
    Assoc("[", StringifyItems(items), "]" + rest);
  }

  lemma ObjectText(members: seq<Member>, rest: string)
    ensures Stringify(JObject(members)) + rest == "{" + (StringifyMembers(members) + ("}" + rest))
  {
    Assoc("{" + StringifyMembers(members), "}", rest);
    Assoc("{", StringifyMembers(members), "}" + rest);
  }

  /** A text opening with neither `t` nor `f` is not read as a boolean. */
  lemma NotKeyword(s: string)
    requires s != [] && s[0] != 't' && s[0] != 'f'
    ensures !(|s| >= 4 && s[..4] == "true") && !(|s| >= 5 && s[..5] == "false")
  {
    if |s| >= 4 {
      assert s[..4][0] == s[0];
    }
    if |s| >= 5 {
      assert s[..5][0] == s[0];
    }
  }

  lemma EmptyArrayText(rest: string)
    ensures Stringify(JArray([])) + rest == "[]" + rest
  {
    assert StringifyItems([]) == "";
    assert "[" + "" + "]" == "[]";
  }

  lemma EmptyObjectText(rest: string)
    ensures Stringify(JObject([])) + rest == "{}" + rest
  {
    assert StringifyMembers([]) == "";
    assert "{" + "" + "}" == "{}";
  }

  /** What follows the first item's text in the text of an item list and its closing bracket. */
  function ItemsTail(items: seq<Json>, rest: string): string
    requires items != []
  {
    if |items| == 1 then "]" + rest else "," + (StringifyItems(items[1..]) + ("]" + rest))
  }

  lemma ItemsText(items: seq<Json>, rest: string)
    requires items != []
    ensures StringifyItems(items) + ("]" + rest) == Stringify(items[0]) + ItemsTail(items, rest)
  {
    if |items| > 1 {
      var others := StringifyItems(items[1..]);
      Assoc(Stringify(items[0]) + ",", others, "]" + rest);
      Assoc(Stringify(items[0]), ",", others + ("]" + rest));
    }
  }

  /** What follows the first member's value in the text of a member list and its closing brace. */
  function MembersTail(members: seq<Member>, rest: string): string
    requires members != []
  {
    if |members| == 1 then "}" + rest else "," + (StringifyMembers(members[1..]) + ("}" + rest))
  }

  lemma MemberText(key: string, value: string, tail: string)
    ensures Quote(key) + ":" + value + tail == "\"" + (Escape(key) + ("\"" + (":" + (value + tail))))
  {
    Assoc(Quote(key) + ":", value, tail);
    Assoc(Quote(key), ":", value + tail);
    Assoc("\"" + Escape(key), "\"", ":" + (value + tail));
    Assoc("\"", Escape(key), "\"" + (":" + (value + tail)));
  }

  lemma MembersText(members: seq<Member>, rest: string)
    requires members != []
    ensures StringifyMembers(members) + ("}" + rest)
         == "\"" + (Escape(members[0].key) + ("\"" + (":" + (Stringify(members[0].value) + MembersTail(members, rest)))))
  {
    var first := Quote(members[0].key) + ":" + Stringify(members[0].value);
    if |members| > 1 {
      var others := StringifyMembers(members[1..]);
      Assoc(first + ",", others, "}" + rest);
      Assoc(first, ",", others + ("}" + rest));
    }
    MemberText(members[0].key, Stringify(members[0].value), MembersTail(members, rest));
  }

  // ---------------------------------------------------------------- round trip

  /** One written character reads back as itself, and its text never starts with a quote. */
  lemma CharRoundTrip(c: char, tail: string)
    ensures EscapeChar(c) != [] && EscapeChar(c)[0] != '"'
    ensures ParseChar(EscapeChar(c) + tail) == Some((c, tail))
  {
    var s := EscapeChar(c) + tail;
    if ShortEscape(c).Some? {
      assert s[0] == '\\' && s[1] == ShortEscape(c).value && s[2..] == tail;
    } else if c < ' ' {
      var hi, lo := c as int / 16, c as int % 16;
      assert s[0] == '\\' && s[1] == 'u' && s[2] == '0' && s[3] == '0';
      assert s[4] == HexDigit(hi) && s[5] == HexDigit(lo) && s[6..] == tail;
      assert hi * 16 + lo == c as int;
    } else {
      assert s[0] == c && s[1..] == tail;
    }
  }

  lemma {:induction false} CharsRoundTrip(t: string, rest: string)
    ensures ParseChars(Escape(t) + ("\"" + rest)) == Some((t, rest))
  {
    var s := Escape(t) + ("\"" + rest);
    if t == [] {
      assert s == "\"" + rest;
    } else {
      var tail := Escape(t[1..]) + ("\"" + rest);
      Assoc(EscapeChar(t[0]), Escape(t[1..]), "\"" + rest);
      assert s == EscapeChar(t[0]) + tail;
      CharRoundTrip(t[0], tail);
      assert s[0] == EscapeChar(t[0])[0];
      CharsRoundTrip(t[1..], rest);
      assert [t[0]] + t[1..] == t;
    }
  }

  lemma StringRoundTrip(t: string, rest: string)
    ensures ParseValue(Stringify(JString(t)) + rest) == Some((JString(t), rest))
  {
    var s := Stringify(JString(t)) + rest;
    StringText(t, rest);
    assert s[0] == '"' && s[1..] == Escape(t) + ("\"" + rest);
    CharsRoundTrip(t, rest);
  }

  lemma BoolRoundTrip(b: bool, rest: string)
    ensures ParseValue(Stringify(JBool(b)) + rest) == Some((JBool(b), rest))
  {
    var s := Stringify(JBool(b)) + rest;
    if b {
      assert s == "true" + rest;
      assert s[0] == 't' && s[..4] == "true" && s[4..] == rest;
    } else {
      assert s == "false" + rest;
      assert s[0] == 'f' && s[3] == 's' && s[..5] == "false" && s[5..] == rest;
    }
  }

  lemma {:induction false} ValueRoundTrip(j: Json, rest: string)
    ensures ParseValue(Stringify(j) + rest) == Some((j, rest))
    decreases j, 2
  {
    match j
    case JString(t) => StringRoundTrip(t, rest);
    case JBool(b) => BoolRoundTrip(b, rest);
    case JArray(items) => ArrayRoundTrip(items, rest);
    case JObject(members) => ObjectRoundTrip(members, rest);
  }

  lemma {:induction false} ArrayRoundTrip(items: seq<Json>, rest: string)
    ensures ParseValue(Stringify(JArray(items)) + rest) == Some((JArray(items), rest))
    decreases items, 1
  {
    var s := Stringify(JArray(items)) + rest;
    assert s[0] == '[';
    NotKeyword(s);
    if items == [] {
      EmptyArrayText(rest);
      assert s[0] == '[' && s[1] == ']' && s[2..] == rest;
    } else {
      var inner := StringifyItems(items);
      ArrayText(items, rest);
      assert s[0] == '[' && s[1..] == inner + ("]" + rest);
      assert s[1] == inner[0];
      ItemsRoundTrip(items, rest);
      assert ParseItems(s[1..]) == Some((items, rest));
    }
  }

  lemma {:induction false} ObjectRoundTrip(members: seq<Member>, rest: string)
    ensures ParseValue(Stringify(JObject(members)) + rest) == Some((JObject(members), rest))
    decreases members, 1
  {
    var s := Stringify(JObject(members)) + rest;
    assert s[0] == '{';
    NotKeyword(s);
    if members == [] {
      EmptyObjectText(rest);
      assert s[0] == '{' && s[1] == '}' && s[2..] == rest;
    } else {
      var inner := StringifyMembers(members);
      ObjectText(members, rest);
      assert s[0] == '{' && s[1..] == inner + ("}" + rest);
      assert s[1] == inner[0];
      MembersRoundTrip(members, rest);
      assert ParseMembers(s[1..]) == Some((members, rest));
    }
  }

  lemma {:induction false} ItemsRoundTrip(items: seq<Json>, rest: string)
    requires items != []
    ensures ParseItems(StringifyItems(items) + ("]" + rest)) == Some((items, rest))
    decreases items, 0
  {
    var s := StringifyItems(items) + ("]" + rest);
    var after := ItemsTail(items, rest);
    ItemsText(items, rest);
    ValueRoundTrip(items[0], after);
    assert ParseValue(s) == Some((items[0], after));
    if |items| == 1 {
      assert after[0] == ']' && after[1..] == rest;
      assert [items[0]] == items;
    } else {
      var tail := StringifyItems(items[1..]) + ("]" + rest);
      assert after[0] == ',' && after[1..] == tail;
      ItemsRoundTrip(items[1..], rest);
      assert ParseItems(tail) == Some((items[1..], rest));
      assert [items[0]] + items[1..] == items;
    }
  }

  /** The key at the head of a member's text is read back, up to its colon. */
  lemma KeyRoundTrip(s: string, key: string, valueText: string)
    requires s == "\"" + (Escape(key) + ("\"" + (":" + valueText)))
    ensures s != [] && s[0] == '"'
    ensures ParseChars(s[1..]) == Some((key, ":" + valueText))
    ensures (":" + valueText)[0] == ':' && (":" + valueText)[1..] == valueText
  {
    assert s[1..] == Escape(key) + ("\"" + (":" + valueText));
    CharsRoundTrip(key, ":" + valueText);
  }

  lemma {:induction false} MembersRoundTrip(members: seq<Member>, rest: string)
    requires members != []
    ensures ParseMembers(StringifyMembers(members) + ("}" + rest)) == Some((members, rest))
    decreases members, 0
  {
    var m := members[0];
    var after := MembersTail(members, rest);
    var valueText := Stringify(m.value) + after;
    var s := StringifyMembers(members) + ("}" + rest);
    MembersText(members, rest);
    KeyRoundTrip(s, m.key, valueText);
    ValueRoundTrip(m.value, after);
    assert ParseValue(valueText) == Some((m.value, after));
    if |members| == 1 {
      assert after[0] == '}' && after[1..] == rest;
      assert [m] == members;
    } else {
      var tail := StringifyMembers(members[1..]) + ("}" + rest);
      assert after[0] == ',' && after[1..] == tail;
      MembersRoundTrip(members[1..], rest);
      assert ParseMembers(tail) == Some((members[1..], rest));
      assert [m] + members[1..] == members;
    }
  }

  /** A line break inside a string is written as a backslash and `n`, and a U+0001 as `\u0001`. */
  lemma EscapesControlCharacters()
    ensures Stringify(JString("a\nb")) == ['"', 'a', '\\', 'n', 'b', '"']
    ensures Stringify(JString([1 as char])) == ['"', '\\', 'u', '0', '0', '0', '1', '"']
  {
    assert Escape("a\nb") == ['a'] + (['\\', 'n'] + (['b'] + []));
    assert Escape([1 as char]) == ['\\', 'u', '0', '0', '0', '1'] + [];
  }

  /** Reading back what was written gives the value that was written. */
  lemma ParseStringify(j: Json)
    ensures Parse(Stringify(j)) == Some(j)
  {
    ValueRoundTrip(j, []);
    assert Stringify(j) + [] == Stringify(j);
  }

  /** Two values with the same text are the same value. */
  lemma StringifyInjective(a: Json, b: Json)
    ensures Stringify(a) == Stringify(b) ==> a == b
  {
    ParseStringify(a);
    ParseStringify(b);
  }

  // ---------------------------------------------------------------- canonical form

  /** The text of one character that `ParseChar` reads is the text `EscapeChar` writes for it. */
  lemma CharCanonical(s: string)
    requires ParseChar(s).Some?
    ensures s == EscapeChar(ParseChar(s).value.0) + ParseChar(s).value.1
  {
    var c, rest := ParseChar(s).value.0, ParseChar(s).value.1;
    if s[0] != '\\' {
      assert EscapeChar(c) == [c];
      assert s == [s[0]] + s[1..];
    } else if ShortUnescape(s[1]).Some? {
      ShortUnescapeEscape(s[1]);
      assert EscapeChar(c) == s[..2];
      assert s == s[..2] + s[2..];
    } else {
      HexValueDigit(s[5]);
      var hi, lo := s[4] as int - '0' as int, HexValue(s[5]).value;
      assert c as int == hi * 16 + lo && c < ' ';
      assert c as int / 16 == hi && c as int % 16 == lo;
      assert HexDigit(hi) == s[4];
      assert EscapeChar(c) == s[..6];
      assert s == s[..6] + s[6..];
    }
  }

  lemma {:induction false} CharsCanonical(s: string)
    requires ParseChars(s).Some?
    ensures s == Escape(ParseChars(s).value.0) + ("\"" + ParseChars(s).value.1)
    decreases |s|
  {
    var t, rest := ParseChars(s).value.0, ParseChars(s).value.1;
    if s[0] == '"' {
      assert t == [];
      assert s == [s[0]] + s[1..];
    } else {
      var c := ParseChar(s).value;
      var p := ParseChars(c.1).value;
      CharCanonical(s);
      CharsCanonical(c.1);
      assert t == [c.0] + p.0 && rest == p.1;
      assert Escape(t) == EscapeChar(c.0) + Escape(p.0) by {
        assert t[0] == c.0 && t[1..] == p.0;
      }
      Assoc(EscapeChar(c.0), Escape(p.0), "\"" + rest);
    }
  }

  lemma {:induction false} ValueCanonical(s: string)
    requires ParseValue(s).Some?
    ensures s == Stringify(ParseValue(s).value.0) + ParseValue(s).value.1
    decreases |s|, 1
  {
    if s[0] == '"' {
      var p := ParseChars(s[1..]).value;
      assert ParseValue(s).value == (JString(p.0), p.1);
      CharsCanonical(s[1..]);
      StringText(p.0, p.1);
      assert s == [s[0]] + s[1..];
    } else if |s| >= 4 && s[..4] == "true" {
      assert ParseValue(s).value == (JBool(true), s[4..]);
      assert s == s[..4] + s[4..];
    } else if |s| >= 5 && s[..5] == "false" {
      assert ParseValue(s).value == (JBool(false), s[5..]);
      assert s == s[..5] + s[5..];
    } else if s[0] == '[' {
      ArrayCanonical(s);
    } else {
      ObjectCanonical(s);
    }
  }

  lemma {:induction false} ArrayCanonical(s: string)
    requires s != [] && s[0] == '[' && ParseValue(s).Some?
    ensures s == Stringify(ParseValue(s).value.0) + ParseValue(s).value.1
    decreases |s|, 0
  {
    NotKeyword(s);
    if |s| >= 2 && s[1] == ']' {
      assert ParseValue(s).value == (JArray([]), s[2..]);
      EmptyArrayText(s[2..]);
      assert s[..2] == "[]";
      assert s == s[..2] + s[2..];
    } else {
      assert ParseItems(s[1..]).Some?;
      var p := ParseItems(s[1..]).value;
      assert ParseValue(s).value == (JArray(p.0), p.1);
      ItemsCanonical(s[1..]);
      ArrayText(p.0, p.1);
      assert s == [s[0]] + s[1..];
    }
  }

  lemma {:induction false} ObjectCanonical(s: string)
    requires s != [] && s[0] == '{' && ParseValue(s).Some?
    ensures s == Stringify(ParseValue(s).value.0) + ParseValue(s).value.1
    decreases |s|, 0
  {
    NotKeyword(s);
    if |s| >= 2 && s[1] == '}' {
      assert ParseValue(s).value == (JObject([]), s[2..]);
      EmptyObjectText(s[2..]);
      assert s[..2] == "{}";
      assert s == s[..2] + s[2..];
    } else {
      assert ParseMembers(s[1..]).Some?;
      var p := ParseMembers(s[1..]).value;
      assert ParseValue(s).value == (JObject(p.0), p.1);
      MembersCanonical(s[1..]);
      ObjectText(p.0, p.1);
      assert s == [s[0]] + s[1..];
    }
  }

  lemma {:induction false} ItemsCanonical(s: string)
    requires ParseItems(s).Some?
    ensures s == StringifyItems(ParseItems(s).value.0) + ("]" + ParseItems(s).value.1)
    decreases |s|, 2
  {
    var v := ParseValue(s).value;
    ValueCanonical(s);
    var after := v.1;
    var items, rest := ParseItems(s).value.0, ParseItems(s).value.1;
    if after[0] == ']' {
      assert items == [v.0] && rest == after[1..];
      ItemsText(items, rest);
      assert after == "]" + rest;
    } else {
      var tail := after[1..];
      var more := ParseItems(tail).value;
      assert items == [v.0] + more.0 && rest == more.1;
      ItemsCanonical(tail);
      assert items[0] == v.0 && items[1..] == more.0;
      ItemsText(items, rest);
      assert after == "," + tail;
    }
  }

  /** The text of a key and its colon is the key's written form. */
  lemma KeyCanonical(s: string)
    requires s != [] && s[0] == '"' && ParseChars(s[1..]).Some?
    requires ParseChars(s[1..]).value.1 != [] && ParseChars(s[1..]).value.1[0] == ':'
    ensures s == "\"" + (Escape(ParseChars(s[1..]).value.0) + ("\"" + (":" + ParseChars(s[1..]).value.1[1..])))
  {
    var k := ParseChars(s[1..]).value;
    CharsCanonical(s[1..]);
    assert s == [s[0]] + s[1..];
    assert k.1 == [k.1[0]] + k.1[1..];
  }

  lemma {:induction false} MembersCanonical(s: string)
    requires ParseMembers(s).Some?
    ensures s == StringifyMembers(ParseMembers(s).value.0) + ("}" + ParseMembers(s).value.1)
    decreases |s|, 2
  {
    var members, rest := ParseMembers(s).value.0, ParseMembers(s).value.1;
    var k := ParseChars(s[1..]).value;
    KeyCanonical(s);
    var valueText := k.1[1..];
    var v := ParseValue(valueText).value;
    ValueCanonical(valueText);
    var after := v.1;
    var m := Member(k.0, v.0);
    assert members[0] == m;
    assert s == "\"" + (Escape(k.0) + ("\"" + (":" + (Stringify(v.0) + after))));
    if after[0] == '}' {
      assert members == [m] && rest == after[1..];
      assert after == "}" + rest;
    } else {
      var tail := after[1..];
      var more := ParseMembers(tail).value;
      assert members == [m] + more.0 && rest == more.1;
      MembersCanonical(tail);
      assert members[1..] == more.0;
      assert after == "," + tail;
    }
    assert after == MembersTail(members, rest);
    MembersText(members, rest);
  }

  /** Only the text `Stringify` writes for a value is read back as that value. */
  lemma StringifyParse(s: string)
    requires Parse(s).Some?
    ensures Stringify(Parse(s).value) == s
  {
    ValueCanonical(s);
    assert Stringify(Parse(s).value) + [] == Stringify(Parse(s).value);
  }
}

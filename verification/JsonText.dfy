/** `JSON.parse` on the texts that hold objects, lists, strings and null: RFC 8259
    without white space, and without the numbers and booleans no scope document
    has. */
module JsonText {
  import opened Lists
  import opened Json

  datatype Taken<A> = Failed | Took(value: A, rest: string)

  predicate IsHex(c: char) {
    '0' <= c <= '9' || 'a' <= c <= 'f' || 'A' <= c <= 'F'
  }

  function HexValue(c: char): (n: nat)
    requires IsHex(c)
    ensures n < 16
  {
    if c <= '9' then c as int - '0' as int
    else if c >= 'a' then c as int - 'a' as int + 10
    else c as int - 'A' as int + 10
  }

  /** Four hexadecimal digits, naming one character. */
  function ReadCode(s: string): (r: Taken<char>)
    ensures r.Took? ==> |r.rest| < |s|
  {
    if |s| < 4 || !(IsHex(s[0]) && IsHex(s[1]) && IsHex(s[2]) && IsHex(s[3])) then Failed
    else
      var code := ((HexValue(s[0]) * 16 + HexValue(s[1])) * 16 + HexValue(s[2])) * 16 + HexValue(s[3]);
      if 0xD800 <= code < 0xE000 then Failed else Took(code as char, s[4..])
  }

  /** After a backslash. */
  function ReadEscape(s: string): (r: Taken<char>)
    ensures r.Took? ==> |r.rest| < |s|
  {
    if s == "" then Failed
    else if s[0] == '"' || s[0] == '\\' || s[0] == '/' then Took(s[0], s[1..])
    else if s[0] == 'b' then Took('\U{08}', s[1..])
    else if s[0] == 'f' then Took('\U{0C}', s[1..])
    else if s[0] == 'n' then Took('\U{0A}', s[1..])
    else if s[0] == 'r' then Took('\U{0D}', s[1..])
    else if s[0] == 't' then Took('\U{09}', s[1..])
    else if s[0] == 'u' then ReadCode(s[1..])
    else Failed
  }

  function ReadOne(s: string): (r: Taken<char>)
    ensures r.Took? ==> |r.rest| < |s|
  {
    if s == "" || s[0] < ' ' then Failed
    else if s[0] == '\\' then ReadEscape(s[1..])
    else Took(s[0], s[1..])
  }

  /** After the opening quote. */
  function ReadChars(s: string): (r: Taken<string>)
    ensures r.Took? ==> |r.rest| < |s|
    decreases |s|
  {
    if s == "" then Failed
    else if s[0] == '"' then Took("", s[1..])
    else
      var c := ReadOne(s);
      if c.Failed? then Failed
      else
        var more := ReadChars(c.rest);
        if more.Failed? then Failed else Took([c.value] + more.value, more.rest)
  }

  function ReadValue(s: string): (r: Taken<Value>)
    ensures r.Took? ==> |r.rest| < |s|
    decreases |s|, 0
  {
    if s == "" then Failed
    else if s[0] == 'n' then
      if |s| >= 4 && s[1] == 'u' && s[2] == 'l' && s[3] == 'l' then Took(Null, s[4..]) else Failed
    else if s[0] == '"' then
      var text := ReadChars(s[1..]);
      if text.Failed? then Failed else Took(Text(text.value), text.rest)
    else if s[0] == '[' then
      if |s| > 1 && s[1] == ']' then Took(List([]), s[2..])
      else
        var items := ReadItems(s[1..]);
        if items.Failed? then Failed else Took(List(items.value), items.rest)
    else if s[0] == '{' then
      if |s| > 1 && s[1] == '}' then Took(Record(map[]), s[2..])
      else
        var fields := ReadMembers(s[1..]);
        if fields.Failed? then Failed else Took(Record(fields.value), fields.rest)
    else Failed
  }

  /** One or more, up to the closing bracket. */
  function ReadItems(s: string): (r: Taken<seq<Value>>)
    ensures r.Took? ==> |r.rest| < |s|
    decreases |s|, 1
  {
    var first := ReadValue(s);
    if first.Failed? || first.rest == "" then Failed
    else if first.rest[0] == ']' then Took([first.value], first.rest[1..])
    else if first.rest[0] != ',' then Failed
    else
      var more := ReadItems(first.rest[1..]);
      if more.Failed? then Failed else Took([first.value] + more.value, more.rest)
  }

  /** Likewise up to the closing brace; the last of two equal keys wins. */
  function ReadMembers(s: string): (r: Taken<map<string, Value>>)
    ensures r.Took? ==> |r.rest| < |s|
    decreases |s|, 1
  {
    if s == "" || s[0] != '"' then Failed
    else
      var key := ReadChars(s[1..]);
      if key.Failed? || key.rest == "" || key.rest[0] != ':' then Failed
      else
        var held := ReadValue(key.rest[1..]);
        if held.Failed? || held.rest == "" then Failed
        else if held.rest[0] == '}' then Took(map[key.value := held.value], held.rest[1..])
        else if held.rest[0] != ',' then Failed
        else
          var more := ReadMembers(held.rest[1..]);
          if more.Failed? then Failed else Took(map[key.value := held.value] + more.value, more.rest)
  }

  // ── By what comes first ─────────────────────────────────────────────────

  lemma TextReads(s: string, text: string, rest: string)
    requires s != "" && s[0] == '"' && ReadChars(s[1..]) == Took(text, rest)
    ensures ReadValue(s) == Took(Text(text), rest)
  {
  }

  lemma EmptyListReads(s: string)
    requires |s| > 1 && s[0] == '[' && s[1] == ']'
    ensures ReadValue(s) == Took(List([]), s[2..])
  {
  }

  lemma ListReads(s: string, items: seq<Value>, rest: string)
    requires |s| > 1 && s[0] == '[' && s[1] != ']' && ReadItems(s[1..]) == Took(items, rest)
    ensures ReadValue(s) == Took(List(items), rest)
  {
  }

  lemma RecordReads(s: string, fields: map<string, Value>, rest: string)
    requires |s| > 1 && s[0] == '{' && s[1] != '}' && ReadMembers(s[1..]) == Took(fields, rest)
    ensures ReadValue(s) == Took(Record(fields), rest)
  {
  }

  lemma LastItemReads(s: string, v: Value, rest: string)
    requires ReadValue(s) == Took(v, "]" + rest)
    ensures ReadItems(s) == Took([v], rest)
  {
    assert ("]" + rest)[1..] == rest;
  }

  lemma MoreItemsRead(s: string, v: Value, tail: string, items: seq<Value>, rest: string)
    requires ReadValue(s) == Took(v, "," + tail) && ReadItems(tail) == Took(items, rest)
    ensures ReadItems(s) == Took([v] + items, rest)
  {
    assert ("," + tail)[1..] == tail;
  }

  lemma LastMemberReads(s: string, key: string, after: string, v: Value, rest: string)
    requires s != "" && s[0] == '"' && ReadChars(s[1..]) == Took(key, ":" + after) && ReadValue(after) == Took(v, "}" + rest)
    ensures ReadMembers(s) == Took(map[key := v], rest)
  {
    assert (":" + after)[1..] == after && ("}" + rest)[1..] == rest;
  }

  lemma MoreMembersRead(s: string, key: string, after: string, v: Value, tail: string, fields: map<string, Value>, rest: string)
    requires s != "" && s[0] == '"' && ReadChars(s[1..]) == Took(key, ":" + after) && ReadValue(after) == Took(v, "," + tail)
    requires ReadMembers(tail) == Took(fields, rest)
    ensures ReadMembers(s) == Took(map[key := v] + fields, rest)
  {
    assert (":" + after)[1..] == after && ("," + tail)[1..] == tail;
  }

  function Parse(s: string): Option<Value> {
    var r := ReadValue(s);
    if r.Took? && r.rest == "" then Some(r.value) else None
  }
}

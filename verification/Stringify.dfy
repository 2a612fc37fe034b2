/** `JSON.stringify` of a scope document, and its size in UTF-8. */
module Stringify {
  import opened Lists
  import opened Json
  import opened JsonText
  import opened Scope
  import opened ScopeUnion

  const HEX := "0123456789abcdef"

  function EscapeChar(c: char): (r: string)
    ensures r != "" && r[0] != '"'
  {
    if c == '"' then "\\\""
    else if c == '\\' then "\\\\"
    else if c == '\U{08}' then "\\b"
    else if c == '\t' then "\\t"
    else if c == '\n' then "\\n"
    else if c == '\U{0C}' then "\\f"
    else if c == '\r' then "\\r"
    else if c < ' ' then "\\u00" + [HEX[c as int / 16], HEX[c as int % 16]]
    else [c]
  }

  // Each writer puts its text in front of what follows it.

  function EscapeOnto(s: string, rest: string): string {
    if s == "" then "\"" + rest else EscapeChar(s[0]) + EscapeOnto(s[1..], rest)
  }

  function QuoteOnto(s: string, rest: string): string {
    "\"" + EscapeOnto(s, rest)
  }

  function StringsTailOnto(items: seq<string>, rest: string): string {
    if items == [] then "]" + rest
    else "," + QuoteOnto(items[0], StringsTailOnto(items[1..], rest))
  }

  function StringsOnto(items: seq<string>, rest: string): string {
    if items == [] then "[]" + rest
    else "[" + QuoteOnto(items[0], StringsTailOnto(items[1..], rest))
  }

  const PROVIDER_KEY := "{\"provider\":"
  const MODELS_KEY := ",\"models\":"

  function RowOnto(row: ScopeEntry, rest: string): string {
    PROVIDER_KEY + QuoteOnto(row.provider, MODELS_KEY + StringsOnto(row.models, "}" + rest))
  }

  function RowsTail(rows: seq<ScopeEntry>): string {
    if rows == [] then "]" else "," + RowOnto(rows[0], RowsTail(rows[1..]))
  }

  function StringifyRows(rows: seq<ScopeEntry>): string {
    if rows == [] then "[]" else "[" + RowOnto(rows[0], RowsTail(rows[1..]))
  }

  function StringifyStrings(items: seq<string>): string {
    StringsOnto(items, "")
  }

  function Utf8Length(s: string): nat {
    if s == "" then 0
    else
      (if s[0] < '\U{80}' then 1 else if s[0] < '\U{800}' then 2 else if s[0] < '\U{10000}' then 3 else 4)
      + Utf8Length(s[1..])
  }

  /** By code point, as section 3 of RFC 3629 has it. */
  lemma Utf8Takes(c: char)
    ensures var n := Utf8Length([c]);
            && (c as int <= 0x7F ==> n == 1) && (0x80 <= c as int <= 0x7FF ==> n == 2)
            && (0x800 <= c as int <= 0xFFFF ==> n == 3) && (0x10000 <= c as int ==> n == 4)
  {
    assert [c][1..] == "";
  }

  // ── The size is the rows' sizes, in any order ───────────────────────────

  lemma {:induction false} Utf8LengthAppend(a: string, b: string)
    ensures Utf8Length(a + b) == Utf8Length(a) + Utf8Length(b)
  {
    if a == "" {
      assert a + b == b;
    } else {
      assert (a + b)[0] == a[0] && (a + b)[1..] == a[1..] + b;
      Utf8LengthAppend(a[1..], b);
    }
  }

  lemma {:induction false} EscapeSize(s: string, rest: string)
    ensures Utf8Length(EscapeOnto(s, rest)) == Utf8Length(EscapeOnto(s, "")) + Utf8Length(rest)
  {
    if s == "" {
      Utf8LengthAppend("\"", rest);
      Utf8LengthAppend("\"", "");
    } else {
      EscapeSize(s[1..], rest);
      Utf8LengthAppend(EscapeChar(s[0]), EscapeOnto(s[1..], rest));
      Utf8LengthAppend(EscapeChar(s[0]), EscapeOnto(s[1..], ""));
    }
  }

  function QuoteSize(s: string): nat {
    Utf8Length("\"") + Utf8Length(EscapeOnto(s, ""))
  }

  lemma QuoteSizes(s: string, rest: string)
    ensures Utf8Length(QuoteOnto(s, rest)) == QuoteSize(s) + Utf8Length(rest)
  {
    Utf8LengthAppend("\"", EscapeOnto(s, rest));
    EscapeSize(s, rest);
  }

  lemma {:induction false} StringsTailSize(items: seq<string>, rest: string)
    ensures Utf8Length(StringsTailOnto(items, rest)) == Utf8Length(StringsTailOnto(items, "")) + Utf8Length(rest)
  {
    if items == [] {
      Utf8LengthAppend("]", rest);
      Utf8LengthAppend("]", "");
    } else {
      var long, short := StringsTailOnto(items[1..], rest), StringsTailOnto(items[1..], "");
      StringsTailSize(items[1..], rest);
      Utf8LengthAppend(",", QuoteOnto(items[0], long));
      Utf8LengthAppend(",", QuoteOnto(items[0], short));
      QuoteSizes(items[0], long);
      QuoteSizes(items[0], short);
    }
  }

  lemma StringsSize(items: seq<string>, rest: string)
    ensures Utf8Length(StringsOnto(items, rest)) == Utf8Length(StringsOnto(items, "")) + Utf8Length(rest)
  {
    if items == [] {
      Utf8LengthAppend("[]", rest);
      Utf8LengthAppend("[]", "");
    } else {
      var long, short := StringsTailOnto(items[1..], rest), StringsTailOnto(items[1..], "");
      StringsTailSize(items[1..], rest);
      Utf8LengthAppend("[", QuoteOnto(items[0], long));
      Utf8LengthAppend("[", QuoteOnto(items[0], short));
      QuoteSizes(items[0], long);
      QuoteSizes(items[0], short);
    }
  }

  /** What a row and the comma or bracket after it take. */
  function RowSize(row: ScopeEntry): nat {
    Utf8Length(PROVIDER_KEY) + QuoteSize(row.provider) + Utf8Length(MODELS_KEY)
    + Utf8Length(StringsOnto(row.models, "")) + Utf8Length("}") + Utf8Length(",")
  }

  lemma RowTakesSomething(row: ScopeEntry)
    ensures RowSize(row) > 0
  {
    PunctuationSize();
  }

  lemma RowSizes(row: ScopeEntry, rest: string)
    ensures Utf8Length(",") + Utf8Length(RowOnto(row, rest)) == RowSize(row) + Utf8Length(rest)
  {
    var models := StringsOnto(row.models, "}" + rest);
    Utf8LengthAppend(PROVIDER_KEY, QuoteOnto(row.provider, MODELS_KEY + models));
    QuoteSizes(row.provider, MODELS_KEY + models);
    Utf8LengthAppend(MODELS_KEY, models);
    StringsSize(row.models, "}" + rest);
    Utf8LengthAppend("}", rest);
  }

  lemma {:induction false} RowsTailSize(rows: seq<ScopeEntry>)
    ensures Utf8Length(RowsTail(rows)) == Sum(rows, RowSize) + Utf8Length("]")
  {
    if rows != [] {
      var rest := RowsTail(rows[1..]);
      Utf8LengthAppend(",", RowOnto(rows[0], rest));
      RowSizes(rows[0], rest);
      RowsTailSize(rows[1..]);
    }
  }

  lemma PunctuationSize()
    ensures Utf8Length("[") == Utf8Length("]") == Utf8Length(",") == 1 && Utf8Length("[]") == 2
  {
    Utf8LengthAppend("[", "]");
    assert "[" + "]" == "[]";
  }

  /** The text of a document is as long as its rows together, whatever their
      order: one character each for a comma or bracket, and `[]` for none. */
  lemma DocumentSize(rows: seq<ScopeEntry>)
    ensures Utf8Length(StringifyRows(rows)) == if rows == [] then 2 else 1 + Sum(rows, RowSize)
  {
    PunctuationSize();
    if rows != [] {
      var rest := RowsTail(rows[1..]);
      Utf8LengthAppend("[", RowOnto(rows[0], rest));
      RowSizes(rows[0], rest);
      RowsTailSize(rows[1..]);
    }
  }

  // ── What is written reads back ──────────────────────────────────────────

  lemma HexReads(i: nat)
    requires i < 16
    ensures IsHex(HEX[i]) && HexValue(HEX[i]) == i
  {
    assert HEX == ['0', '1', '2', '3', '4', '5', '6', '7', '8', '9', 'a', 'b', 'c', 'd', 'e', 'f'];
  }

  lemma CodeReads(c: char, s: string, rest: string)
    requires c < ' ' && s == ['0', '0', HEX[c as int / 16], HEX[c as int % 16]] + rest
    ensures ReadCode(s) == Took(c, rest)
  {
    HexReads(c as int / 16);
    HexReads(c as int % 16);
    assert HexValue('0') == 0;
    assert s[4..] == rest;
  }

  lemma ShortReads(c: char, letter: char, s: string, rest: string)
    requires EscapeChar(c) == ['\\', letter] && s == EscapeChar(c) + rest
    requires ReadEscape([letter] + rest) == Took(c, rest)
    ensures ReadOne(s) == Took(c, rest)
  {
    assert s[1..] == [letter] + rest;
  }

  lemma PlainCharReads(c: char, rest: string)
    requires c >= ' ' && c != '\\'
    ensures ReadOne([c] + rest) == Took(c, rest)
  {
    assert ([c] + rest)[1..] == rest;
  }

  lemma LetterReads(letter: char, rest: string)
    ensures ([letter] + rest)[1..] == rest
  {
  }

  lemma ControlReads(c: char, rest: string)
    requires c < ' ' && EscapeChar(c) == "\\u00" + [HEX[c as int / 16], HEX[c as int % 16]]
    ensures ReadOne(EscapeChar(c) + rest) == Took(c, rest)
  {
    var s := EscapeChar(c) + rest;
    assert s[1..][1..] == ['0', '0', HEX[c as int / 16], HEX[c as int % 16]] + rest;
    CodeReads(c, s[1..][1..], rest);
  }

  lemma EscapeReads(c: char, rest: string)
    ensures ReadOne(EscapeChar(c) + rest) == Took(c, rest)
  {
    if EscapeChar(c) == [c] {
      PlainCharReads(c, rest);
    } else if |EscapeChar(c)| == 2 {
      var letter := EscapeChar(c)[1];
      assert EscapeChar(c) == ['\\', letter];
      LetterReads(letter, rest);
      ShortReads(c, letter, EscapeChar(c) + rest, rest);
    } else {
      ControlReads(c, rest);
    }
  }

  lemma {:induction false} EscapedReads(s: string, rest: string)
    ensures ReadChars(EscapeOnto(s, rest)) == Took(s, rest)
  {
    if s == "" {
      assert ("\"" + rest)[1..] == rest;
    } else {
      EscapeReads(s[0], EscapeOnto(s[1..], rest));
      EscapedReads(s[1..], rest);
      assert s == [s[0]] + s[1..];
    }
  }

  lemma QuoteReads(s: string, rest: string)
    ensures ReadValue(QuoteOnto(s, rest)) == Took(Text(s), rest)
    ensures QuoteOnto(s, rest) != "" && QuoteOnto(s, rest)[0] == '"'
  {
    EscapedReads(s, rest);
    LetterReads('"', EscapeOnto(s, rest));
    TextReads(QuoteOnto(s, rest), s, rest);
  }

  lemma TextsOfFirst(item: string, more: seq<string>)
    ensures Texts([item] + more) == [Text(item)] + Texts(more)
    ensures Texts([item]) == [Text(item)]
  {
  }

  lemma {:induction false} StringsRead(items: seq<string>, rest: string)
    requires items != []
    ensures ReadItems(QuoteOnto(items[0], StringsTailOnto(items[1..], rest))) == Took(Texts(items), rest)
  {
    var more := items[1..];
    var tail := StringsTailOnto(more, rest);
    var text := QuoteOnto(items[0], tail);
    QuoteReads(items[0], tail);
    assert items == [items[0]] + more;
    TextsOfFirst(items[0], more);
    if more == [] {
      assert items == [items[0]];
      LastItemReads(text, Text(items[0]), rest);
    } else {
      StringsRead(more, rest);
      MoreItemsRead(text, Text(items[0]), QuoteOnto(more[0], StringsTailOnto(more[1..], rest)), Texts(more), rest);
    }
  }

  lemma StringsListRead(items: seq<string>, rest: string)
    ensures ReadValue(StringsOnto(items, rest)) == Took(List(Texts(items)), rest)
  {
    var text := StringsOnto(items, rest);
    if items == [] {
      assert text[2..] == rest && Texts(items) == [];
      EmptyListReads(text);
    } else {
      var first := QuoteOnto(items[0], StringsTailOnto(items[1..], rest));
      StringsRead(items, rest);
      QuoteReads(items[0], StringsTailOnto(items[1..], rest));
      LetterReads('[', first);
      assert text[1] == first[0];
      ListReads(text, Texts(items), rest);
    }
  }

  predicate Plain(s: string) {
    forall i :: 0 <= i < |s| ==> EscapeChar(s[i]) == [s[i]]
  }

  lemma {:induction false} PlainIsItself(s: string, rest: string)
    requires Plain(s)
    ensures EscapeOnto(s, rest) == s + ("\"" + rest)
  {
    if s != "" {
      PlainFrom(s);
      PlainIsItself(s[1..], rest);
      ConsTogether(s, "\"" + rest);
    }
  }

  lemma PlainFrom(s: string)
    requires Plain(s) && s != ""
    ensures Plain(s[1..])
  {
    var more := s[1..];
    assert forall i :: 0 <= i < |more| ==> more[i] == s[i + 1];
  }

  lemma ConsTogether(s: string, rest: string)
    requires s != ""
    ensures [s[0]] + (s[1..] + rest) == s + rest
  {
  }

  /** A key, its colon, and what is held under it. */
  lemma KeyReads(key: string, text: string, after: string)
    requires Plain(key) && text == "\"" + (key + ("\"" + (":" + after)))
    ensures text != "" && text[0] == '"' && ReadChars(text[1..]) == Took(key, ":" + after)
  {
    PlainIsItself(key, ":" + after);
    EscapedReads(key, ":" + after);
    LetterReads('"', key + ("\"" + (":" + after)));
  }

  lemma ModelsKeyReads(models: string, text: string)
    requires "," + text == MODELS_KEY + models
    ensures text != "" && text[0] == '"' && ReadChars(text[1..]) == Took("models", ":" + models)
  {
    assert text == ("," + text)[1..];
    assert text == "\"" + ("models" + ("\"" + (":" + models)));
    KeyReads("models", text, models);
  }

  lemma ModelsRead(row: ScopeEntry, text: string, rest: string)
    requires "," + text == MODELS_KEY + StringsOnto(row.models, "}" + rest)
    ensures ReadMembers(text) == Took(map["models" := List(Texts(row.models))], rest)
  {
    var models := StringsOnto(row.models, "}" + rest);
    StringsListRead(row.models, "}" + rest);
    ModelsKeyReads(models, text);
    LastMemberReads(text, "models", models, List(Texts(row.models)), rest);
  }

  lemma ProviderKeyReads(members: string, text: string)
    requires text == PROVIDER_KEY + members
    ensures |text| > 1 && text[0] == '{' && text[1] == '"'
    ensures ReadChars(text[1..][1..]) == Took("provider", ":" + members)
  {
    assert text[1..] == "\"" + ("provider" + ("\"" + (":" + members)));
    KeyReads("provider", text[1..], members);
  }

  lemma FieldsTogether(p: Value, m: Value)
    ensures map["provider" := p] + map["models" := m] == map["provider" := p, "models" := m]
  {
  }

  lemma MembersRead(row: ScopeEntry, after: string, text: string, rest: string)
    requires text != "" && text[0] == '"' && ReadChars(text[1..]) == Took("provider", ":" + QuoteOnto(row.provider, "," + after))
    requires ReadMembers(after) == Took(map["models" := List(Texts(row.models))], rest)
    ensures ReadMembers(text) == Took(map["provider" := Text(row.provider), "models" := List(Texts(row.models))], rest)
  {
    var p, m := Text(row.provider), List(Texts(row.models));
    QuoteReads(row.provider, "," + after);
    MoreMembersRead(text, "provider", QuoteOnto(row.provider, "," + after), p, after, map["models" := m], rest);
    FieldsTogether(p, m);
  }

  lemma RowReads(row: ScopeEntry, rest: string)
    ensures ReadValue(RowOnto(row, rest)) == Took(EntryJson(row), rest)
  {
    var after := MODELS_KEY + StringsOnto(row.models, "}" + rest);
    var text := RowOnto(row, rest);
    assert after == "," + after[1..];
    ModelsRead(row, after[1..], rest);
    ProviderKeyReads(QuoteOnto(row.provider, after), text);
    MembersRead(row, after[1..], text[1..], rest);
    RecordReads(text, EntryJson(row).fields, rest);
  }

  lemma DocumentOfFirst(row: ScopeEntry, more: seq<ScopeEntry>)
    ensures DocumentJson([row] + more) == [EntryJson(row)] + DocumentJson(more)
    ensures DocumentJson([]) == []
  {
  }

  lemma {:induction false} RowsRead(rows: seq<ScopeEntry>)
    requires rows != []
    ensures ReadItems(RowOnto(rows[0], RowsTail(rows[1..]))) == Took(DocumentJson(rows), "")
  {
    var row, more := rows[0], rows[1..];
    var text := RowOnto(row, RowsTail(more));
    RowReads(row, RowsTail(more));
    assert rows == [row] + more;
    DocumentOfFirst(row, more);
    if more == [] {
      assert RowsTail(more) == "]" + "";
      LastItemReads(text, EntryJson(row), "");
      assert DocumentJson(more) == [] && [EntryJson(row)] + [] == [EntryJson(row)];
    } else {
      RowsRead(more);
      MoreItemsRead(text, EntryJson(row), RowOnto(more[0], RowsTail(more[1..])), DocumentJson(more), "");
    }
  }

  /** Parsing what was printed gives the document back. */
  lemma ParsesBack(rows: seq<ScopeEntry>)
    ensures Parse(StringifyRows(rows)) == Some(List(DocumentJson(rows)))
  {
    var text := StringifyRows(rows);
    if rows == [] {
      assert text[2..] == "";
      EmptyListReads(text);
      assert DocumentJson(rows) == [];
    } else {
      var first := RowOnto(rows[0], RowsTail(rows[1..]));
      RowsRead(rows);
      LetterReads('[', first);
      assert text[1] == first[0] == '{';
      ListReads(text, DocumentJson(rows), "");
    }
  }

  lemma EntriesDiffer(a: ScopeEntry, b: ScopeEntry)
    ensures EntryJson(a) == EntryJson(b) <==> a == b
  {
    if EntryJson(a) == EntryJson(b) {
      assert EntryJson(a).fields["provider"] == Text(a.provider) && EntryJson(b).fields["provider"] == Text(b.provider);
      assert EntryJson(a).fields["models"] == List(Texts(a.models)) && EntryJson(b).fields["models"] == List(Texts(b.models));
      TextsDiffer(a.models, b.models);
    }
  }

  lemma TextsDiffer(a: seq<string>, b: seq<string>)
    ensures Texts(a) == Texts(b) <==> a == b
  {
    if Texts(a) == Texts(b) {
      StringsOfTexts(a);
      StringsOfTexts(b);
    }
  }

  /** So comparing the texts compares the documents. */
  lemma StringifyIsInjective(a: seq<ScopeEntry>, b: seq<ScopeEntry>)
    ensures StringifyRows(a) == StringifyRows(b) <==> a == b
  {
    ParsesBack(a);
    ParsesBack(b);
    if StringifyRows(a) == StringifyRows(b) {
      assert |DocumentJson(a)| == |DocumentJson(b)|;
      forall i | 0 <= i < |a| ensures a[i] == b[i] {
        assert DocumentJson(a)[i] == DocumentJson(b)[i];
        EntriesDiffer(a[i], b[i]);
      }
    }
  }

  lemma StringifyStringsIsInjective(a: seq<string>, b: seq<string>)
    ensures StringifyStrings(a) == StringifyStrings(b) <==> a == b
  {
    StringsListRead(a, "");
    StringsListRead(b, "");
    TextsDiffer(a, b);
  }
}

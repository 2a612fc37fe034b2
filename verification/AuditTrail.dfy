/** What the audit writer stores in place of a value (lib/audit.ts,
    `sanitizeAuditValue`), and what that does to a scope document. */
module AuditTrail {
  import opened Json
  import opened Scope
  import opened Stringify

  const AUDIT_VALUE_MAX_CHARS := 32768
  const DEL := '\U{7F}'

  function CleanChar(c: char): char {
    if c < ' ' || c == DEL then ' ' else c
  }

  function Clean(s: string): (r: string)
    ensures |r| == |s|
  {
    seq(|s|, i requires 0 <= i < |s| => CleanChar(s[i]))
  }

  /** Past the bound a value is declined with a marker, never cut. */
  function SanitizeAuditValue(v: Value): Value {
    if !v.Text? then v
    else
      var clean := Clean(v.s);
      if |clean| <= AUDIT_VALUE_MAX_CHARS then Text(clean)
      else Record(map["omitted" := Text("too_large"), "chars" := Number(|clean|)])
  }

  /** DEL is the one control character JSON text carries raw. */
  function Blank(s: string): string {
    seq(|s|, i requires 0 <= i < |s| => if s[i] == DEL then ' ' else s[i])
  }

  function BlankAll(items: seq<string>): seq<string> {
    seq(|items|, i requires 0 <= i < |items| => Blank(items[i]))
  }

  function Blanked(rows: seq<ScopeEntry>): seq<ScopeEntry> {
    seq(|rows|, i requires 0 <= i < |rows| => ScopeEntry(Blank(rows[i].provider), BlankAll(rows[i].models)))
  }

  predicate DelFree(rows: seq<ScopeEntry>) {
    forall i :: 0 <= i < |rows| ==>
      DEL !in rows[i].provider && forall k :: 0 <= k < |rows[i].models| ==> DEL !in rows[i].models[k]
  }

  lemma CleanJoins(a: string, b: string)
    ensures Clean(a + b) == Clean(a) + Clean(b)
  {
  }

  lemma HexDigits()
    ensures |HEX| == 16 && forall k :: 0 <= k < 16 ==> CleanChar(HEX[k]) == HEX[k]
  {
    assert HEX == ['0', '1', '2', '3', '4', '5', '6', '7', '8', '9', 'a', 'b', 'c', 'd', 'e', 'f'];
  }

  lemma CleanEscape(c: char)
    ensures Clean(EscapeChar(c)) == EscapeChar(if c == DEL then ' ' else c)
  {
    HexDigits();
    if c == '"' {
      assert Clean("\\\"") == "\\\"";
    } else if c == '\\' {
      assert Clean("\\\\") == "\\\\";
    }
  }

  lemma {:induction false} CleanEscaped(s: string, rest: string)
    ensures Clean(EscapeOnto(s, rest)) == EscapeOnto(Blank(s), Clean(rest))
  {
    if s == "" {
      CleanJoins("\"", rest);
      assert Clean("\"") == "\"";
    } else {
      CleanEscaped(s[1..], rest);
      CleanEscape(s[0]);
      CleanJoins(EscapeChar(s[0]), EscapeOnto(s[1..], rest));
      assert Blank(s)[1..] == Blank(s[1..]);
    }
  }

  lemma CleanQuoted(s: string, rest: string)
    ensures Clean(QuoteOnto(s, rest)) == QuoteOnto(Blank(s), Clean(rest))
  {
    CleanEscaped(s, rest);
    CleanJoins("\"", EscapeOnto(s, rest));
    assert Clean("\"") == "\"";
  }

  lemma {:induction false} CleanStringsTail(items: seq<string>, rest: string)
    ensures Clean(StringsTailOnto(items, rest)) == StringsTailOnto(BlankAll(items), Clean(rest))
  {
    if items == [] {
      CleanJoins("]", rest);
      assert Clean("]") == "]";
    } else {
      var tail := StringsTailOnto(items[1..], rest);
      CleanStringsTail(items[1..], rest);
      CleanQuoted(items[0], tail);
      CleanJoins(",", QuoteOnto(items[0], tail));
      assert Clean(",") == ",";
      assert BlankAll(items)[1..] == BlankAll(items[1..]);
    }
  }

  lemma CleanStrings(items: seq<string>, rest: string)
    ensures Clean(StringsOnto(items, rest)) == StringsOnto(BlankAll(items), Clean(rest))
  {
    if items == [] {
      CleanJoins("[]", rest);
      assert Clean("[]") == "[]";
    } else {
      var tail := StringsTailOnto(items[1..], rest);
      CleanStringsTail(items[1..], rest);
      CleanQuoted(items[0], tail);
      CleanJoins("[", QuoteOnto(items[0], tail));
      assert Clean("[") == "[";
      assert BlankAll(items)[1..] == BlankAll(items[1..]);
    }
  }

  lemma CleanKeys()
    ensures Clean(PROVIDER_KEY) == PROVIDER_KEY && Clean(MODELS_KEY) == MODELS_KEY
  {
    assert PROVIDER_KEY == ['{', '"', 'p', 'r', 'o', 'v', 'i', 'd', 'e', 'r', '"', ':'];
    assert MODELS_KEY == [',', '"', 'm', 'o', 'd', 'e', 'l', 's', '"', ':'];
  }

  lemma CleanRow(row: ScopeEntry, rest: string)
    ensures Clean(RowOnto(row, rest)) ==
            RowOnto(ScopeEntry(Blank(row.provider), BlankAll(row.models)), Clean(rest))
  {
    CleanKeys();
    CleanJoins("}", rest);
    assert Clean("}") == "}";
    CleanStrings(row.models, "}" + rest);
    var models := StringsOnto(row.models, "}" + rest);
    CleanJoins(MODELS_KEY, models);
    CleanQuoted(row.provider, MODELS_KEY + models);
    CleanJoins(PROVIDER_KEY, QuoteOnto(row.provider, MODELS_KEY + models));
  }

  lemma CleanNextRow(row: ScopeEntry, rest: string, cleaned: string)
    requires Clean(rest) == cleaned
    ensures Clean("," + RowOnto(row, rest)) ==
            "," + RowOnto(ScopeEntry(Blank(row.provider), BlankAll(row.models)), cleaned)
  {
    CleanRow(row, rest);
    CleanJoins(",", RowOnto(row, rest));
    assert Clean(",") == ",";
  }

  lemma {:induction false} CleanRowsTail(rows: seq<ScopeEntry>)
    ensures Clean(RowsTail(rows)) == RowsTail(Blanked(rows))
  {
    if rows == [] {
      assert Clean("]") == "]";
    } else {
      var blanked := Blanked(rows);
      CleanRowsTail(rows[1..]);
      assert blanked[1..] == Blanked(rows[1..]);
      CleanNextRow(rows[0], RowsTail(rows[1..]), RowsTail(blanked[1..]));
    }
  }

  /** Stripping controls from the text of a document blanks its DELs and does
      nothing else. */
  lemma CleanDocument(rows: seq<ScopeEntry>)
    ensures Clean(StringifyRows(rows)) == StringifyRows(Blanked(rows))
  {
    if rows == [] {
      assert Clean("[]") == "[]";
    } else {
      var blanked := Blanked(rows);
      CleanFirstRow(rows[0], rows[1..]);
      assert blanked[1..] == Blanked(rows[1..]);
      assert StringifyRows(blanked) == "[" + RowOnto(blanked[0], RowsTail(blanked[1..]));
      assert StringifyRows(rows) == "[" + RowOnto(rows[0], RowsTail(rows[1..]));
    }
  }

  lemma CleanFirstRow(row: ScopeEntry, rest: seq<ScopeEntry>)
    ensures Clean("[" + RowOnto(row, RowsTail(rest))) ==
            "[" + RowOnto(ScopeEntry(Blank(row.provider), BlankAll(row.models)), RowsTail(Blanked(rest)))
  {
    CleanRowsTail(rest);
    CleanRow(row, RowsTail(rest));
    CleanJoins("[", RowOnto(row, RowsTail(rest)));
    assert Clean("[") == "[";
  }

  lemma BlankedIffDel(rows: seq<ScopeEntry>)
    ensures Blanked(rows) == rows <==> DelFree(rows)
  {
    if Blanked(rows) == rows {
      forall i | 0 <= i < |rows|
        ensures DEL !in rows[i].provider && forall k :: 0 <= k < |rows[i].models| ==> DEL !in rows[i].models[k]
      {
        assert Blanked(rows)[i] == rows[i];
        BlankIffDel(rows[i].provider);
        forall k | 0 <= k < |rows[i].models| ensures DEL !in rows[i].models[k] {
          assert BlankAll(rows[i].models)[k] == rows[i].models[k];
          BlankIffDel(rows[i].models[k]);
        }
      }
    }
    if DelFree(rows) {
      forall i | 0 <= i < |rows| ensures Blanked(rows)[i] == rows[i] {
        BlankIffDel(rows[i].provider);
        forall k | 0 <= k < |rows[i].models| ensures Blank(rows[i].models[k]) == rows[i].models[k] {
          BlankIffDel(rows[i].models[k]);
        }
        assert BlankAll(rows[i].models) == rows[i].models;
      }
    }
  }

  lemma BlankIffDel(s: string)
    ensures Blank(s) == s <==> DEL !in s
  {
    if Blank(s) == s {
      forall i | 0 <= i < |s| ensures s[i] != DEL {
        assert Blank(s)[i] == s[i];
      }
    }
  }

  /** "A snapshot never contains a raw control character": true exactly of
      documents with no DEL in them. */
  lemma StoredAsWrittenIffNoDel(rows: seq<ScopeEntry>)
    requires |StringifyRows(rows)| <= 32768
    ensures SanitizeAuditValue(Text(StringifyRows(rows))) == Text(StringifyRows(rows)) <==> DelFree(rows)
  {
    CleanDocument(rows);
    StringifyIsInjective(Blanked(rows), rows);
    BlankedIffDel(rows);
  }
}

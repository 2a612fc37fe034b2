/** Values as they come back from a jsonb column or a parsed request. */
module Json {
  import opened Lists

  /** `Fraction` is any number that is not a safe integer, with its printed text. */
  datatype Value =
    | Null
    | Bool(b: bool)
    | Number(n: int)
    | Fraction(text: string)
    | Text(s: string)
    | List(items: seq<Value>)
    | Record(fields: map<string, Value>)

  function TextOr(v: Value, default: string): string {
    if v.Text? then v.s else default
  }

  predicate HasText(v: Value, field: string) {
    v.Record? && field in v.fields && v.fields[field].Text?
  }

  function Field(v: Value, field: string): Option<Value> {
    if v.Record? && field in v.fields then Some(v.fields[field]) else None
  }

  function ItemsOf(v: Option<Value>): seq<Value> {
    if v.Some? && v.value.List? then v.value.items else []
  }

  /** The strings of a list, the rest dropped one by one. */
  function Strings(items: seq<Value>): seq<string> {
    if items == [] then []
    else
      var rest, last := Strings(items[..|items| - 1]), items[|items| - 1];
      if last.Text? then rest + [last.s] else rest
  }

  function Texts(s: seq<string>): seq<Value> {
    seq(|s|, i requires 0 <= i < |s| => Text(s[i]))
  }

  lemma StringsSnoc(items: seq<Value>, v: Value)
    ensures Strings(items + [v]) == if v.Text? then Strings(items) + [v.s] else Strings(items)
  {
    assert (items + [v])[..|items|] == items;
  }

  lemma {:induction false} StringsOfTexts(s: seq<string>)
    ensures Strings(Texts(s)) == s
  {
    if s != [] {
      var init, last := s[..|s| - 1], s[|s| - 1];
      StringsOfTexts(init);
      assert Texts(s) == Texts(init) + [Text(last)];
      StringsSnoc(Texts(init), Text(last));
      assert s == init + [last];
    }
  }
}

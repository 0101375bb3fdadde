/** How the chat screen reads an assistant message: the content string is
    handed to `JSON.parse`; a truthy result is shown as a structured legal
    answer (explanation, citations, options, draft), anything else as
    markdown prose. `JSON.parse` itself is a parameter returning an abstract
    parse result. */
module ChatCodec {
  import opened Basics

  /** A value `JSON.parse` can produce. */
  datatype Json =
    | JNull
    | JBool(b: bool)
    | JNum(x: real)
    | JStr(s: string)
    | JArr(items: seq<Json>)
    | JObj(fields: map<string, Json>)

  datatype ParseResult = Parsed(value: Json) | SyntaxError

  /** JavaScript truthiness of a parsed value (JSON has no NaN). */
  predicate Truthy(v: Json)
  {
    match v
    case JNull => false
    case JBool(b) => b
    case JNum(x) => x != 0.0
    case JStr(s) => s != ""
    case _ => true
  }

  /** Truthiness of `x.key`, where an absent key reads as `undefined`. */
  predicate TruthyField(v: Json, key: string)
  {
    Field(v, key).Some? && Truthy(Field(v, key).value)
  }

  /** `v[key]`: only objects have the keys the screen reads. */
  function Field(v: Json, key: string): Option<Json>
  {
    if v.JObj? && key in v.fields then Some(v.fields[key]) else None
  }

  /** `v.length > 0`: an array or a string by its own length; an object by
      its `length` key, which `>` compares as a number (true counts as 1);
      any other value has no `length`, and `undefined > 0` is false. */
  predicate LengthPositive(v: Json)
  {
    match v
    case JArr(items) => |items| > 0
    case JStr(s) => |s| > 0
    case JObj(f) => "length" in f && (f["length"] == JBool(true) || (f["length"].JNum? && f["length"].x > 0.0))
    case _ => false
  }

  /** The two ways an assistant message is shown. `PlainText` keeps the
      content exactly as received (None when the reply had no `response`). */
  datatype Rendering = PlainText(text: Option<string>) | Structured(answer: Json)

  /** renderMessageContent's decode step. It never fails, and exactly one
      mode applies: a content that parses to a truthy value is structured,
      everything else (a syntax error, a missing content, a parse to null,
      false, 0 or "") is prose, unchanged. */
  function Decode(content: Option<string>, parse: string -> ParseResult): (r: Rendering)
    ensures r.Structured? <==>
              content.Some? && parse(content.value).Parsed? && Truthy(parse(content.value).value)
    ensures r.Structured? ==> r.answer == parse(content.value).value
    ensures r.PlainText? ==> r.text == content
  {
    match content
    case None => PlainText(None)
    case Some(s) =>
      match parse(s)
      case SyntaxError => PlainText(content)
      case Parsed(v) => if Truthy(v) then Structured(v) else PlainText(content)
  }

  /** With a parser that reads back what a serializer wrote, a serialized
      answer object decodes to the same answer. */
  lemma DecodeSerialized(fields: map<string, Json>, serialize: Json -> string, parse: string -> ParseResult)
    requires parse(serialize(JObj(fields))) == Parsed(JObj(fields))
    ensures Decode(Some(serialize(JObj(fields))), parse) == Structured(JObj(fields))
  {
  }

  /** Any truthy JSON counts as structured, even with no `explanation`: a
      reply "1" is shown as an answer with nothing in it, while "0" is
      shown as the prose "0". */
  lemma ShapeIsNotChecked(parse: string -> ParseResult)
    requires parse("1") == Parsed(JNum(1.0)) && parse("0") == Parsed(JNum(0.0))
    ensures Decode(Some("1"), parse) == Structured(JNum(1.0))
    ensures Field(JNum(1.0), "explanation") == None
    ensures Decode(Some("0"), parse) == PlainText(Some("0"))
  {
  }

  /** `x && x.length > 0` for a field. */
  predicate NonEmptyField(v: Json, key: string)
  {
    TruthyField(v, key) && LengthPositive(Field(v, key).value)
  }

  /** The "Sources Cited" block (key `citations`) and the options block
      (key `options`) appear exactly when the field is a non-empty array, a
      non-empty string, or an object whose `length` is a positive number or
      true; for the last two the rendering then fails. */
  function ListBlockShown(answer: Json, key: string): (shown: bool)
    ensures shown <==> match Field(answer, key)
                       case Some(JArr(items)) => items != []
                       case Some(JStr(s)) => s != ""
                       case Some(JObj(f)) =>
                         "length" in f && (match f["length"]
                                           case JNum(x) => x > 0.0
                                           case JBool(b) => b
                                           case _ => false)
                       case _ => false
  {
    NonEmptyField(answer, key)
  }

  /** The export button appears exactly when `draft` is present and is not
      null, false, 0 or the empty string. */
  function ExportShown(answer: Json): (shown: bool)
    ensures shown <==> && Field(answer, "draft").Some?
                       && Field(answer, "draft").value !in {JNull, JBool(false), JNum(0.0), JStr("")}
  {
    TruthyField(answer, "draft")
  }

  /** One row of the citations block: title, quote and, when the `url` is
      truthy, a link to it. */
  datatype CitationRow = CitationRow(title: Option<Json>, quote: Option<Json>, link: Option<Json>)

  /** Whether React can render a value as a child: an object cannot ("Objects
      are not valid as a React child"), an array can when all its elements
      can, and null, booleans, numbers and strings always can. */
  predicate Renderable(v: Json)
  {
    match v
    case JObj(_) => false
    case JArr(items) => forall i :: 0 <= i < |items| ==> Renderable(items[i])
    case _ => true
  }

  /** `{cit[key]}` as a child: an absent key reads as `undefined`, which
      renders as nothing. */
  predicate FieldRenders(cit: Json, key: string)
  {
    Field(cit, key).None? || Renderable(Field(cit, key).value)
  }

  /** The row for one citation. Reading a field of `null` throws, and so
      does rendering a `source_title` or `quote` that holds an object; such
      a citation has no row (None). Any other value reads its fields, absent
      ones as `undefined`; the `url` only goes into an attribute. */
  function CitationRowOf(cit: Json): (row: Option<CitationRow>)
    ensures row.None? <==> cit == JNull || !FieldRenders(cit, "source_title") || !FieldRenders(cit, "quote")
    ensures row.Some? ==>
              && (row.value.link.Some? <==>
                    && Field(cit, "url").Some?
                    && Field(cit, "url").value !in {JNull, JBool(false), JNum(0.0), JStr("")})
              && (row.value.link.Some? ==> row.value.link == Field(cit, "url"))
              && row.value.title == Field(cit, "source_title") && row.value.quote == Field(cit, "quote")
  {
    if cit == JNull || !FieldRenders(cit, "source_title") || !FieldRenders(cit, "quote") then None
    else Some(CitationRow(Field(cit, "source_title"), Field(cit, "quote"),
                          if TruthyField(cit, "url") then Field(cit, "url") else None))
  }

  /** The rows of the citations block, one per array element, in order;
      none when the block is not shown. The rendering throws (None) when the
      block is shown for a string or an object, neither of which has a
      `.map`, or when some element has no row. */
  function CitationRows(answer: Json): (rows: Option<seq<CitationRow>>)
    ensures !ListBlockShown(answer, "citations") ==> rows == Some([])
    ensures ListBlockShown(answer, "citations") && !Field(answer, "citations").value.JArr? ==> rows == None
    ensures ListBlockShown(answer, "citations") && Field(answer, "citations").value.JArr? ==>
              var items := Field(answer, "citations").value.items;
              && (rows.None? <==> exists i :: 0 <= i < |items| && CitationRowOf(items[i]).None?)
              && (rows.Some? ==> |rows.value| == |items|
                                 && forall i :: 0 <= i < |items| ==> Some(rows.value[i]) == CitationRowOf(items[i]))
  {
    if !ListBlockShown(answer, "citations") then Some([])
    else match Field(answer, "citations").value
      case JArr(items) =>
        RowsOf(items)
      case _ => None
  }

  /** `items.map(...)` with the row of each element; it throws at the first
      element that has no row. */
  function RowsOf(items: seq<Json>): (rows: Option<seq<CitationRow>>)
    ensures rows.None? <==> exists i :: 0 <= i < |items| && CitationRowOf(items[i]).None?
    ensures rows.Some? ==> |rows.value| == |items|
                           && forall i :: 0 <= i < |items| ==> Some(rows.value[i]) == CitationRowOf(items[i])
  {
    if items == [] then Some([])
    else
      assert items == [items[0]] + items[1..];
      assert forall i :: 1 <= i < |items| ==> items[i] == items[1..][i - 1];
      match (CitationRowOf(items[0]), RowsOf(items[1..]))
      case (Some(row), Some(rest)) =>
        Some([row] + rest)
      case _ => None
  }

  /** An option button: its label and the action it carries. */
  datatype OptionItem = OptionItem(buttonLabel: string, action: string, description: string)

  /** The text an option click submits. */
  const SelectPrefix: string := "I select: "

  /** What clicking an option does: open the action as a URL in a new tab
      when it starts with "http", otherwise continue the conversation with
      "I select: <label>" (the `label` field). */
  datatype OptionAction = Navigate(url: string) | Continue(text: string)

  function Dispatch(opt: OptionItem): (a: OptionAction)
    ensures a.Navigate? <==> StartsWith(opt.action, "http")
    ensures a.Navigate? ==> a.url == opt.action
    ensures a.Continue? ==> a.text == SelectPrefix + opt.buttonLabel && !IsBlank(a.text)
  {
    if StartsWith(opt.action, "http") then Navigate(opt.action)
    else
      assert (SelectPrefix + opt.buttonLabel)[0] == 'I';
      Continue(SelectPrefix + opt.buttonLabel)
  }
}

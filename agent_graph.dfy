/** The legal-research pipeline: three nodes (triage, research, drafter) run
    in a fixed order over a shared state whose `messages` list is extended
    by concatenation and whose other keys are overwritten. The language
    model's replies and the vector search's outcome are inputs. */
module AgentGraph {
  import opened Basics

  /** One item of a list-valued model reply: a dict of string fields, or
      anything else (shown by its text). */
  datatype Block = DictBlock(fields: map<string, string>) | OtherItem(repr: string)

  /** `response.content`: a string, or a list of content blocks. */
  datatype LlmContent = TextContent(text: string) | ListContent(items: seq<Block>)

  /** The text a block contributes: its `text` field when it is a dict that
      has one, nothing otherwise. */
  function BlockText(b: Block): (r: seq<string>)
    ensures |r| <= 1
    ensures r != [] <==> b.DictBlock? && "text" in b.fields
  {
    if b.DictBlock? && "text" in b.fields then [b.fields["text"]] else []
  }

  /** `[item['text'] for item in content if isinstance(item, dict) and 'text' in item]` */
  function TextParts(items: seq<Block>): (parts: seq<string>)
    ensures |parts| <= |items|
  {
    if items == [] then [] else BlockText(items[0]) + TextParts(items[1..])
  }

  /** The comprehension distributes over concatenation, so it keeps the
      order of the blocks. */
  lemma {:induction false} TextPartsAppend(a: seq<Block>, b: seq<Block>)
    ensures TextParts(a + b) == TextParts(a) + TextParts(b)
  {
    if a == [] {
      assert a + b == b;
    } else {
      assert (a + b)[0] == a[0] && (a + b)[1..] == a[1..] + b;
      TextPartsAppend(a[1..], b);
    }
  }

  /** A text is kept exactly when some dict block carries it under `text`. */
  lemma {:induction false} TextPartsMembers(items: seq<Block>, t: string)
    ensures t in TextParts(items) <==>
              exists i :: 0 <= i < |items| && items[i].DictBlock? && "text" in items[i].fields
                          && items[i].fields["text"] == t
  {
    if items != [] {
      TextPartsMembers(items[1..], t);
      if t in TextParts(items[1..]) {
        var i :| 0 <= i < |items[1..]| && items[1..][i].DictBlock? && "text" in items[1..][i].fields
                 && items[1..][i].fields["text"] == t;
        assert items[i + 1] == items[1..][i];
      }
      forall i | 0 < i < |items| && items[i].DictBlock? && "text" in items[i].fields
        ensures items[1..][i - 1].fields["text"] == items[i].fields["text"]
      {
      }
    }
  }

  /** The text of a reply: a string as it is, a list flattened to the texts
      of its dict blocks joined by single spaces. */
  function Flatten(c: LlmContent): (s: string)
    ensures c.TextContent? ==> s == c.text
  {
    match c
    case TextContent(t) => t
    case ListContent(items) => Join(TextParts(items), " ")
  }

  /** Blocks without text contribute nothing: a list whose only text-bearing
      block is one dict flattens to that block's text. */
  lemma {:induction false} FlattenSingleText(before: seq<Block>, b: Block, after: seq<Block>)
    requires TextParts(before) == [] && TextParts(after) == []
    requires b.DictBlock? && "text" in b.fields
    ensures Flatten(ListContent(before + [b] + after)) == b.fields["text"]
  {
    TextPartsAppend(before + [b], after);
    TextPartsAppend(before, [b]);
    assert TextParts([b]) == BlockText(b) + TextParts([]);
  }

  /** Two replies' block lists flatten, side by side, to their texts with a
      single space between them, as long as each carries some text. */
  lemma FlattenAppend(a: seq<Block>, b: seq<Block>)
    requires TextParts(a) != [] && TextParts(b) != []
    ensures Flatten(ListContent(a + b)) == Flatten(ListContent(a)) + " " + Flatten(ListContent(b))
  {
    TextPartsAppend(a, b);
    JoinAppend(TextParts(a), TextParts(b), " ");
  }

  /** Two text blocks around a block without text flatten to the two texts
      with one space between them. */
  lemma TwoTextsJoined(t1: string, other: Block, t2: string)
    requires BlockText(other) == []
    ensures Flatten(ListContent([DictBlock(map["text" := t1]), other, DictBlock(map["text" := t2])]))
            == t1 + " " + t2
  {
    var first := [DictBlock(map["text" := t1]), other];
    var last := [DictBlock(map["text" := t2])];
    assert TextParts(last) == [t2] by { assert last[1..] == []; }
    assert TextParts(first) == [t1] by {
      assert first[1..] == [other];
      assert TextParts([other]) == [] by { assert [other][1..] == []; }
    }
    FlattenAppend(first, last);
    assert first + last == [DictBlock(map["text" := t1]), other, DictBlock(map["text" := t2])];
  }

  /** A document returned by the vector search. */
  datatype Doc = Doc(metadata: map<string, string>, pageContent: string)

  /** The vector search: the documents found, or the failure raised by the
      embedding, the connection or the search itself. */
  datatype SearchOutcome = Found(docs: seq<Doc>) | SearchFailed(message: string)

  const UnknownSource: string := "Unknown Source"
  const ExcerptLength: nat := 500
  const NoCaseLawNotice: string :=
    "No specific case law found in the database. Relying on general legal principles."
  const DatabaseErrorNotice: string :=
    "Error connecting to Legal Database. Proceeding with general knowledge."

  /** `doc.metadata.get('source', 'Unknown Source')` */
  function SourceOf(d: Doc): string
  {
    if "source" in d.metadata then d.metadata["source"] else UnknownSource
  }

  /** One research entry: the source, then the first 500 characters of the
      page followed by an ellipsis. */
  function FormatLaw(d: Doc): (entry: string)
  {
    "Source: " + SourceOf(d) + "\nContent: " + Prefix(d.pageContent, ExcerptLength) + "..."
  }

  /** An entry shows the whole page only when it has at most 500 characters;
      either way what it shows is the start of the page. */
  lemma FormatLawExcerpt(d: Doc)
    ensures var excerpt := Prefix(d.pageContent, ExcerptLength);
            && FormatLaw(d) == "Source: " + SourceOf(d) + "\nContent: " + excerpt + "..."
            && StartsWith(d.pageContent, excerpt)
            && |excerpt| == (if |d.pageContent| <= ExcerptLength then |d.pageContent| else ExcerptLength)
  {
  }

  function FormatAll(docs: seq<Doc>): (entries: seq<string>)
    ensures |entries| == |docs|
  {
    if docs == [] then [] else FormatAll(docs[..|docs| - 1]) + [FormatLaw(docs[|docs| - 1])]
  }

  lemma {:induction false} FormatAllAt(docs: seq<Doc>, i: nat)
    requires i < |docs|
    ensures FormatAll(docs)[i] == FormatLaw(docs[i])
  {
    if i < |docs| - 1 {
      FormatAllAt(docs[..|docs| - 1], i);
    }
  }

  /** What the research node stores under `relevant_laws`: one entry per
      document in search order; exactly one notice when nothing was found;
      exactly one error notice when the search failed. */
  function ResearchResult(outcome: SearchOutcome): (laws: seq<string>)
    ensures outcome.SearchFailed? ==> laws == [DatabaseErrorNotice]
    ensures outcome.Found? && outcome.docs == [] ==> laws == [NoCaseLawNotice]
    ensures outcome.Found? && outcome.docs != [] ==>
              |laws| == |outcome.docs| && forall i :: 0 <= i < |laws| ==> laws[i] == FormatLaw(outcome.docs[i])
    ensures |laws| >= 1
  {
    match outcome
    case SearchFailed(_) => [DatabaseErrorNotice]
    case Found(docs) =>
      if docs == [] then [NoCaseLawNotice]
      else
        assert forall i :: 0 <= i < |docs| ==> FormatAll(docs)[i] == FormatLaw(docs[i]) by {
          forall i | 0 <= i < |docs| ensures FormatAll(docs)[i] == FormatLaw(docs[i]) {
            FormatAllAt(docs, i);
          }
        }
        FormatAll(docs)
  }

  /** research_node: builds the entries with an appending loop, then falls
      back to a notice when the list stayed empty. */
  method ResearchNode(outcome: SearchOutcome) returns (laws: seq<string>)
    ensures laws == ResearchResult(outcome)
  {
    match outcome
    case SearchFailed(_) =>
      laws := [DatabaseErrorNotice];
    case Found(docs) =>
      laws := [];
      var i := 0;
      while i < |docs|
        invariant 0 <= i <= |docs|
        invariant laws == FormatAll(docs[..i])
      {
        assert docs[..i + 1][..i] == docs[..i];
        laws := laws + [FormatLaw(docs[i])];
        i := i + 1;
      }
      assert docs[..i] == docs;
      if laws == [] {
        laws := [NoCaseLawNotice];
      }
  }

  datatype Message = Human(content: string) | Ai(content: string)

  /** The graph's state; a key not yet written is None. */
  datatype AgentState = AgentState(
    messages: seq<Message>,
    legalIssue: Option<string>,
    relevantLaws: Option<seq<string>>,
    draft: Option<string>,
    critique: Option<string>)

  /** The partial state a node returns. */
  datatype Update = Update(
    messages: seq<Message>,
    legalIssue: Option<string>,
    relevantLaws: Option<seq<string>>,
    draft: Option<string>)

  /** How the graph folds an update into the state: `messages` is annotated
      with `operator.add`, so lists are concatenated; other keys present in
      the update replace the old value. */
  function Merge(s: AgentState, u: Update): (r: AgentState)
    ensures r.messages == s.messages + u.messages
    ensures r.critique == s.critique
    ensures u.legalIssue.None? ==> r.legalIssue == s.legalIssue
    ensures u.relevantLaws.None? ==> r.relevantLaws == s.relevantLaws
    ensures u.draft.None? ==> r.draft == s.draft
    ensures u.legalIssue.Some? ==> r.legalIssue == u.legalIssue
    ensures u.relevantLaws.Some? ==> r.relevantLaws == u.relevantLaws
    ensures u.draft.Some? ==> r.draft == u.draft
  {
    AgentState(
      s.messages + u.messages,
      if u.legalIssue.Some? then u.legalIssue else s.legalIssue,
      if u.relevantLaws.Some? then u.relevantLaws else s.relevantLaws,
      if u.draft.Some? then u.draft else s.draft,
      s.critique)
  }

  /** triage_node: the flattened reply becomes `legal_issue`. */
  function TriageNode(reply: LlmContent): (u: Update)
    ensures u.messages == [] && u.relevantLaws == None && u.draft == None
    ensures u.legalIssue == Some(Flatten(reply))
  {
    Update([], Some(Flatten(reply)), None, None)
  }

  /** drafter_node: the flattened reply is the draft, and exactly one AI
      message with the same text joins the history. */
  function DrafterNode(reply: LlmContent): (u: Update)
    ensures u.draft.Some? && u.messages == [Ai(u.draft.value)]
    ensures u.draft.value == Flatten(reply)
    ensures u.legalIssue == None && u.relevantLaws == None
  {
    var text := Flatten(reply);
    Update([Ai(text)], None, None, Some(text))
  }

  datatype Node = Triage | Research | Drafter | End

  /** The entry point and the three edges of the graph. */
  const EntryPoint: Node := Triage

  function Successor(n: Node): Node
    requires n != End
  {
    match n
    case Triage => Research
    case Research => Drafter
    case Drafter => End
  }

  function Rank(n: Node): nat
  {
    match n
    case Triage => 3
    case Research => 2
    case Drafter => 1
    case End => 0
  }

  /** The nodes visited from `n` until END, in order. */
  function PathFrom(n: Node): (p: seq<Node>)
    ensures End !in p
    decreases Rank(n)
  {
    if n == End then [] else [n] + PathFrom(Successor(n))
  }

  /** The model replies and search outcome one run consumes. */
  datatype Inputs = Inputs(triageReply: LlmContent, search: SearchOutcome, drafterReply: LlmContent)

  function RunNode(n: Node, s: AgentState, inp: Inputs): AgentState
    requires n != End
  {
    match n
    case Triage => Merge(s, TriageNode(inp.triageReply))
    case Research => Merge(s, Update([], None, Some(ResearchResult(inp.search)), None))
    case Drafter => Merge(s, DrafterNode(inp.drafterReply))
  }

  /** Runs the nodes of a path one after the other. */
  function RunPath(path: seq<Node>, s: AgentState, inp: Inputs): AgentState
    requires End !in path
  {
    if path == [] then s else RunPath(path[1..], RunNode(path[0], s, inp), inp)
  }

  /** One invocation of the compiled graph. Triage and drafter read the last
      message, so the history must not be empty. */
  function Invoke(s: AgentState, inp: Inputs): AgentState
    requires |s.messages| > 0
  {
    RunPath(PathFrom(EntryPoint), s, inp)
  }

  /** The graph visits triage, research and drafter, in that order, and ends. */
  lemma PipelineOrder()
    ensures PathFrom(EntryPoint) == [Triage, Research, Drafter]
  {
  }

  /** After one run the history has gained exactly the drafter's AI message,
      and each key holds what its node produced. */
  lemma InvokeResult(s: AgentState, inp: Inputs)
    requires |s.messages| > 0
    ensures var r := Invoke(s, inp);
            && r.messages == s.messages + [Ai(Flatten(inp.drafterReply))]
            && r.legalIssue == Some(Flatten(inp.triageReply))
            && r.relevantLaws == Some(ResearchResult(inp.search))
            && r.draft == Some(Flatten(inp.drafterReply))
            && r.critique == s.critique
  {
    PipelineOrder();
    var s1 := RunNode(Triage, s, inp);
    var s2 := RunNode(Research, s1, inp);
    var s3 := RunNode(Drafter, s2, inp);
    assert RunPath([Drafter], s2, inp) == s3 by {
      assert [Drafter][1..] == [];
    }
    assert RunPath([Research, Drafter], s1, inp) == s3 by {
      assert [Research, Drafter][1..] == [Drafter];
    }
    assert Invoke(s, inp) == s3 by {
      assert [Triage, Research, Drafter][1..] == [Research, Drafter];
    }
  }
}

/**
 * The HDL assistant: it chooses one of three conversations (no files, no
 * existing files, the full multi-file design prompt) and translates the chat
 * model's stream of chunks into `("think", …)` and `("text", …)` pairs.
 *
 * Its reasoning translation differs from the MATLAB assistant's: summary
 * items are forwarded whole, and a blank-line separator is emitted when a
 * summary index exceeds the highest index seen so far.
 *
 * The file system (`Path.exists`, `read_text`), the resource runner together
 * with the summary of its report, and the chat model are parameters.
 */
module HdlAgent {
  import opened Common
  import opened Chunks
  import opened Prompts

  // ---------------------------------------------------------------------
  // The three conversations
  // ---------------------------------------------------------------------

  const AssistantIntro: string := "You are an HDL optimization assistant. "

  const NoFilesSystem: string :=
    AssistantIntro + "If there is no HDL attached, explain that you need the files " + "and ask the user to upload them."

  const MissingPathsSystem: string :=
    AssistantIntro + "If file paths are invalid or files cannot be found, " + "politely tell the user and ask them to re-upload."

  const RequestLabel: string := "User request: "

  /** The human message when no file is attached. */
  function NoFilesHuman(query: string): (h: string)
    ensures Contains(h, query)
  {
    var head := "No HDL files are attached.\n\n" + "Ask the user to upload their HDL project files "
      + "(`.v`, `.sv`, `.vhd`, including submodules and packages), " + "and restate their optimization goal.\n\n"
      + RequestLabel;
    ContainsMiddle(head, query, "");
    assert head + query + "" == head + query;
    head + query
  }

  /** The human message when paths were given but none exists: it lists every given path, one per line. */
  function MissingPathsHuman(query: string, paths: seq<string>): (h: string)
    ensures Contains(h, Join(paths, "\n")) && Contains(h, query)
  {
    var head := "The HDL file paths provided by the UI do not exist on disk.\n\n"
      + "Explain this to the user and ask them to re-upload the HDL files.\n\n" + "Paths from UI:\n";
    var mid := "\n\n" + RequestLabel;
    var joined := Join(paths, "\n");
    ContainsMiddle(head, joined, mid + query);
    assert head + joined + (mid + query) == head + joined + mid + query;
    ContainsMiddle(head + joined + mid, query, "");
    assert head + joined + mid + query + "" == head + joined + mid + query;
    head + joined + mid + query
  }

  /** The agent's design prompt: every template line indented by twelve spaces, the closing quotes by eight. */
  const Indent8: string := "        "
  const Indent12: string := Indent8 + "    "

  function AgentDesignPrompt(query: string, top: string, baseSummary: string, bundle: string): string {
    DesignPrompt(Indent12, Indent12, Indent8, query, top, baseSummary, bundle)
  }

  /** The branch `_build_messages` takes. */
  datatype Flow = NoFiles | MissingPaths | FullDesign(existing: seq<string>)

  /** `_build_messages` up to the choice of branch, with `_collect_existing_paths` as a filter. */
  function SelectFlow(filePaths: Option<seq<string>>, pathExists: string -> bool): Flow {
    if filePaths.None? || filePaths.value == [] then NoFiles
    else
      var existing := Filter(filePaths.value, pathExists);
      if existing == [] then MissingPaths else FullDesign(existing)
  }

  /**
   * No paths gives the no-files branch; paths none of which exists give the
   * missing-paths branch; otherwise the full design uses exactly the existing
   * paths, in their given order.
   */
  lemma SelectFlowCases(filePaths: Option<seq<string>>, pathExists: string -> bool)
    ensures SelectFlow(filePaths, pathExists).NoFiles? <==> filePaths.None? || filePaths.value == []
    ensures SelectFlow(filePaths, pathExists).MissingPaths? <==>
      && filePaths.Some? && filePaths.value != []
      && forall j :: 0 <= j < |filePaths.value| ==> !pathExists(filePaths.value[j])
    ensures SelectFlow(filePaths, pathExists).FullDesign? ==>
      && SelectFlow(filePaths, pathExists).existing == Filter(filePaths.value, pathExists)
      && forall x :: x in SelectFlow(filePaths, pathExists).existing <==> x in filePaths.value && pathExists(x)
  {
    if filePaths.Some? && filePaths.value != [] {
      FilterEmpty(filePaths.value, pathExists);
      forall x {
        FilterMembers(filePaths.value, pathExists, x);
      }
    }
  }

  /** `_collect_existing_paths`. */
  method CollectExistingPaths(filePaths: seq<string>, pathExists: string -> bool) returns (existing: seq<string>)
    ensures existing == Filter(filePaths, pathExists)
  {
    existing := [];
    var k := 0;
    while k < |filePaths|
      invariant k <= |filePaths|
      invariant existing == Filter(filePaths[..k], pathExists)
    {
      assert filePaths[..k + 1][..k] == filePaths[..k];
      var p := filePaths[k];
      if pathExists(p) {
        existing := existing + [p];
      }
      k := k + 1;
    }
    assert filePaths[..|filePaths|] == filePaths;
  }

  /** The first path that exists, if some path does, is the first element of the filtered list. */
  lemma {:induction false} FirstOfFilter(xs: seq<string>, p: string -> bool, j: nat)
    requires j < |xs| && p(xs[j]) && forall i :: 0 <= i < j ==> !p(xs[i])
    ensures Filter(xs, p) != [] && Filter(xs, p)[0] == xs[j]
    decreases |xs|
  {
    var n := |xs|;
    if j < n - 1 {
      FirstOfFilter(xs[..n - 1], p, j);
    } else {
      FilterEmpty(xs[..n - 1], p);
    }
  }

  /**
   * `_prepare_design_prompt_inputs`: the top name is the stem of the first
   * existing path, the bundle covers all of them, and the baseline summary is
   * what the runner's report summarises to (its failure propagates).
   */
  function DesignInputs(existing: seq<string>, read: string -> ReadOutcome,
                        baseline: (seq<string>, string) -> Result<string, string>): (r: Result<(string, string, string), string>)
    requires existing != []
    ensures r.Ok? <==> baseline(existing, PathStem(existing[0])).Ok?
    ensures r.Ok? ==> r.value.0 == PathStem(existing[0]) && r.value.1 == Bundle(existing, read)
  {
    var top := PathStem(existing[0]);
    var bundle := Bundle(existing, read);
    match baseline(existing, top)
    case Err(e) => Err(e)
    case Ok(summary) => Ok((top, bundle, summary))
  }

  /**
   * `_build_messages`: the conversation sent to the model, or the exception
   * the resource run raised. Every conversation is the system message, the
   * chat history unchanged, and one human message.
   */
  function BuildMessages(query: string, history: seq<Message>, filePaths: Option<seq<string>>,
                         systemPrompt: string, pathExists: string -> bool, read: string -> ReadOutcome,
                         baseline: (seq<string>, string) -> Result<string, string>): (r: Result<seq<Message>, string>)
    ensures r.Ok? ==>
      && |r.value| == |history| + 2
      && r.value[0].SystemMessage? && r.value[|r.value| - 1].HumanMessage?
      && r.value[1..|r.value| - 1] == history
    ensures r.Err? ==> SelectFlow(filePaths, pathExists).FullDesign?
  {
    match SelectFlow(filePaths, pathExists)
    case NoFiles => Ok(Conversation(NoFilesSystem, history, NoFilesHuman(query)))
    case MissingPaths => Ok(Conversation(MissingPathsSystem, history, MissingPathsHuman(query, filePaths.value)))
    case FullDesign(existing) =>
      match DesignInputs(existing, read, baseline)
      case Err(e) => Err(e)
      case Ok(inputs) =>
        var (top, bundle, summary) := inputs;
        Ok(Conversation(systemPrompt, history, AgentDesignPrompt(query, top, summary, bundle)))
  }

  /** With no path the fixed no-files conversation is sent, and nothing is looked up or run. */
  lemma NoFilesConversation(query: string, history: seq<Message>, filePaths: Option<seq<string>>,
                            systemPrompt: string, pathExists: string -> bool, read: string -> ReadOutcome,
                            baseline: (seq<string>, string) -> Result<string, string>)
    requires filePaths.None? || filePaths.value == []
    ensures BuildMessages(query, history, filePaths, systemPrompt, pathExists, read, baseline)
      == Ok(Conversation(NoFilesSystem, history, NoFilesHuman(query)))
  {
  }

  /** When no given path exists the fixed missing-paths conversation lists every given path. */
  lemma MissingPathsConversation(query: string, history: seq<Message>, paths: seq<string>,
                                 systemPrompt: string, pathExists: string -> bool, read: string -> ReadOutcome,
                                 baseline: (seq<string>, string) -> Result<string, string>)
    requires paths != [] && forall j :: 0 <= j < |paths| ==> !pathExists(paths[j])
    ensures var r := BuildMessages(query, history, Some(paths), systemPrompt, pathExists, read, baseline);
      && r == Ok(Conversation(MissingPathsSystem, history, MissingPathsHuman(query, paths)))
      && Contains(r.value[|r.value| - 1].content, Join(paths, "\n"))
  {
    SelectFlowCases(Some(paths), pathExists);
  }

  /**
   * When the path at `j` is the first that exists and the runner succeeds,
   * the human message is the design prompt whose top name is that path's stem
   * and whose bundle covers the existing paths in order; the system message
   * is the loaded system prompt.
   */
  lemma FullDesignConversation(query: string, history: seq<Message>, paths: seq<string>,
                               systemPrompt: string, pathExists: string -> bool, read: string -> ReadOutcome,
                               baseline: (seq<string>, string) -> Result<string, string>, j: nat)
    requires j < |paths| && pathExists(paths[j]) && forall i :: 0 <= i < j ==> !pathExists(paths[i])
    requires baseline(Filter(paths, pathExists), PathStem(paths[j])).Ok?
    ensures var r := BuildMessages(query, history, Some(paths), systemPrompt, pathExists, read, baseline);
      && r.Ok?
      && r.value[0] == SystemMessage(systemPrompt)
      && r.value[|r.value| - 1] == HumanMessage(AgentDesignPrompt(query, PathStem(paths[j]),
           baseline(Filter(paths, pathExists), PathStem(paths[j])).value, Bundle(Filter(paths, pathExists), read)))
  {
    FirstOfFilter(paths, pathExists, j);
    var existing := Filter(paths, pathExists);
    assert SelectFlow(Some(paths), pathExists) == FullDesign(existing);
    var top := PathStem(paths[j]);
    var summary := baseline(existing, top).value;
    assert DesignInputs(existing, read, baseline) == Ok((top, Bundle(existing, read), summary));
    assert BuildMessages(query, history, Some(paths), systemPrompt, pathExists, read, baseline)
      == Ok(Conversation(systemPrompt, history, AgentDesignPrompt(query, top, summary, Bundle(existing, read))));
  }

  // ---------------------------------------------------------------------
  // `_stream_llm`: one scan step per summary item, part and chunk
  // ---------------------------------------------------------------------

  /** A summary item the loop forwards: a dict with a `text` key, whatever its value. */
  predicate IsThought(item: SummaryItem) {
    item.DictItem? && !item.text.Absent?
  }

  const Separator: string := "\n\n"

  /**
   * One summary item, with the highest index seen so far: a separator when
   * the item's index exceeds it (which raises it), then the item's text as is.
   */
  function ThoughtStep(current: int, item: SummaryItem): (int, seq<Emission>)
  {
    if !IsThought(item) then (current, [])
    else
      var i := ItemIndex(item.index);
      if i > current then (i, [ThinkText(Separator), Emission(Think, item.text)])
      else (current, [Emission(Think, item.text)])
  }

  /** One content part: reasoning summaries are scanned, a truthy `text` part is answer text. */
  function LlmPartStep(current: int, part: Part): (int, seq<Emission>)
  {
    if !part.DictPart? then (current, [])
    else if IsText(part.partType, "reasoning") then
      if part.summary.SummaryList? then Scan(ThoughtStep, current, part.summary.items) else (current, [])
    else if IsText(part.partType, "text") && Truthy(part.text) then (current, [Emission(Text, part.text)])
    else (current, [])
  }

  /** One chunk: a list of parts is scanned, a non-empty string is answer text, anything else yields nothing. */
  function LlmChunkStep(current: int, content: Content): (int, seq<Emission>)
  {
    match content
    case ListContent(parts) => Scan(LlmPartStep, current, parts)
    case StrContent(s) => (current, if s != "" then [AnswerText(s)] else [])
    case OtherContent => (current, [])
  }

  /** What `_stream_llm` yields for the model's chunks; the tracked index starts at 0. */
  function LlmOutput(chunks: seq<Content>): seq<Emission> {
    Scan(LlmChunkStep, 0, chunks).1
  }

  /** The `for item in summary` loop. */
  method StreamThoughts(current0: int, items: seq<SummaryItem>) returns (current: int, out: seq<Emission>)
    ensures (current, out) == Scan(ThoughtStep, current0, items)
  {
    current, out := current0, [];
    var k := 0;
    while k < |items|
      invariant k <= |items|
      invariant (current, out) == Scan(ThoughtStep, current0, items[..k])
    {
      ScanSnoc(ThoughtStep, current0, items[..k], items[k]);
      assert items[..k + 1] == items[..k] + [items[k]];
      var item := items[k];
      ghost var step := ThoughtStep(current, item);
      ghost var out0 := out;
      k := k + 1;
      if item.DictItem? && !item.text.Absent? {
        var idx := ItemIndex(item.index);
        if idx > current {
          out := out + [ThinkText(Separator)];
          current := idx;
        }
        out := out + [Emission(Think, item.text)];
        assert out == out0 + step.1;
      } else {
        assert step == (current, []) && out + [] == out;
      }
    }
    assert items[..|items|] == items;
  }

  /** The `for part in content` loop. */
  method StreamLlmParts(current0: int, parts: seq<Part>) returns (current: int, out: seq<Emission>)
    ensures (current, out) == Scan(LlmPartStep, current0, parts)
  {
    current, out := current0, [];
    var k := 0;
    while k < |parts|
      invariant k <= |parts|
      invariant (current, out) == Scan(LlmPartStep, current0, parts[..k])
    {
      ScanSnoc(LlmPartStep, current0, parts[..k], parts[k]);
      assert parts[..k + 1] == parts[..k] + [parts[k]];
      var part := parts[k];
      ghost var step := LlmPartStep(current, part);
      k := k + 1;
      if !part.DictPart? {
        assert step == (current, []) && out + [] == out;
        continue;
      }
      if IsText(part.partType, "reasoning") {
        if part.summary.SummaryList? {
          var more;
          current, more := StreamThoughts(current, part.summary.items);
          assert step == (current, more);
          out := out + more;
        } else {
          assert step == (current, []) && out + [] == out;
        }
      } else if IsText(part.partType, "text") {
        if Truthy(part.text) {
          out := out + [Emission(Text, part.text)];
        } else {
          assert step == (current, []) && out + [] == out;
        }
      } else {
        assert step == (current, []) && out + [] == out;
      }
    }
    assert parts[..|parts|] == parts;
  }

  /** `_stream_llm` once the model's chunks are known. */
  method StreamLlm(chunks: seq<Content>) returns (out: seq<Emission>)
    ensures out == LlmOutput(chunks)
  {
    var current := 0;
    out := [];
    var k := 0;
    while k < |chunks|
      invariant k <= |chunks|
      invariant (current, out) == Scan(LlmChunkStep, 0, chunks[..k])
    {
      ScanSnoc(LlmChunkStep, 0, chunks[..k], chunks[k]);
      assert chunks[..k + 1] == chunks[..k] + [chunks[k]];
      var content := chunks[k];
      ghost var step := LlmChunkStep(current, content);
      k := k + 1;
      match content {
        case ListContent(parts) =>
          var more;
          current, more := StreamLlmParts(current, parts);
          out := out + more;
        case StrContent(s) =>
          if s != "" {
            out := out + [AnswerText(s)];
          } else {
            assert out + [] == out;
          }
        case OtherContent =>
          assert out + [] == out;
      }
    }
    assert chunks[..|chunks|] == chunks;
  }

  /**
   * `astream_run`: the messages are built, then the model's chunks for them
   * are translated. A failing resource run raises before the model is called.
   */
  method AstreamRun(query: string, history: seq<Message>, filePaths: Option<seq<string>>,
                    systemPrompt: string, pathExists: string -> bool, read: string -> ReadOutcome,
                    baseline: (seq<string>, string) -> Result<string, string>,
                    llm: seq<Message> -> seq<Content>) returns (r: Result<seq<Emission>, string>)
    ensures var ms := BuildMessages(query, history, filePaths, systemPrompt, pathExists, read, baseline);
      r == if ms.Ok? then Ok(LlmOutput(llm(ms.value))) else Err(ms.error)
  {
    var messages := BuildMessages(query, history, filePaths, systemPrompt, pathExists, read, baseline);
    if messages.Err? {
      return Err(messages.error);
    }
    var out := StreamLlm(llm(messages.value));
    return Ok(out);
  }

  // ---------------------------------------------------------------------
  // Properties of the translation
  // ---------------------------------------------------------------------

  /** The index of a forwarded item. */
  function ThoughtIndex(item: SummaryItem): int
    requires IsThought(item)
  {
    ItemIndex(item.index)
  }

  /**
   * The tracked index after a summary is the highest of the starting value and
   * the indices of the forwarded items.
   */
  lemma {:induction false} TrackerIsHighestIndex(current: int, items: seq<SummaryItem>)
    ensures var t := Scan(ThoughtStep, current, items).0;
      && current <= t
      && (forall j :: 0 <= j < |items| && IsThought(items[j]) ==> ThoughtIndex(items[j]) <= t)
      && (t == current || exists j :: 0 <= j < |items| && IsThought(items[j]) && ThoughtIndex(items[j]) == t)
    decreases |items|
  {
    if items != [] {
      var n := |items|;
      var init := items[..n - 1];
      TrackerIsHighestIndex(current, init);
      assert init + [items[n - 1]] == items;
      ScanSnoc(ThoughtStep, current, init, items[n - 1]);
      var t0 := Scan(ThoughtStep, current, init).0;
      var t := Scan(ThoughtStep, current, items).0;
      forall j | 0 <= j < n && IsThought(items[j])
        ensures ThoughtIndex(items[j]) <= t
      {
        if j < n - 1 {
          assert items[j] == init[j];
        }
      }
      if t != current && t == t0 {
        var j :| 0 <= j < |init| && IsThought(init[j]) && ThoughtIndex(init[j]) == t;
        assert items[j] == init[j];
      }
    }
  }

  /** `Emission(Think, text)` for each forwarded item, in order. */
  function Forwarded(items: seq<SummaryItem>): seq<Emission> {
    if items == [] then []
    else
      var last := items[|items| - 1];
      Forwarded(items[..|items| - 1]) + (if IsThought(last) then [Emission(Think, last.text)] else [])
  }

  /**
   * When no forwarded item's index exceeds the tracked one, there is no
   * separator: every item's text is forwarded whole, with no delta against
   * earlier texts, and the tracked index stays put.
   */
  lemma {:induction false} NoAdvanceForwardsWhole(current: int, items: seq<SummaryItem>)
    requires forall j :: 0 <= j < |items| && IsThought(items[j]) ==> ThoughtIndex(items[j]) <= current
    ensures Scan(ThoughtStep, current, items) == (current, Forwarded(items))
    decreases |items|
  {
    if items != [] {
      var n := |items|;
      var init := items[..n - 1];
      forall j | 0 <= j < |init| && IsThought(init[j])
        ensures ThoughtIndex(init[j]) <= current
      {
        assert init[j] == items[j];
      }
      NoAdvanceForwardsWhole(current, init);
      assert init + [items[n - 1]] == items;
      ScanSnoc(ThoughtStep, current, init, items[n - 1]);
    }
  }

  /** A separator before each item's text. */
  function SeparatedThoughts(items: seq<SummaryItem>): seq<Emission> {
    if items == [] then []
    else
      var last := items[|items| - 1];
      SeparatedThoughts(items[..|items| - 1]) + (if IsThought(last) then [ThinkText(Separator), Emission(Think, last.text)] else [])
  }

  /**
   * Forwarded items whose indices rise strictly above the tracked one are
   * each preceded by a separator, and the tracked index ends at the last one.
   */
  lemma {:induction false} RisingIndicesSeparated(current: int, items: seq<SummaryItem>)
    requires items != []
    requires forall j :: 0 <= j < |items| ==> IsThought(items[j])
    requires current < ThoughtIndex(items[0])
    requires forall j :: 0 < j < |items| ==> ThoughtIndex(items[j - 1]) < ThoughtIndex(items[j])
    ensures Scan(ThoughtStep, current, items) == (ThoughtIndex(items[|items| - 1]), SeparatedThoughts(items))
    decreases |items|
  {
    var n := |items|;
    var init := items[..n - 1];
    var last := items[n - 1];
    assert init + [last] == items;
    ScanSnoc(ThoughtStep, current, init, last);
    var before := Scan(ThoughtStep, current, init);
    if n > 1 {
      assert init[0] == items[0];
      forall j | 0 < j < |init|
        ensures ThoughtIndex(init[j - 1]) < ThoughtIndex(init[j])
      {
        assert init[j - 1] == items[j - 1] && init[j] == items[j];
      }
      RisingIndicesSeparated(current, init);
      assert ThoughtIndex(items[n - 2]) < ThoughtIndex(last);
    } else {
      assert init == [];
    }
    RisingStep(before.0, last);
    assert SeparatedThoughts(items) == SeparatedThoughts(init) + [ThinkText(Separator), Emission(Think, last.text)];
  }

  /** An item whose index exceeds the tracked one is preceded by a separator and raises the index. */
  lemma RisingStep(current: int, item: SummaryItem)
    requires IsThought(item) && current < ThoughtIndex(item)
    ensures ThoughtStep(current, item) == (ThoughtIndex(item), [ThinkText(Separator), Emission(Think, item.text)])
  {
  }

  /** A part that is neither a reasoning nor a text dict changes neither the output nor the tracked index. */
  lemma OtherPartIgnored(current: int, before: seq<Part>, p: Part, after: seq<Part>)
    requires !p.DictPart? || (!IsText(p.partType, "reasoning") && !IsText(p.partType, "text"))
    ensures Scan(LlmPartStep, current, before + [p] + after) == Scan(LlmPartStep, current, before + after)
  {
    ScanAppend(LlmPartStep, current, before + [p], after);
    ScanSnoc(LlmPartStep, current, before, p);
    var b := Scan(LlmPartStep, current, before);
    assert LlmPartStep(b.0, p) == (b.0, []);
    assert Scan(LlmPartStep, current, before + [p]) == (b.0, b.1 + []);
    assert b.1 + [] == b.1;
    ScanAppend(LlmPartStep, current, before, after);
  }

  /** Answer emissions come only from text parts and string content; a reasoning part yields only thoughts. */
  lemma {:induction false} ThoughtsOnlyThink(current: int, items: seq<SummaryItem>)
    ensures forall e :: e in Scan(ThoughtStep, current, items).1 ==> e.kind == Think
    decreases |items|
  {
    if items != [] {
      var n := |items|;
      ThoughtsOnlyThink(current, items[..n - 1]);
      assert items[..n - 1] + [items[n - 1]] == items;
      ScanSnoc(ThoughtStep, current, items[..n - 1], items[n - 1]);
    }
  }
}

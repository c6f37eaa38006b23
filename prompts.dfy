/**
 * What the HDL agent and the optimisation graph send to the chat model:
 * chat messages, the bundle of all design files with a `// File:` header
 * per file, and the design prompt template that embeds the goal, the top
 * module name, the baseline resource summary and the bundle.
 *
 * `hdlagent.py` and `hdl_flow.py` each carry a copy of `_build_hdl_bundle`;
 * the two copies are the same code and are modelled once here. Their
 * `_format_design_prompt` copies differ only in indentation, which is a
 * parameter of the template.
 */
module Prompts {
  import opened Common

  datatype Message = SystemMessage(content: string) | HumanMessage(content: string) | AiMessage(content: string)

  /** `[SystemMessage(system), *history, HumanMessage(human)]`. */
  function Conversation(system: string, history: seq<Message>, human: string): (ms: seq<Message>)
    ensures |ms| == |history| + 2
    ensures ms[0] == SystemMessage(system) && ms[|ms| - 1] == HumanMessage(human)
    ensures ms[1..|ms| - 1] == history
  {
    [SystemMessage(system)] + history + [HumanMessage(human)]
  }

  // ---------------------------------------------------------------------
  // The HDL bundle
  // ---------------------------------------------------------------------

  /** `p.read_text()`: the text, or the message of the exception it raised. */
  datatype ReadOutcome = ReadOk(text: string) | ReadFailed(reason: string)

  /** `// File: <name>`, the header that marks each file of the bundle. */
  function FileHeader(name: string): string {
    "// File: " + name
  }

  /** The bundle section of one file: its header and code, or its header and the read failure. */
  function BundlePart(path: string, read: string -> ReadOutcome): string {
    match read(path)
    case ReadOk(code) => FileHeader(BaseName(path)) + "\n" + code + "\n"
    case ReadFailed(exc) => FileHeader(BaseName(path)) + " (FAILED TO READ: " + exc + ")\n"
  }

  /** The `parts` list of `_build_hdl_bundle`: one section per path, in order. */
  function BundleParts(paths: seq<string>, read: string -> ReadOutcome): (parts: seq<string>)
    ensures |parts| == |paths|
  {
    if paths == [] then []
    else BundleParts(paths[..|paths| - 1], read) + [BundlePart(paths[|paths| - 1], read)]
  }

  /** `"\n\n".join(parts)`. */
  function Bundle(paths: seq<string>, read: string -> ReadOutcome): string {
    Join(BundleParts(paths, read), "\n\n")
  }

  /** `_build_hdl_bundle`: a file that cannot be read gets a marker section and the loop goes on. */
  method BuildHdlBundle(paths: seq<string>, read: string -> ReadOutcome) returns (bundle: string)
    ensures bundle == Bundle(paths, read)
  {
    var parts: seq<string> := [];
    var k := 0;
    while k < |paths|
      invariant k <= |paths|
      invariant parts == BundleParts(paths[..k], read)
    {
      assert paths[..k + 1][..k] == paths[..k];
      var p := paths[k];
      k := k + 1;
      match read(p) {
        case ReadFailed(exc) =>
          parts := parts + [FileHeader(BaseName(p)) + " (FAILED TO READ: " + exc + ")\n"];
          continue;
        case ReadOk(code) =>
          parts := parts + [FileHeader(BaseName(p)) + "\n" + code + "\n"];
      }
    }
    assert paths[..|paths|] == paths;
    bundle := Join(parts, "\n\n");
  }

  /** Every section starts with the header naming its file, whether or not the file could be read. */
  lemma {:induction false} BundlePartsHeaders(paths: seq<string>, read: string -> ReadOutcome, k: nat)
    requires k < |paths|
    ensures StartsWith(BundleParts(paths, read)[k], FileHeader(BaseName(paths[k])))
    ensures read(paths[k]).ReadOk? ==>
      BundleParts(paths, read)[k] == FileHeader(BaseName(paths[k])) + "\n" + read(paths[k]).text + "\n"
    decreases |paths|
  {
    var n := |paths|;
    if k < n - 1 {
      BundlePartsHeaders(paths[..n - 1], read, k);
    }
    var part := BundlePart(paths[k], read);
    var h := FileHeader(BaseName(paths[k]));
    assert part[..|h|] == h;
  }

  /** The bundle of two path lists is their bundles joined by a blank line: order is kept. */
  lemma BundleAppend(a: seq<string>, b: seq<string>, read: string -> ReadOutcome)
    requires a != [] && b != []
    ensures Bundle(a + b, read) == Bundle(a, read) + "\n\n" + Bundle(b, read)
  {
    BundlePartsAppend(a, b, read);
    JoinAppend(BundleParts(a, read), BundleParts(b, read), "\n\n");
  }

  lemma {:induction false} BundlePartsAppend(a: seq<string>, b: seq<string>, read: string -> ReadOutcome)
    ensures BundleParts(a + b, read) == BundleParts(a, read) + BundleParts(b, read)
    decreases |b|
  {
    if b == [] {
      assert a + b == a;
    } else {
      assert (a + b)[..|a + b| - 1] == a + b[..|b| - 1];
      BundlePartsAppend(a, b[..|b| - 1], read);
    }
  }

  lemma {:induction false} JoinAppend(a: seq<string>, b: seq<string>, sep: string)
    requires a != [] && b != []
    ensures Join(a + b, sep) == Join(a, sep) + sep + Join(b, sep)
    decreases |a|
  {
    if |a| == 1 {
      JoinCons(a[0], b, sep);
      assert [a[0]] + b == a + b;
    } else {
      JoinAppend(a[1..], b, sep);
      assert (a + b)[1..] == a[1..] + b;
      JoinCons(a[0], a[1..] + b, sep);
      JoinCons(a[0], a[1..], sep);
      assert [a[0]] + (a[1..] + b) == a + b;
      assert [a[0]] + a[1..] == a;
    }
  }

  /** The bundle of a single file is its section. */
  lemma BundleSingle(path: string, read: string -> ReadOutcome)
    ensures Bundle([path], read) == BundlePart(path, read)
  {
    assert [path][..0] == [];
  }

  // ---------------------------------------------------------------------
  // The design prompt
  // ---------------------------------------------------------------------

  const IntroLine: string := "You are given an HDL design that spans multiple files (top module, submodules, packages)."
  const RulesLine: string := "Optimize it according to the user goal while respecting the optimization rules from the system prompt."
  const TopLabel: string := "Top-level module name (heuristic): "
  const BaseLabel: string := "Resource utilization BEFORE optimization:"
  const BundleLabel: string := "HDL design (all files bundled):"
  const FenceOpen: string := "```verilog"
  const Fence: string := "```"
  const GoalLabel: string := "User goal / request:"

  /** The template text before the top module name. */
  function PromptHead(ind: string): string {
    "\n" + ind + IntroLine + "\n" + ind + RulesLine + "\n\n" + ind + TopLabel
  }

  /** Between the top module name and the baseline summary. */
  function AfterTop(ind: string): string {
    "\n\n" + ind + BaseLabel + "\n" + ind
  }

  /** Between the baseline summary and the fenced bundle. */
  function BundleIntro(ind: string): string {
    "\n\n" + ind + BundleLabel + "\n" + ind
  }

  /** The bundle inside a `verilog` code fence. */
  function Fenced(ind: string, bundleInd: string, bundle: string): string {
    FenceOpen + "\n" + bundleInd + bundle + "\n" + ind + Fence
  }

  /** Between the fenced bundle and the goal. */
  function GoalIntro(ind: string): string {
    "\n" + ind + GoalLabel + "\n" + ind
  }

  /** The line break after the goal and the indentation of the closing quotes. */
  function PromptEnd(closing: string): string {
    "\n" + closing
  }

  /**
   * `_format_design_prompt`: a triple-quoted template whose lines carry the
   * indentation `ind`; the bundle line is indented by `bundleInd` and the
   * closing quotes by `closing`.
   */
  function DesignPrompt(ind: string, bundleInd: string, closing: string,
                        query: string, top: string, baseSummary: string, bundle: string): string {
    PromptHead(ind) + top + AfterTop(ind) + baseSummary + BundleIntro(ind) + Fenced(ind, bundleInd, bundle)
    + GoalIntro(ind) + query + PromptEnd(closing)
  }

  lemma ContainsMiddle(a: string, x: string, b: string)
    ensures Contains(a + x + b, x)
  {
    assert (a + x + b)[|a|..|a| + |x|] == x;
    ContainsAt(a + x + b, x, |a|);
  }

  /** A text laid out as fixed pieces around four slots contains each slot. */
  lemma ContainsSlots(h: string, x1: string, s1: string, x2: string, s2: string, x3: string,
                      s3: string, x4: string, t: string)
    ensures var p := h + x1 + s1 + x2 + s2 + x3 + s3 + x4 + t;
      Contains(p, x1) && Contains(p, x2) && Contains(p, x3) && Contains(p, x4)
  {
    var p := h + x1 + s1 + x2 + s2 + x3 + s3 + x4 + t;
    assert p == h + x1 + (s1 + x2 + s2 + x3 + s3 + x4 + t);
    ContainsMiddle(h, x1, s1 + x2 + s2 + x3 + s3 + x4 + t);
    assert p == (h + x1 + s1) + x2 + (s2 + x3 + s3 + x4 + t);
    ContainsMiddle(h + x1 + s1, x2, s2 + x3 + s3 + x4 + t);
    assert p == (h + x1 + s1 + x2 + s2) + x3 + (s3 + x4 + t);
    ContainsMiddle(h + x1 + s1 + x2 + s2, x3, s3 + x4 + t);
    ContainsMiddle(h + x1 + s1 + x2 + s2 + x3 + s3, x4, t);
  }

  /**
   * The prompt carries the top module name, the baseline summary and the
   * goal, and holds the whole bundle between a `verilog` fence opener and a
   * closing fence.
   */
  lemma DesignPromptEmbeds(ind: string, bundleInd: string, closing: string,
                           query: string, top: string, baseSummary: string, bundle: string)
    ensures var p := DesignPrompt(ind, bundleInd, closing, query, top, baseSummary, bundle);
      && Contains(p, top)
      && Contains(p, baseSummary)
      && Contains(p, FenceOpen + "\n" + bundleInd + bundle + "\n" + ind + Fence)
      && Contains(p, query)
  {
    ContainsSlots(PromptHead(ind), top, AfterTop(ind), baseSummary, BundleIntro(ind),
                  Fenced(ind, bundleInd, bundle), GoalIntro(ind), query, PromptEnd(closing));
  }
}

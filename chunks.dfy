/**
 * The shape of a chat-model chunk as the streaming code inspects it.
 *
 * A chunk's `content` is a string, a list of parts, or something else. A part
 * is a dict (with the keys `type`, `text`, `summary` and `output_text` the
 * code reads) or some other object (of which only a `text` attribute is
 * read). A reasoning summary is a list of items, each a dict with an
 * optional integer `index` and a `text`. Python's dynamic values are
 * reduced to what the code tests of them: absent, a string, or some other
 * value together with its truthiness.
 */
module Chunks {
  import opened Common

  /** A looked-up value: missing, a string, or a value of another type. */
  datatype Field = Absent | Str(s: string) | NonStr(truthy: bool)

  /** Python truthiness of the looked-up value (`None` when missing). */
  predicate Truthy(f: Field) {
    match f
    case Absent => false
    case Str(s) => s != ""
    case NonStr(t) => t
  }

  /** `f == s` for a string `s`. */
  predicate IsText(f: Field, s: string) {
    f == Str(s)
  }

  /** One entry of a reasoning summary list. */
  datatype SummaryItem =
    | NonDictItem
    | DictItem(index: Option<int>, text: Field)

  /** The `summary` key of a reasoning part. */
  datatype Summary = NoSummary | SummaryList(items: seq<SummaryItem>) | SummaryNotList

  /** The `output_text` key of a part: missing, a dict with an optional `content`, or something else. */
  datatype OutputText = NoOutputText | OutputTextDict(content: Field) | OutputTextOther

  datatype Part =
    | NonDictPart(attrText: Field)
    | DictPart(partType: Field, text: Field, summary: Summary, outputText: OutputText)

  datatype Content = StrContent(s: string) | ListContent(parts: seq<Part>) | OtherContent

  /** A reasoning part: a dict whose `type` is "reasoning". */
  predicate IsReasoning(p: Part) {
    p.DictPart? && IsText(p.partType, "reasoning")
  }

  /** `summary.get("index", 0)`. */
  function ItemIndex(index: Option<int>): int {
    index.GetOr(0)
  }

  /** The two kinds of streamed output. */
  datatype Kind = Think | Text

  /** A yielded `(kind, value)` pair. */
  datatype Emission = Emission(kind: Kind, value: Field)

  function ThinkText(s: string): Emission {
    Emission(Think, Str(s))
  }

  function AnswerText(s: string): Emission {
    Emission(Text, Str(s))
  }

  /** The concatenated string values of the think emissions. */
  function ThoughtOf(out: seq<Emission>): string {
    if out == [] then ""
    else
      var last := out[|out| - 1];
      ThoughtOf(out[..|out| - 1]) + (if last.kind == Think && last.value.Str? then last.value.s else "")
  }

  lemma {:induction false} ThoughtOfAppend(a: seq<Emission>, b: seq<Emission>)
    ensures ThoughtOf(a + b) == ThoughtOf(a) + ThoughtOf(b)
    decreases |b|
  {
    if b == [] {
      assert a + b == a;
    } else {
      assert (a + b)[..|a + b| - 1] == a + b[..|b| - 1];
      ThoughtOfAppend(a, b[..|b| - 1]);
    }
  }

  /** `"".join(pieces)`. */
  function Concat(pieces: seq<string>): string {
    if pieces == [] then "" else Concat(pieces[..|pieces| - 1]) + pieces[|pieces| - 1]
  }

  /**
   * Runs `step` over `xs` from the state `s`: the final state and every
   * emission in order. This is the shape of each streaming loop: a state
   * carried from item to item and the pairs it yields.
   */
  function Scan<S, X>(step: (S, X) -> (S, seq<Emission>), s: S, xs: seq<X>): (S, seq<Emission>)
    decreases |xs|
  {
    if xs == [] then (s, [])
    else
      var before := Scan(step, s, xs[..|xs| - 1]);
      var last := step(before.0, xs[|xs| - 1]);
      (last.0, before.1 + last.1)
  }

  /** One more item extends the scan by one step. */
  lemma ScanSnoc<S, X>(step: (S, X) -> (S, seq<Emission>), s: S, xs: seq<X>, x: X)
    ensures Scan(step, s, xs + [x]).0 == step(Scan(step, s, xs).0, x).0
    ensures Scan(step, s, xs + [x]).1 == Scan(step, s, xs).1 + step(Scan(step, s, xs).0, x).1
  {
    assert (xs + [x])[..|xs|] == xs;
  }

  /** Scanning `a + b` is scanning `a`, then `b` from where `a` left off. */
  lemma {:induction false} ScanAppend<S, X>(step: (S, X) -> (S, seq<Emission>), s: S, a: seq<X>, b: seq<X>)
    ensures Scan(step, s, a + b).0 == Scan(step, Scan(step, s, a).0, b).0
    ensures Scan(step, s, a + b).1 == Scan(step, s, a).1 + Scan(step, Scan(step, s, a).0, b).1
    decreases |b|
  {
    if b == [] {
      assert a + b == a;
    } else {
      var b' := b[..|b| - 1];
      assert a + b == (a + b') + [b[|b| - 1]];
      assert b == b' + [b[|b| - 1]];
      ScanAppend(step, s, a, b');
      ScanSnoc(step, s, a + b', b[|b| - 1]);
      ScanSnoc(step, Scan(step, s, a).0, b', b[|b| - 1]);
    }
  }
}

/**
 * The event translator of the MATLAB assistant: it turns the chat model's
 * `astream_events` stream into `("think", …)` and `("text", …)` pairs.
 *
 * Reasoning arrives as indexed summary items whose text grows by prefix
 * extension; a cache keeps the last text seen for each index, and only the
 * part of a new text beyond its longest common prefix with the cached text
 * is emitted. The model itself is not here: its stream is the input
 * sequence of events.
 */
module ReasoningStream {
  import opened Common
  import opened Chunks

  const ChatModelStream: string := "on_chat_model_stream"

  /** One event of the stream: its `event` tag and the `content` of `data.chunk`. */
  datatype StreamEvent = StreamEvent(event: Field, content: Content)

  /** `reasoning_cache`: the last text seen for each summary index. */
  type Cache = map<int, string>

  /** `reasoning_cache.get(idx, "")`. */
  function Cached(cache: Cache, i: int): string {
    if i in cache then cache[i] else ""
  }

  // ---------------------------------------------------------------------
  // Longest common prefix
  // ---------------------------------------------------------------------

  /** The length of the longest common prefix of `a` and `b`. */
  function CommonPrefix(a: string, b: string): (n: nat)
    ensures n <= |a| && n <= |b|
    ensures a[..n] == b[..n]
    ensures n < |a| && n < |b| ==> a[n] != b[n]
  {
    if a == [] || b == [] || a[0] != b[0] then 0
    else 1 + CommonPrefix(a[1..], b[1..])
  }

  /** The three properties of `CommonPrefix` pin the length down. */
  lemma {:induction false} CommonPrefixUnique(a: string, b: string, n: nat)
    requires n <= |a| && n <= |b| && a[..n] == b[..n]
    requires n < |a| && n < |b| ==> a[n] != b[n]
    ensures n == CommonPrefix(a, b)
  {
    if n > 0 {
      assert a[0] == a[..n][0] == b[..n][0] == b[0];
      assert a[1..][..n - 1] == a[..n][1..] == b[..n][1..] == b[1..][..n - 1];
      CommonPrefixUnique(a[1..], b[1..], n - 1);
    } else if a != [] && b != [] {
      assert a[0] != b[0];
    }
  }

  /** A text that extends the cached one shares all of it. */
  lemma CommonPrefixOfExtension(prev: string, t: string)
    requires prev <= t
    ensures CommonPrefix(prev, t) == |prev|
  {
    CommonPrefixUnique(prev, t, |prev|);
  }

  /** The `common_prefix_len` loop over `zip(prev, text)`. */
  method CommonPrefixLength(prev: string, text: string) returns (n: nat)
    ensures n <= |prev| && n <= |text|
    ensures prev[..n] == text[..n]
    ensures n < |prev| && n < |text| ==> prev[n] != text[n]
  {
    n := 0;
    while n < |prev| && n < |text|
      invariant n <= |prev| && n <= |text|
      invariant prev[..n] == text[..n]
      decreases |prev| - n
    {
      if prev[n] != text[n] {
        break;
      }
      n := n + 1;
    }
  }

  // ---------------------------------------------------------------------
  // The specification: one scan step per summary item, part and event
  // ---------------------------------------------------------------------

  /** A summary item the loop acts on: a dict whose `text` is a non-empty string. */
  predicate IsLiveItem(item: SummaryItem) {
    item.DictItem? && item.text.Str? && item.text.s != ""
  }

  /** One summary item: emit the new suffix, then cache the whole text. */
  function SummaryStep(cache: Cache, item: SummaryItem): (Cache, seq<Emission>)
  {
    if !IsLiveItem(item) then (cache, [])
    else
      var i := ItemIndex(item.index);
      var t := item.text.s;
      var suffix := t[CommonPrefix(Cached(cache, i), t)..];
      (cache[i := t], if suffix != "" then [ThinkText(suffix)] else [])
  }

  /** One content part: a reasoning dict with a summary list has its items scanned. */
  function PartStep(cache: Cache, part: Part): (Cache, seq<Emission>)
  {
    if IsReasoning(part) && part.summary.SummaryList? then Scan(SummaryStep, cache, part.summary.items)
    else (cache, [])
  }

  /** The text of an answer part: a non-empty string `text` of a dict that is not reasoning. */
  function PartAnswer(part: Part): string {
    if part.DictPart? && !IsReasoning(part) && part.text.Str? then part.text.s else ""
  }

  function PartsAnswer(parts: seq<Part>): string
  {
    if parts == [] then "" else PartsAnswer(parts[..|parts| - 1]) + PartAnswer(parts[|parts| - 1])
  }

  /** `_extract_text_from_chunk`: the answer text a chunk carries. */
  function AnswerOf(content: Content): string {
    match content
    case StrContent(s) => s
    case ListContent(parts) => PartsAnswer(parts)
    case OtherContent => ""
  }

  /** The pairs a model-stream chunk yields: its reasoning suffixes, then its answer text if any. */
  function ChunkStep(cache: Cache, content: Content): (Cache, seq<Emission>)
  {
    var think := if content.ListContent? then Scan(PartStep, cache, content.parts) else (cache, []);
    var answer := AnswerOf(content);
    (think.0, think.1 + (if answer != "" then [AnswerText(answer)] else []))
  }

  /** Events other than `on_chat_model_stream` are skipped. */
  function EventStep(cache: Cache, e: StreamEvent): (Cache, seq<Emission>)
  {
    if IsText(e.event, ChatModelStream) then ChunkStep(cache, e.content) else (cache, [])
  }

  /** What `astream_run` yields for a stream of events, starting from an empty cache. */
  function StreamOutput(events: seq<StreamEvent>): seq<Emission> {
    Scan(EventStep, map[], events).1
  }

  // ---------------------------------------------------------------------
  // The loops
  // ---------------------------------------------------------------------

  /** The `for s in summary` loop. */
  method StreamSummary(cache0: Cache, items: seq<SummaryItem>) returns (cache: Cache, out: seq<Emission>)
    ensures (cache, out) == Scan(SummaryStep, cache0, items)
  {
    cache, out := cache0, [];
    var k := 0;
    while k < |items|
      invariant k <= |items|
      invariant (cache, out) == Scan(SummaryStep, cache0, items[..k])
    {
      ScanSnoc(SummaryStep, cache0, items[..k], items[k]);
      assert items[..k + 1] == items[..k] + [items[k]];
      var s := items[k];
      ghost var step := SummaryStep(cache, s);
      k := k + 1;
      if !s.DictItem? {
        assert step == (cache, []) && out + [] == out;
        continue;
      }
      var idx := ItemIndex(s.index);
      if !s.text.Str? || s.text.s == "" {
        assert step == (cache, []) && out + [] == out;
        continue;
      }
      var text := s.text.s;
      var prev := Cached(cache, idx);
      var n := CommonPrefixLength(prev, text);
      CommonPrefixUnique(prev, text, n);
      var newPart := text[n..];
      cache := cache[idx := text];
      if newPart != "" {
        out := out + [ThinkText(newPart)];
      } else {
        assert out + [] == out;
      }
    }
    assert items[..|items|] == items;
  }

  /** The `for part in content` loop of the thinking section. */
  method StreamParts(cache0: Cache, parts: seq<Part>) returns (cache: Cache, out: seq<Emission>)
    ensures (cache, out) == Scan(PartStep, cache0, parts)
  {
    cache, out := cache0, [];
    var k := 0;
    while k < |parts|
      invariant k <= |parts|
      invariant (cache, out) == Scan(PartStep, cache0, parts[..k])
    {
      ScanSnoc(PartStep, cache0, parts[..k], parts[k]);
      assert parts[..k + 1] == parts[..k] + [parts[k]];
      var part := parts[k];
      ghost var step := PartStep(cache, part);
      k := k + 1;
      if !part.DictPart? || !IsText(part.partType, "reasoning") || !part.summary.SummaryList? {
        assert step == (cache, []);
        assert out + [] == out;
        continue;
      }
      var more;
      cache, more := StreamSummary(cache, part.summary.items);
      assert step == (cache, more);
      out := out + more;
    }
    assert parts[..|parts|] == parts;
  }

  /** `_extract_text_from_chunk`. */
  method ExtractTextFromChunk(content: Content) returns (text: string)
    ensures text == AnswerOf(content)
  {
    if content.StrContent? {
      return content.s;
    }
    if content.OtherContent? {
      return "";
    }
    var parts := content.parts;
    text := "";
    var k := 0;
    while k < |parts|
      invariant k <= |parts|
      invariant text == PartsAnswer(parts[..k])
    {
      assert parts[..k + 1][..k] == parts[..k];
      var part := parts[k];
      k := k + 1;
      if !part.DictPart? || IsText(part.partType, "reasoning") {
        continue;
      }
      if part.text.Str? && part.text.s != "" {
        text := text + part.text.s;
      }
    }
    assert parts[..|parts|] == parts;
  }

  /** A chunk's step, given what its parts' scan left. */
  lemma ChunkStepOf(cache: Cache, content: Content, cache1: Cache, think: seq<Emission>)
    requires content.ListContent? ==> (cache1, think) == Scan(PartStep, cache, content.parts)
    requires !content.ListContent? ==> cache1 == cache && think == []
    ensures ChunkStep(cache, content)
      == (cache1, think + (if AnswerOf(content) != "" then [AnswerText(AnswerOf(content))] else []))
  {
  }

  /** `astream_run` once the model's events are known. */
  method AstreamRun(events: seq<StreamEvent>) returns (out: seq<Emission>)
    ensures out == StreamOutput(events)
  {
    var cache: Cache := map[];
    out := [];
    var k := 0;
    while k < |events|
      invariant k <= |events|
      invariant (cache, out) == Scan(EventStep, map[], events[..k])
    {
      ScanSnoc(EventStep, map[], events[..k], events[k]);
      assert events[..k + 1] == events[..k] + [events[k]];
      var more;
      cache, more := HandleEvent(cache, events[k]);
      out := out + more;
      k := k + 1;
    }
    assert events[..|events|] == events;
  }

  /** The body of the `async for event in ...` loop: one event's pairs. */
  method HandleEvent(cache0: Cache, e: StreamEvent) returns (cache: Cache, out: seq<Emission>)
    ensures (cache, out) == EventStep(cache0, e)
  {
    cache, out := cache0, [];
    if !IsText(e.event, ChatModelStream) {
      return;
    }
    if e.content.ListContent? {
      cache, out := StreamParts(cache, e.content.parts);
    }
    var textPiece := ExtractTextFromChunk(e.content);
    ghost var think := out;
    ChunkStepOf(cache0, e.content, cache, think);
    if textPiece != "" {
      out := out + [AnswerText(textPiece)];
    } else {
      assert out + [] == out;
    }
  }

  // ---------------------------------------------------------------------
  // Properties
  // ---------------------------------------------------------------------

  /** An event that is not a model-stream event changes neither the output nor the cache. */
  lemma OtherEventIgnored(before: seq<StreamEvent>, e: StreamEvent, after: seq<StreamEvent>)
    requires !IsText(e.event, ChatModelStream)
    ensures StreamOutput(before + [e] + after) == StreamOutput(before + after)
  {
    var c := Scan(EventStep, map[], before).0;
    ScanAppend(EventStep, map[], before + [e], after);
    ScanSnoc(EventStep, map[], before, e);
    ScanAppend(EventStep, map[], before, after);
  }

  /**
   * A live item emits exactly what its text adds to the cached text of its
   * index when it extends it, and the cache then holds the whole text.
   */
  lemma SuffixCompletes(cache: Cache, i: int, t: string)
    requires t != "" && Cached(cache, i) <= t
    ensures var r := SummaryStep(cache, DictItem(Some(i), Str(t)));
      Cached(cache, i) + ThoughtOf(r.1) == t && Cached(r.0, i) == t
  {
    var prev := Cached(cache, i);
    CommonPrefixOfExtension(prev, t);
    var r := SummaryStep(cache, DictItem(Some(i), Str(t)));
    if t[|prev|..] != "" {
      assert ThoughtOf(r.1) == ThoughtOf([]) + t[|prev|..];
    }
    assert prev + t[|prev|..] == t;
  }

  /** Repeating the cached text of an index emits nothing and leaves the cache as it was. */
  lemma RepeatEmitsNothing(cache: Cache, i: int, t: string)
    requires t != "" && Cached(cache, i) == t
    ensures SummaryStep(cache, DictItem(Some(i), Str(t))) == (cache, [])
  {
    CommonPrefixOfExtension(t, t);
    assert i in cache;
    assert cache[i := t] == cache;
  }

  /** Items without a non-empty string text emit nothing and leave the cache untouched. */
  lemma DeadItemIgnored(cache: Cache, item: SummaryItem)
    requires !IsLiveItem(item)
    ensures SummaryStep(cache, item) == (cache, [])
  {
  }

  /** Each text is non-empty and extends the one before it, the first one extending `prev`. */
  predicate PrefixChain(prev: string, ts: seq<string>) {
    && (|ts| > 0 ==> prev <= ts[0])
    && (forall k :: 0 < k < |ts| ==> ts[k - 1] <= ts[k])
    && (forall k :: 0 <= k < |ts| ==> ts[k] != "")
  }

  /** The summary items `{"index": i, "text": t}` for the texts `ts`. */
  function ItemsAt(i: int, ts: seq<string>): (items: seq<SummaryItem>)
    ensures |items| == |ts|
  {
    if ts == [] then [] else ItemsAt(i, ts[..|ts| - 1]) + [DictItem(Some(i), Str(ts[|ts| - 1]))]
  }

  lemma PrefixChainInit(prev: string, ts: seq<string>)
    requires |ts| > 1 && PrefixChain(prev, ts)
    ensures PrefixChain(prev, ts[..|ts| - 1])
    ensures ts[|ts| - 2] <= ts[|ts| - 1] && ts[|ts| - 1] != ""
  {
  }

  /**
   * Prefix-extending updates at one index: the cached text followed by
   * everything emitted is the last text, so no character is emitted twice.
   */
  lemma {:induction false} PrefixChainStreamsLast(cache: Cache, i: int, ts: seq<string>)
    requires |ts| > 0 && PrefixChain(Cached(cache, i), ts)
    ensures var r := Scan(SummaryStep, cache, ItemsAt(i, ts));
      Cached(cache, i) + ThoughtOf(r.1) == ts[|ts| - 1] && Cached(r.0, i) == ts[|ts| - 1]
    decreases |ts|
  {
    var n := |ts|;
    var init := ItemsAt(i, ts[..n - 1]);
    var t := ts[n - 1];
    assert ItemsAt(i, ts) == init + [DictItem(Some(i), Str(t))];
    ScanSnoc(SummaryStep, cache, init, DictItem(Some(i), Str(t)));
    var before := Scan(SummaryStep, cache, init);
    if n > 1 {
      PrefixChainInit(Cached(cache, i), ts);
      PrefixChainStreamsLast(cache, i, ts[..n - 1]);
      assert ts[..n - 1][n - 2] == ts[n - 2];
    } else {
      assert init == [];
      assert Cached(cache, i) + ThoughtOf([]) == Cached(cache, i);
    }
    ChainStep(Cached(cache, i), before.0, before.1, i, t);
  }

  /** One more prefix-extending item keeps "cached text + emitted reasoning = latest text". */
  lemma ChainStep(c0: string, cache: Cache, out: seq<Emission>, i: int, t: string)
    requires c0 + ThoughtOf(out) == Cached(cache, i)
    requires t != "" && Cached(cache, i) <= t
    ensures var r := SummaryStep(cache, DictItem(Some(i), Str(t)));
      c0 + ThoughtOf(out + r.1) == t && Cached(r.0, i) == t
  {
    var r := SummaryStep(cache, DictItem(Some(i), Str(t)));
    SuffixCompletes(cache, i, t);
    ThoughtOfAppend(out, r.1);
    ConcatAssoc(c0, ThoughtOf(out), ThoughtOf(r.1));
  }

  /** From an empty cache, the emitted reasoning of a prefix chain is exactly its last text. */
  lemma PrefixChainFromEmpty(i: int, ts: seq<string>)
    requires |ts| > 0 && PrefixChain("", ts)
    ensures ThoughtOf(Scan(SummaryStep, map[], ItemsAt(i, ts)).1) == ts[|ts| - 1]
  {
    assert Cached(map[], i) == "";
    PrefixChainStreamsLast(map[], i, ts);
  }

  /** A model-stream event whose one part is a reasoning summary with one item. */
  function ReasoningEvent(i: int, t: string): StreamEvent {
    StreamEvent(Str(ChatModelStream),
                ListContent([DictPart(Str("reasoning"), Absent, SummaryList([DictItem(Some(i), Str(t))]), NoOutputText)]))
  }

  lemma ReasoningEventStep(cache: Cache, i: int, t: string)
    ensures EventStep(cache, ReasoningEvent(i, t)) == SummaryStep(cache, DictItem(Some(i), Str(t)))
  {
    var item := DictItem(Some(i), Str(t));
    var part := DictPart(Str("reasoning"), Absent, SummaryList([item]), NoOutputText);
    var step := SummaryStep(cache, item);
    assert [item] == [] + [item];
    ScanSnoc(SummaryStep, cache, [], item);
    assert Scan(SummaryStep, cache, [item]) == (step.0, [] + step.1);
    assert [] + step.1 == step.1;
    assert IsReasoning(part);
    assert PartStep(cache, part) == step;
    assert [part] == [] + [part];
    ScanSnoc(PartStep, cache, [], part);
    assert Scan(PartStep, cache, [part]) == (step.0, [] + step.1);
    assert PartsAnswer([part]) == PartsAnswer([]) + PartAnswer(part) == "";
    assert ChunkStep(cache, ReasoningEvent(i, t).content) == (step.0, step.1 + []);
    assert step.1 + [] == step.1;
  }

  /** The events carrying the texts `ts` at index `i`, one per event. */
  function EventsAt(i: int, ts: seq<string>): (events: seq<StreamEvent>)
    ensures |events| == |ts|
  {
    if ts == [] then [] else EventsAt(i, ts[..|ts| - 1]) + [ReasoningEvent(i, ts[|ts| - 1])]
  }

  lemma {:induction false} EventsAtScan(cache: Cache, i: int, ts: seq<string>)
    ensures Scan(EventStep, cache, EventsAt(i, ts)) == Scan(SummaryStep, cache, ItemsAt(i, ts))
    decreases |ts|
  {
    if ts != [] {
      var n := |ts|;
      var t := ts[n - 1];
      var es, items := EventsAt(i, ts[..n - 1]), ItemsAt(i, ts[..n - 1]);
      assert EventsAt(i, ts) == es + [ReasoningEvent(i, t)];
      assert ItemsAt(i, ts) == items + [DictItem(Some(i), Str(t))];
      EventsAtScan(cache, i, ts[..n - 1]);
      var before := Scan(EventStep, cache, es);
      ScanSnoc(EventStep, cache, es, ReasoningEvent(i, t));
      ScanSnoc(SummaryStep, cache, items, DictItem(Some(i), Str(t)));
      ReasoningEventStep(before.0, i, t);
    }
  }

  /**
   * The streaming invariant over whole events: when the model sends
   * prefix-extending reasoning updates for one index, the concatenated think
   * output is the final text.
   */
  lemma StreamOfPrefixChain(i: int, ts: seq<string>)
    requires |ts| > 0 && PrefixChain("", ts)
    ensures ThoughtOf(StreamOutput(EventsAt(i, ts))) == ts[|ts| - 1]
    ensures |ThoughtOf(StreamOutput(EventsAt(i, ts)))| == |ts[|ts| - 1]|
  {
    EventsAtScan(map[], i, ts);
    PrefixChainFromEmpty(i, ts);
  }

  /** The items of `items` at index `i`. */
  function ItemsOfIndex(items: seq<SummaryItem>, i: int): seq<SummaryItem> {
    if items == [] then []
    else
      var last := items[|items| - 1];
      ItemsOfIndex(items[..|items| - 1], i) + (if last.DictItem? && ItemIndex(last.index) == i then [last] else [])
  }

  /** What an item emits depends on the cached text of its own index only. */
  lemma EmissionDependsOnOwnIndex(c1: Cache, c2: Cache, item: SummaryItem)
    requires item.DictItem? && Cached(c1, ItemIndex(item.index)) == Cached(c2, ItemIndex(item.index))
    ensures SummaryStep(c1, item).1 == SummaryStep(c2, item).1
  {
  }

  /**
   * Each index has its own cache entry: after a run of items, the entry of
   * index `i` is what the items at `i` alone would leave there.
   */
  lemma {:induction false} CacheIndependent(cache: Cache, items: seq<SummaryItem>, i: int)
    ensures Cached(Scan(SummaryStep, cache, items).0, i) == Cached(Scan(SummaryStep, cache, ItemsOfIndex(items, i)).0, i)
    decreases |items|
  {
    if items != [] {
      var n := |items|;
      var init, last := items[..n - 1], items[n - 1];
      var own := ItemsOfIndex(init, i);
      CacheIndependent(cache, init, i);
      assert items == init + [last];
      ScanSnoc(SummaryStep, cache, init, last);
      if last.DictItem? && ItemIndex(last.index) == i {
        ScanSnoc(SummaryStep, cache, own, last);
      } else {
        assert ItemsOfIndex(items, i) == own + [];
        assert own + [] == own;
      }
    }
  }

  /** Summary scans yield think pairs only. */
  lemma {:induction false} SummaryThinkOnly(cache: Cache, items: seq<SummaryItem>)
    ensures forall k :: 0 <= k < |Scan(SummaryStep, cache, items).1| ==> Scan(SummaryStep, cache, items).1[k].kind == Think
    decreases |items|
  {
    if items != [] {
      SummaryThinkOnly(cache, items[..|items| - 1]);
    }
  }

  lemma {:induction false} PartsThinkOnly(cache: Cache, parts: seq<Part>)
    ensures forall k :: 0 <= k < |Scan(PartStep, cache, parts).1| ==> Scan(PartStep, cache, parts).1[k].kind == Think
    decreases |parts|
  {
    if parts != [] {
      var last := parts[|parts| - 1];
      PartsThinkOnly(cache, parts[..|parts| - 1]);
      var c := Scan(PartStep, cache, parts[..|parts| - 1]).0;
      if IsReasoning(last) && last.summary.SummaryList? {
        SummaryThinkOnly(c, last.summary.items);
      }
    }
  }

  /**
   * A chunk yields its reasoning as think pairs first, and its answer text,
   * when non-empty, as one final text pair.
   */
  lemma ChunkOrder(cache: Cache, content: Content)
    ensures var out := ChunkStep(cache, content).1;
      var answer := AnswerOf(content);
      && (answer != "" <==> |out| > 0 && out[|out| - 1] == AnswerText(answer))
      && forall k :: 0 <= k < |out| - (if answer != "" then 1 else 0) ==> out[k].kind == Think
  {
    if content.ListContent? {
      PartsThinkOnly(cache, content.parts);
    }
  }

  /** Reasoning parts never contribute answer text. */
  lemma ReasoningPartSilent(before: seq<Part>, p: Part, after: seq<Part>)
    requires IsReasoning(p)
    ensures PartsAnswer(before + [p] + after) == PartsAnswer(before + after)
  {
    PartsAnswerAppend(before + [p], after);
    PartsAnswerAppend(before, after);
    assert (before + [p])[..|before|] == before;
  }

  lemma {:induction false} PartsAnswerAppend(a: seq<Part>, b: seq<Part>)
    ensures PartsAnswer(a + b) == PartsAnswer(a) + PartsAnswer(b)
    decreases |b|
  {
    if b == [] {
      assert a + b == a;
    } else {
      assert (a + b)[..|a + b| - 1] == a + b[..|b| - 1];
      PartsAnswerAppend(a, b[..|b| - 1]);
    }
  }
}

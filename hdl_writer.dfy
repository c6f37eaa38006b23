/**
 * The optimised-HDL writer: it turns the model's reply into text, finds the
 * fenced code regions in it, keeps those whose first `// File:` or
 * `-- File:` header names a file, and writes each such file into a fresh
 * run directory next to copies of the original files.
 *
 * The regular expressions of `_parse_file_blocks` are written out as the
 * scans they perform. The file system is the state of a `Writer` object; the
 * clock is a timestamp parameter.
 */
module HdlWriter {
  import opened Common
  import opened Chunks

  // ---------------------------------------------------------------------
  // Fenced regions: ```(?:verilog|systemverilog|vhdl)?\s*(.*?)``` with
  // DOTALL and IGNORECASE, all non-overlapping matches
  // ---------------------------------------------------------------------

  /** Three backticks start at `j`. */
  predicate FenceAt(s: string, j: int) {
    0 <= j && j + 3 <= |s| && s[j] == '`' && s[j + 1] == '`' && s[j + 2] == '`'
  }

  /** The first fence at or after `i`, or -1. */
  function FenceFrom(s: string, i: nat): (r: int)
    requires i <= |s|
    ensures r == -1 || (i <= r && FenceAt(s, r))
    ensures r == -1 ==> forall j :: i <= j ==> !FenceAt(s, j)
    ensures r >= 0 ==> forall j :: i <= j < r ==> !FenceAt(s, j)
    decreases |s| - i
  {
    if i + 3 > |s| then -1
    else if FenceAt(s, i) then i
    else FenceFrom(s, i + 1)
  }

  /** The first fence in `s`, or -1. */
  function FenceIndex(s: string): (r: int)
    ensures r == -1 || FenceAt(s, r)
    ensures r == -1 ==> forall j :: 0 <= j ==> !FenceAt(s, j)
    ensures r >= 0 ==> forall j :: 0 <= j < r ==> !FenceAt(s, j)
  {
    FenceFrom(s, 0)
  }

  /** `s` starts with `w`, ignoring ASCII case. */
  predicate StartsWithIgnoreCase(s: string, w: string) {
    |w| <= |s| && EqualsIgnoreCase(s[..|w|], w)
  }

  /** The length of the language tag after an opening fence: the first alternative that matches, or none. */
  function TagLen(t: string): (n: nat)
    ensures n <= |t|
  {
    if StartsWithIgnoreCase(t, "verilog") then 7
    else if StartsWithIgnoreCase(t, "systemverilog") then 13
    else if StartsWithIgnoreCase(t, "vhdl") then 4
    else 0
  }

  /**
   * The first captured region and the text after it. A region opens at the
   * first fence, skips a tag and the whitespace after it, and ends at the
   * first fence after that. An opening fence that is never closed captures
   * nothing.
   */
  function FirstRegion(s: string): (r: Option<(string, string)>)
    ensures r.Some? ==> |r.value.1| < |s|
  {
    var o := FenceIndex(s);
    if o < 0 then None
    else
      var t := s[o + 3..];
      var v := LStrip(t[TagLen(t)..]);
      var c := FenceIndex(v);
      if c < 0 then None else Some((v[..c], v[c + 3..]))
  }

  /** The captured regions, left to right: the search goes on after each closing fence. */
  function Blocks(s: string): (bs: seq<string>)
    decreases |s|
  {
    match FirstRegion(s)
    case None => []
    case Some((b, after)) => [b] + Blocks(after)
  }

  /** A region body that a closing fence right after it would end exactly there. */
  predicate Unfenced(body: string) {
    && (forall j :: 0 <= j < |body| ==> !FenceAt(body, j))
    && (body == [] || body[|body| - 1] != '`')
  }

  /** The first region ends at the first fence after its start. */
  lemma RegionUnfenced(s: string)
    requires FirstRegion(s).Some?
    ensures forall j :: 0 <= j ==> !FenceAt(FirstRegion(s).value.0, j)
  {
    var o := FenceIndex(s);
    var t := s[o + 3..];
    var v := LStrip(t[TagLen(t)..]);
    var c := FenceIndex(v);
    var b := v[..c];
    assert FirstRegion(s).value.0 == b;
    forall j | 0 <= j
      ensures !FenceAt(b, j)
    {
      if FenceAt(b, j) {
        assert FenceAt(v, j);
      }
    }
  }

  /** A captured region never holds three backticks: the match ends at the first closing fence. */
  lemma {:induction false} BlocksUnfenced(s: string)
    ensures forall k, j :: 0 <= k < |Blocks(s)| && 0 <= j ==> !FenceAt(Blocks(s)[k], j)
    decreases |s|
  {
    match FirstRegion(s)
    case None =>
    case Some((b, after)) =>
      RegionUnfenced(s);
      BlocksUnfenced(after);
      assert Blocks(s) == [b] + Blocks(after);
  }

  /** Text without a backtick has no fence. */
  lemma NoBacktickNoFence(s: string)
    requires '`' !in s
    ensures FenceIndex(s) == -1
  {
    if FenceIndex(s) >= 0 {
      assert s[FenceIndex(s)] == '`';
    }
  }

  /** Text with no fence yields no region; so does an opening fence that is never closed. */
  lemma NoClosingNoBlocks(pre: string, post: string)
    requires '`' !in pre && '`' !in post
    ensures Blocks(pre) == []
    ensures Blocks(pre + "```" + post) == []
  {
    NoBacktickNoFence(pre);
    var s := pre + ("```" + post);
    assert s == pre + "```" + post;
    FirstFenceAfter(pre, "```" + post);
    var t := s[|pre| + 3..];
    assert t == post;
    var u := t[TagLen(t)..];
    LStripSuffix(u);
    var v := LStrip(u);
    assert forall j :: 0 <= j < |v| ==> v[j] == t[TagLen(t) + |u| - |v| + j];
    NoBacktickNoFence(v);
  }

  /** What `LStrip` leaves is a suffix of its argument. */
  lemma {:induction false} LStripSuffix(s: string)
    ensures s[|s| - |LStrip(s)|..] == LStrip(s)
    decreases |s|
  {
    if |s| > 0 && IsSpace(s[0]) {
      LStripSuffix(s[1..]);
    }
  }

  /** The first fence of `pre + rest` is the one `rest` starts with, when `pre` has no backtick. */
  lemma FirstFenceAfter(pre: string, rest: string)
    requires '`' !in pre && FenceAt(rest, 0)
    ensures FenceIndex(pre + rest) == |pre|
  {
    var s := pre + rest;
    assert FenceAt(s, |pre|);
    assert forall j :: 0 <= j < |pre| ==> s[j] == pre[j];
  }

  /** A closing fence right after an unfenced body is the first fence of the two. */
  lemma ClosingFenceAfter(body: string, rest: string)
    requires Unfenced(body) && FenceAt(rest, 0)
    ensures FenceIndex(body + rest) == |body|
  {
    var v := body + rest;
    assert FenceAt(v, |body|);
    forall j | 0 <= j < |body|
      ensures !FenceAt(v, j)
    {
      if j + 3 <= |body| {
        assert v[j..j + 3] == body[j..j + 3];
        assert !FenceAt(body, j);
      } else {
        assert v[|body| - 1] == body[|body| - 1];
      }
    }
  }

  /** One of the three language tags the fence pattern accepts, in any case. */
  predicate IsTag(w: string) {
    EqualsIgnoreCase(w, "verilog") || EqualsIgnoreCase(w, "systemverilog") || EqualsIgnoreCase(w, "vhdl")
  }

  /**
   * A `verilog`, `systemverilog` or `vhdl` tag, in any case, is skipped whole
   * whatever follows it: `systemverilog` is not cut short at a `verilog` it
   * does not start with, and `vhdl` is told apart by its second letter.
   */
  lemma TagSkipped(w: string, rest: string)
    requires IsTag(w)
    ensures TagLen(w + rest) == |w|
  {
    var t := w + rest;
    assert t[..|w|] == w;
    if EqualsIgnoreCase(w, "verilog") {
      assert StartsWithIgnoreCase(t, "verilog");
    } else if EqualsIgnoreCase(w, "systemverilog") {
      assert t[..7][0] == t[0] && Lower(t[0]) == Lower(w[0]) == 's';
      assert !StartsWithIgnoreCase(t, "verilog");
      assert StartsWithIgnoreCase(t, "systemverilog");
    } else {
      assert Lower(t[1]) == Lower(w[1]) == 'h';
      assert Lower(t[0]) == Lower(w[0]) == 'v';
      assert |t| >= 7 ==> t[..7][1] == t[1];
      assert |t| >= 13 ==> t[..13][0] == t[0];
      assert !StartsWithIgnoreCase(t, "verilog");
      assert !StartsWithIgnoreCase(t, "systemverilog");
    }
  }

  /** What `TagLen` skips is always a whole tag, and nothing is skipped exactly when no tag starts the text. */
  lemma TagLenExact(t: string)
    ensures TagLen(t) > 0 ==> IsTag(t[..TagLen(t)])
    ensures TagLen(t) == 0 <==> (forall w :: IsTag(w) ==> !StartsWithIgnoreCase(t, w))
  {
    if TagLen(t) > 0 {
      assert StartsWithIgnoreCase(t, t[..TagLen(t)]);
    }
  }

  /** A fence followed by neither a `v` nor an `s`, in any case, has no tag: nothing is skipped. */
  lemma NoTag(t: string)
    requires t == [] || (Lower(t[0]) != 'v' && Lower(t[0]) != 's')
    ensures TagLen(t) == 0
  {
    if t != [] {
      assert Lower("verilog"[0]) == 'v' && Lower("systemverilog"[0]) == 's' && Lower("vhdl"[0]) == 'v';
      if |t| >= 4 {
        assert t[..4][0] == t[0];
      }
      if |t| >= 7 {
        assert t[..7][0] == t[0];
      }
      if |t| >= 13 {
        assert t[..13][0] == t[0];
      }
    }
  }

  /** One region, given where its fences are. */
  lemma BlocksStep(s: string, o: nat, v: string, c: nat)
    requires FenceIndex(s) == o
    requires var t := s[o + 3..]; v == LStrip(t[TagLen(t)..])
    requires FenceIndex(v) == c
    ensures Blocks(s) == [v[..c]] + Blocks(v[c + 3..])
  {
    var r := FirstRegion(s);
    assert r == Some((v[..c], v[c + 3..]));
    assert Blocks(s) == [r.value.0] + Blocks(r.value.1);
  }

  /**
   * A region opened by a fence and a language tag (then whitespace, a body
   * that starts with no whitespace and holds no fence, a closing fence) is
   * captured whole, and scanning goes on after it.
   */
  lemma FencedBody(pre: string, w: string, ws: string, body: string, post: string)
    requires '`' !in pre && IsTag(w) && AllSpace(ws) && Unfenced(body)
    requires body == [] || !IsSpace(body[0])
    ensures Blocks(pre + "```" + w + ws + body + "```" + post) == [body] + Blocks(post)
  {
    var v := body + ("```" + post);
    var t := w + (ws + v);
    var s := pre + ("```" + t);
    FencedShape(pre, w, ws, body, post, v, t, s);
    FencedRegion(pre, w, ws, body, post, v, t, s);
  }

  /** `FencedBody` on the text built right to left. */
  lemma FencedRegion(pre: string, w: string, ws: string, body: string, post: string, v: string, t: string, s: string)
    requires '`' !in pre && IsTag(w) && AllSpace(ws) && Unfenced(body)
    requires body == [] || !IsSpace(body[0])
    requires v == body + ("```" + post) && t == w + (ws + v) && s == pre + ("```" + t)
    ensures Blocks(s) == [body] + Blocks(post)
  {
    FencedParts(pre, w, ws, body, post, v, t, s);
    FirstFenceAfter(pre, "```" + t);
    TagSkipped(w, ws + v);
    assert t[TagLen(t)..] == ws + v;
    assert v[0] == if body == [] then '`' else body[0];
    LStripPadded(ws, v);
    assert LStrip(s[|pre| + 3..][TagLen(t)..]) == v;
    ClosingFenceAfter(body, "```" + post);
    BlocksStep(s, |pre|, v, |body|);
  }

  /** Where the pieces of a fenced region sit in its text. */
  lemma FencedParts(pre: string, w: string, ws: string, body: string, post: string, v: string, t: string, s: string)
    requires v == body + ("```" + post) && t == w + (ws + v) && s == pre + ("```" + t)
    ensures s == pre + "```" + w + ws + body + "```" + post
    ensures s[|pre| + 3..] == t && t[|w|..] == ws + v
    ensures v[..|body|] == body && v[|body| + 3..] == post
  {
    FencedShape(pre, w, ws, body, post, v, t, s);
    assert s[|pre| + 3..] == t;
    assert t[|w|..] == ws + v;
    assert v[..|body|] == body;
    assert v[|body| + 3..] == post;
  }

  /** The right-nested text of a fenced region is its left-nested text. */
  lemma FencedShape(pre: string, w: string, ws: string, body: string, post: string, v: string, t: string, s: string)
    requires v == body + ("```" + post) && t == w + (ws + v) && s == pre + ("```" + t)
    ensures s == pre + "```" + w + ws + body + "```" + post
  {
    var f := "```";
    ConcatAssoc(body, f, post);
    ConcatAssoc(ws, body + f, post);
    ConcatAssoc(ws, body, f);
    assert ws + v == ws + body + f + post;
    ConcatAssoc(w, ws + body + f, post);
    ConcatAssoc(w, ws + body, f);
    ConcatAssoc(w, ws, body);
    assert t == w + ws + body + f + post;
    ConcatAssoc(f, w + ws + body + f, post);
    ConcatAssoc(f, w + ws + body, f);
    ConcatAssoc(f, w + ws, body);
    ConcatAssoc(f, w, ws);
    assert f + t == f + w + ws + body + f + post;
    ConcatAssoc(pre, f + w + ws + body + f, post);
    ConcatAssoc(pre, f + w + ws + body, f);
    ConcatAssoc(pre, f + w + ws, body);
    ConcatAssoc(pre, f + w, ws);
    ConcatAssoc(pre, f, w);
  }

  // ---------------------------------------------------------------------
  // File headers: ^(?://|--)\s*File:\s*(.+)$ with IGNORECASE, matched
  // against the stripped line
  // ---------------------------------------------------------------------

  /** `file_part` handling: strip, cut before the first `(`, strip again. */
  function FileName(g: string): (name: string)
    ensures '(' !in name
  {
    var fp := Strip(g);
    if '(' in fp then
      var cut := fp[..IndexOf(fp, '(')];
      StripLacks(cut, '(');
      Strip(cut)
    else fp
  }

  /** Stripping adds no character. */
  lemma StripLacks(s: string, c: char)
    requires c !in s
    ensures c !in Strip(s)
  {
    assert Strip(s) == RStrip(LStrip(s));
    LStripSuffix(s);
    RStripPrefix(LStrip(s));
    assert forall j :: 0 <= j < |Strip(s)| ==> Strip(s)[j] == LStrip(s)[j];
  }

  /** What `RStrip` leaves is a prefix of its argument. */
  lemma {:induction false} RStripPrefix(s: string)
    ensures RStrip(s) == s[..|RStrip(s)|]
    decreases |s|
  {
    if |s| > 0 && IsSpace(s[|s| - 1]) {
      RStripPrefix(s[..|s| - 1]);
    }
  }

  /** The group the header pattern captures on a stripped line, or `None` when the line is no header. */
  function HeaderGroup(s: string): Option<string> {
    if |s| >= 2 && (s[..2] == "//" || s[..2] == "--") then
      var rest := LStrip(s[2..]);
      if StartsWithIgnoreCase(rest, "File:") then
        var g := LStrip(rest[5..]);
        if g != "" then Some(g) else None
      else None
    else None
  }

  /** The file name a region line declares, if it is a header. */
  function HeaderName(line: string): Option<string> {
    match HeaderGroup(Strip(line))
    case None => None
    case Some(g) => Some(FileName(g))
  }

  /** A comment marker the header pattern accepts. */
  predicate IsMarker(m: string) {
    m == "//" || m == "--"
  }

  /** The stripped header shape: a marker, spaces, `File:` in any case, spaces, and a name part. */
  lemma HeaderShape(m: string, ws1: string, f: string, ws2: string, g: string)
    requires IsMarker(m) && AllSpace(ws1) && AllSpace(ws2) && EqualsIgnoreCase(f, "File:")
    requires g != [] && !IsSpace(g[0])
    ensures HeaderGroup(m + ws1 + f + ws2 + g) == Some(g)
  {
    var s := m + (ws1 + (f + (ws2 + g)));
    assert s == m + ws1 + f + ws2 + g;
    assert s[..2] == m && s[2..] == ws1 + (f + (ws2 + g));
    assert Lower(f[0]) == 'f';
    LStripPadded(ws1, f + (ws2 + g));
    var rest := f + (ws2 + g);
    assert rest[..5] == f && rest[5..] == ws2 + g;
    LStripPadded(ws2, g);
  }

  /** A header line names the file written after `File:`, whatever whitespace surrounds the line and its parts. */
  lemma HeaderPlain(lead: string, m: string, ws1: string, f: string, ws2: string, name: string, trail: string)
    requires AllSpace(lead) && AllSpace(trail)
    requires IsMarker(m) && AllSpace(ws1) && AllSpace(ws2) && EqualsIgnoreCase(f, "File:")
    requires name != [] && Stripped(name) && '(' !in name
    ensures HeaderName(lead + m + ws1 + f + ws2 + name + trail) == Some(name)
  {
    var core := m + ws1 + f + ws2 + name;
    assert lead + m + ws1 + f + ws2 + name + trail == lead + core + trail;
    assert core[|core| - 1] == name[|name| - 1];
    StripPadded(lead, core, trail);
    HeaderShape(m, ws1, f, ws2, name);
    StripStripped(name);
  }

  /** A note in parentheses after the name, such as `(UPDATED)`, is cut off. */
  lemma HeaderNote(lead: string, m: string, ws1: string, f: string, ws2: string, name: string, ws3: string,
                   note: string, trail: string)
    requires AllSpace(lead) && AllSpace(trail)
    requires IsMarker(m) && AllSpace(ws1) && AllSpace(ws2) && EqualsIgnoreCase(f, "File:")
    requires name != [] && Stripped(name) && '(' !in name && AllSpace(ws3)
    ensures HeaderName(lead + m + ws1 + f + ws2 + name + ws3 + "(" + note + ")" + trail) == Some(name)
  {
    var g := name + ws3 + "(" + note + ")";
    var core := m + ws1 + f + ws2 + g;
    assert lead + m + ws1 + f + ws2 + name + ws3 + "(" + note + ")" + trail == lead + core + trail;
    assert core[|core| - 1] == ')';
    StripPadded(lead, core, trail);
    HeaderShape(m, ws1, f, ws2, g);
    FileNameNote(name, ws3, note);
  }

  /** The name part `name (note)` gives `name`. */
  lemma FileNameNote(name: string, ws3: string, note: string)
    requires name != [] && Stripped(name) && '(' !in name && AllSpace(ws3)
    ensures FileName(name + ws3 + "(" + note + ")") == name
  {
    var g := name + ws3 + "(" + note + ")";
    assert g[|g| - 1] == ')' && g[0] == name[0];
    StripStripped(g);
    var a := name + ws3;
    assert '(' !in ws3;
    assert g == a + ['('] + (note + ")");
    IndexOfAfter(a, '(', note + ")");
    assert g[..|a|] == a;
    StripPadded([], name, ws3);
    assert [] + name + ws3 == a;
  }

  /** A name part that starts with `(` gives the empty file name. */
  lemma HeaderNoteOnly(note: string)
    ensures FileName("(" + note) == ""
  {
    var g := "(" + note;
    assert g[0] == '(';
    assert LStrip(g) == g;
    RStripKeepsFirst(g);
    RStripPrefix(g);
    assert Strip(g)[0] == '(';
  }

  lemma {:induction false} RStripKeepsFirst(s: string)
    requires s != [] && !IsSpace(s[0])
    ensures RStrip(s) != []
    decreases |s|
  {
    if IsSpace(s[|s| - 1]) {
      RStripKeepsFirst(s[..|s| - 1]);
    }
  }

  // ---------------------------------------------------------------------
  // One region
  // ---------------------------------------------------------------------

  /** The first `Some` that `f` gives along `xs`. */
  function FirstOf<T, U>(xs: seq<T>, f: T -> Option<U>): Option<U>
  {
    if xs == [] then None
    else
      var r := FirstOf(xs[..|xs| - 1], f);
      if r.Some? then r else f(xs[|xs| - 1])
  }

  /** The result is that of the first element that gives one, whatever follows it. */
  lemma {:induction false} FirstOfAt<T, U>(xs: seq<T>, f: T -> Option<U>, k: nat)
    requires k < |xs| && f(xs[k]).Some?
    requires forall j :: 0 <= j < k ==> f(xs[j]).None?
    ensures FirstOf(xs, f) == f(xs[k])
    decreases |xs|
  {
    if k < |xs| - 1 {
      FirstOfAt(xs[..|xs| - 1], f, k);
    } else {
      FirstOfNone(xs[..|xs| - 1], f);
    }
  }

  /** No element gives a result: none. */
  lemma {:induction false} FirstOfNone<T, U>(xs: seq<T>, f: T -> Option<U>)
    requires forall j :: 0 <= j < |xs| ==> f(xs[j]).None?
    ensures FirstOf(xs, f) == None
    decreases |xs|
  {
    if xs != [] {
      FirstOfNone(xs[..|xs| - 1], f);
    }
  }

  /** The file name of a region: that of its first header line; later headers are ignored. */
  function FirstHeader(lines: seq<string>): Option<string> {
    FirstOf(lines, HeaderName)
  }

  /** The stored code: all region lines, header included, joined by `\n`, stripped, with one `\n` appended. */
  function BlockBody(block: string): string {
    Strip(Join(SplitLines(block), "\n")) + "\n"
  }

  /** The stored code is the stripped region with one line break: splitting into lines and joining back loses nothing else. */
  lemma BlockBodyStripped(block: string)
    ensures BlockBody(block) == Strip(block) + "\n"
  {
    var j := Join(SplitLines(block), "\n");
    JoinSplitLines(block);
    if block != [] && block[|block| - 1] == '\n' {
      assert block == j + "\n";
      StripNewline(j);
    } else {
      assert block == j + "";
      assert j + "" == j;
    }
  }

  /** A trailing line break does not change what `strip` keeps. */
  lemma StripNewline(x: string)
    ensures Strip(x + "\n") == Strip(x)
  {
    if AllSpace(x) {
      StripPadded(x, [], []);
      StripPadded(x + "\n", [], []);
      assert x + [] + [] == x;
      assert x + "\n" + [] + [] == x + "\n";
    } else {
      LStripAppend(x, "\n");
      var l := LStrip(x);
      assert (l + "\n")[..|l|] == l;
    }
  }

  lemma {:induction false} LStripAppend(x: string, y: string)
    requires !AllSpace(x)
    ensures LStrip(x + y) == LStrip(x) + y
    decreases |x|
  {
    if IsSpace(x[0]) {
      assert (x + y)[1..] == x[1..] + y;
      LStripAppend(x[1..], y);
    }
  }

  /** The file name and code a region contributes: none when it has no header or the name is empty. */
  function BlockEntry(block: string): Option<(string, string)> {
    var name := FirstHeader(SplitLines(block));
    if name.Some? && name.value != "" then Some((name.value, BlockBody(block))) else None
  }

  // ---------------------------------------------------------------------
  // All regions
  // ---------------------------------------------------------------------

  /** A dict from file name to code, with its keys in insertion order. */
  datatype FileMap = FileMap(names: seq<string>, code: map<string, string>)

  /** The keys are distinct and are exactly the names with code. */
  ghost predicate ValidMap(m: FileMap) {
    && (forall i, j :: 0 <= i < j < |m.names| ==> m.names[i] != m.names[j])
    && (forall k :: k in m.code <==> k in m.names)
  }

  const EmptyMap: FileMap := FileMap([], map[])

  /** `d[k] = v`: a new key goes last, an existing key keeps its place and gets the new value. */
  function Put(m: FileMap, k: string, v: string): FileMap {
    FileMap(if k in m.code then m.names else m.names + [k], m.code[k := v])
  }

  /**
   * The dict after the given regions, one after the other, where `entry`
   * gives the file name and code a region contributes, if any.
   */
  function Collect<T>(bs: seq<T>, entry: T -> Option<(string, string)>): FileMap {
    if bs == [] then EmptyMap
    else
      var m := Collect(bs[..|bs| - 1], entry);
      match entry(bs[|bs| - 1])
      case None => m
      case Some((k, v)) => Put(m, k, v)
  }

  /** The result of `_parse_file_blocks`. */
  function FileBlocks(text: string): FileMap {
    Collect(Blocks(text), BlockEntry)
  }

  /**
   * A region whose first line is a header naming a file contributes that
   * name and the whole stripped region, header line included.
   */
  lemma HeaderFirstLine(header: string, rest: string, name: string)
    requires '\n' !in header && HeaderName(header) == Some(name) && name != ""
    ensures BlockEntry(header + "\n" + rest) == Some((name, Strip(header + "\n" + rest) + "\n"))
  {
    var block := header + "\n" + rest;
    assert block == header + ['\n'] + rest;
    SplitCons(header, '\n', rest);
    var lines := SplitLines(block);
    assert lines[0] == header;
    FirstOfAt(lines, HeaderName, 0);
    BlockBodyStripped(block);
  }

  /**
   * A reply made of prose without backticks around one tagged region that
   * opens with a header line yields exactly that file, its code being the
   * stripped region.
   */
  lemma OneFileReply(pre: string, w: string, ws: string, header: string, rest: string, post: string, name: string)
    requires '`' !in pre && '`' !in post && IsTag(w)
    requires AllSpace(ws) && header != [] && !IsSpace(header[0]) && '\n' !in header
    requires Unfenced(header + "\n" + rest)
    requires HeaderName(header) == Some(name) && name != ""
    ensures FileBlocks(pre + "```" + w + ws + header + "\n" + rest + "```" + post)
      == FileMap([name], map[name := Strip(header + "\n" + rest) + "\n"])
  {
    var body := header + "\n" + rest;
    OneRegion(pre, w, ws, body, post, pre + "```" + w + ws + header + "\n" + rest + "```" + post);
    HeaderFirstLine(header, rest, name);
    CollectOne(body, BlockEntry, name, Strip(body) + "\n");
  }

  lemma OneRegion(pre: string, w: string, ws: string, body: string, post: string, text: string)
    requires '`' !in pre && '`' !in post && IsTag(w)
    requires AllSpace(ws) && Unfenced(body) && (body == [] || !IsSpace(body[0]))
    requires text == pre + "```" + w + ws + body + "```" + post
    ensures Blocks(text) == [body]
  {
    FencedBody(pre, w, ws, body, post);
    NoClosingNoBlocks(post, "");
    assert [body] + Blocks(post) == [body];
  }

  lemma CollectOne<T>(b: T, entry: T -> Option<(string, string)>, k: string, v: string)
    requires entry(b) == Some((k, v))
    ensures Collect([b], entry) == FileMap([k], map[k := v])
  {
    assert [b][..0] == [];
  }

  /** The dict stays well formed. */
  lemma {:induction false} CollectValid<T>(bs: seq<T>, entry: T -> Option<(string, string)>)
    ensures ValidMap(Collect(bs, entry))
    decreases |bs|
  {
    if bs != [] {
      CollectValid(bs[..|bs| - 1], entry);
    }
  }

  /** Region `i` declares the file `k`. */
  predicate Declares<T>(bs: seq<T>, entry: T -> Option<(string, string)>, i: int, k: string) {
    0 <= i < |bs| && entry(bs[i]).Some? && entry(bs[i]).value.0 == k
  }

  /** A file name is a key exactly when some region declares it. */
  lemma {:induction false} CollectKeys<T>(bs: seq<T>, entry: T -> Option<(string, string)>, k: string)
    ensures k in Collect(bs, entry).code <==> exists i :: Declares(bs, entry, i, k)
    decreases |bs|
  {
    if bs != [] {
      var init := bs[..|bs| - 1];
      CollectKeys(init, entry, k);
      var last := bs[|bs| - 1];
      if exists i :: Declares(init, entry, i, k) {
        var i :| Declares(init, entry, i, k);
        assert Declares(bs, entry, i, k);
      }
      if exists i :: Declares(bs, entry, i, k) {
        var i :| Declares(bs, entry, i, k);
        if i < |init| {
          assert Declares(init, entry, i, k);
        }
      }
      if k in Collect(bs, entry).code && k !in Collect(init, entry).code {
        assert Declares(bs, entry, |init|, k);
      }
    }
  }

  /** Regions that do not declare `k` leave its code alone. */
  lemma {:induction false} CollectKeeps<T>(a: seq<T>, c: seq<T>, entry: T -> Option<(string, string)>, k: string)
    requires k in Collect(a, entry).code
    requires forall i :: 0 <= i < |c| ==> !Declares(c, entry, i, k)
    ensures k in Collect(a + c, entry).code && Collect(a + c, entry).code[k] == Collect(a, entry).code[k]
    decreases |c|
  {
    if c != [] {
      var c' := c[..|c| - 1];
      assert (a + c)[..|a + c| - 1] == a + c';
      forall i | 0 <= i < |c'|
        ensures !Declares(c', entry, i, k)
      {
        assert c'[i] == c[i] && !Declares(c, entry, i, k);
      }
      CollectKeeps(a, c', entry, k);
      assert !Declares(c, entry, |c| - 1, k);
    } else {
      assert a + c == a;
    }
  }

  /** When several regions declare the same file, the last of them supplies its code. */
  lemma LaterWins<T>(a: seq<T>, b: T, c: seq<T>, entry: T -> Option<(string, string)>, k: string, v: string)
    requires entry(b) == Some((k, v))
    requires forall i :: 0 <= i < |c| ==> !Declares(c, entry, i, k)
    ensures k in Collect(a + [b] + c, entry).code && Collect(a + [b] + c, entry).code[k] == v
  {
    assert (a + [b])[..|a|] == a;
    CollectKeeps(a + [b], c, entry, k);
  }

  /** Keys are only ever added at the end: a name keeps the place its first region gave it. */
  lemma {:induction false} NamesGrow<T>(a: seq<T>, c: seq<T>, entry: T -> Option<(string, string)>)
    ensures |Collect(a, entry).names| <= |Collect(a + c, entry).names|
    ensures Collect(a + c, entry).names[..|Collect(a, entry).names|] == Collect(a, entry).names
    decreases |c|
  {
    if c != [] {
      var c' := c[..|c| - 1];
      assert (a + c)[..|a + c| - 1] == a + c';
      NamesGrow(a, c', entry);
    } else {
      assert a + c == a;
    }
  }

  /** The result is empty exactly when no region declares a file, the case that makes the writer raise. */
  lemma NoEntriesEmpty<T>(bs: seq<T>, entry: T -> Option<(string, string)>)
    ensures Collect(bs, entry).names == [] <==> forall i :: 0 <= i < |bs| ==> entry(bs[i]).None?
  {
    CollectValid(bs, entry);
    if Collect(bs, entry).names == [] {
      forall i | 0 <= i < |bs|
        ensures entry(bs[i]).None?
      {
        if entry(bs[i]).Some? {
          CollectKeys(bs, entry, entry(bs[i]).value.0);
          assert Declares(bs, entry, i, entry(bs[i]).value.0);
        }
      }
    } else {
      CollectKeys(bs, entry, Collect(bs, entry).names[0]);
    }
  }

  /** The loop over one region's lines: the file name of its first header, and every line kept. */
  /** The header test of one line: the file name it declares, if it is a header line. */
  method MatchHeader(line: string) returns (filename: Option<string>)
    ensures filename == HeaderName(line)
  {
    var stripped := Strip(line);
    var m := HeaderGroup(stripped);
    if m.None? {
      return None;
    }
    var filePart := Strip(m.value);
    if '(' in filePart {
      filePart := Strip(filePart[..IndexOf(filePart, '(')]);
    }
    assert filePart == FileName(m.value);
    return Some(filePart);
  }

  method ScanRegionLines(lines: seq<string>) returns (filename: Option<string>, cleanedLines: seq<string>)
    ensures filename == FirstHeader(lines) && cleanedLines == lines
  {
    filename := None;
    cleanedLines := [];
    var k := 0;
    while k < |lines|
      invariant k <= |lines|
      invariant filename == FirstOf(lines[..k], HeaderName)
      invariant cleanedLines == lines[..k]
    {
      assert lines[..k + 1][..k] == lines[..k];
      var line := lines[k];
      k := k + 1;
      assert FirstOf(lines[..k], HeaderName) ==
        if filename.Some? then filename else HeaderName(line);
      if filename.None? {
        filename := MatchHeader(line);
      }
      cleanedLines := cleanedLines + [line];
    }
    assert lines[..|lines|] == lines;
  }

  /** `_parse_file_blocks`. */
  method ParseFileBlocks(text: string) returns (blocks: FileMap)
    ensures blocks == FileBlocks(text)
  {
    var regions := Blocks(text);
    blocks := EmptyMap;
    var i := 0;
    while i < |regions|
      invariant i <= |regions|
      invariant blocks == Collect(regions[..i], BlockEntry)
    {
      assert regions[..i + 1][..i] == regions[..i];
      var block := regions[i];
      i := i + 1;
      var filename, cleanedLines := ScanRegionLines(SplitLines(block));
      if filename.Some? && filename.value != "" {
        var code := Strip(Join(cleanedLines, "\n")) + "\n";
        blocks := Put(blocks, filename.value, code);
      }
    }
    assert regions[..|regions|] == regions;
  }

  // ---------------------------------------------------------------------
  // The model's reply as text
  // ---------------------------------------------------------------------

  /** What the writer raises. */
  datatype WriterError =
    | AttributeError   // `.get` on an `output_text` value that is not a dict
    | TypeError        // `"".join` over a collected text that is not a string
    | ValueError(message: string)

  /**
   * The `txt` a part offers: a text-typed dict's `text` if truthy, else the
   * `content` of its `output_text` dict (`""` when either is missing); the
   * `text` attribute of any other object; nothing for other dicts.
   */
  function PartText(p: Part): Result<Field, WriterError> {
    match p
    case NonDictPart(t) => Ok(t)
    case DictPart(ty, text, _, out) =>
      if IsText(ty, "text") || IsText(ty, "output_text") then
        if Truthy(text) then Ok(text)
        else
          match out
          case NoOutputText => Ok(Str(""))
          case OutputTextDict(c) => Ok(if c.Absent? then Str("") else c)
          case OutputTextOther => Err(AttributeError)
      else Ok(Absent)
  }

  /** The truthy texts of the parts, in order, or the first error a part raises. */
  function Pieces(parts: seq<Part>): Result<seq<Field>, WriterError> {
    if parts == [] then Ok([])
    else
      var before :- Pieces(parts[..|parts| - 1]);
      var txt :- PartText(parts[|parts| - 1]);
      Ok(before + if Truthy(txt) then [txt] else [])
  }

  /** `"".join(pieces)`: a `TypeError` for a piece that is not a string. */
  function JoinPieces(pieces: seq<Field>): Result<string, WriterError> {
    if pieces == [] then Ok("")
    else
      var before :- JoinPieces(pieces[..|pieces| - 1]);
      var last := pieces[|pieces| - 1];
      if last.Str? then Ok(before + last.s) else Err(TypeError)
  }

  /**
   * `_extract_text` of a reply's `content`: a string is itself; a list whose
   * parts offer some truthy text is those texts joined; anything else,
   * including a list that offers none, is `str(content)`, given as `repr`.
   */
  function ExtractedText(content: Content, repr: string): Result<string, WriterError> {
    match content
    case StrContent(s) => Ok(s)
    case ListContent(parts) =>
      var pieces :- Pieces(parts);
      if pieces == [] then Ok(repr) else JoinPieces(pieces)
    case OtherContent => Ok(repr)
  }

  /** `_extract_text`. */
  method ExtractText(content: Content, repr: string) returns (r: Result<string, WriterError>)
    ensures r == ExtractedText(content, repr)
  {
    if content.StrContent? {
      return Ok(content.s);
    }
    if content.ListContent? {
      var items := content.parts;
      var parts: seq<Field> := [];
      var k := 0;
      while k < |items|
        invariant k <= |items|
        invariant Pieces(items[..k]) == Ok(parts)
      {
        assert items[..k + 1][..k] == items[..k];
        var item := items[k];
        k := k + 1;
        ghost var before := parts;
        assert before + [] == before;
        assert Pieces(items[..k]) ==
          match PartText(item)
          case Err(e) => Err(e)
          case Ok(t) => Ok(before + if Truthy(t) then [t] else []);
        if item.DictPart? {
          if IsText(item.partType, "text") || IsText(item.partType, "output_text") {
            var txt := item.text;
            if !Truthy(txt) {
              match item.outputText {
                case NoOutputText => txt := Str("");
                case OutputTextDict(c) => txt := if c.Absent? then Str("") else c;
                case OutputTextOther =>
                  assert PartText(item) == Err(AttributeError);
                  PiecesErr(items, k);
                  return Err(AttributeError);
              }
            }
            assert PartText(item) == Ok(txt);
            if Truthy(txt) {
              parts := parts + [txt];
            }
          } else {
            assert PartText(item) == Ok(Absent);
          }
          continue;
        }
        var txt := item.attrText;
        assert PartText(item) == Ok(txt);
        if Truthy(txt) {
          parts := parts + [txt];
        }
      }
      assert items[..|items|] == items;
      if parts != [] {
        return JoinPieces(parts);
      }
    }
    return Ok(repr);
  }

  /** An error in the first `k` parts is the error of all of them. */
  lemma {:induction false} PiecesErr(parts: seq<Part>, k: nat)
    requires k <= |parts| && Pieces(parts[..k]).Err?
    ensures Pieces(parts) == Pieces(parts[..k])
    decreases |parts| - k
  {
    if k < |parts| {
      assert parts[..k + 1][..k] == parts[..k];
      PiecesErr(parts, k + 1);
    } else {
      assert parts[..k] == parts;
    }
  }

  /** A part that declares another type adds nothing, wherever it stands. */
  lemma {:induction false} OtherDictIgnored(before: seq<Part>, p: Part, after: seq<Part>)
    requires p.DictPart? && !IsText(p.partType, "text") && !IsText(p.partType, "output_text")
    ensures Pieces(before + [p] + after) == Pieces(before + after)
    decreases |after|
  {
    if after == [] {
      assert (before + [p] + after)[..|before|] == before;
      assert before + after == before;
      assert PartText(p) == Ok(Absent);
      if Pieces(before).Ok? {
        assert Pieces(before).value + [] == Pieces(before).value;
      }
    } else {
      var a' := after[..|after| - 1];
      OtherDictIgnored(before, p, a');
      assert (before + [p] + after)[..|before + [p] + after| - 1] == before + [p] + a';
      assert (before + after)[..|before + after| - 1] == before + a';
    }
  }

  /**
   * Parts that each offer a string give the concatenation of those strings,
   * empty ones dropped; when all of them are empty the result is
   * `str(content)`.
   */
  lemma {:induction false} StringPartsJoined(parts: seq<Part>, ts: seq<string>, repr: string)
    requires |ts| == |parts|
    requires forall i :: 0 <= i < |parts| ==> PartText(parts[i]) == Ok(Str(ts[i]))
    ensures ExtractedText(ListContent(parts), repr) == Ok(if Concat(ts) == "" then repr else Concat(ts))
  {
    PiecesOfStrings(parts, ts);
  }

  lemma {:induction false} PiecesOfStrings(parts: seq<Part>, ts: seq<string>)
    requires |ts| == |parts|
    requires forall i :: 0 <= i < |parts| ==> PartText(parts[i]) == Ok(Str(ts[i]))
    ensures Pieces(parts).Ok? && JoinPieces(Pieces(parts).value) == Ok(Concat(ts))
    ensures Pieces(parts).value == [] <==> Concat(ts) == ""
    decreases |parts|
  {
    if parts != [] {
      var n := |parts| - 1;
      PiecesOfStrings(parts[..n], ts[..n]);
      var pre := Pieces(parts[..n]).value;
      var t := ts[n];
      assert parts[..n] == parts[..|parts| - 1];
      assert PartText(parts[n]) == Ok(Str(t));
      assert Concat(ts) == Concat(ts[..n]) + t;
      if t != "" {
        var ps := pre + [Str(t)];
        assert Pieces(parts) == Ok(ps);
        assert ps[..|ps| - 1] == pre;
      } else {
        assert Pieces(parts) == Ok(pre + []);
        assert pre + [] == pre;
        assert Concat(ts[..n]) + t == Concat(ts[..n]);
      }
    }
  }

  // ---------------------------------------------------------------------
  // The run directory and the copies of the original files
  // ---------------------------------------------------------------------

  /** `p` lies inside the directory `dir`. */
  predicate Under(dir: string, p: string) {
    StartsWith(p, dir + "/")
  }

  /** No element occurs twice. */
  predicate NoRepeats(xs: seq<string>) {
    forall i, j :: 0 <= i < j < |xs| ==> xs[i] != xs[j]
  }

  lemma UnderJoin(dir: string, name: string)
    ensures Under(dir, JoinPath(dir, name))
  {
    assert (dir + "/" + name)[..|dir + "/"|] == dir + "/";
  }

  /** Within one directory, different names give different paths. */
  lemma JoinPathInjective(dir: string, a: string, b: string)
    requires JoinPath(dir, a) == JoinPath(dir, b)
    ensures a == b
  {
    assert JoinPath(dir, a)[|dir| + 1..] == a;
    assert JoinPath(dir, b)[|dir| + 1..] == b;
  }

  /** `_create_run_dir`: `<output_root>/<safe top>_optimized_<timestamp>`. */
  function RunDir(root: string, top: string, ts: string): string {
    JoinPath(root, Sanitize(top) + "_optimized_" + ts)
  }

  /**
   * The run directory lies in the output root and its name is the top name
   * with every character other than a letter, a digit or `_` replaced by
   * `_`, then `_optimized_` and the timestamp; a safe top name is kept as is.
   */
  lemma RunDirName(root: string, top: string, ts: string)
    ensures var d := RunDir(root, top, ts);
      && Under(root, d)
      && d[|root| + 1..] == Sanitize(top) + "_optimized_" + ts
      && IsSafeName(d[|root| + 1..|root| + 1 + |top|])
      && (IsSafeName(top) ==> d[|root| + 1..|root| + 1 + |top|] == top)
  {
    var d := RunDir(root, top, ts);
    UnderJoin(root, Sanitize(top) + "_optimized_" + ts);
    SanitizeSafe(top);
    assert d[|root| + 1..] == Sanitize(top) + "_optimized_" + ts;
    assert d[|root| + 1..|root| + 1 + |top|] == Sanitize(top);
  }

  /** Two timestamps give two run directories for the same top name; one timestamp gives one. */
  lemma RunDirDistinct(root: string, top: string, ts1: string, ts2: string)
    ensures RunDir(root, top, ts1) == RunDir(root, top, ts2) <==> ts1 == ts2
  {
    var n := |root| + 1 + |Sanitize(top)| + |"_optimized_"|;
    if RunDir(root, top, ts1) == RunDir(root, top, ts2) {
      assert RunDir(root, top, ts1)[n..] == ts1;
      assert RunDir(root, top, ts2)[n..] == ts2;
    }
  }

  /** The file map and a list of paths, as they stand after a series of writes. */
  datatype Written = Written(files: map<string, string>, paths: seq<string>)

  /** `run_dir / src.name`. */
  function CopyDest(runDir: string, src: string): string {
    JoinPath(runDir, BaseName(src))
  }

  /**
   * `_copy_original_files`: each source that can be read is written to the
   * run directory under its own name and its destination listed; a source
   * that cannot be read is skipped. A source is read when its turn comes,
   * so it sees the copies made before it.
   */
  function CopyAll(files: map<string, string>, srcs: seq<string>, runDir: string): Written {
    if srcs == [] then Written(files, [])
    else
      var c := CopyAll(files, srcs[..|srcs| - 1], runDir);
      var src := srcs[|srcs| - 1];
      if src in c.files then Written(c.files[CopyDest(runDir, src) := c.files[src]], c.paths + [CopyDest(runDir, src)])
      else c
  }

  /** The destinations of the sources that exist before any copy, in order. */
  function ReadableDests(files: map<string, string>, srcs: seq<string>, runDir: string): seq<string> {
    if srcs == [] then []
    else
      var src := srcs[|srcs| - 1];
      ReadableDests(files, srcs[..|srcs| - 1], runDir) + (if src in files then [CopyDest(runDir, src)] else [])
  }

  /**
   * Copying only adds files inside the run directory: every other file keeps
   * its content, every listed path is inside the run directory and holds a
   * file, and every source that existed beforehand has its copy listed.
   */
  lemma {:induction false} CopyAllFrame(files: map<string, string>, srcs: seq<string>, runDir: string)
    ensures var c := CopyAll(files, srcs, runDir);
      && (forall k :: k in c.files <==> k in files || k in c.paths)
      && (forall k :: k in files && k !in c.paths ==> c.files[k] == files[k])
      && (forall i :: 0 <= i < |c.paths| ==> Under(runDir, c.paths[i]))
      && (forall j :: 0 <= j < |srcs| && srcs[j] in files ==> CopyDest(runDir, srcs[j]) in c.paths)
      && |c.paths| <= |srcs|
    decreases |srcs|
  {
    if srcs != [] {
      var n := |srcs| - 1;
      CopyAllFrame(files, srcs[..n], runDir);
      var c := CopyAll(files, srcs[..n], runDir);
      var src := srcs[n];
      UnderJoin(runDir, BaseName(src));
      forall j | 0 <= j < |srcs| && srcs[j] in files
        ensures CopyDest(runDir, srcs[j]) in CopyAll(files, srcs, runDir).paths
      {
        if j < n {
          assert srcs[..n][j] == srcs[j];
        }
      }
    }
  }

  /**
   * When no source lies inside the run directory, the copies cannot change
   * what the later sources read: the listed paths are the destinations of
   * the sources that exist, in input order.
   */
  lemma {:induction false} CopyAllReadable(files: map<string, string>, srcs: seq<string>, runDir: string)
    requires forall j :: 0 <= j < |srcs| ==> !Under(runDir, srcs[j])
    ensures CopyAll(files, srcs, runDir).paths == ReadableDests(files, srcs, runDir)
    decreases |srcs|
  {
    if srcs != [] {
      var n := |srcs| - 1;
      CopyAllReadable(files, srcs[..n], runDir);
      CopyAllFrame(files, srcs[..n], runDir);
      var src := srcs[n];
      var c := CopyAll(files, srcs[..n], runDir);
      assert src !in c.paths;
      assert src in c.files <==> src in files;
    }
  }

  /**
   * When moreover no two sources share a file name, each copy holds the
   * content of its source.
   */
  lemma {:induction false} CopyAllContents(files: map<string, string>, srcs: seq<string>, runDir: string)
    requires forall j :: 0 <= j < |srcs| ==> !Under(runDir, srcs[j])
    requires forall i, j :: 0 <= i < j < |srcs| ==> BaseName(srcs[i]) != BaseName(srcs[j])
    ensures var c := CopyAll(files, srcs, runDir);
      forall j :: 0 <= j < |srcs| && srcs[j] in files ==>
        CopyDest(runDir, srcs[j]) in c.files && c.files[CopyDest(runDir, srcs[j])] == files[srcs[j]]
    decreases |srcs|
  {
    if srcs != [] {
      var n := |srcs| - 1;
      CopyAllContents(files, srcs[..n], runDir);
      CopyAllFrame(files, srcs[..n], runDir);
      var c := CopyAll(files, srcs[..n], runDir);
      var src := srcs[n];
      assert src !in c.paths;
      forall j | 0 <= j < |srcs| && srcs[j] in files
        ensures CopyDest(runDir, srcs[j]) in CopyAll(files, srcs, runDir).files
        ensures CopyAll(files, srcs, runDir).files[CopyDest(runDir, srcs[j])] == files[srcs[j]]
      {
        if j < n {
          assert srcs[..n][j] == srcs[j];
          if CopyDest(runDir, srcs[j]) == CopyDest(runDir, src) {
            JoinPathInjective(runDir, BaseName(srcs[j]), BaseName(src));
          }
        }
      }
    }
  }

  // ---------------------------------------------------------------------
  // Writing the extracted files
  // ---------------------------------------------------------------------

  /** `run_dir / name` for each name, in order. */
  function Dests(runDir: string, names: seq<string>): (ds: seq<string>)
    ensures |ds| == |names|
    ensures forall i :: 0 <= i < |names| ==> ds[i] == JoinPath(runDir, names[i])
  {
    seq(|names|, i requires 0 <= i < |names| => JoinPath(runDir, names[i]))
  }

  /**
   * The loop of `write_from_agent_response` over the extracted files: each
   * is written to the run directory, and its path is appended to the list
   * unless the list already holds it.
   */
  function WriteAll(files: map<string, string>, names: seq<string>, code: map<string, string>,
                    runDir: string, paths: seq<string>): Written
    requires forall i :: 0 <= i < |names| ==> names[i] in code
  {
    if names == [] then Written(files, paths)
    else
      var w := WriteAll(files, names[..|names| - 1], code, runDir, paths);
      var name := names[|names| - 1];
      var dest := JoinPath(runDir, name);
      Written(w.files[dest := code[name]], if dest in w.paths then w.paths else w.paths + [dest])
  }

  lemma DestsSnoc(runDir: string, names: seq<string>)
    requires names != []
    ensures Dests(runDir, names) == Dests(runDir, names[..|names| - 1]) + [JoinPath(runDir, names[|names| - 1])]
  {
  }

  /**
   * The list keeps the paths it started with, in front and in order; every
   * written file is listed; every path added is a written file's; and a
   * list without repeats stays without repeats.
   */
  lemma {:induction false} WriteAllPaths(files: map<string, string>, names: seq<string>, code: map<string, string>,
                                         runDir: string, paths: seq<string>)
    requires forall i :: 0 <= i < |names| ==> names[i] in code
    ensures var w := WriteAll(files, names, code, runDir, paths);
      && |paths| <= |w.paths| && w.paths[..|paths|] == paths
      && (forall i :: 0 <= i < |names| ==> JoinPath(runDir, names[i]) in w.paths)
      && (forall i :: |paths| <= i < |w.paths| ==> w.paths[i] in Dests(runDir, names))
      && (NoRepeats(paths) ==> NoRepeats(w.paths))
    decreases |names|
  {
    if names != [] {
      var n := |names| - 1;
      WriteAllPaths(files, names[..n], code, runDir, paths);
      DestsSnoc(runDir, names);
      var w := WriteAll(files, names[..n], code, runDir, paths);
      var w2 := WriteAll(files, names, code, runDir, paths);
      assert w2.paths[..|w.paths|] == w.paths;
      forall i | 0 <= i < |names|
        ensures JoinPath(runDir, names[i]) in w2.paths
      {
        if i < n {
          assert names[..n][i] == names[i];
        }
      }
    }
  }

  /**
   * When the names are distinct and none of their paths is listed yet, each
   * path is appended once, in the order of the names.
   */
  lemma {:induction false} WriteAllAppends(files: map<string, string>, names: seq<string>, code: map<string, string>,
                                           runDir: string, paths: seq<string>)
    requires forall i :: 0 <= i < |names| ==> names[i] in code
    requires NoRepeats(names)
    requires forall i :: 0 <= i < |names| ==> JoinPath(runDir, names[i]) !in paths
    ensures WriteAll(files, names, code, runDir, paths).paths == paths + Dests(runDir, names)
    decreases |names|
  {
    if names != [] {
      var n := |names| - 1;
      WriteAllAppends(files, names[..n], code, runDir, paths);
      DestsSnoc(runDir, names);
      var dest := JoinPath(runDir, names[n]);
      var before := Dests(runDir, names[..n]);
      forall i | 0 <= i < n
        ensures before[i] != dest
      {
        if before[i] == dest {
          JoinPathInjective(runDir, names[i], names[n]);
        }
      }
    }
  }

  /** Only the written paths change. */
  lemma {:induction false} WriteAllFrame(files: map<string, string>, names: seq<string>, code: map<string, string>,
                                         runDir: string, paths: seq<string>)
    requires forall i :: 0 <= i < |names| ==> names[i] in code
    ensures var w := WriteAll(files, names, code, runDir, paths);
      && (forall k :: k in w.files <==> k in files || k in Dests(runDir, names))
      && (forall k :: k in files && k !in Dests(runDir, names) ==> w.files[k] == files[k])
    decreases |names|
  {
    if names != [] {
      WriteAllFrame(files, names[..|names| - 1], code, runDir, paths);
      DestsSnoc(runDir, names);
    }
  }

  /** With distinct names, each written path holds the code of its name. */
  lemma {:induction false} WriteAllContents(files: map<string, string>, names: seq<string>, code: map<string, string>,
                                            runDir: string, paths: seq<string>)
    requires forall i :: 0 <= i < |names| ==> names[i] in code
    requires NoRepeats(names)
    ensures var w := WriteAll(files, names, code, runDir, paths);
      forall i :: 0 <= i < |names| ==>
        JoinPath(runDir, names[i]) in w.files && w.files[JoinPath(runDir, names[i])] == code[names[i]]
    decreases |names|
  {
    if names != [] {
      var n := |names| - 1;
      WriteAllContents(files, names[..n], code, runDir, paths);
      var w2 := WriteAll(files, names, code, runDir, paths);
      forall i | 0 <= i < |names|
        ensures JoinPath(runDir, names[i]) in w2.files
        ensures w2.files[JoinPath(runDir, names[i])] == code[names[i]]
      {
        if i < n {
          assert names[..n][i] == names[i];
          if JoinPath(runDir, names[i]) == JoinPath(runDir, names[n]) {
            JoinPathInjective(runDir, names[i], names[n]);
          }
        }
      }
    }
  }

  // ---------------------------------------------------------------------
  // write_from_agent_response
  // ---------------------------------------------------------------------

  /** `OptimizedHdlResult`. */
  datatype HdlResult = HdlResult(runDir: string, allPaths: seq<string>, changedFiles: seq<string>)

  /** What a call returns or raises, and the files and directories after it. */
  datatype WriteOutcome = WriteOutcome(result: Result<HdlResult, WriterError>, files: map<string, string>, dirs: set<string>)

  /** The message of the `ValueError` raised when the reply names no file. */
  const NoBlocksMessage: string :=
    "OptimizedHdlWriter: No optimized HDL file blocks found in the "
    + "agent response. Make sure each changed file is emitted as:\n"
    + "  ```vhdl\n"
    + "  -- File: <name>.vhd (UPDATED)\n"
    + "  <code>\n"
    + "  ```\n"
    + "or\n"
    + "  ```verilog\n"
    + "  // File: <name>.v (UPDATED)\n"
    + "  <code>\n"
    + "  ```"

  /**
   * `write_from_agent_response` on the file system `files`/`dirs`: a reply
   * that cannot be read as text raises before anything is created; otherwise
   * the run directory is created and the originals copied, and only then is
   * a reply without file blocks refused.
   */
  function WriteSpec(root: string, files: map<string, string>, dirs: set<string>, content: Content, repr: string,
                     originals: seq<string>, top: string, ts: string): WriteOutcome
  {
    match ExtractedText(content, repr)
    case Err(e) => WriteOutcome(Err(e), files, dirs)
    case Ok(text) => WriteText(root, files, dirs, text, originals, top, ts)
  }

  /** The steps after the reply has been read as `text`. */
  function WriteText(root: string, files: map<string, string>, dirs: set<string>, text: string,
                     originals: seq<string>, top: string, ts: string): WriteOutcome
  {
    var runDir := RunDir(root, top, ts);
    var c := CopyAll(files, originals, runDir);
    var m := FileBlocks(text);
    if m.names == [] then WriteOutcome(Err(ValueError(NoBlocksMessage)), c.files, dirs + {runDir})
    else
      CollectValid(Blocks(text), BlockEntry);
      var w := WriteAll(c.files, m.names, m.code, runDir, c.paths);
      WriteOutcome(Ok(HdlResult(runDir, w.paths, m.names)), w.files, dirs + {runDir})
  }

  /** The parts only ever raise an `AttributeError`. */
  lemma {:induction false} PiecesError(parts: seq<Part>)
    ensures Pieces(parts).Err? ==> Pieces(parts).error == AttributeError
    decreases |parts|
  {
    if parts != [] {
      PiecesError(parts[..|parts| - 1]);
    }
  }

  /** Joining only ever raises a `TypeError`. */
  lemma {:induction false} JoinPiecesError(pieces: seq<Field>)
    ensures JoinPieces(pieces).Err? ==> JoinPieces(pieces).error == TypeError
    decreases |pieces|
  {
    if pieces != [] {
      JoinPiecesError(pieces[..|pieces| - 1]);
    }
  }

  /**
   * A reply that cannot be turned into text raises an `AttributeError` or a
   * `TypeError` and changes nothing: no run directory, no copies.
   */
  lemma WriteUnreadable(root: string, files: map<string, string>, dirs: set<string>, content: Content, repr: string,
                        originals: seq<string>, top: string, ts: string)
    requires ExtractedText(content, repr).Err?
    ensures var o := WriteSpec(root, files, dirs, content, repr, originals, top, ts);
      && (o.result == Err(AttributeError) || o.result == Err(TypeError))
      && o.files == files && o.dirs == dirs
  {
    if content.ListContent? {
      PiecesError(content.parts);
      if Pieces(content.parts).Ok? {
        JoinPiecesError(Pieces(content.parts).value);
      }
    }
  }

  /**
   * A reply without file blocks raises the `ValueError`, but only after the
   * run directory exists and every original that could be read has been
   * copied into it; nothing outside the run directory changes.
   */
  lemma WriteNoBlocks(root: string, files: map<string, string>, dirs: set<string>, content: Content, repr: string,
                      originals: seq<string>, top: string, ts: string, text: string)
    requires ExtractedText(content, repr) == Ok(text)
    requires FileBlocks(text).names == []
    ensures var o := WriteSpec(root, files, dirs, content, repr, originals, top, ts);
      var runDir := RunDir(root, top, ts);
      && o.result == Err(ValueError(NoBlocksMessage))
      && o.dirs == dirs + {runDir}
      && (forall j :: 0 <= j < |originals| && originals[j] in files ==> CopyDest(runDir, originals[j]) in o.files)
      && (forall k :: k in files && !Under(runDir, k) ==> k in o.files && o.files[k] == files[k])
  {
    var runDir := RunDir(root, top, ts);
    CopyAllFrame(files, originals, runDir);
  }

  /**
   * A reply with file blocks succeeds: `changed_files` are the names in the
   * order they first appear; `all_paths` starts with the copied originals,
   * then lists each written file once; each written file holds its block's
   * code; nothing outside the run directory changes.
   */
  lemma WriteBlocks(root: string, files: map<string, string>, dirs: set<string>, content: Content, repr: string,
                    originals: seq<string>, top: string, ts: string, text: string)
    requires ExtractedText(content, repr) == Ok(text)
    requires FileBlocks(text).names != []
    ensures var o := WriteSpec(root, files, dirs, content, repr, originals, top, ts);
      var runDir := RunDir(root, top, ts);
      var m := FileBlocks(text);
      var copied := CopyAll(files, originals, runDir).paths;
      && o.result.Ok?
      && o.result.value.runDir == runDir
      && o.result.value.changedFiles == m.names
      && o.dirs == dirs + {runDir}
      && |copied| <= |o.result.value.allPaths| && o.result.value.allPaths[..|copied|] == copied
      && (forall i :: 0 <= i < |m.names| ==>
            var dest := JoinPath(runDir, m.names[i]);
            && dest in o.result.value.allPaths
            && dest in o.files && m.names[i] in m.code && o.files[dest] == m.code[m.names[i]])
      && (forall i :: |copied| <= i < |o.result.value.allPaths| ==> o.result.value.allPaths[i] in Dests(runDir, m.names))
      && (NoRepeats(copied) ==> NoRepeats(o.result.value.allPaths))
      && (forall k :: k in files && !Under(runDir, k) ==> k in o.files && o.files[k] == files[k])
  {
    var runDir := RunDir(root, top, ts);
    var m := FileBlocks(text);
    var c := CopyAll(files, originals, runDir);
    CollectValid(Blocks(text), BlockEntry);
    var w := WriteAll(c.files, m.names, m.code, runDir, c.paths);
    assert WriteSpec(root, files, dirs, content, repr, originals, top, ts)
      == WriteOutcome(Ok(HdlResult(runDir, w.paths, m.names)), w.files, dirs + {runDir});
    CopyAllFrame(files, originals, runDir);
    WrittenFacts(files, c, m.names, m.code, runDir);
  }

  /** The facts of `WriteBlocks` about copies `c` of `files` followed by the writes of `names`. */
  lemma WrittenFacts(files: map<string, string>, c: Written, names: seq<string>, code: map<string, string>, runDir: string)
    requires forall i :: 0 <= i < |names| ==> names[i] in code
    requires NoRepeats(names)
    requires forall k :: k in files && k !in c.paths ==> k in c.files && c.files[k] == files[k]
    requires forall i :: 0 <= i < |c.paths| ==> Under(runDir, c.paths[i])
    ensures var w := WriteAll(c.files, names, code, runDir, c.paths);
      && |c.paths| <= |w.paths| && w.paths[..|c.paths|] == c.paths
      && (forall i :: 0 <= i < |names| ==>
            var dest := JoinPath(runDir, names[i]);
            && dest in w.paths && dest in w.files && w.files[dest] == code[names[i]])
      && (forall i :: |c.paths| <= i < |w.paths| ==> w.paths[i] in Dests(runDir, names))
      && (NoRepeats(c.paths) ==> NoRepeats(w.paths))
      && (forall k :: k in files && !Under(runDir, k) ==> k in w.files && w.files[k] == files[k])
  {
    WriteAllPaths(c.files, names, code, runDir, c.paths);
    WriteAllFrame(c.files, names, code, runDir, c.paths);
    WriteAllContents(c.files, names, code, runDir, c.paths);
    forall k | k in Dests(runDir, names)
      ensures Under(runDir, k)
    {
      var i :| 0 <= i < |names| && Dests(runDir, names)[i] == k;
      UnderJoin(runDir, names[i]);
    }
  }

  /**
   * The files and directories of the machine, and the output root given to
   * the writer.
   */
  class Writer {
    const outputRoot: string
    var files: map<string, string>
    var dirs: set<string>

    /** `__post_init__`: the output root is created if missing. */
    constructor (root: string, files0: map<string, string>, dirs0: set<string>)
      ensures outputRoot == root && files == files0 && dirs == dirs0 + {root}
    {
      outputRoot := root;
      files := files0;
      dirs := dirs0 + {root};
    }

    /** `_create_run_dir`, with the clock's reading `ts` as a parameter. */
    method CreateRunDir(top: string, ts: string) returns (runDir: string)
      modifies this
      ensures runDir == RunDir(outputRoot, top, ts)
      ensures dirs == old(dirs) + {runDir} && files == old(files)
    {
      var safeTop := "";
      var i := 0;
      while i < |top|
        invariant i <= |top|
        invariant safeTop == Sanitize(top[..i])
      {
        var ch := top[i];
        safeTop := safeTop + [if IsAlnum(ch) || ch == '_' then ch else '_'];
        i := i + 1;
      }
      assert top[..i] == top;
      runDir := JoinPath(outputRoot, safeTop + "_optimized_" + ts);
      dirs := dirs + {runDir};
    }

    /** `_copy_original_files`. */
    method CopyOriginalFiles(originals: seq<string>, runDir: string) returns (copied: seq<string>)
      modifies this
      ensures Written(files, copied) == CopyAll(old(files), originals, runDir)
      ensures dirs == old(dirs)
    {
      copied := [];
      var k := 0;
      while k < |originals|
        invariant k <= |originals|
        invariant Written(files, copied) == CopyAll(old(files), originals[..k], runDir)
        invariant dirs == old(dirs)
      {
        assert originals[..k + 1][..k] == originals[..k];
        var src := originals[k];
        k := k + 1;
        var dest := JoinPath(runDir, BaseName(src));
        if src !in files {
          continue;
        }
        files := files[dest := files[src]];
        copied := copied + [dest];
      }
      assert originals[..|originals|] == originals;
    }

    /** `write_from_agent_response`, with the reply given as its content and its `str()`. */
    method WriteFromAgentResponse(content: Content, repr: string, originals: seq<string>, top: string, ts: string)
      returns (r: Result<HdlResult, WriterError>)
      modifies this
      ensures WriteOutcome(r, files, dirs) == WriteSpec(outputRoot, old(files), old(dirs), content, repr, originals, top, ts)
    {
      var text :- ExtractText(content, repr);
      assert WriteSpec(outputRoot, old(files), old(dirs), content, repr, originals, top, ts)
        == WriteText(outputRoot, old(files), old(dirs), text, originals, top, ts);
      var runDir := CreateRunDir(top, ts);
      var copied := CopyOriginalFiles(originals, runDir);
      var fileBlocks := ParseFileBlocks(text);
      var changedFiles := fileBlocks.names;
      if fileBlocks.names == [] {
        return Err(ValueError(NoBlocksMessage));
      }
      CollectValid(Blocks(text), BlockEntry);
      var allPaths := WriteFiles(fileBlocks.names, fileBlocks.code, runDir, copied);
      return Ok(HdlResult(runDir, allPaths, changedFiles));
    }

    /** The loop of `write_from_agent_response` that writes each extracted file and extends `all_paths`. */
    method WriteFiles(names: seq<string>, code: map<string, string>, runDir: string, copied: seq<string>)
      returns (allPaths: seq<string>)
      requires forall i :: 0 <= i < |names| ==> names[i] in code
      modifies this
      ensures Written(files, allPaths) == WriteAll(old(files), names, code, runDir, copied)
      ensures dirs == old(dirs)
    {
      allPaths := copied;
      var i := 0;
      while i < |names|
        invariant i <= |names|
        invariant Written(files, allPaths) == WriteAll(old(files), names[..i], code, runDir, copied)
        invariant dirs == old(dirs)
      {
        assert names[..i + 1][..i] == names[..i];
        var filename := names[i];
        var dest := JoinPath(runDir, filename);
        files := files[dest := code[filename]];
        if dest !in allPaths {
          allPaths := allPaths + [dest];
        }
        i := i + 1;
      }
      assert names[..i] == names;
    }
  }
}

/**
 * Shared vocabulary of the HDL optimisation loop model: optional values,
 * results with an error, and the handful of Python string and path
 * operations the loop's parsers rely on, restricted to ASCII text
 * (`str.strip`, `str.split`, `str.splitlines` on '\n', `int()`,
 * `str.isalnum`, `Path.name`, `Path.stem`, `Path / name`).
 */
module Common {

  datatype Option<T> = None | Some(value: T) {
    function GetOr(default: T): T {
      match this
      case Some(v) => v
      case None => default
    }
  }

  datatype Result<T, E> = Ok(value: T) | Err(error: E) {
    predicate IsFailure() {
      Err?
    }

    function PropagateFailure<U>(): Result<U, E>
      requires Err?
    {
      Err(error)
    }

    function Extract(): T
      requires Ok?
    {
      value
    }
  }

  // ---------------------------------------------------------------------
  // Characters
  // ---------------------------------------------------------------------

  /** Python's `str.isspace` on ASCII: \t \n \v \f \r, the separators 0x1C-0x1F and the space. */
  predicate IsSpace(c: char) {
    ('\t' <= c <= '\r') || ('\U{1C}' <= c <= ' ')
  }

  predicate IsDigit(c: char) {
    '0' <= c <= '9'
  }

  /** Python's `str.isalnum` on ASCII. */
  predicate IsAlnum(c: char) {
    IsDigit(c) || ('a' <= c <= 'z') || ('A' <= c <= 'Z')
  }

  function Lower(c: char): (r: char)
    ensures 'A' <= c <= 'Z' ==> 'a' <= r <= 'z'
    ensures !('A' <= c <= 'Z') ==> r == c
  {
    if 'A' <= c <= 'Z' then (c as int - 'A' as int + 'a' as int) as char else c
  }

  /** Equality of two strings under ASCII case folding (regex IGNORECASE). */
  predicate EqualsIgnoreCase(a: string, b: string) {
    |a| == |b| && forall i :: 0 <= i < |a| ==> Lower(a[i]) == Lower(b[i])
  }

  predicate AllSpace(s: string) {
    forall i :: 0 <= i < |s| ==> IsSpace(s[i])
  }

  /** A string that `str.strip()` leaves alone. */
  predicate Stripped(s: string) {
    s == [] || (!IsSpace(s[0]) && !IsSpace(s[|s| - 1]))
  }

  // ---------------------------------------------------------------------
  // strip
  // ---------------------------------------------------------------------

  function LStrip(s: string): (r: string)
    ensures |r| <= |s|
    ensures r != [] ==> !IsSpace(r[0])
  {
    if |s| > 0 && IsSpace(s[0]) then LStrip(s[1..]) else s
  }

  function RStrip(s: string): (r: string)
    ensures |r| <= |s|
    ensures r != [] ==> !IsSpace(r[|r| - 1]) && r[0] == s[0]
  {
    if |s| > 0 && IsSpace(s[|s| - 1]) then RStrip(s[..|s| - 1]) else s
  }

  /** Python's `s.strip()`: the middle of `s` between leading and trailing whitespace. */
  function Strip(s: string): (r: string)
    ensures Stripped(r)
    ensures |r| <= |s|
  {
    RStrip(LStrip(s))
  }

  lemma StripStripped(s: string)
    requires Stripped(s)
    ensures Strip(s) == s
  {
  }

  /** Whitespace around an already stripped string is exactly what `strip` removes. */
  lemma {:induction false} StripPadded(a: string, s: string, b: string)
    requires AllSpace(a) && AllSpace(b) && Stripped(s)
    ensures Strip(a + s + b) == s
  {
    if s == [] {
      assert a + s + b == (a + b) + [];
      LStripPadded(a + b, []);
    } else {
      assert a + s + b == a + (s + b);
      LStripPadded(a, s + b);
      RStripPadded(s, b);
    }
  }

  lemma {:induction false} LStripPadded(a: string, s: string)
    requires AllSpace(a) && (s == [] || !IsSpace(s[0]))
    ensures LStrip(a + s) == s
  {
    if a != [] {
      assert (a + s)[1..] == a[1..] + s;
      LStripPadded(a[1..], s);
    } else {
      assert a + s == s;
    }
  }

  lemma {:induction false} RStripPadded(s: string, b: string)
    requires AllSpace(b) && (s == [] || !IsSpace(s[|s| - 1]))
    ensures RStrip(s + b) == s
  {
    if b != [] {
      assert (s + b)[..|s + b| - 1] == s + b[..|b| - 1];
      RStripPadded(s, b[..|b| - 1]);
    } else {
      assert s + b == s;
    }
  }

  // ---------------------------------------------------------------------
  // Searching
  // ---------------------------------------------------------------------

  /** First position of `c` in `s`. */
  function IndexOf(s: string, c: char): (i: nat)
    requires c in s
    ensures i < |s| && s[i] == c && c !in s[..i]
  {
    if s[0] == c then 0 else IndexOf(s[1..], c) + 1
  }

  /** Last position of `c` in `s`, or -1 (Python's `str.rfind`). */
  function RFind(s: string, c: char): (i: int)
    ensures -1 <= i < |s|
    ensures i >= 0 ==> s[i] == c && c !in s[i + 1..]
    ensures i == -1 <==> c !in s
  {
    if s == [] then -1
    else if s[|s| - 1] == c then |s| - 1
    else
      var j := RFind(s[..|s| - 1], c);
      assert s[..|s| - 1] + [s[|s| - 1]] == s;
      j
  }

  lemma ConcatAssoc(a: string, b: string, c: string)
    ensures a + (b + c) == (a + b) + c
  {
  }

  /** Python's `s.startswith(prefix)`. */
  predicate StartsWith(s: string, prefix: string) {
    |prefix| <= |s| && s[..|prefix|] == prefix
  }

  /** Python's `needle in hay` for strings (substring test). */
  predicate Contains(hay: string, needle: string)
    decreases |hay|
  {
    StartsWith(hay, needle) || (|hay| > 0 && Contains(hay[1..], needle))
  }

  lemma {:induction false} ContainsAt(hay: string, needle: string, i: nat)
    requires i + |needle| <= |hay| && hay[i..i + |needle|] == needle
    ensures Contains(hay, needle)
  {
    if i == 0 {
      assert StartsWith(hay, needle);
    } else {
      assert hay[1..][i - 1..i - 1 + |needle|] == needle;
      ContainsAt(hay[1..], needle, i - 1);
    }
  }

  /** Index of the first element satisfying `p`, or |xs| when there is none. */
  function FindFirst<T>(xs: seq<T>, p: T -> bool): (k: nat)
    ensures k <= |xs|
    ensures k < |xs| ==> p(xs[k])
    ensures forall j :: 0 <= j < k ==> !p(xs[j])
  {
    if xs == [] then 0
    else if p(xs[0]) then 0
    else 1 + FindFirst(xs[1..], p)
  }

  /** The elements of `xs` that satisfy `p`, in their order. */
  function Filter<T>(xs: seq<T>, p: T -> bool): (r: seq<T>)
    ensures |r| <= |xs|
    ensures forall j :: 0 <= j < |r| ==> p(r[j]) && r[j] in xs
  {
    if xs == [] then []
    else Filter(xs[..|xs| - 1], p) + (if p(xs[|xs| - 1]) then [xs[|xs| - 1]] else [])
  }

  /** Filtering keeps order: the kept elements of `a + b` are those of `a`, then those of `b`. */
  lemma {:induction false} FilterAppend<T>(a: seq<T>, b: seq<T>, p: T -> bool)
    ensures Filter(a + b, p) == Filter(a, p) + Filter(b, p)
    decreases |b|
  {
    if b == [] {
      assert a + b == a;
    } else {
      assert (a + b)[..|a + b| - 1] == a + b[..|b| - 1];
      FilterAppend(a, b[..|b| - 1], p);
    }
  }

  /** An element is kept exactly when it occurs and satisfies `p`. */
  lemma {:induction false} FilterMembers<T>(xs: seq<T>, p: T -> bool, x: T)
    ensures x in Filter(xs, p) <==> x in xs && p(x)
    decreases |xs|
  {
    if xs != [] {
      FilterMembers(xs[..|xs| - 1], p, x);
      assert xs == xs[..|xs| - 1] + [xs[|xs| - 1]];
    }
  }

  /** Nothing is kept exactly when no element satisfies `p`. */
  lemma FilterEmpty<T>(xs: seq<T>, p: T -> bool)
    ensures Filter(xs, p) == [] <==> forall j :: 0 <= j < |xs| ==> !p(xs[j])
  {
    if Filter(xs, p) == [] {
      forall j | 0 <= j < |xs| ensures !p(xs[j]) {
        FilterMembers(xs, p, xs[j]);
      }
    } else {
      var x := Filter(xs, p)[0];
      FilterMembers(xs, p, x);
    }
  }

  lemma SeqAround<T>(s: seq<T>, k: nat)
    requires k < |s|
    ensures s[..k] + [s[k]] + s[k + 1..] == s
  {
  }

  /** The first element satisfying `p` is found whatever follows it. */
  lemma {:induction false} FindFirstAt<T>(before: seq<T>, x: T, after: seq<T>, p: T -> bool)
    requires forall j :: 0 <= j < |before| ==> !p(before[j])
    requires p(x)
    ensures FindFirst(before + [x] + after, p) == |before|
  {
    if before != [] {
      assert (before + [x] + after)[1..] == before[1..] + [x] + after;
      FindFirstAt(before[1..], x, after, p);
    } else {
      assert (before + [x] + after)[0] == x;
    }
  }

  // ---------------------------------------------------------------------
  // split / join / splitlines
  // ---------------------------------------------------------------------

  /** Python's `s.split(sep)` for a one-character separator. */
  function Split(s: string, sep: char): (parts: seq<string>)
    ensures |parts| >= 1
    ensures forall i :: 0 <= i < |parts| ==> sep !in parts[i]
    decreases |s|
  {
    if sep in s then
      var i := IndexOf(s, sep);
      [s[..i]] + Split(s[i + 1..], sep)
    else
      [s]
  }

  /** Python's `sep.join(parts)`. */
  function Join(parts: seq<string>, sep: string): string
  {
    if |parts| == 0 then ""
    else if |parts| == 1 then parts[0]
    else parts[0] + sep + Join(parts[1..], sep)
  }

  lemma JoinCons(first: string, rest: seq<string>, sep: string)
    requires |rest| >= 1
    ensures Join([first] + rest, sep) == first + sep + Join(rest, sep)
  {
    assert ([first] + rest)[1..] == rest;
  }

  /** Splitting and joining back on the same separator restores the text. */
  lemma {:induction false} JoinSplit(s: string, sep: char)
    ensures Join(Split(s, sep), [sep]) == s
    decreases |s|
  {
    if sep in s {
      var i := IndexOf(s, sep);
      var a, rest := s[..i], s[i + 1..];
      assert s == a + [sep] + rest;
      SplitCons(a, sep, rest);
      JoinSplit(rest, sep);
      JoinCons(a, Split(rest, sep), [sep]);
    } else {
      assert Split(s, sep) == [s];
    }
  }

  /** Joining pieces free of the separator and splitting again gives the pieces back. */
  lemma {:induction false} SplitJoin(parts: seq<string>, sep: char)
    requires |parts| >= 1
    requires forall i :: 0 <= i < |parts| ==> sep !in parts[i]
    ensures Split(Join(parts, [sep]), sep) == parts
  {
    if |parts| == 1 {
      assert Join(parts, [sep]) == parts[0];
    } else {
      var rest := Join(parts[1..], [sep]);
      assert Join(parts, [sep]) == parts[0] + [sep] + rest;
      SplitCons(parts[0], sep, rest);
      SplitJoin(parts[1..], sep);
      assert [parts[0]] + parts[1..] == parts;
    }
  }

  /** Splitting text that starts with a separator-free piece and a separator. */
  lemma SplitCons(a: string, sep: char, rest: string)
    requires sep !in a
    ensures Split(a + [sep] + rest, sep) == [a] + Split(rest, sep)
  {
    var s := a + [sep] + rest;
    IndexOfAfter(a, sep, rest);
    assert s[..|a|] == a;
    assert s[|a| + 1..] == rest;
  }

  lemma IndexOfAfter(a: string, c: char, b: string)
    requires c !in a
    ensures c in a + [c] + b && IndexOf(a + [c] + b, c) == |a|
  {
    var s := a + [c] + b;
    assert s[|a|] == c;
    assert s[..|a|] == a;
  }

  lemma {:induction false} JoinSnoc(parts: seq<string>, sep: string)
    requires |parts| >= 2
    ensures Join(parts, sep) == Join(parts[..|parts| - 1], sep) + sep + parts[|parts| - 1]
  {
    if |parts| > 2 {
      JoinSnoc(parts[1..], sep);
      assert parts[1..][..|parts| - 2] == parts[..|parts| - 1][1..];
    }
  }

  /**
   * Python's `s.splitlines()` with '\n' as the only line break: no lines for
   * the empty text, and no empty last line for a trailing '\n'.
   */
  function SplitLines(s: string): (lines: seq<string>)
    ensures forall i :: 0 <= i < |lines| ==> '\n' !in lines[i]
  {
    if s == [] then []
    else
      var p := Split(s, '\n');
      if p[|p| - 1] == "" then p[..|p| - 1] else p
  }

  /** Lines joined by '\n' give back the text, less one trailing '\n'. */
  lemma JoinSplitLines(s: string)
    ensures Join(SplitLines(s), "\n") + (if s != [] && s[|s| - 1] == '\n' then "\n" else "") == s
  {
    if s != [] {
      var p := Split(s, '\n');
      assert "\n" == ['\n'];
      JoinSplit(s, '\n');
      var last := p[|p| - 1];
      if last == "" {
        assert |p| >= 2;
        JoinSnoc(p, "\n");
        SplitLinesDrop(s, p);
        assert s == Join(p[..|p| - 1], "\n") + "\n";
      } else {
        SplitLinesOfSplit(s, p);
        if |p| >= 2 {
          JoinSnoc(p, "\n");
        }
        assert s[|s| - 1] == last[|last| - 1];
      }
    }
  }

  lemma SplitLinesDrop(s: string, lines: seq<string>)
    requires s != [] && Split(s, '\n') == lines
    requires |lines| >= 1 && lines[|lines| - 1] == ""
    ensures SplitLines(s) == lines[..|lines| - 1]
  {
  }

  lemma SplitLinesOfSplit(s: string, lines: seq<string>)
    requires s != [] && Split(s, '\n') == lines
    requires |lines| >= 1 && lines[|lines| - 1] != ""
    ensures SplitLines(s) == lines
  {
  }

  lemma {:induction false} JoinNotEmpty(parts: seq<string>, sep: string)
    requires |parts| >= 1 && parts[|parts| - 1] != ""
    ensures Join(parts, sep) != ""
  {
    if |parts| >= 2 {
      JoinSnoc(parts, sep);
    }
  }

  /** Lines without '\n' whose last one is not empty come back from `splitlines` of their join. */
  lemma SplitLinesJoin(lines: seq<string>)
    requires |lines| >= 1 && lines[|lines| - 1] != ""
    requires forall i :: 0 <= i < |lines| ==> '\n' !in lines[i]
    ensures SplitLines(Join(lines, "\n")) == lines
  {
    var s := Join(lines, "\n");
    assert "\n" == ['\n'];
    JoinNotEmpty(lines, "\n");
    SplitJoin(lines, '\n');
    SplitLinesOfSplit(s, lines);
  }

  // ---------------------------------------------------------------------
  // Character substitutions
  // ---------------------------------------------------------------------

  /** Python's `s.replace(c, "")`. */
  function RemoveAll(s: string, c: char): (r: string)
    ensures c !in r
    ensures |r| <= |s|
    ensures c !in s ==> r == s
  {
    if s == [] then []
    else (if s[0] == c then [] else [s[0]]) + RemoveAll(s[1..], c)
  }

  lemma {:induction false} RemoveAllAppend(a: string, b: string, c: char)
    ensures RemoveAll(a + b, c) == RemoveAll(a, c) + RemoveAll(b, c)
  {
    if a != [] {
      assert (a + b)[1..] == a[1..] + b;
      RemoveAllAppend(a[1..], b, c);
    } else {
      assert a + b == b;
    }
  }

  /** Removing the separator from `a + [c] + b` joins the two sides. */
  lemma RemoveSeparator(a: string, b: string, c: char)
    requires c !in a && c !in b
    ensures RemoveAll(a + [c] + b, c) == a + b
  {
    assert RemoveAll([c], c) == [] by {
      assert [c][1..] == [];
    }
    RemoveAllAppend(a, [c], c);
    assert a + [] == a;
    RemoveAllAppend(a + [c], b, c);
  }

  /**
   * `"".join(c if c.isalnum() or c == "_" else "_" for c in s)`: the name
   * sanitisation shared by the run-directory and project names.
   */
  function Sanitize(s: string): (r: string)
    ensures |r| == |s|
    ensures forall i :: 0 <= i < |s| ==> (if IsAlnum(s[i]) || s[i] == '_' then r[i] == s[i] else r[i] == '_')
  {
    seq(|s|, i requires 0 <= i < |s| => if IsAlnum(s[i]) || s[i] == '_' then s[i] else '_')
  }

  predicate IsSafeName(s: string) {
    forall i :: 0 <= i < |s| ==> IsAlnum(s[i]) || s[i] == '_'
  }

  /** A sanitised name contains only alphanumerics and underscores, and sanitising again changes nothing. */
  lemma SanitizeSafe(s: string)
    ensures IsSafeName(Sanitize(s))
    ensures Sanitize(Sanitize(s)) == Sanitize(s)
    ensures IsSafeName(s) ==> Sanitize(s) == s
  {
  }

  // ---------------------------------------------------------------------
  // int()
  // ---------------------------------------------------------------------

  predicate AllDigits(s: string) {
    forall i :: 0 <= i < |s| ==> IsDigit(s[i])
  }

  function DigitValue(c: char): nat
    requires IsDigit(c)
  {
    c as int - '0' as int
  }

  function DigitsValue(s: string): nat
    requires AllDigits(s)
  {
    if s == [] then 0 else 10 * DigitsValue(s[..|s| - 1]) + DigitValue(s[|s| - 1])
  }

  /** The shape `int()` accepts once surrounding whitespace and '_' are gone: an optional sign and one or more digits. */
  predicate IsIntLiteral(s: string) {
    if |s| > 0 && (s[0] == '+' || s[0] == '-') then |s| > 1 && AllDigits(s[1..])
    else |s| > 0 && AllDigits(s)
  }

  /** Python's `int(s)` on a stripped, underscore-free string; `None` where Python raises ValueError. */
  function ParseInt(s: string): (r: Option<int>)
    ensures r.Some? <==> IsIntLiteral(s)
  {
    if |s| > 0 && (s[0] == '+' || s[0] == '-') then
      if |s| > 1 && AllDigits(s[1..]) then
        var v: int := DigitsValue(s[1..]);
        Some(if s[0] == '-' then -v else v)
      else None
    else if |s| > 0 && AllDigits(s) then Some(DigitsValue(s))
    else None
  }

  /** `int` of a run of digits is the number they spell. */
  lemma ParseDigits(s: string)
    requires s != [] && AllDigits(s)
    ensures ParseInt(s) == Some(DigitsValue(s))
  {
    assert IsDigit(s[0]);
  }

  /** Python's `str(n)` for a natural number. */
  function Decimal(n: nat): (s: string)
    ensures |s| > 0 && AllDigits(s)
  {
    if n < 10 then [('0' as int + n) as char]
    else Decimal(n / 10) + [('0' as int + n % 10) as char]
  }

  /** `int(str(n)) == n`. */
  lemma {:induction false} ParseDecimal(n: nat)
    ensures DigitsValue(Decimal(n)) == n
    ensures ParseInt(Decimal(n)) == Some(n)
  {
    if n >= 10 {
      ParseDecimal(n / 10);
      var s := Decimal(n);
      assert s[..|s| - 1] == Decimal(n / 10);
    }
  }

  /** Python's `str(n)` for any integer. */
  function IntText(n: int): (s: string)
    ensures |s| > 0
  {
    if n < 0 then "-" + Decimal(-n) else Decimal(n)
  }

  /** `int(str(n)) == n`, negative numbers included. */
  lemma ParseIntText(n: int)
    ensures ParseInt(IntText(n)) == Some(n)
  {
    if n < 0 {
      ParseDecimal(-n);
      var d := Decimal(-n);
      assert IntText(n)[1..] == d;
    } else {
      ParseDecimal(n);
    }
  }

  // ---------------------------------------------------------------------
  // Paths (pathlib, with '/' as separator)
  // ---------------------------------------------------------------------

  /** `Path(dir) / name`, for a directory given without a trailing '/'. */
  function JoinPath(dir: string, name: string): string {
    dir + "/" + name
  }

  /** `Path(p).name`: the last '/'-separated component. */
  function BaseName(p: string): (r: string)
    ensures '/' !in r
  {
    if p == [] || p[|p| - 1] == '/' then [] else BaseName(p[..|p| - 1]) + [p[|p| - 1]]
  }

  /** The name is a suffix of the path, preceded by a '/' unless it is the whole path. */
  lemma {:induction false} BaseNameSuffix(p: string)
    ensures |BaseName(p)| <= |p| && BaseName(p) == p[|p| - |BaseName(p)|..]
    ensures |BaseName(p)| < |p| ==> p[|p| - |BaseName(p)| - 1] == '/'
  {
    if p != [] && p[|p| - 1] != '/' {
      var q := p[..|p| - 1];
      BaseNameSuffix(q);
      assert BaseName(p) == BaseName(q) + [p[|p| - 1]];
      assert p[|p| - |BaseName(p)|..] == q[|q| - |BaseName(q)|..] + [p[|p| - 1]];
    }
  }

  /** `rfind` of a character that occurs once more, after everything else that could match. */
  lemma {:induction false} RFindLast(a: string, c: char, b: string)
    requires c !in b
    ensures RFind(a + [c] + b, c) == |a|
    decreases |b|
  {
    var s := a + [c] + b;
    if b != [] {
      assert s[..|s| - 1] == a + [c] + b[..|b| - 1];
      assert s[|s| - 1] == b[|b| - 1];
      RFindLast(a, c, b[..|b| - 1]);
    }
  }

  /** The name of `dir / name` is `name`, for a name without '/'. */
  lemma {:induction false} BaseNameJoin(dir: string, name: string)
    requires '/' !in name
    ensures BaseName(JoinPath(dir, name)) == name
    decreases |name|
  {
    var p := JoinPath(dir, name);
    if name == [] {
      assert p[|p| - 1] == '/';
    } else {
      var n := name[..|name| - 1];
      assert p[..|p| - 1] == JoinPath(dir, n);
      assert p[|p| - 1] == name[|name| - 1];
      BaseNameJoin(dir, n);
      assert n + [name[|name| - 1]] == name;
    }
  }

  /** `PurePath.stem` of a name: the name less its final suffix (a '.' that is neither first nor last). */
  function Stem(name: string): (r: string)
    ensures |r| <= |name| && r == name[..|r|]
    ensures r != name ==> 0 < |r| < |name| - 1 && name[|r|] == '.' && '.' !in name[|r| + 1..]
  {
    var i := RFind(name, '.');
    if 0 < i < |name| - 1 then name[..i] else name
  }

  /** A name with a suffix loses exactly that suffix: `Path("top.v").stem == "top"`. */
  lemma StemDropsSuffix(base: string, ext: string)
    requires base != "" && ext != "" && '.' !in ext
    ensures Stem(base + "." + ext) == base
  {
    var name := base + "." + ext;
    assert name == base + ['.'] + ext;
    RFindLast(base, '.', ext);
    assert name[..|base|] == base;
  }

  /** A name with no '.', or only a leading or trailing one, is its own stem. */
  lemma StemNoSuffix(name: string)
    requires '.' !in name || RFind(name, '.') == 0 || RFind(name, '.') == |name| - 1
    ensures Stem(name) == name
  {
  }

  /** `Path(p).stem`. */
  function PathStem(p: string): string {
    Stem(BaseName(p))
  }
}

/**
 * The Vivado resource-utilisation runner: it creates a project directory,
 * writes `run.tcl`, runs Vivado in batch mode, waits, finds the
 * utilisation report the script asked Vivado to write and parses it.
 *
 * The file system, the batch run and the clock are not real here: the file
 * system is the state of a `Host` object, the batch run is a function from
 * the files present and the script path to an exit code and the files it
 * writes, and the timestamp is a parameter.
 */
module ResourceRunner {
  import opened Common
  import opened ResourceConfig
  import opened ResourceReportModel
  import VivadoParser

  // ---------------------------------------------------------------------
  // Names and paths
  // ---------------------------------------------------------------------

  /** `_default_project_name`: the sanitised top name, `_proj_` and the timestamp. */
  function DefaultProjectName(top: string, timestamp: string): (name: string)
  {
    Sanitize(top) + "_proj_" + timestamp
  }

  /** The default name is the sanitised top name, one safe character per character, then `_proj_` and the timestamp. */
  lemma DefaultProjectNameShape(top: string, timestamp: string)
    ensures |DefaultProjectName(top, timestamp)| == |top| + 6 + |timestamp|
    ensures DefaultProjectName(top, timestamp)[..|top|] == Sanitize(top)
    ensures DefaultProjectName(top, timestamp)[|top|..] == "_proj_" + timestamp
    ensures IsSafeName(DefaultProjectName(top, timestamp)[..|top|])
    ensures IsSafeName(top) ==> StartsWith(DefaultProjectName(top, timestamp), top + "_proj_")
    ensures IsSafeName(timestamp) ==> IsSafeName(DefaultProjectName(top, timestamp))
  {
    var name := DefaultProjectName(top, timestamp);
    SanitizeSafe(top);
    assert name[..|top|] == Sanitize(top);
    assert name[|top|..] == "_proj_" + timestamp;
    if IsSafeName(top) {
      assert name[..|top + "_proj_"|] == top + "_proj_";
    }
    if IsSafeName(timestamp) {
      forall i | 0 <= i < |name| ensures IsAlnum(name[i]) || name[i] == '_' {
        if i < |top| {
          assert name[i] == Sanitize(top)[i];
        } else if i >= |top| + 6 {
          assert name[i] == timestamp[i - |top| - 6];
        }
      }
    }
  }

  /** `project_name or self._default_project_name(top_module)`: an empty name counts as absent. */
  function ProjectName(given: Option<string>, top: string, timestamp: string): (name: string)
    ensures given.Some? && given.value != "" ==> name == given.value
    ensures given.None? || given.value == "" ==> name == DefaultProjectName(top, timestamp)
  {
    if given.Some? && given.value != "" then given.value else DefaultProjectName(top, timestamp)
  }

  /** `config.project_root / project_name`. */
  function ProjectDir(cfg: VivadoConfig, name: string): string {
    JoinPath(cfg.projectRoot, name)
  }

  /** `project_dir / "run.tcl"`. */
  function TclPath(dir: string): string {
    JoinPath(dir, "run.tcl")
  }

  /** `_locate_report`'s path: `<project_dir>/<project_name>.runs/synth_1/<top>_utilization_synth.rpt`. */
  function ReportPath(dir: string, name: string, top: string): string {
    JoinPath(JoinPath(JoinPath(dir, name + ".runs"), "synth_1"), top + "_utilization_synth.rpt")
  }

  /** `[Path(f).resolve() for f in hdl_files]`, with `resolve` left abstract. */
  function Resolved(hdlFiles: seq<string>, resolve: string -> string): (r: seq<string>)
    ensures |r| == |hdlFiles|
    ensures forall i :: 0 <= i < |r| ==> r[i] == resolve(hdlFiles[i])
  {
    seq(|hdlFiles|, i requires 0 <= i < |hdlFiles| => resolve(hdlFiles[i]))
  }

  // ---------------------------------------------------------------------
  // run.tcl
  // ---------------------------------------------------------------------

  /** `set <v> "<value>"`. */
  function SetQuoted(v: string, value: string): string {
    "set " + v + " " + ("\"" + value + "\"")
  }

  /** `[file join <w1> <w2> …]`. */
  function FileJoinExpr(words: seq<string>): string {
    "[file join " + Join(words, " ") + "]"
  }

  /** `set <v> [file join $<base> <w1> …]`. */
  function SetFileJoin(v: string, base: string, rest: seq<string>): string {
    "set " + v + " " + FileJoinExpr(["$" + base] + rest)
  }

  /**
   * The first two lines of `tcl_lines`: the project variables,
   * `set proj_name "<name>"` and `set proj_dir "<dir>"`.
   */
  function ProjectVarLines(dir: string, name: string): seq<string> {
    [ SetQuoted("proj_name", name),
      SetQuoted("proj_dir", dir) ]
  }

  /** The next ten: project creation, the sources and synthesis. */
  function BuildLines(cfg: VivadoConfig, files: seq<string>): seq<string> {
    [ "",
      "create_project $proj_name $proj_dir -part " + cfg.devicePart,
      "",
      "add_files -norecurse {" + Join(files, " ") + "}",
      "update_compile_order -fileset sources_1",
      "",
      "launch_runs synth_1 -jobs " + IntText(cfg.jobs),
      "wait_on_run synth_1",
      "open_run synth_1",
      "" ]
  }

  /**
   * The next three: the run directory and the two report paths,
   * `set run_dir [file join $proj_dir <name>.runs synth_1]`,
   * `set rpt_path [file join $run_dir <top>_utilization_synth.rpt]` and
   * `set pb_path [file join $run_dir <top>_utilization_synth.pb]`.
   */
  function PathLines(name: string, top: string): seq<string> {
    [ SetFileJoin("run_dir", "proj_dir", [name + ".runs", "synth_1"]),
      SetFileJoin("rpt_path", "run_dir", [top + RptSuffix]),
      SetFileJoin("pb_path", "run_dir", [top + PbSuffix]) ]
  }

  const RptSuffix: string := "_utilization_synth.rpt"
  const PbSuffix: string := "_utilization_synth.pb"

  /** The last four: the report command and the exit. */
  const ReportLines: seq<string> := ["report_utilization" + " -file $rpt_path -pb $pb_path", "", "exit", ""]

  /** The `tcl_lines` list of `_write_run_tcl`. */
  function TclLines(cfg: VivadoConfig, dir: string, name: string, files: seq<string>, top: string): seq<string> {
    ProjectVarLines(dir, name) + BuildLines(cfg, files) + PathLines(name, top) + ReportLines
  }

  /** The text written to `run.tcl`: the lines joined by '\n'. */
  function TclScript(cfg: VivadoConfig, dir: string, name: string, files: seq<string>, top: string): string {
    Join(TclLines(cfg, dir, name, files, top), "\n")
  }

  predicate OneLineEach(lines: seq<string>) {
    forall i :: 0 <= i < |lines| ==> '\n' !in lines[i]
  }

  lemma OneLineEachConcat(a: seq<string>, b: seq<string>)
    requires OneLineEach(a) && OneLineEach(b)
    ensures OneLineEach(a + b)
  {
    assert forall i :: 0 <= i < |a + b| ==> (a + b)[i] == if i < |a| then a[i] else b[i - |a|];
  }

  lemma {:induction false} JoinNoChar(parts: seq<string>, sep: string, c: char)
    requires c !in sep
    requires forall i :: 0 <= i < |parts| ==> c !in parts[i]
    ensures c !in Join(parts, sep)
  {
    if |parts| > 1 {
      JoinNoChar(parts[1..], sep, c);
    }
  }

  /** The build lines that embed a parameter: the part, the file list and the job count. */
  lemma PartLineOneLine(cfg: VivadoConfig, files: seq<string>)
    requires '\n' !in cfg.devicePart
    ensures '\n' !in BuildLines(cfg, files)[1]
  {
    assert BuildLines(cfg, files)[1] == "create_project $proj_name $proj_dir -part " + cfg.devicePart;
  }

  lemma FilesLineOneLine(cfg: VivadoConfig, files: seq<string>)
    requires OneLineEach(files)
    ensures '\n' !in BuildLines(cfg, files)[3]
  {
    JoinNoChar(files, " ", '\n');
  }

  lemma JobsLineOneLine(cfg: VivadoConfig, files: seq<string>)
    ensures '\n' !in BuildLines(cfg, files)[6]
  {
    var n := IntText(cfg.jobs);
    assert '\n' !in n by {
      assert n == if cfg.jobs < 0 then "-" + Decimal(-cfg.jobs) else Decimal(cfg.jobs);
    }
  }

  /** The fixed build lines. */
  lemma BuildLinesFixedOneLine(cfg: VivadoConfig, files: seq<string>)
    ensures var lines := BuildLines(cfg, files);
      forall i | 0 <= i < |lines| && i != 1 && i != 3 && i != 6 :: '\n' !in lines[i]
  {
    var lines := BuildLines(cfg, files);
    forall i | 0 <= i < |lines| && i != 1 && i != 3 && i != 6 ensures '\n' !in lines[i] {
      if i == 4 {
        assert lines[4] == "update_compile_order -fileset sources_1";
      } else if i == 7 {
        assert lines[7] == "wait_on_run synth_1";
      } else if i == 8 {
        assert lines[8] == "open_run synth_1";
      } else {
        assert lines[i] == "";
      }
    }
  }

  lemma BuildLinesOneLine(cfg: VivadoConfig, files: seq<string>)
    requires '\n' !in cfg.devicePart && OneLineEach(files)
    ensures OneLineEach(BuildLines(cfg, files))
  {
    PartLineOneLine(cfg, files);
    FilesLineOneLine(cfg, files);
    JobsLineOneLine(cfg, files);
    BuildLinesFixedOneLine(cfg, files);
  }

  lemma SetQuotedOneLine(v: string, value: string)
    requires '\n' !in v && '\n' !in value
    ensures '\n' !in SetQuoted(v, value)
  {
  }

  lemma SetFileJoinOneLine(v: string, base: string, rest: seq<string>)
    requires '\n' !in v && '\n' !in base && OneLineEach(rest)
    ensures '\n' !in SetFileJoin(v, base, rest)
  {
    var words := ["$" + base] + rest;
    forall i | 0 <= i < |words| ensures '\n' !in words[i] {
      if i > 0 {
        assert words[i] == rest[i - 1];
      }
    }
    JoinNoChar(words, " ", '\n');
  }

  lemma PathLinesOneLine(name: string, top: string)
    requires '\n' !in name && '\n' !in top
    ensures OneLineEach(PathLines(name, top))
  {
    var lines := PathLines(name, top);
    assert OneLineEach([name + ".runs", "synth_1"]) by {
      var ws := [name + ".runs", "synth_1"];
      forall i | 0 <= i < 2 ensures '\n' !in ws[i] {
        if i == 1 {
          assert ws[i] == "synth_1";
        }
      }
    }
    SetFileJoinOneLine("run_dir", "proj_dir", [name + ".runs", "synth_1"]);
    SetFileJoinOneLine("rpt_path", "run_dir", [top + RptSuffix]);
    SetFileJoinOneLine("pb_path", "run_dir", [top + PbSuffix]);
    assert '\n' !in lines[0] && '\n' !in lines[1] && '\n' !in lines[2];
  }

  /** Splitting the script at '\n' gives back its lines when no input carries a '\n'. */
  lemma TclScriptLines(cfg: VivadoConfig, dir: string, name: string, files: seq<string>, top: string)
    requires '\n' !in cfg.devicePart && '\n' !in dir && '\n' !in name && '\n' !in top && OneLineEach(files)
    ensures Split(TclScript(cfg, dir, name, files, top), '\n') == TclLines(cfg, dir, name, files, top)
  {
    var a, b, c := ProjectVarLines(dir, name), BuildLines(cfg, files), PathLines(name, top);
    SetQuotedOneLine("proj_name", name);
    SetQuotedOneLine("proj_dir", dir);
    assert OneLineEach(a) by {
      assert '\n' !in a[0] && '\n' !in a[1];
    }
    BuildLinesOneLine(cfg, files);
    PathLinesOneLine(name, top);
    assert OneLineEach(ReportLines) by {
      var lines := ReportLines;
      assert '\n' !in lines[0] && '\n' !in lines[1] && '\n' !in lines[2] && '\n' !in lines[3];
    }
    OneLineEachConcat(a, b);
    OneLineEachConcat(a + b, c);
    OneLineEachConcat(a + b + c, ReportLines);
    SplitJoin(TclLines(cfg, dir, name, files, top), '\n');
  }

  // ---------------------------------------------------------------------
  // What the script computes: a small evaluator of its `set` lines
  // ---------------------------------------------------------------------

  /** Variables set so far by the script. */
  type TclEnv = map<string, string>

  /** Characters that Tcl would treat specially inside a bare word. */
  predicate TclSpecial(c: char) {
    c == '$' || c == '[' || c == ']' || c == '\\' || c == ';' || c == '"' || c == '{' || c == '}' || c == ' ' || c == '\n'
  }

  /** A word that Tcl reads literally. */
  predicate PlainWord(w: string) {
    forall i :: 0 <= i < |w| ==> !TclSpecial(w[i])
  }

  /** Text that Tcl reads literally between double quotes. */
  predicate PlainQuoted(s: string) {
    forall i :: 0 <= i < |s| ==> s[i] != '"' && s[i] != '$' && s[i] != '[' && s[i] != '\\'
  }

  /** `set <variable> <value>`: the variable and the value text, when the line is a `set` command. */
  function SetCommand(line: string): Option<(string, string)> {
    if StartsWith(line, "set ") && ' ' in line[4..] then
      var rest := line[4..];
      var i := IndexOf(rest, ' ');
      Some((rest[..i], rest[i + 1..]))
    else None
  }

  /** One word of a `file join`: `$var` is the variable's value, a plain word is itself. */
  function WordValue(env: TclEnv, w: string): Option<string> {
    if |w| > 0 && w[0] == '$' then
      (if w[1..] in env then Some(env[w[1..]]) else None)
    else if PlainWord(w) then Some(w)
    else None
  }

  function WordValues(env: TclEnv, words: seq<string>): (r: Option<seq<string>>)
    ensures r.Some? ==> |r.value| == |words|
  {
    if words == [] then Some([])
    else
      var head := WordValue(env, words[0]);
      var tail := WordValues(env, words[1..]);
      if head.Some? && tail.Some? then Some([head.value] + tail.value) else None
  }

  /** The value of a `set`: a quoted literal, or `[file join w1 w2 …]`, which joins the words with '/'. */
  function SetValue(env: TclEnv, expr: string): Option<string> {
    if |expr| >= 2 && expr[0] == '"' && expr[|expr| - 1] == '"' then
      var inner := expr[1..|expr| - 1];
      if PlainQuoted(inner) then Some(inner) else None
    else if StartsWith(expr, "[file join ") && |expr| >= 12 && expr[|expr| - 1] == ']' then
      var words := WordValues(env, Split(expr[11..|expr| - 1], ' '));
      if words.Some? then Some(Join(words.value, "/")) else None
    else None
  }

  /** One line of the script: a `set` it can evaluate updates the variable, any other line leaves the variables alone. */
  function TclStep(env: TclEnv, line: string): TclEnv {
    var cmd := SetCommand(line);
    if cmd.None? then env
    else
      var value := SetValue(env, cmd.value.1);
      if value.Some? then env[cmd.value.0 := value.value] else env
  }

  /** The variables after running `lines` from `env`. */
  function TclRun(env: TclEnv, lines: seq<string>): TclEnv
    decreases |lines|
  {
    if lines == [] then env
    else TclStep(TclRun(env, lines[..|lines| - 1]), lines[|lines| - 1])
  }

  lemma {:induction false} TclRunAppend(env: TclEnv, a: seq<string>, b: seq<string>)
    ensures TclRun(env, a + b) == TclRun(TclRun(env, a), b)
    decreases |b|
  {
    if b != [] {
      assert (a + b)[..|a + b| - 1] == a + b[..|b| - 1];
      TclRunAppend(env, a, b[..|b| - 1]);
    } else {
      assert a + b == a;
    }
  }

  lemma TclRunTwo(env: TclEnv, x: string, y: string)
    ensures TclRun(env, [x, y]) == TclStep(TclStep(env, x), y)
  {
    assert [x, y][..1] == [x];
    assert [x][..0] == [];
    assert TclRun(env, [x]) == TclStep(TclRun(env, []), x);
  }

  lemma TclRunThree(env: TclEnv, x: string, y: string, z: string)
    ensures TclRun(env, [x, y, z]) == TclStep(TclStep(TclStep(env, x), y), z)
  {
    assert [x, y, z][..2] == [x, y];
    TclRunTwo(env, x, y);
  }

  /** Lines none of which starts with "set " change no variable. */
  lemma {:induction false} TclRunNoSet(env: TclEnv, lines: seq<string>)
    requires forall i :: 0 <= i < |lines| ==> lines[i] == [] || lines[i][0] != 's'
    ensures TclRun(env, lines) == env
    decreases |lines|
  {
    if lines != [] {
      TclRunNoSet(env, lines[..|lines| - 1]);
      var last := lines[|lines| - 1];
      assert !StartsWith(last, "set ");
    }
  }

  lemma SetLineParts(v: string, expr: string)
    requires PlainWord(v)
    ensures SetCommand("set " + v + " " + expr) == Some((v, expr))
  {
    var line := "set " + v + " " + expr;
    var rest := v + [' '] + expr;
    assert line == "set " + rest;
    assert line[..4] == "set ";
    assert line[4..] == rest;
    assert ' ' !in v;
    IndexOfAfter(v, ' ', expr);
    assert rest[..|v|] == v;
    assert rest[|v| + 1..] == expr;
  }

  lemma StepOfSet(env: TclEnv, v: string, expr: string, value: string)
    requires PlainWord(v) && SetValue(env, expr) == Some(value)
    ensures TclStep(env, "set " + v + " " + expr) == env[v := value]
  {
    SetLineParts(v, expr);
  }

  lemma QuotedValue(env: TclEnv, value: string)
    requires PlainQuoted(value)
    ensures SetValue(env, "\"" + value + "\"") == Some(value)
  {
    var q := "\"" + value + "\"";
    assert q[1..|q| - 1] == value;
  }

  lemma FileJoinValue(env: TclEnv, words: seq<string>)
    requires |words| >= 1
    requires forall i :: 0 <= i < |words| ==> ' ' !in words[i]
    ensures var vs := WordValues(env, words);
      SetValue(env, "[file join " + Join(words, " ") + "]") == if vs.Some? then Some(Join(vs.value, "/")) else None
  {
    var j := Join(words, " ");
    var e := "[file join " + j + "]";
    assert e[..11] == "[file join ";
    assert e[11..|e| - 1] == j;
    SplitJoin(words, ' ');
  }

  lemma WordValuesCons(env: TclEnv, w: string, rest: seq<string>)
    requires WordValue(env, w).Some? && WordValues(env, rest).Some?
    ensures WordValues(env, [w] + rest) == Some([WordValue(env, w).value] + WordValues(env, rest).value)
  {
    var ws := [w] + rest;
    assert ws[0] == w;
    assert ws[1..] == rest;
  }

  lemma PlainAppend(a: string, b: string)
    requires PlainWord(a) && PlainWord(b)
    ensures PlainWord(a + b)
  {
    assert forall i :: 0 <= i < |a + b| ==> (a + b)[i] == if i < |a| then a[i] else b[i - |a|];
  }

  lemma Join2(a: string, b: string, sep: string)
    ensures Join([a, b], sep) == a + sep + b
  {
    JoinCons(a, [b], sep);
    assert [a] + [b] == [a, b];
  }

  /** A quoted `set` stores the text between the quotes. */
  lemma SetQuotedStep(env: TclEnv, v: string, value: string)
    requires PlainWord(v) && PlainQuoted(value)
    ensures TclStep(env, SetQuoted(v, value)) == env[v := value]
  {
    QuotedValue(env, value);
    StepOfSet(env, v, "\"" + value + "\"", value);
  }

  /** Plain words are their own values. */
  lemma {:induction false} PlainWordValues(env: TclEnv, words: seq<string>)
    requires forall i :: 0 <= i < |words| ==> PlainWord(words[i])
    ensures WordValues(env, words) == Some(words)
  {
    if words != [] {
      PlainWordValues(env, words[1..]);
      assert words[0] == [] || !TclSpecial(words[0][0]);
      WordValuesCons(env, words[0], words[1..]);
      assert [words[0]] + words[1..] == words;
    }
  }

  /** `set v [file join $base w1 …]` stores the value of `base` and the words, joined by '/'. */
  lemma SetFileJoinStep(env: TclEnv, v: string, base: string, rest: seq<string>)
    requires PlainWord(v) && PlainWord(base) && base in env
    requires forall i :: 0 <= i < |rest| ==> PlainWord(rest[i])
    ensures TclStep(env, SetFileJoin(v, base, rest)) == env[v := Join([env[base]] + rest, "/")]
  {
    var first := "$" + base;
    var words := [first] + rest;
    assert first[1..] == base;
    assert WordValue(env, first) == Some(env[base]);
    PlainWordValues(env, rest);
    WordValuesCons(env, first, rest);
    assert ' ' !in base;
    forall i | 0 <= i < |words| ensures ' ' !in words[i] {
      if i > 0 {
        assert words[i] == rest[i - 1];
      }
    }
    FileJoinValue(env, words);
    StepOfSet(env, v, FileJoinExpr(words), Join([env[base]] + rest, "/"));
  }

  lemma SetFileJoinStep1(env: TclEnv, v: string, base: string, w: string)
    requires PlainWord(v) && PlainWord(base) && base in env && PlainWord(w)
    ensures TclStep(env, SetFileJoin(v, base, [w])) == env[v := env[base] + "/" + w]
  {
    SetFileJoinStep(env, v, base, [w]);
    Join2(env[base], w, "/");
    assert [env[base]] + [w] == [env[base], w];
  }

  lemma SetFileJoinStep2(env: TclEnv, v: string, base: string, w1: string, w2: string)
    requires PlainWord(v) && PlainWord(base) && base in env && PlainWord(w1) && PlainWord(w2)
    ensures TclStep(env, SetFileJoin(v, base, [w1, w2])) == env[v := env[base] + "/" + w1 + "/" + w2]
  {
    forall i | 0 <= i < 2 ensures PlainWord([w1, w2][i]) {
      if i == 1 {
        assert [w1, w2][i] == w2;
      }
    }
    SetFileJoinStep(env, v, base, [w1, w2]);
    var parts := [env[base]] + [w1, w2];
    assert parts == [env[base], w1, w2];
    JoinCons(w1, [w2], "/");
    assert [w1] + [w2] == [w1, w2];
    JoinCons(env[base], [w1, w2], "/");
    assert env[base] + "/" + (w1 + "/" + w2) == env[base] + "/" + w1 + "/" + w2;
  }

  /** The project variable lines leave `proj_dir` holding the project directory. */
  lemma ProjectVarsRun(dir: string, name: string)
    requires PlainQuoted(dir)
    ensures var env := TclRun(map[], ProjectVarLines(dir, name));
      "proj_dir" in env && env["proj_dir"] == dir
  {
    var lines := ProjectVarLines(dir, name);
    TclRunTwo(map[], lines[0], lines[1]);
    assert PlainWord("proj_dir");
    SetQuotedStep(TclStep(map[], lines[0]), "proj_dir", dir);
  }


  /** None of the build lines is a `set`. */
  lemma BuildLinesRun(env: TclEnv, cfg: VivadoConfig, files: seq<string>)
    ensures TclRun(env, BuildLines(cfg, files)) == env
  {
    var lines := BuildLines(cfg, files);
    forall i | 0 <= i < |lines| ensures lines[i] == [] || lines[i][0] != 's' {
      if i == 1 {
        assert lines[1] == "create_project $proj_name $proj_dir -part " + cfg.devicePart;
      } else if i == 3 {
        assert lines[3] == "add_files -norecurse {" + Join(files, " ") + "}";
      } else if i == 4 {
        assert lines[4] == "update_compile_order -fileset sources_1";
      } else if i == 6 {
        assert lines[6] == "launch_runs synth_1 -jobs " + IntText(cfg.jobs);
      } else if i == 7 {
        assert lines[7] == "wait_on_run synth_1";
      } else if i == 8 {
        assert lines[8] == "open_run synth_1";
      } else {
        assert lines[i] == "";
      }
    }
    TclRunNoSet(env, lines);
  }

  /** Nor is any of the report lines. */
  lemma ReportLinesRun(env: TclEnv)
    ensures TclRun(env, ReportLines) == env
  {
    var lines := ReportLines;
    forall i | 0 <= i < |lines| ensures lines[i] == [] || lines[i][0] != 's' {
      if i == 0 {
        assert lines[0] == "report_utilization" + " -file $rpt_path -pb $pb_path";
      } else if i == 2 {
        assert lines[2] == "exit";
      } else {
        assert lines[i] == "";
      }
    }
    TclRunNoSet(env, lines);
  }

  lemma PathWordsPlain()
    ensures PlainWord("proj_dir") && PlainWord("run_dir") && PlainWord("rpt_path") && PlainWord("pb_path")
    ensures PlainWord(".runs") && PlainWord("synth_1") && PlainWord(RptSuffix) && PlainWord(PbSuffix)
    ensures "rpt_path" != "run_dir"
  {
    assert "rpt_path"[1] != "run_dir"[1];
  }

  /** The three path lines set `rpt_path` to the report path from `proj_dir`. */
  lemma PathLinesRun(env: TclEnv, dir: string, name: string, top: string)
    requires "proj_dir" in env && env["proj_dir"] == dir && PlainWord(name) && PlainWord(top)
    ensures var env' := TclRun(env, PathLines(name, top));
      "rpt_path" in env' && env'["rpt_path"] == ReportPath(dir, name, top)
  {
    var lines := PathLines(name, top);
    PathWordsPlain();
    PlainAppend(name, ".runs");
    PlainAppend(top, RptSuffix);
    PlainAppend(top, PbSuffix);
    TclRunThree(env, lines[0], lines[1], lines[2]);
    var runDir := dir + "/" + (name + ".runs") + "/" + "synth_1";
    SetFileJoinStep2(env, "run_dir", "proj_dir", name + ".runs", "synth_1");
    var env1 := env["run_dir" := runDir];
    var rpt := runDir + "/" + (top + RptSuffix);
    SetFileJoinStep1(env1, "rpt_path", "run_dir", top + RptSuffix);
    var env2 := env1["rpt_path" := rpt];
    assert "run_dir" in env2 && env2["run_dir"] == runDir;
    SetFileJoinStep1(env2, "pb_path", "run_dir", top + PbSuffix);
    assert TclRun(env, lines) == env2["pb_path" := env2["run_dir"] + "/" + (top + PbSuffix)];
  }


  /**
   * The report path the script tells Vivado to write, `$rpt_path`, is the
   * path `_locate_report` looks for, so a successful run is found where it
   * was written.
   */
  lemma ScriptReportPathAgrees(cfg: VivadoConfig, dir: string, name: string, files: seq<string>, top: string)
    requires PlainQuoted(dir) && PlainWord(name) && PlainWord(top)
    ensures var env := TclRun(map[], TclLines(cfg, dir, name, files, top));
      "rpt_path" in env && env["rpt_path"] == ReportPath(dir, name, top)
  {
    var a, b, c := ProjectVarLines(dir, name), BuildLines(cfg, files), PathLines(name, top);
    TclRunAppend(map[], a + b + c, ReportLines);
    TclRunAppend(map[], a + b, c);
    TclRunAppend(map[], a, b);
    ProjectVarsRun(dir, name);
    BuildLinesRun(TclRun(map[], a), cfg, files);
    PathLinesRun(TclRun(map[], a + b), dir, name, top);
    ReportLinesRun(TclRun(map[], a + b + c));
  }

  // ---------------------------------------------------------------------
  // The host: files, directories and the effects performed, in order
  // ---------------------------------------------------------------------

  datatype Effect =
    | MakeDir(path: string)
    | WriteFile(path: string)
    | RunBatch(script: string)
    | Sleep(seconds: int)

  datatype RunError =
    | ValueError(message: string)
    | FileNotFoundError(message: string)
    | RuntimeError(message: string)
    | IsADirectoryError(message: string)

  /** What the Vivado batch run does: its exit code and the files it writes. */
  datatype BatchOutcome = BatchOutcome(returnCode: int, written: map<string, string>)

  /** The file system and the effects performed so far. */
  datatype HostState = HostState(files: map<string, string>, dirs: set<string>, effects: seq<Effect>)

  /** `Path.exists()`: a file or a directory. */
  predicate Exists(h: HostState, p: string) {
    p in h.files || p in h.dirs
  }

  const NoFilesMessage: string := "No HDL files provided to ResourceUtilizationRunner"

  function SettingsMissingMessage(p: string): string {
    "Vivado settings script not found: " + p
  }

  function BatchFailedMessage(code: int): string {
    "Vivado batch run failed (exit code " + IntText(code) + "). Check STDOUT/STDERR above."
  }

  function ReportMissingMessage(p: string): string {
    "Utilization report not found at expected path: " + p
  }

  /** `run_for_files` from the host state `h`: the new state and the report or the exception raised. */
  function RunSpec(h: HostState, cfg: VivadoConfig, hdlFiles: seq<string>, top: string, projectName: Option<string>,
                   timestamp: string, resolve: string -> string,
                   batch: (map<string, string>, string) -> BatchOutcome): (HostState, Result<ResourceReport, RunError>)
  {
    if hdlFiles == [] then (h, Err(ValueError(NoFilesMessage)))
    else
      var name := ProjectName(projectName, top, timestamp);
      var dir := ProjectDir(cfg, name);
      var script := TclScript(cfg, dir, name, Resolved(hdlFiles, resolve), top);
      RunAfterWrite(Written(h, dir, script), cfg, dir, name, top, batch)
  }

  /** The state after `_create_project_dir` and `_write_run_tcl`. */
  function Written(h: HostState, dir: string, script: string): HostState {
    HostState(h.files[TclPath(dir) := script], h.dirs + {dir}, h.effects + [MakeDir(dir), WriteFile(TclPath(dir))])
  }

  /** The rest of `run_for_files` once `run.tcl` is written: the batch run, the sleep, locating and parsing the report. */
  function RunAfterWrite(h1: HostState, cfg: VivadoConfig, dir: string, name: string, top: string,
                         batch: (map<string, string>, string) -> BatchOutcome): (HostState, Result<ResourceReport, RunError>)
  {
    var tcl := TclPath(dir);
    if !Exists(h1, cfg.settingsScript) then (h1, Err(FileNotFoundError(SettingsMissingMessage(cfg.settingsScript))))
    else
      var out := batch(h1.files, tcl);
      var h2 := HostState(h1.files + out.written, h1.dirs, h1.effects + [RunBatch(tcl)]);
      if out.returnCode != 0 then (h2, Err(RuntimeError(BatchFailedMessage(out.returnCode))))
      else
        var h3 := h2.(effects := h2.effects + [Sleep(cfg.postRunSleepSeconds)]);
        var rpt := ReportPath(dir, name, top);
        if !Exists(h3, rpt) then (h3, Err(FileNotFoundError(ReportMissingMessage(rpt))))
        else if rpt !in h3.files then (h3, Err(IsADirectoryError(rpt)))
        else (h3, Ok(VivadoParser.Parse(h3.files[rpt])))
  }

  /** An empty file list fails before anything is created, written or run. */
  lemma EmptyInputNoEffects(h: HostState, cfg: VivadoConfig, top: string, projectName: Option<string>,
                            timestamp: string, resolve: string -> string,
                            batch: (map<string, string>, string) -> BatchOutcome)
    ensures RunSpec(h, cfg, [], top, projectName, timestamp, resolve, batch) == (h, Err(ValueError(NoFilesMessage)))
  {
  }

  /** The steps a run performs, in the order the source performs them. */
  function AllSteps(cfg: VivadoConfig, dir: string): seq<Effect> {
    [MakeDir(dir), WriteFile(TclPath(dir)), RunBatch(TclPath(dir)), Sleep(cfg.postRunSleepSeconds)]
  }

  /** After the write, a run appends none, the first or both of "run Vivado, sleep", and only a run that slept returns a report. */
  lemma AfterWriteOrder(h1: HostState, cfg: VivadoConfig, dir: string, name: string, top: string,
                        batch: (map<string, string>, string) -> BatchOutcome)
    ensures var (h', r) := RunAfterWrite(h1, cfg, dir, name, top, batch);
      && |h1.effects| <= |h'.effects| <= |h1.effects| + 2
      && h'.effects == h1.effects + AllSteps(cfg, dir)[2..|h'.effects| - |h1.effects| + 2]
      && h'.dirs == h1.dirs
      && (r.Ok? ==> |h'.effects| == |h1.effects| + 2
                    && ReportPath(dir, name, top) in h'.files
                    && r.value == VivadoParser.Parse(h'.files[ReportPath(dir, name, top)]))
  {
    var steps := AllSteps(cfg, dir);
    assert steps[2..2] == [];
    assert steps[2..3] == [RunBatch(TclPath(dir))];
    assert steps[2..4] == [RunBatch(TclPath(dir)), Sleep(cfg.postRunSleepSeconds)];
  }

  /** The step order of a run from the moment the script is written, whatever the script says. */
  lemma WrittenRunOrder(h: HostState, cfg: VivadoConfig, dir: string, name: string, top: string, script: string,
                        batch: (map<string, string>, string) -> BatchOutcome)
    ensures var (h', r) := RunAfterWrite(Written(h, dir, script), cfg, dir, name, top, batch);
      && 2 <= |h'.effects| - |h.effects| <= 4
      && h'.effects == h.effects + AllSteps(cfg, dir)[..|h'.effects| - |h.effects|]
      && dir in h'.dirs
      && (r.Ok? ==> h'.effects == h.effects + AllSteps(cfg, dir)
                    && ReportPath(dir, name, top) in h'.files
                    && r.value == VivadoParser.Parse(h'.files[ReportPath(dir, name, top)]))
  {
    var h1 := Written(h, dir, script);
    AfterWriteOrder(h1, cfg, dir, name, top, batch);
    var h' := RunAfterWrite(h1, cfg, dir, name, top, batch).0;
    var k := |h'.effects| - |h.effects|;
    var steps := AllSteps(cfg, dir);
    assert steps[..k] == steps[..2] + steps[2..k];
    assert steps[..2] == [MakeDir(dir), WriteFile(TclPath(dir))];
    assert steps[..4] == steps;
  }

  /**
   * A run appends a prefix of "make the project directory, write the script,
   * run Vivado, sleep" to the effects; a run that returns a report performed
   * all four, and the report is the parse of the file at the located path.
   */
  lemma RunStepOrder(h: HostState, cfg: VivadoConfig, hdlFiles: seq<string>, top: string, projectName: Option<string>,
                     timestamp: string, resolve: string -> string,
                     batch: (map<string, string>, string) -> BatchOutcome)
    requires hdlFiles != []
    ensures var (h', r) := RunSpec(h, cfg, hdlFiles, top, projectName, timestamp, resolve, batch);
      var name := ProjectName(projectName, top, timestamp);
      var dir := ProjectDir(cfg, name);
      && 2 <= |h'.effects| - |h.effects| <= 4
      && h'.effects == h.effects + AllSteps(cfg, dir)[..|h'.effects| - |h.effects|]
      && dir in h'.dirs
      && (r.Ok? ==> h'.effects == h.effects + AllSteps(cfg, dir)
                    && ReportPath(dir, name, top) in h'.files
                    && r.value == VivadoParser.Parse(h'.files[ReportPath(dir, name, top)]))
  {
    var name := ProjectName(projectName, top, timestamp);
    var dir := ProjectDir(cfg, name);
    WrittenRunOrder(h, cfg, dir, name, top, TclScript(cfg, dir, name, Resolved(hdlFiles, resolve), top), batch);
  }

  /** A run that returns a report read it from the path the script writes. */
  lemma RunReadsScriptReport(h: HostState, cfg: VivadoConfig, hdlFiles: seq<string>, top: string, projectName: Option<string>,
                             timestamp: string, resolve: string -> string,
                             batch: (map<string, string>, string) -> BatchOutcome)
    requires hdlFiles != []
    requires PlainQuoted(ProjectDir(cfg, ProjectName(projectName, top, timestamp)))
    requires PlainWord(ProjectName(projectName, top, timestamp)) && PlainWord(top)
    requires RunSpec(h, cfg, hdlFiles, top, projectName, timestamp, resolve, batch).1.Ok?
    ensures var (h', r) := RunSpec(h, cfg, hdlFiles, top, projectName, timestamp, resolve, batch);
      var name := ProjectName(projectName, top, timestamp);
      var dir := ProjectDir(cfg, name);
      var env := TclRun(map[], TclLines(cfg, dir, name, Resolved(hdlFiles, resolve), top));
      "rpt_path" in env && env["rpt_path"] in h'.files && r.value == VivadoParser.Parse(h'.files[env["rpt_path"]])
  {
    var name := ProjectName(projectName, top, timestamp);
    var dir := ProjectDir(cfg, name);
    ScriptReportPathAgrees(cfg, dir, name, Resolved(hdlFiles, resolve), top);
    RunStepOrder(h, cfg, hdlFiles, top, projectName, timestamp, resolve, batch);
  }

  /** The file system of the machine that runs Vivado, and the effects performed on it. */
  class Host {
    var files: map<string, string>
    var dirs: set<string>
    var effects: seq<Effect>

    function State(): HostState
      reads this
    {
      HostState(files, dirs, effects)
    }

    constructor (files0: map<string, string>, dirs0: set<string>)
      ensures files == files0 && dirs == dirs0 && effects == []
    {
      files := files0;
      dirs := dirs0;
      effects := [];
    }

    /** `_create_project_dir`: `mkdir(parents=True, exist_ok=True)` of the project directory. */
    method CreateProjectDir(cfg: VivadoConfig, name: string) returns (dir: string)
      modifies this
      ensures dir == ProjectDir(cfg, name)
      ensures dirs == old(dirs) + {dir} && files == old(files)
      ensures effects == old(effects) + [MakeDir(dir)]
    {
      dir := ProjectDir(cfg, name);
      dirs := dirs + {dir};
      effects := effects + [MakeDir(dir)];
    }

    /** `_write_run_tcl`: writes the script to `run.tcl` in the project directory. */
    method WriteRunTcl(cfg: VivadoConfig, dir: string, name: string, hdlFiles: seq<string>, top: string)
      returns (tclPath: string)
      modifies this
      ensures tclPath == TclPath(dir)
      ensures files == old(files)[tclPath := TclScript(cfg, dir, name, hdlFiles, top)] && dirs == old(dirs)
      ensures effects == old(effects) + [WriteFile(tclPath)]
    {
      tclPath := TclPath(dir);
      files := files[tclPath := TclScript(cfg, dir, name, hdlFiles, top)];
      effects := effects + [WriteFile(tclPath)];
    }

    /** `_run_vivado_batch`: fails before running when the settings script is missing, and on a non-zero exit code. */
    method RunVivadoBatch(cfg: VivadoConfig, tclPath: string, batch: (map<string, string>, string) -> BatchOutcome)
      returns (err: Option<RunError>)
      modifies this
      ensures !Exists(old(State()), cfg.settingsScript) ==>
        err == Some(FileNotFoundError(SettingsMissingMessage(cfg.settingsScript))) && State() == old(State())
      ensures Exists(old(State()), cfg.settingsScript) ==>
        var out := batch(old(files), tclPath);
        && files == old(files) + out.written && dirs == old(dirs)
        && effects == old(effects) + [RunBatch(tclPath)]
        && err == (if out.returnCode != 0 then Some(RuntimeError(BatchFailedMessage(out.returnCode))) else None)
    {
      if !(cfg.settingsScript in files || cfg.settingsScript in dirs) {
        return Some(FileNotFoundError(SettingsMissingMessage(cfg.settingsScript)));
      }
      var out := batch(files, tclPath);
      files := files + out.written;
      effects := effects + [RunBatch(tclPath)];
      if out.returnCode != 0 {
        return Some(RuntimeError(BatchFailedMessage(out.returnCode)));
      }
      return None;
    }

    /** `time.sleep`. */
    method SleepFor(seconds: int)
      modifies this
      ensures files == old(files) && dirs == old(dirs) && effects == old(effects) + [Sleep(seconds)]
    {
      effects := effects + [Sleep(seconds)];
    }

    /** `_locate_report`: the expected path, or FileNotFoundError when nothing exists there. */
    method LocateReport(dir: string, name: string, top: string) returns (r: Result<string, RunError>)
      ensures Exists(State(), ReportPath(dir, name, top)) ==> r == Ok(ReportPath(dir, name, top))
      ensures !Exists(State(), ReportPath(dir, name, top)) ==>
        r == Err(FileNotFoundError(ReportMissingMessage(ReportPath(dir, name, top))))
    {
      var path := ReportPath(dir, name, top);
      if !(path in files || path in dirs) {
        return Err(FileNotFoundError(ReportMissingMessage(path)));
      }
      return Ok(path);
    }

    /** `VivadoResourceReportParser().parse(path)`: reads the file and parses its text. */
    method ParseReport(path: string) returns (r: Result<ResourceReport, RunError>)
      requires Exists(State(), path)
      ensures path in files ==> r == Ok(VivadoParser.Parse(files[path]))
      ensures path !in files ==> r == Err(IsADirectoryError(path))
    {
      if path !in files {
        return Err(IsADirectoryError(path));
      }
      return Ok(VivadoParser.Parse(files[path]));
    }

    /** `run_for_files`. */
    method RunForFiles(cfg: VivadoConfig, hdlFiles: seq<string>, top: string, projectName: Option<string>,
                       timestamp: string, resolve: string -> string,
                       batch: (map<string, string>, string) -> BatchOutcome)
      returns (r: Result<ResourceReport, RunError>)
      modifies this
      ensures (State(), r) == RunSpec(old(State()), cfg, hdlFiles, top, projectName, timestamp, resolve, batch)
    {
      var resolved := Resolved(hdlFiles, resolve);
      if resolved == [] {
        return Err(ValueError(NoFilesMessage));
      }
      ghost var h0 := State();
      var name := ProjectName(projectName, top, timestamp);
      var dir := CreateProjectDir(cfg, name);
      var tclPath := WriteRunTcl(cfg, dir, name, resolved, top);
      assert State() == Written(h0, dir, TclScript(cfg, dir, name, resolved, top));
      var err := RunVivadoBatch(cfg, tclPath, batch);
      if err.Some? {
        return Err(err.value);
      }
      ghost var h2 := State();
      SleepFor(cfg.postRunSleepSeconds);
      assert State() == h2.(effects := h2.effects + [Sleep(cfg.postRunSleepSeconds)]);
      var located := LocateReport(dir, name, top);
      if located.Err? {
        return Err(located.error);
      }
      r := ParseReport(located.value);
    }
  }
}

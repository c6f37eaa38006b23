# HDLLoop core, modelled in Dafny

HDLLoop is an LLM-driven loop that optimises multi-file HDL designs. This
project models the deterministic parts of that loop and proves properties
about them:

- **The HDL file-block writer** (`OptimizedHdlWriter`).
  - It reads the model's reply as text.
  - It finds the fenced code regions and their `// File:` / `-- File:` headers, and builds an insertion-ordered map from file name to code.
  - It creates a timestamped run directory, copies the original files into it and writes the extracted files over them.
  - It raises a `ValueError` when the reply holds no file block.
- **The Vivado utilization-report parser.** It reads the target device from the `| Device` line. Each metric comes from the "Used" column of a pipe-delimited row with a fixed label. It also covers the `ResourceReport` record the parser returns.
- **The Vivado runner** (`ResourceUtilizationRunner`).
  - It checks the input for files and derives the project name.
  - It writes the exact `run.tcl` text.
  - It runs the batch, sleeps, locates the report and parses it, in that order, with every guard in between.
  - It reads its settings from `VivadoConfig`.
- **Two chat-stream translators.**
  - `matlab_agent.MatlabAgent`: a per-index reasoning cache that emits only the new suffix of each summary text, plus answer-text extraction.
  - `hdlagent.MatlabAgent`: forwards reasoning items whole, with a `"\n\n"` separator each time the summary index rises. Its three-way message builder is modelled too (no files / no existing file / full design prompt).
- **The optimisation graph** (`hdl_flow`). It has four node functions over a key-value state, wired `resource_init → agent → compile_check → resource_final → END`. Each node's partial update is merged into the state in turn.
- **The compile-check stub.**

## Modelling choices

**Pure code.** The Python code that only computes becomes Dafny functions over datatypes:

- the parser;
- the message builders;
- the prompt templates;
- the node functions;
- the compile-check summary.

**Loops.** Code that works by updating variables becomes methods with loops. Each method is proved equal to a specification function, and the properties are proved about that function. These methods are:

- the line loop of `_parse_file_blocks`;
- `_extract_text`;
- `_copy_original_files`;
- the `all_paths` loop;
- the reasoning cache loop;
- `_stream_llm`;
- `_collect_existing_paths`;
- `_build_hdl_bundle`;
- the common-prefix loop.

**Classes.** Objects whose state changes become classes with `modifies` clauses:

- the writer and its file system (`HdlWriter.Writer`);
- the Vivado host (`ResourceRunner.Host`);
- the LangGraph `StateGraph` under construction.

**Loop bodies.** Three loop bodies are factored into methods of their own:

- `ReasoningStream.HandleEvent` (one event of `astream_run`);
- `HdlWriter.MatchHeader` (the header test of one line);
- `HdlWriter.Writer.WriteFiles` (the `all_paths` loop).

**Collaborators** are function-typed parameters:

- the chat model;
- the resource runner's summary (`ResourceReport` has no `to_human_summary`, so "summary of a report" is uninterpreted);
- the compile runner;
- `Path.exists`;
- `read_text`;
- `Path.resolve`;
- the Vivado batch run;
- the clock's timestamp.

**Python's dynamic values** are reduced to what the code tests of them. A looked-up field is absent, a string, or another value with its truthiness. Chunk content is a string, a list of parts, or something else.

**Text** is `seq<char>`. `strip`, `split`, `splitlines`, `int`, `isalnum`, `Path.name` and `Path.stem` are defined in `Common` on ASCII.

**Shared code.** `hdlagent.py` and `hdl_flow.py` each carry an identical `_build_hdl_bundle`, which is modelled once (`Prompts.Bundle`). Their `_format_design_prompt` copies differ only in indentation, which is a parameter of `Prompts.DesignPrompt`.

### Behaviour of the code worth knowing

- **No materialisation stage.** `hdl_flow.py` wires no stage that writes the optimised files back. `compile_check` and `resource_final` run on the original `hdl_paths`, never on the files the writer produces.
- **The stored body keeps its header line.** For a region opening with `-- File: top.vhd (UPDATED)`, the code stored under `top.vhd` is the whole stripped region, the header line included (`HdlWriter.HeaderFirstLine`, `HdlWriter.OneFileReply`).
- **Reasoning is forwarded whole in `hdlagent.py`.** Its `_stream_llm` forwards each summary item whole (`HdlAgent.NoAdvanceForwardsWhole`); only `matlab_agent.py` computes the new suffix of a growing text.
- **An empty original list is not rejected.** `write_from_agent_response` does not check it: with no originals it still creates the run directory and writes the extracted files.
- **Run directories collide within one second.** The timestamp has one-second resolution and `mkdir(exist_ok=True)` accepts an existing directory, so two runs in the same second for the same top name share one directory. `HdlWriter.RunDirDistinct` states what does hold: distinct timestamps give distinct directories.

## Model

| member | source | states |
|---|---|---|
| ResourceConfig.NewConfig | app/modules/hdl/resource_config.py:8-28 | A config built from the settings script and project root has device part `xc7vx485tffg1157-1`, 10 jobs and a 120-second post-run sleep; the record is an immutable value |
| ResourceReportModel.NewReport | app/modules/hdl/resource_report.py:8-23 | A report built from tool and target alone keeps them and has every metric, `fmax_mhz` included, absent |
| CompileCheck.NewResult | CompileCheckTool.py:8-11 | `errors` defaults to `None` |
| CompileCheck.ToHumanSummary | CompileCheckTool.py:13-18 | The three-way summary: the success text when ok whatever the errors, the failure prefix followed by the errors when not ok with non-empty errors, the bare failure text otherwise |
| CompileCheck.SummaryDistinguishes | CompileCheckTool.py:13-18 | The summary is the success text exactly when the result is ok, and two failure summaries with errors are equal only when their errors are |
| CompileCheck.Run | CompileCheckTool.py:34-38 | The stub returns `ok=True, errors=None` for any input, so its summary is the success text |
| Common.Strip | app/modules/hdl/vivado_resource_parser.py:51 | `str.strip` leaves a string with no whitespace at either end, no longer than its input |
| Common.StripPadded | app/modules/hdl/vivado_resource_parser.py:78 | Stripping whitespace-padded stripped text gives that text back |
| Common.Split | app/modules/hdl/vivado_resource_parser.py:77 | `str.split` on one character gives at least one piece, none holding the separator |
| Common.JoinSplit | app/modules/hdl/vivado_resource_parser.py:54 | Splitting on a character and joining on it restores the text |
| Common.SplitJoin | app/modules/hdl/resource_utilization_runner.py:142 | Joining separator-free pieces and splitting again gives the pieces back |
| Common.SplitLines | app/modules/hdl/vivado_resource_parser.py:26 | `splitlines` gives lines without a line break |
| Common.JoinSplitLines | OptimizedHdlWriter.py:210 | Joining the lines of a text with `\n` restores it, less one trailing `\n` |
| Common.SplitLinesJoin | OptimizedHdlWriter.py:228 | Lines without a line break, the last non-empty, come back from `splitlines` of their join |
| Common.RemoveAll | app/modules/hdl/vivado_resource_parser.py:87 | `replace(c, "")` leaves no `c` and changes a text without `c` not at all |
| Common.RemoveSeparator | app/modules/hdl/vivado_resource_parser.py:87 | Removing the one separator between two separator-free texts concatenates them |
| Common.ParseInt | app/modules/hdl/vivado_resource_parser.py:88-91 | `int()` succeeds exactly on an optional sign followed by digits |
| Common.ParseDigits | app/modules/hdl/vivado_resource_parser.py:89 | `int` of a run of digits is the number they spell |
| Common.ParseDecimal | app/modules/hdl/vivado_resource_parser.py:89 | `int(str(n)) == n` for a natural number |
| Common.ParseIntText | app/modules/hdl/resource_utilization_runner.py:186 | `int(str(n)) == n` for any integer, so the exit code in the batch error message is recoverable |
| Common.Sanitize | OptimizedHdlWriter.py:152-155 | Each character is kept when alphanumeric or `_` and replaced by `_` otherwise; the length is kept |
| Common.SanitizeSafe | app/modules/hdl/resource_utilization_runner.py:85 | A sanitised name is safe, sanitising is idempotent, and a safe name is kept unchanged |
| Common.IndexOf | app/modules/hdl/vivado_resource_parser.py:54 | `str.index` of a present character is its first occurrence |
| Common.RFind | hdlagent.py:176 | `str.rfind` is the last occurrence, or -1 exactly when the character is absent |
| Common.IntText | app/modules/hdl/resource_utilization_runner.py:186 | `str(n)` is never empty |
| Common.FindFirst | app/modules/hdl/vivado_resource_parser.py:50-57 | The first index whose element satisfies the test, no earlier one satisfying it, or the length when none does |
| Common.FindFirstAt | app/modules/hdl/vivado_resource_parser.py:69-93 | The first match is found whatever follows it |
| Common.Filter | hdlagent.py:159-164 | The kept elements satisfy the test and come from the input |
| Common.FilterAppend | hdlagent.py:160-163 | Filtering keeps input order |
| Common.FilterMembers | hdlagent.py:162-163 | An element is kept exactly when it occurs and satisfies the test |
| Common.FilterEmpty | hdlagent.py:75 | Nothing is kept exactly when no element satisfies the test |
| Common.BaseName | OptimizedHdlWriter.py:167 | `Path.name` holds no `/` |
| Common.BaseNameSuffix | OptimizedHdlWriter.py:167 | `Path.name` is the last component: a suffix of the path, preceded by a `/` unless it is the whole path |
| Common.BaseNameJoin | OptimizedHdlWriter.py:167 | The name of `run_dir / name` is `name`, for a name without `/`, so each copy keeps its source's file name |
| Common.Stem | hdlagent.py:176 | `Path.stem` is a prefix of the name; when shorter, it stops at the last `.`, which is neither first nor last |
| Common.StemDropsSuffix | hdlagent.py:176 | A name `base.ext` (non-empty base, non-empty extension without `.`) has stem `base`, so `top.v` gives the top name `top` |
| Common.StemNoSuffix | hdlagent.py:176 | A name without a `.`, or whose last `.` is first or last, is its own stem |
| Common.Lower | OptimizedHdlWriter.py:205 | Case folding maps upper-case letters to lower-case letters and leaves every other character alone |
| VivadoParser.Target | app/modules/hdl/vivado_resource_parser.py:28 | The target is never empty: the parsed device if non-empty, `"unknown"` when no device line exists or its value is empty |
| VivadoParser.FirstDeviceLineDecides | app/modules/hdl/vivado_resource_parser.py:49-57 | The first stripped line starting with `\| Device` and holding a `:` gives the device, whatever follows it |
| VivadoParser.NoDeviceLineUnknown | app/modules/hdl/vivado_resource_parser.py:57 | Without a device line there is no device and the target is `"unknown"` |
| VivadoParser.DeviceLineValue | app/modules/hdl/vivado_resource_parser.py:54-56 | The device value is the text after the first `:`, stripped |
| VivadoParser.Cells | app/modules/hdl/vivado_resource_parser.py:77-78 | Every cell of a row is stripped text, with no whitespace at either end |
| VivadoParser.RowCells | app/modules/hdl/vivado_resource_parser.py:77-78 | The cells of a row `\| key \| used \|` are the key and the used text |
| VivadoParser.FindLabelRow | app/modules/hdl/vivado_resource_parser.py:69-83 | The index of the first row that passes both filters and whose first cell is the label, or the end |
| VivadoParser.RowMatches | app/modules/hdl/vivado_resource_parser.py:71-83 | A rendered row passes the filters and the exact-label test for its own key and for no other key |
| VivadoParser.OtherRowSkipped | app/modules/hdl/vivado_resource_parser.py:81-83 | A row labelled with another key is skipped |
| VivadoParser.UsedOf | app/modules/hdl/vivado_resource_parser.py:84-91 | A value exactly when there are two cells and the second, less every `_` and stripped, is an integer literal; `None` otherwise, never 0 |
| VivadoParser.ExtractUsedSome | app/modules/hdl/vivado_resource_parser.py:59-93 | A reported value is the Used cell of the first row whose first cell is the label; with no such row the metric is `None` |
| VivadoParser.FirstRowDecides | app/modules/hdl/vivado_resource_parser.py:81-91 | The first row for the label decides and later rows are never consulted |
| VivadoParser.Parse | app/modules/hdl/vivado_resource_parser.py:24-45 | The report always has tool `vivado`, no `fmax_mhz` and a non-empty target |
| VivadoParser.MissingRowIsNone | app/modules/hdl/vivado_resource_parser.py:30-34 | A metric whose label has no row is absent, not zero, for each of the five labels |
| VivadoParser.RowNotDeviceLine | app/modules/hdl/vivado_resource_parser.py:52 | A metric row is not taken for the device line |
| VivadoParser.DeviceLineCells | app/modules/hdl/vivado_resource_parser.py:74-80 | The device line is not taken for a metric row |
| VivadoParser.OwnRowValue | app/modules/hdl/vivado_resource_parser.py:84-89 | A row holding the decimal text of `n` reads back `n` |
| VivadoParser.RenderedRowFound | app/modules/hdl/vivado_resource_parser.py:69-93 | Below a first line that is not a row for the label, rows with distinct labels each read back their own value |
| VivadoParser.ParseRenderedReport | app/modules/hdl/vivado_resource_parser.py:24-45 | Round trip: parsing a report with a device line and one row per label gives back the target and all five metrics, lut/ff/dsp/bram/uram from `Slice LUTs*`, `Slice Registers`, `DSPs`, `Block RAM Tile`, `URAM` |
| VivadoParser.GroupedUsedValue | app/modules/hdl/vivado_resource_parser.py:87-89 | A Used cell with a digit-group `_` (such as `6_528`) reads as the number its digits spell |
| ResourceRunner.DefaultProjectNameShape | app/modules/hdl/resource_utilization_runner.py:83-86 | The default name is the sanitised top name (same length, safe characters), `_proj_` and the timestamp; a safe top name is kept |
| ResourceRunner.ProjectName | app/modules/hdl/resource_utilization_runner.py:47 | A given non-empty name is used; a missing or empty one gives the default name |
| ResourceRunner.Resolved | app/modules/hdl/resource_utilization_runner.py:43 | Each input path is resolved, in order |
| ResourceRunner.TclScriptLines | app/modules/hdl/resource_utilization_runner.py:115-142 | Splitting the written script at `\n` gives back the fixed line list, when no input carries a line break |
| ResourceRunner.BuildLinesOneLine | app/modules/hdl/resource_utilization_runner.py:121-130 | The project, sources and synthesis lines, which embed the device part, the space-joined files and the job count, are one line each |
| ResourceRunner.PathLinesOneLine | app/modules/hdl/resource_utilization_runner.py:133-135 | The three path lines are one line each |
| ResourceRunner.SetQuotedStep | app/modules/hdl/resource_utilization_runner.py:117-118 | A quoted Tcl `set` stores the text between the quotes |
| ResourceRunner.SetFileJoinStep | app/modules/hdl/resource_utilization_runner.py:133-135 | `set v [file join $base w…]` stores the base's value and the words joined by `/` |
| ResourceRunner.ProjectVarsRun | app/modules/hdl/resource_utilization_runner.py:117-118 | The project-variable lines leave `proj_dir` holding the project directory |
| ResourceRunner.BuildLinesRun | app/modules/hdl/resource_utilization_runner.py:121-130 | The build lines set no Tcl variable |
| ResourceRunner.ReportLinesRun | app/modules/hdl/resource_utilization_runner.py:136-139 | The report and exit lines set no Tcl variable |
| ResourceRunner.PathLinesRun | app/modules/hdl/resource_utilization_runner.py:133-134 | The path lines set `rpt_path` to `<proj_dir>/<name>.runs/synth_1/<top>_utilization_synth.rpt` |
| ResourceRunner.ScriptReportPathAgrees | app/modules/hdl/resource_utilization_runner.py:200-201 | The report path the script makes Vivado write is the path `_locate_report` checks |
| ResourceRunner.EmptyInputNoEffects | app/modules/hdl/resource_utilization_runner.py:43-45 | An empty file list raises the `ValueError` with the host state untouched: no directory, script or batch run |
| ResourceRunner.AfterWriteOrder | app/modules/hdl/resource_utilization_runner.py:59-79 | After the script is written, a run adds none, the first or both of "batch run, sleep"; only a run that slept returns a report, the parse of the file at the report path |
| ResourceRunner.WrittenRunOrder | app/modules/hdl/resource_utilization_runner.py:48-79 | From directory creation on, the effects are a prefix of "make directory, write script, batch run, sleep" |
| ResourceRunner.RunStepOrder | app/modules/hdl/resource_utilization_runner.py:30-79 | A run with files appends a prefix, at least two steps long, of "make directory, write script, batch run, sleep"; a run that returns a report performed all four and parsed the file at the located path |
| ResourceRunner.RunReadsScriptReport | app/modules/hdl/resource_utilization_runner.py:68-76 | A run that returns a report parsed the file at the path the script's `rpt_path` names |
| ResourceRunner.Host.CreateProjectDir | app/modules/hdl/resource_utilization_runner.py:88-92 | The directory `project_root/name` is added; files are untouched; one `MakeDir` effect is recorded |
| ResourceRunner.Host.WriteRunTcl | app/modules/hdl/resource_utilization_runner.py:94-143 | `run.tcl` in the project directory now holds the script text; one `WriteFile` effect is recorded |
| ResourceRunner.Host.RunVivadoBatch | app/modules/hdl/resource_utilization_runner.py:145-188 | A missing settings script raises `FileNotFoundError` before anything runs; otherwise the batch's files are added and a non-zero exit code raises `RuntimeError` with the code in its message |
| ResourceRunner.Host.SleepFor | app/modules/hdl/resource_utilization_runner.py:66 | Only a `Sleep` effect is recorded |
| ResourceRunner.Host.LocateReport | app/modules/hdl/resource_utilization_runner.py:190-210 | The expected report path when something exists there, `FileNotFoundError` naming it otherwise |
| ResourceRunner.Host.ParseReport | app/modules/hdl/resource_utilization_runner.py:75-76 | The parse of the file's text; a directory at the path gives `IsADirectoryError` |
| ResourceRunner.Host.RunForFiles | app/modules/hdl/resource_utilization_runner.py:30-79 | The new host state and the result are those of the run specification, whose order and guards the lemmas above state |
| Prompts.Conversation | hdlagent.py:89-93 | `[System(system), *history, Human(human)]`: the history is kept unchanged between the two |
| Prompts.BuildHdlBundle | hdlagent.py:182-198 | The loop builds the bundle: one section per path, in order, joined by a blank line |
| Prompts.BundlePartsHeaders | hdl_flow.py:144-150 | Every section starts with `// File: <name>`, readable or not; a readable file's section is the header, its code and a line break |
| Prompts.BundleAppend | hdlagent.py:187-198 | The bundle of two path lists is their bundles joined by a blank line, so each file contributes its own section whatever the others read |
| Prompts.BundleSingle | hdlagent.py:196-198 | The bundle of one file is its section |
| Prompts.DesignPromptEmbeds | hdlagent.py:210-225 | The design prompt holds the top name, the baseline summary and the goal, and the whole bundle between a `verilog` fence and a closing fence |
| HdlAgent.NoFilesHuman | hdlagent.py:103-109 | The no-files human message carries the request |
| HdlAgent.MissingPathsHuman | hdlagent.py:132-138 | The missing-paths human message lists every given path, joined by `\n`, and the request |
| HdlAgent.SelectFlowCases | hdlagent.py:71-76 | No files when the list is missing or empty; missing paths exactly when it is non-empty and no path exists; otherwise the full design from the existing paths only, in order |
| HdlAgent.CollectExistingPaths | hdlagent.py:154-164 | The loop keeps exactly the existing paths, in order |
| HdlAgent.FirstOfFilter | hdlagent.py:176 | The first existing path heads the filtered list |
| HdlAgent.DesignInputs | hdlagent.py:166-180 | The top name is the stem of the first existing path, the bundle is that of the existing paths, and it fails exactly when the baseline run fails |
| HdlAgent.BuildMessages | hdlagent.py:59-93 | Every successful branch is `[system, *history, human]`; only the full-design branch can fail |
| HdlAgent.NoFilesConversation | hdlagent.py:95-121 | No files gives the fixed no-files system text and human message, and nothing is looked up or run |
| HdlAgent.MissingPathsConversation | hdlagent.py:123-150 | No existing path gives the fixed missing-paths conversation, whose human message lists every path |
| HdlAgent.FullDesignConversation | hdlagent.py:78-93 | The full branch sends the system prompt and the design prompt built from the first existing path's stem, the baseline summary and the bundle of the existing paths |
| HdlAgent.StreamThoughts | hdlagent.py:260-269 | The summary loop computes the specification's tracker and emissions |
| HdlAgent.StreamLlmParts | hdlagent.py:250-275 | The parts loop computes the specification's tracker and emissions |
| HdlAgent.StreamLlm | hdlagent.py:229-279 | `_stream_llm` yields the specification's pairs for the chunks, the tracker starting at 0 |
| HdlAgent.AstreamRun | hdlagent.py:40-55 | The pairs of the model's stream for the built messages, or the error of building them |
| HdlAgent.TrackerIsHighestIndex | hdlagent.py:243-267 | The tracked index never falls, bounds every forwarded item's index, and is either its start or some item's index |
| HdlAgent.NoAdvanceForwardsWhole | hdlagent.py:261-269 | Items whose index does not exceed the tracker are forwarded whole, as `("think", text)` in order, with no separator and no emptiness check |
| HdlAgent.RisingIndicesSeparated | hdlagent.py:264-269 | With strictly rising indices above the tracker, each item is preceded by a `"\n\n"` separator and the tracker ends at the last index |
| HdlAgent.RisingStep | hdlagent.py:265-269 | An item above the tracker emits the separator, then its text, and raises the tracker |
| HdlAgent.OtherPartIgnored | hdlagent.py:251-275 | A non-dict part or a dict of another type changes neither the output nor the tracker |
| HdlAgent.ThoughtsOnlyThink | hdlagent.py:257-269 | A reasoning summary yields think pairs only |
| ReasoningStream.CommonPrefix | app/modules/agent/matlab_agent.py:96-101 | The length of the longest common prefix: within both strings, the prefixes agree and the next characters differ |
| ReasoningStream.CommonPrefixUnique | app/modules/agent/matlab_agent.py:96-101 | Those three properties pin the length down |
| ReasoningStream.CommonPrefixOfExtension | app/modules/agent/matlab_agent.py:96-103 | A text extending the cached one shares all of it |
| ReasoningStream.CommonPrefixLength | app/modules/agent/matlab_agent.py:96-101 | The counting loop over `zip(prev, text)` returns the longest common prefix length |
| ReasoningStream.StreamSummary | app/modules/agent/matlab_agent.py:84-108 | The summary loop computes the specification's cache and emissions |
| ReasoningStream.StreamParts | app/modules/agent/matlab_agent.py:73-108 | The parts loop computes the specification's cache and emissions |
| ReasoningStream.ExtractTextFromChunk | app/modules/agent/matlab_agent.py:115-143 | The answer text: a string as is; for a list, the non-empty string `text` of the dict parts not typed `reasoning`, joined; `""` otherwise |
| ReasoningStream.ChunkStepOf | app/modules/agent/matlab_agent.py:69-113 | A chunk yields its parts' think pairs, then its answer text if non-empty |
| ReasoningStream.HandleEvent | app/modules/agent/matlab_agent.py:56-113 | One event's body computes that event's step |
| ReasoningStream.AstreamRun | app/modules/agent/matlab_agent.py:53-113 | The loop over the events yields the specification's pairs, from an empty cache |
| ReasoningStream.OtherEventIgnored | app/modules/agent/matlab_agent.py:57-58 | An event not tagged `on_chat_model_stream` changes neither output nor cache |
| ReasoningStream.SuffixCompletes | app/modules/agent/matlab_agent.py:93-108 | For a text extending the cached one, the cached text plus what is emitted is the new text, which becomes the cached text |
| ReasoningStream.RepeatEmitsNothing | app/modules/agent/matlab_agent.py:103-108 | Repeating the cached text emits nothing and leaves the cache as it was |
| ReasoningStream.DeadItemIgnored | app/modules/agent/matlab_agent.py:85-91 | A non-dict item, or one whose text is missing, not a string or empty, emits nothing and leaves the cache untouched |
| ReasoningStream.PrefixChainStreamsLast | app/modules/agent/matlab_agent.py:93-108 | For prefix-extending updates at one index, the cached text plus all emitted reasoning is the last text, which is then cached |
| ReasoningStream.ChainStep | app/modules/agent/matlab_agent.py:93-108 | One more prefix-extending update keeps "start text + emitted reasoning = latest text" |
| ReasoningStream.PrefixChainFromEmpty | app/modules/agent/matlab_agent.py:54-108 | From an empty cache, the emitted reasoning of a prefix chain is exactly the last text |
| ReasoningStream.StreamOfPrefixChain | app/modules/agent/matlab_agent.py:53-113 | For a stream of prefix-extending updates, the concatenated think output is the final text and exactly as long, so no character is emitted twice |
| ReasoningStream.EventsAtScan | app/modules/agent/matlab_agent.py:56-108 | A stream of one-item reasoning events streams as their summary items |
| ReasoningStream.EmissionDependsOnOwnIndex | app/modules/agent/matlab_agent.py:88-103 | What an item emits depends only on the cached text of its own index |
| ReasoningStream.CacheIndependent | app/modules/agent/matlab_agent.py:93-104 | The cached text of an index after any items is that after only the items at that index |
| ReasoningStream.SummaryThinkOnly | app/modules/agent/matlab_agent.py:84-108 | A summary yields think pairs only |
| ReasoningStream.PartsThinkOnly | app/modules/agent/matlab_agent.py:73-108 | The thinking section yields think pairs only |
| ReasoningStream.ChunkOrder | app/modules/agent/matlab_agent.py:71-113 | A chunk's output ends with its answer text exactly when that text is non-empty; everything before is think output |
| ReasoningStream.ReasoningPartSilent | app/modules/agent/matlab_agent.py:133-135 | Reasoning parts contribute no answer text, wherever they stand |
| ReasoningStream.PartsAnswerAppend | app/modules/agent/matlab_agent.py:127-141 | The answer text of a part list is that of its halves, concatenated in order |
| HdlFlow.GetPaths | hdl_flow.py:56 | A path list exactly when the key holds one |
| HdlFlow.GetStr | hdl_flow.py:66 | A string exactly when the key holds one |
| HdlFlow.GetMessages | hdl_flow.py:74 | A message list exactly when the key holds one |
| HdlFlow.InitUpdate | hdl_flow.py:65-83 | Succeeds exactly when the query, system prompt and history are present; writes exactly `top_name`, `hdl_bundle`, `base_summary`, `messages` |
| HdlFlow.ResourceInitNode | hdl_flow.py:55-83 | Empty paths raise `ValueError` before any call; the only call is one baseline run on the paths and the first stem; a success writes the stem, the bundle of the paths, the baseline summary and the messages |
| HdlFlow.InitMessages | hdl_flow.py:65-76 | `messages` is `[System(system_prompt), *chat_history, Human(prompt)]`, the prompt built from the query, the stem, the baseline summary and the bundle |
| HdlFlow.AgentNode | hdl_flow.py:86-90 | Reads `messages`, calls the model once on them, and writes only `agent_response` |
| HdlFlow.CompileCheckNode | hdl_flow.py:92-101 | Empty paths raise before any call; otherwise one compile run on the original paths and the state's top name, writing only `compile_ok` and `compile_errors` from its result |
| HdlFlow.SummaryText | hdl_flow.py:110-115 | The summary text carries the labelled before and after lines |
| HdlFlow.FinalUpdate | hdl_flow.py:109-120 | Succeeds exactly when `base_summary` is present; writes exactly `final_summary`, `summary_text` and `top_name` |
| HdlFlow.ResourceFinalNode | hdl_flow.py:103-120 | Empty paths raise before any call; one final run on the original paths and top name; writes the final summary and the unchanged top name |
| HdlFlow.FinalSummaryText | hdl_flow.py:110-115 | The stored summary text pairs the stored baseline summary with the final one |
| HdlFlow.StateGraph.constructor | hdl_flow.py:51 | A new graph has no node, no edge and no entry point |
| HdlFlow.StateGraph.AddNode | hdl_flow.py:124-127 | Registers the name; edges and entry unchanged |
| HdlFlow.StateGraph.AddEdge | hdl_flow.py:130-133 | Appends the edge; nodes and entry unchanged |
| HdlFlow.StateGraph.SetEntryPoint | hdl_flow.py:129 | Sets the entry; nodes and edges unchanged |
| HdlFlow.BuildGraph | hdl_flow.py:124-133 | The wiring registers the four nodes, enters at `resource_init` and adds exactly the four edges in order |
| HdlFlow.Successor | hdl_flow.py:130-133 | A successor is the target of an edge from the node |
| HdlFlow.NamesDistinct | hdl_flow.py:124-127 | The four node names differ from each other and from the end marker |
| HdlFlow.WiredSuccessors | hdl_flow.py:131-133 | agent → compile_check → resource_final → END |
| HdlFlow.WiredRoute | hdl_flow.py:129-133 | From the entry the graph visits `resource_init, agent, compile_check, resource_final` and ends |
| HdlFlow.RouteRunsNodes | hdl_flow.py:124-127 | A route of registered names runs the registered functions in route order |
| HdlFlow.InvokeRunsNodes | hdl_flow.py:124-135 | Invoking the compiled graph runs the four node functions in a row |
| HdlFlow.EmptyPathsRaiseFirst | hdl_flow.py:56-58 | Empty `hdl_paths` make the run raise the first node's `ValueError` with no collaborator called |
| HdlFlow.RunNodesStep | hdl_flow.py:124-133 | A node that returns an update contributes its calls first, and the rest runs on the merged state |
| HdlFlow.InitStage | hdl_flow.py:55-83 | The first node makes one baseline call and writes its four keys over the inputs |
| HdlFlow.AgentStage | hdl_flow.py:86-90 | The agent node adds only the reply |
| HdlFlow.CompileStage | hdl_flow.py:92-101 | The compile node adds only the compile outcome |
| HdlFlow.FinalStage | hdl_flow.py:103-120 | The final node adds the two summaries and re-writes the top name it read |
| HdlFlow.FinalRun | hdl_flow.py:103-120 | The last node alone makes one runner call and keeps every other key |
| HdlFlow.CompileAndFinalRun | hdl_flow.py:92-120 | The last two nodes make a compile call then a runner call, on the original paths, and keep every other key |
| HdlFlow.LaterStages | hdl_flow.py:86-120 | The last three nodes call the model, the compile runner and the resource runner, in that order, and keep every other key |
| HdlFlow.InitRun | hdl_flow.py:55-90 | The first node's call comes first; the later nodes run on the state it leaves |
| HdlFlow.InitState | hdl_flow.py:78-83 | The first node keeps the inputs and adds its four keys, the stem among them |
| HdlFlow.SuccessCase | hdl_flow.py:40-135 | Well-formed inputs and a succeeding baseline run give a successful run: four calls in order and the final state with every key written |
| HdlFlow.FailureCase | hdl_flow.py:55-63 | Missing or ill-shaped inputs, empty paths or a failing baseline run make the run fail |
| HdlFlow.RunOutcome | hdl_flow.py:40-135 | A run succeeds exactly when the inputs are well formed and the baseline run succeeds, and a success has the shape above |
| HdlFlow.StubCompileSucceeds | hdl_flow.py:97-101 | With the stub compile runner, a successful run records `compile_ok` true and no errors |
| HdlWriter.FenceFrom | OptimizedHdlWriter.py:198 | The first triple backtick at or after a position, or none |
| HdlWriter.FenceIndex | OptimizedHdlWriter.py:198 | The first triple backtick, or none |
| HdlWriter.TagLen | OptimizedHdlWriter.py:198 | The skipped tag lies within the text |
| HdlWriter.TagLenExact | OptimizedHdlWriter.py:198 | What is skipped after a fence is always a whole `verilog`, `systemverilog` or `vhdl` tag in some case, and nothing is skipped exactly when no such tag starts the text |
| HdlWriter.TagSkipped | OptimizedHdlWriter.py:197-199 | A `verilog`, `systemverilog` or `vhdl` tag in any case is skipped whole, whatever follows; `SystemVerilog` is not cut short at 7 characters |
| HdlWriter.NoTag | OptimizedHdlWriter.py:198 | A fence followed by neither `v` nor `s`, in any case, has no tag and nothing is skipped |
| HdlWriter.FirstRegion | OptimizedHdlWriter.py:197-200 | The search after a region goes on in strictly less text |
| HdlWriter.RegionUnfenced | OptimizedHdlWriter.py:198 | A region holds no triple backtick: it ends at the first fence after its start |
| HdlWriter.BlocksUnfenced | OptimizedHdlWriter.py:208 | No captured region holds a triple backtick |
| HdlWriter.NoBacktickNoFence | OptimizedHdlWriter.py:198 | Text without a backtick has no fence |
| HdlWriter.NoClosingNoBlocks | OptimizedHdlWriter.py:197-208 | Text without a fence, or with an opening fence never closed, yields no region |
| HdlWriter.FencedBody | OptimizedHdlWriter.py:197-208 | A region opened by a fence and any of the three tags in any case is captured whole, the tag and the whitespace after it skipped, and the search resumes after its closing fence |
| HdlWriter.OneRegion | OptimizedHdlWriter.py:208 | Prose without backticks around one tagged fenced region yields exactly that region |
| HdlWriter.FileName | OptimizedHdlWriter.py:219-222 | The file name holds no `(` |
| HdlWriter.FileNameNote | OptimizedHdlWriter.py:221-222 | `name (note)` gives `name` |
| HdlWriter.HeaderNoteOnly | OptimizedHdlWriter.py:219-222 | A name part starting with `(` gives the empty name |
| HdlWriter.HeaderShape | OptimizedHdlWriter.py:203-206 | `//` or `--`, spaces, `File:` in any case, spaces and a non-empty rest: the rest is the captured group |
| HdlWriter.HeaderPlain | OptimizedHdlWriter.py:214-223 | A header line names the file after `File:`, whatever whitespace surrounds the line and its parts |
| HdlWriter.HeaderNote | OptimizedHdlWriter.py:214-223 | A note in parentheses after the name, such as `(UPDATED)`, is cut off |
| HdlWriter.FirstOfAt | OptimizedHdlWriter.py:216-223 | The first header line fixes the file name; later header lines are ignored |
| HdlWriter.FirstOfNone | OptimizedHdlWriter.py:209-223 | A region without a header line has no file name |
| HdlWriter.BlockBodyStripped | OptimizedHdlWriter.py:225-228 | The stored code is the whole region, header included, stripped, with one `\n` appended |
| HdlWriter.HeaderFirstLine | OptimizedHdlWriter.py:213-229 | A region whose first line is a header contributes that name and the stripped region, header line kept |
| HdlWriter.OneFileReply | OptimizedHdlWriter.py:176-231 | A reply with one tagged region opening with a header yields exactly that file, its code the stripped region plus `\n` |
| HdlWriter.CollectValid | OptimizedHdlWriter.py:194-229 | The dict's keys are distinct and are exactly the names with code |
| HdlWriter.CollectKeys | OptimizedHdlWriter.py:227-229 | A file name is a key exactly when some region declares it with a non-empty name |
| HdlWriter.CollectKeeps | OptimizedHdlWriter.py:229 | Regions not declaring a file leave its code alone |
| HdlWriter.LaterWins | OptimizedHdlWriter.py:229 | When several regions declare a file, the last supplies its code |
| HdlWriter.NamesGrow | OptimizedHdlWriter.py:77 | Keys only grow at the end, so `changed_files` follows first appearance |
| HdlWriter.NoEntriesEmpty | OptimizedHdlWriter.py:79 | The dict is empty exactly when no region declares a file |
| HdlWriter.MatchHeader | OptimizedHdlWriter.py:216-223 | The header test of one line gives the name it declares |
| HdlWriter.ScanRegionLines | OptimizedHdlWriter.py:209-225 | The line loop finds the first header's name and keeps every line |
| HdlWriter.ParseFileBlocks | OptimizedHdlWriter.py:176-231 | The region loop computes the specification's file dict |
| HdlWriter.ExtractText | OptimizedHdlWriter.py:113-148 | The loop computes the specification's text or error |
| HdlWriter.PiecesErr | OptimizedHdlWriter.py:126-142 | The first part that raises ends the loop with its error |
| HdlWriter.OtherDictIgnored | OptimizedHdlWriter.py:128-137 | A dict of another type adds nothing, wherever it stands |
| HdlWriter.StringPartsJoined | OptimizedHdlWriter.py:124-148 | Parts offering strings give their concatenation, or `str(content)` when all are empty |
| HdlWriter.PiecesOfStrings | OptimizedHdlWriter.py:124-145 | Parts offering strings collect the non-empty ones, which join to their concatenation |
| HdlWriter.PiecesError | OptimizedHdlWriter.py:133 | Reading the parts only ever raises `AttributeError` |
| HdlWriter.JoinPiecesError | OptimizedHdlWriter.py:145 | Joining only ever raises `TypeError` |
| HdlWriter.UnderJoin | OptimizedHdlWriter.py:167 | `run_dir / name` lies in the run directory |
| HdlWriter.JoinPathInjective | OptimizedHdlWriter.py:98 | Different names give different paths in one directory |
| HdlWriter.RunDirName | OptimizedHdlWriter.py:150-158 | The run directory lies in the output root; its name is the sanitised top name, `_optimized_` and the timestamp; a safe top name is kept |
| HdlWriter.RunDirDistinct | OptimizedHdlWriter.py:151-156 | Same top name: the run directories agree exactly when the timestamps do |
| HdlWriter.CopyAllFrame | OptimizedHdlWriter.py:160-174 | Copying adds only listed files inside the run directory, keeps every other file, lists each readable source's copy and lists no more paths than there are sources |
| HdlWriter.CopyAllReadable | OptimizedHdlWriter.py:165-174 | With no source inside the run directory, the listed paths are the readable sources' destinations, in input order; unreadable ones are skipped |
| HdlWriter.CopyAllContents | OptimizedHdlWriter.py:166-170 | With distinct source names as well, each copy holds its source's content |
| HdlWriter.Dests | OptimizedHdlWriter.py:98 | `run_dir / name` for each name, in order |
| HdlWriter.WriteAllPaths | OptimizedHdlWriter.py:95-101 | `all_paths` keeps the copied paths in front and in order, lists every written file, adds only written files, and has no repeats when the copied list has none |
| HdlWriter.WriteAllAppends | OptimizedHdlWriter.py:96-101 | Distinct names not yet listed are appended once each, in order |
| HdlWriter.WriteAllFrame | OptimizedHdlWriter.py:97-99 | Only the written paths change |
| HdlWriter.WriteAllContents | OptimizedHdlWriter.py:97-99 | Each written path holds its name's code |
| HdlWriter.WriteUnreadable | OptimizedHdlWriter.py:69 | A reply that cannot be read raises `AttributeError` or `TypeError` before any directory or copy is made |
| HdlWriter.WriteNoBlocks | OptimizedHdlWriter.py:69-93 | A reply without file blocks raises the `ValueError`, but only after the run directory is created and the readable originals copied; nothing outside the run directory changes |
| HdlWriter.WriteBlocks | OptimizedHdlWriter.py:57-107 | A reply with blocks returns the run directory, `changed_files` in first-appearance order, `all_paths` starting with the copies and listing each written file once, each holding its code; nothing outside the run directory changes |
| HdlWriter.Writer.constructor | OptimizedHdlWriter.py:50-51 | The output root exists afterwards; files are untouched |
| HdlWriter.Writer.CreateRunDir | OptimizedHdlWriter.py:150-158 | The sanitising loop's directory is added; files are untouched |
| HdlWriter.Writer.CopyOriginalFiles | OptimizedHdlWriter.py:160-174 | The copy loop leaves the files and copied paths of the copy specification |
| HdlWriter.Writer.WriteFiles | OptimizedHdlWriter.py:95-101 | The write loop leaves the files and path list of the write specification |
| HdlWriter.Writer.WriteFromAgentResponse | OptimizedHdlWriter.py:57-107 | The result, files and directories are those of the whole-operation specification, whose cases the three lemmas above state |

## Left out

- **I/O.**
  - File reads and writes, `mkdir`, `Path.exists`, the subprocess and `shlex.quote`, `time.sleep`, `datetime.now`, `print` logging and the chunk-dump log are not performed.
  - They are replaced by maps of files, sets of directories, a recorded list of effects, or parameters.
  - The timestamp is a parameter.
- **Chat model and streaming.** The chat model, Langfuse callbacks, `load_dotenv` and the async generator machinery are left out. A stream is a given sequence of chunks or events, and its output is a sequence of `(kind, text)` pairs.
- **Agent setup.**
  - `load_system_prompt` is file I/O with a fallback string; the system prompt is a parameter.
  - `MatlabAgent.__init__` builds the model client and the runner; the runner is an abstract collaborator. Its call in `hdlagent.py` passes `target=`, which the runner's constructor does not accept.
- **`to_human_summary` on a report.** `ResourceReport` has no such method, although both the agent and the graph call it. The summary of a report is an uninterpreted parameter that may fail.
- **Unicode.** Strings are ASCII-minded:
  - `isalnum`, `isspace` and `IGNORECASE` case folding are defined on ASCII;
  - `splitlines` splits only on `\n`;
  - the `utf-8`/`errors="ignore"` decoding is not modelled.
- **Regular expressions.** The two patterns are modelled by functions that match the strings they accept; the regex engine itself is not modelled.
- **Paths.**
  - Path normalisation is not modelled: `Path` equality in `dest not in all_paths`, `.` components, absolute file names.
  - `Path.resolve` is an abstract function.
  - A file name holding `/` would make `run_dir / name` leave the run directory, and writing it could fail for a missing parent directory. Neither is modelled: the write goes to the map at that key.
- **Write failures.** A dest that is a directory, and a `UnicodeDecodeError` while copying, are not modelled. Only the skip of an unreadable source (absent from the file map) is modelled.
- **`mkdir(parents=True)`.** `HdlWriter.Writer.constructor` and `HdlWriter.Writer.CreateRunDir` add only the directory itself, not its missing parents.
- **The agent response.** It is given as its `content` and its `str()`. `getattr(agent_response, "content", agent_response)` is not modelled, and an unhashable `type` value in a part is not modelled.
- **`fmax_mhz`** is a `real` that is never computed with.
- **`HdlFlow.GetStr`** treats a `query`, `system_prompt`, `top_name` or `base_summary` value that is present but not a string as an error. Python would format a non-string `query` into the prompt with `str.format` and carry on. The model keeps string values only, so it does not capture that case.
- **`hdl_paths` of the wrong shape.** `HdlFlow.GetPaths`: a `hdl_paths` value that is not a list of strings is an error. Python would iterate over a string's characters.
- **`HdlFlow.StateGraph.AddNode`** requires a name not yet registered and not `END`. LangGraph raises on a duplicate, and the wiring never adds one.
- **`HdlFlow.Route`** follows at most as many edges as the graph has. The wired graph needs four.
- **`HdlAgent.DesignInputs`** requires a non-empty path list. Its only caller passes the non-empty list of existing paths, and `hdl_paths[0]` would raise `IndexError` on an empty one.
- **`HdlAgent.MatlabAgent.astream_run` and `ReasoningStream`.** `index: None` in a summary item is not modelled: the index is an optional integer, and an absent key defaults to 0. `hdlagent.py` compares the index with `>`, and values that are not integers are not modelled.
- **`ResourceRunner.Host.ParseReport`** requires that something exist at the path, as its only caller has checked. A directory there raises `IsADirectoryError`.
- **Left out of the repository's scope:**
  - the web UI (`app_ui.py`);
  - the ingestion and vector-memory modules;
  - the demo scripts;
  - `ResourceUtilizationTool.py`, a forwarding wrapper around the runner.

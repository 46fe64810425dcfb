# kube-score command line: decision core

A Dafny model of the decisions `cmd/kube-score/main.go` makes around the
scoring engine of kube-score, the static checker for Kubernetes manifests:

- **Output version defaulting** (`getOutputVersion`): an explicit
  `--output-version` wins; otherwise `json` uses `v2` and every other format `v1`.
- **Format validation and renderer dispatch**: `--output-format` must be
  `human`, `ci`, `json` or `sarif`. The (format, version) pair then selects one of
  five renderers: raw JSON marshal, `json_v2`, `human`, `ci` or `sarif`. Any other
  pair is the error "Unknown --output-format or --output-version".
- **Exit-code policy**: exit 1 on any Critical result. Exit 1 on any
  Warning-or-worse result when `--exit-one-on-warning` is set. Otherwise exit 0.
- **`listToStructMap`**: turns a list of test IDs into a map whose keys are the
  listed IDs. It is modelled as a loop method proved against the set of list elements.
- **The file-argument loop**: `-` is standard input, named `STDIN`. Every other
  argument is opened and named by its absolute path. The first argument that
  cannot be opened ends the run.
- **The `Configuration` record**: built from the flags. The ignore-checks
  annotation is honoured unless `--disable-ignore-checks-annotations` is given.
- **`kube-score list`**: one CSV record `[ID, TargetType, Comment, label]` per
  registered check, in registration order. The label is `optional` or `default`.
- **`scoreFiles` end to end**: a pure function from flag values and collaborator
  answers to an outcome. The outcome is help, an error, a failed output-file write,
  or a rendered report with its exit code. The steps happen in source order.

Modules: `Results` (Option/Result), `OutputFormat`, `ExitPolicy`, `InputFiles`,
`ScoreConfig`, `ListCommand`, `ScoreCommand`.

The collaborators are fields of `ScoreCommand.Env`:
- `os.Open` and `filepath.Abs`.
- `config.ParseSemver`.
- `parser.ParseFiles` and `score.Score`, reduced to whether they fail.
- The two `AnyBelowOrEqualToGrade` queries, as two booleans.
- The output-file write, reduced to whether it fails.

The registered checks of `score.RegisterAllChecks(...).All()` are a sequence
parameter of `ListCommand.ListChecks`.

Only the format is checked up front (main.go:124-127). An unsupported
(format, version) pair such as `human` + `v2` is rejected only after the files
are opened, parsed and scored (main.go:218-220). `ScoreCommand.ScoreFiles`
keeps that order, and `ScoreCommand.UnknownAfterScoring` states it.

## Model

| member | source | states |
|---|---|---|
| `OutputFormat.GetOutputVersion` | cmd/kube-score/main.go:235-246 | The result is never empty. A non-empty flag value is returned unchanged, whatever the format. An empty flag gives `v2` exactly for `json` and `v1` otherwise. |
| `OutputFormat.IsKnownFormat` | cmd/kube-score/main.go:124 | A format passes the early check exactly when some renderer serves it: `human`, `ci`, `json` and `sarif`. |
| `OutputFormat.SelectRenderer` | cmd/kube-score/main.go:200-220 | A renderer is chosen only for a format that passes validation. `sarif` always selects SARIF, whatever the version. |
| `OutputFormat.SelectRendererMatchesTable` | cmd/kube-score/main.go:200-217 | The chain selects renderer r exactly when r serves the format and the version: json+v1 is the raw marshal, json+v2 is json_v2, human+v1 is human, ci+v1 is ci, and sarif takes any version. |
| `OutputFormat.SelectRendererFailsIffNoRenderer` | cmd/kube-score/main.go:218-220 | The "Unknown --output-format or --output-version" branch is taken exactly when no renderer serves the pair. |
| `OutputFormat.DefaultVersionAlwaysSelects` | cmd/kube-score/main.go:240-245 | For every accepted format, the default version has a renderer; for `json` it is json_v2. |
| `OutputFormat.UnknownFormatNeverSelects` | cmd/kube-score/main.go:124-127 | A format outside the accepted four never selects a renderer, whatever the version. |
| `ExitPolicy.ExitCode` | cmd/kube-score/main.go:187-194 | The code is 0 or 1. Any Critical gives 1, regardless of the flag. Otherwise the code is 1 exactly when the flag is set and some result is Warning or worse. |
| `ExitPolicy.ExitOnWarningOnlyRaises` | cmd/kube-score/main.go:190 | Setting `--exit-one-on-warning` never lowers the exit code. |
| `ExitPolicy.ExitOnWarningMeansAnyWarning` | cmd/kube-score/main.go:188-190 | When both answers come from one score card, the flag makes the exit code exactly "any Warning or worse". Without the flag the exit code is exactly "any Critical". |
| `InputFiles.FileName` | cmd/kube-score/main.go:144-153 | The argument `-` is named `STDIN`. Every other argument is named by its absolute path (`filepath.Abs`). |
| `InputFiles.OpenAll` | cmd/kube-score/main.go:138-156 | Opening succeeds exactly when every argument is `-` or opens. On success there is one named reader per argument, in order, with its name. On failure the error is the first argument that does not open. |
| `InputFiles.OpenFiles` | cmd/kube-score/main.go:138-156 | The appending loop returns exactly what `OpenAll` specifies. |
| `ScoreConfig.ListToStructMap` | cmd/kube-score/main.go:272-278 | The key set of the map is exactly the set of listed IDs. |
| `ScoreConfig.ElementsCollapse` | cmd/kube-score/main.go:272-278 | Listing IDs that are already listed adds no key. |
| `ScoreConfig.ElementsCardinality` | cmd/kube-score/main.go:272-278 | The set has at most as many IDs as the list. It has exactly as many when no ID repeats. |
| `ScoreConfig.BuildConfiguration` | cmd/kube-score/main.go:158-175 | An ID is ignored or enabled exactly when it is in the matching flag list. The annotation is used exactly when its disable flag is unset. The files, verbosity, CPU-limit and memory-limit flags and the Kubernetes version are carried over. |
| `ListCommand.CheckRow` | cmd/kube-score/main.go:263-267 | The record has four fields: ID, target type and comment, then a label. The label is `optional` exactly when the check is optional and `default` exactly when it is not. |
| `ListCommand.CheckRows` | cmd/kube-score/main.go:262-268 | The loop writes as many records as there are checks. |
| `ListCommand.CheckRowsAt` | cmd/kube-score/main.go:262-268 | There is one record per check, and the i-th record belongs to the i-th check of `All()`. |
| `ListCommand.ListChecks` | cmd/kube-score/main.go:248-270 | With `--help`, nothing is written. Otherwise one record is written per check, in `All()` order, and each is that check's record. |
| `ScoreCommand.DefaultFlags` | cmd/kube-score/main.go:100-111 | The default format is `human`. The output version and output file are empty. The Kubernetes version is `v1.18`. Verbosity is 0. Help, exit-on-warning, the CPU and memory flags and the annotation-disable flag are off. Both test lists are empty. The file arguments are passed through. |
| `ScoreCommand.OutputFileName` | cmd/kube-score/main.go:225 | The output file is `output.` followed by the `--output-file` value. |
| `ScoreCommand.ScoreFiles` | cmd/kube-score/main.go:98-233 | A rendered run had an accepted format and at least one file, with one reader per file. Its exit code is 0 or 1. |
| `ScoreCommand.ProcessExitCode` | cmd/kube-score/main.go:36-40 | An error returned by `scoreFiles` exits 1, and so does a failed output-file write. A help request exits 0. A rendered run exits with the policy's code (`os.Exit(exitCode)` at main.go:231). |
| `ScoreCommand.FormatValidatedFirst` | cmd/kube-score/main.go:119-127 | Without `--help`, an unknown format is the result whatever the files, version or collaborators. |
| `ScoreCommand.DefaultVersionNeverUnknown` | cmd/kube-score/main.go:198-220 | With no `--output-version`, the run never ends in the unknown-format-or-version error. |
| `ScoreCommand.UnknownOnlyForExplicitVersion` | cmd/kube-score/main.go:218-220 | The unknown-format-or-version error needs three things: an explicit version, an accepted format, and no renderer serving the pair. |
| `ScoreCommand.RenderedRendererServesFlags` | cmd/kube-score/main.go:198-217 | The renderer used serves the requested format and the effective version. |
| `ScoreCommand.RenderedConfiguration` | cmd/kube-score/main.go:158-175 | The configuration of a scored run is the one derived from the flags: ignored and enabled tests as sets, the negated annotation flag, the CPU and memory flags, the verbosity, the parsed version, and one named reader per argument. |
| `ScoreCommand.ExitZeroIff` | cmd/kube-score/main.go:187-231 | The process exits 0 exactly when help was shown, or when a report was rendered with no Critical result and no Warning-or-worse result under `--exit-one-on-warning`. |
| `ScoreCommand.KnownFormatRenders` | cmd/kube-score/main.go:124-220 | Take an accepted format with no explicit version, and collaborators that all succeed. Then the run renders, and its exit code is the policy's. |
| `ScoreCommand.HelpFirst` | cmd/kube-score/main.go:119-122 | The run shows help exactly when `--help` is given, whatever else is set. |
| `ScoreCommand.NoFilesNext` | cmd/kube-score/main.go:129-136 | Past the format check, the run fails for lack of files exactly when no file argument is given. |
| `ScoreCommand.OpenFailsFirst` | cmd/kube-score/main.go:140-156 | Past the file-count check, the run fails on file f exactly when opening the arguments stops at f. |
| `ScoreCommand.CollaboratorFailuresInOrder` | cmd/kube-score/main.go:161-185 | Once all files opened, an invalid Kubernetes version, a parse failure and a scoring failure are reported in that order, each exactly when it is the first to happen. |
| `ScoreCommand.UnknownAfterScoring` | cmd/kube-score/main.go:198-220 | The unknown-format-or-version error is reached only after files opened, the version parsed, and parsing and scoring succeeded, and only when the chain finds no renderer for the effective version. |
| `ScoreCommand.DefaultRunRendersHuman` | cmd/kube-score/main.go:100-111 | With every flag at its default and succeeding collaborators, the run renders with the human renderer. Its exit code ignores warnings. |

## Left out

- Flag parsing (`spf13/pflag`), usage and help text (`setDefault`), the command map and `parse` in `main`, the `version` and `help` commands: library plumbing and printing. Parse errors exit inside pflag (`ExitOnError`), so `scoreFiles` never sees them. `ScoreFlags` holds values after parsing.
- Reading standard input and files, `filepath.Abs`, `os.Open`: replaced by `Env.canOpen` and `Env.absPath`. The reader itself is represented by the argument it was opened from.
- Terminal-width detection for the human renderer, including its 80-column fallback: I/O feeding a renderer that is not modelled.
- `fmt.Print` of the report, the bytes written to `output.<ext>`, and `os.Exit`: output side effects. Only whether the write fails (`Env.writeFails`) and the resulting exit status are modelled.
- `config.ParseSemver`, `parser.ParseFiles`, `score.Score`, `AnyBelowOrEqualToGrade`, `score.RegisterAllChecks`: their code is not part of this model. They are abstract inputs: a parsing function, failure flags, two booleans and a sequence of check records.
- JSON marshalling and the json_v2, human, ci and sarif renderers: only which renderer is chosen is modelled.
- The CSV writer's quoting: `ListChecks` returns the records it writes, as sequences of fields.
- The score card: the two grade answers are free inputs. The fact that a Critical result is also at or below Warning is an explicit requirement of `ExitOnWarningMeansAnyWarning`, because the score card is not modelled.

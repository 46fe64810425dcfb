/**
 * `kube-score score` end to end, as one decision: the flag values and the
 * answers of the collaborators the command calls go in, and what the run ends
 * with comes out. The checks happen in the order `scoreFiles` makes them.
 */
module ScoreCommand {
  import opened Results
  import opened OutputFormat
  import opened ExitPolicy
  import opened InputFiles
  import opened ScoreConfig

  /** The flag values of `kube-score score` after parsing, and the file arguments. */
  datatype ScoreFlags = ScoreFlags(
    exitOneOnWarning: bool,
    ignoreContainerCpuLimit: bool,
    ignoreContainerMemoryLimit: bool,
    verbose: nat,
    printHelp: bool,
    outputFormat: string,
    outputFile: string,
    outputVersion: string,
    optionalTests: seq<string>,
    ignoreTests: seq<string>,
    disableIgnoreChecksAnnotation: bool,
    kubernetesVersion: string,
    files: seq<string>)

  /** The defaults pflag gives the flags that are not set on the command line. */
  function DefaultFlags(files: seq<string>): (f: ScoreFlags)
    ensures f.outputFormat == "human" && f.outputVersion == "" && f.kubernetesVersion == "v1.18"
    ensures !f.printHelp && !f.exitOneOnWarning && !f.disableIgnoreChecksAnnotation
    ensures !f.ignoreContainerCpuLimit && !f.ignoreContainerMemoryLimit && f.verbose == 0
    ensures f.outputFile == "" && f.optionalTests == [] && f.ignoreTests == []
    ensures f.files == files
  {
    ScoreFlags(false, false, false, 0, false, "human", "", "", [], [], false, "v1.18", files)
  }

  /**
   * What the collaborators of `scoreFiles` answer: `os.Open`, `filepath.Abs`,
   * `config.ParseSemver`, whether `parser.ParseFiles`, `score.Score` and the
   * output-file write fail, and the two `AnyBelowOrEqualToGrade` queries.
   */
  datatype Env = Env(
    canOpen: string -> bool,
    absPath: string -> string,
    parseSemver: string -> Option<Semver>,
    parseFails: bool,
    scoreFails: bool,
    anyCritical: bool,
    anyWarningOrWorse: bool,
    writeFails: bool)

  /** The errors `scoreFiles` returns. */
  datatype ScoreError =
    | InvalidOutputFormat      // "--output-format must be set to: ..."
    | NoFiles                  // "No files given as arguments."
    | OpenFailed(file: string) // the error of `os.Open`
    | InvalidKubernetesVersion // "Invalid --kubernetes-version. ..."
    | ParseFailed              // the error of `parser.ParseFiles`
    | ScoreFailed              // the error of `score.Score`
    | UnknownFormatOrVersion   // "Unknown --output-format or --output-version"

  /** How a `score` run ends. */
  datatype Outcome =
    | HelpShown
    | Failed(error: ScoreError)
      // the report was printed, then writing `output.<ext>` failed (log.Fatalf)
    | WriteFailed(renderer: Renderer, fileName: string)
    | Rendered(config: Configuration, renderer: Renderer, exitCode: int)

  /** The `--output-file` target. */
  function OutputFileName(ext: string): (name: string)
    ensures |name| == |ext| + 7 && name[..7] == "output." && name[7..] == ext
  {
    "output." + ext
  }

  /** `scoreFiles`, each check in source order. */
  function ScoreFiles(flags: ScoreFlags, env: Env): (o: Outcome)
    ensures o.Rendered? ==> IsKnownFormat(flags.outputFormat) && |o.config.allFiles| == |flags.files| > 0
    ensures o.Rendered? ==> o.exitCode == 0 || o.exitCode == 1
  {
    if flags.printHelp then HelpShown
    else if !IsKnownFormat(flags.outputFormat) then Failed(InvalidOutputFormat)
    else if |flags.files| == 0 then Failed(NoFiles)
    else match OpenAll(flags.files, env.canOpen, env.absPath)
      case Err(file) => Failed(OpenFailed(file))
      case Ok(allFiles) =>
        match env.parseSemver(flags.kubernetesVersion)
        case None => Failed(InvalidKubernetesVersion)
        case Some(kubeVer) =>
          var cnf := BuildConfiguration(
            allFiles, flags.verbose, flags.ignoreContainerCpuLimit, flags.ignoreContainerMemoryLimit,
            flags.ignoreTests, flags.optionalTests, flags.disableIgnoreChecksAnnotation, kubeVer);
          if env.parseFails then Failed(ParseFailed)
          else if env.scoreFails then Failed(ScoreFailed)
          else
            var exitCode := ExitCode(env.anyCritical, env.anyWarningOrWorse, flags.exitOneOnWarning);
            var version := GetOutputVersion(flags.outputVersion, flags.outputFormat);
            match SelectRenderer(flags.outputFormat, version)
            case None => Failed(UnknownFormatOrVersion)
            case Some(renderer) =>
              if flags.outputFile != "" && env.writeFails then WriteFailed(renderer, OutputFileName(flags.outputFile))
              else Rendered(cnf, renderer, exitCode)
  }

  /**
   * The status the process exits with: `main` exits 1 when `scoreFiles`
   * returns an error, `log.Fatalf` exits 1, a help request returns normally,
   * and a rendered report exits with the policy's code.
   */
  function ProcessExitCode(o: Outcome): (code: int)
    ensures o.HelpShown? ==> code == 0
    ensures o.Failed? || o.WriteFailed? ==> code == 1
    ensures o.Rendered? ==> code == o.exitCode
  {
    match o
    case HelpShown => 0
    case Failed(_) => 1
    case WriteFailed(_, _) => 1
    case Rendered(_, _, exitCode) => exitCode
  }

  /** An unknown format is rejected before files, versions or collaborators are looked at. */
  lemma FormatValidatedFirst(flags: ScoreFlags, env: Env)
    requires !flags.printHelp && !IsKnownFormat(flags.outputFormat)
    ensures ScoreFiles(flags, env) == Failed(InvalidOutputFormat)
  {
  }

  /** Without `--output-version`, dispatch never reports an unknown format or version. */
  lemma DefaultVersionNeverUnknown(flags: ScoreFlags, env: Env)
    requires flags.outputVersion == ""
    ensures ScoreFiles(flags, env) != Failed(UnknownFormatOrVersion)
  {
    if !flags.printHelp && IsKnownFormat(flags.outputFormat) {
      DefaultVersionAlwaysSelects(flags.outputFormat);
    }
  }

  /** The unknown-format-or-version error comes only from an explicit version no renderer serves. */
  lemma UnknownOnlyForExplicitVersion(flags: ScoreFlags, env: Env)
    requires ScoreFiles(flags, env) == Failed(UnknownFormatOrVersion)
    ensures flags.outputVersion != ""
    ensures IsKnownFormat(flags.outputFormat)
    ensures forall r: Renderer :: !(FormatOf(r) == flags.outputFormat && ServesVersion(r, flags.outputVersion))
  {
    if flags.outputVersion == "" {
      DefaultVersionNeverUnknown(flags, env);
    }
    SelectRendererFailsIffNoRenderer(flags.outputFormat, flags.outputVersion);
  }

  /** A rendered report uses a renderer that serves the requested format and effective version. */
  lemma RenderedRendererServesFlags(flags: ScoreFlags, env: Env)
    requires ScoreFiles(flags, env).Rendered? || ScoreFiles(flags, env).WriteFailed?
    ensures FormatOf(ScoreFiles(flags, env).renderer) == flags.outputFormat
    ensures ServesVersion(ScoreFiles(flags, env).renderer, GetOutputVersion(flags.outputVersion, flags.outputFormat))
  {
    var o := ScoreFiles(flags, env);
    SelectRendererMatchesTable(flags.outputFormat, GetOutputVersion(flags.outputVersion, flags.outputFormat), o.renderer);
  }

  /** The configuration a scored run used reflects the flags. */
  lemma RenderedConfiguration(flags: ScoreFlags, env: Env)
    requires ScoreFiles(flags, env).Rendered?
    ensures var c := ScoreFiles(flags, env).config;
            && c.useIgnoreChecksAnnotation == !flags.disableIgnoreChecksAnnotation
            && c.ignoredTests == Elements(flags.ignoreTests)
            && c.enabledOptionalTests == Elements(flags.optionalTests)
            && c.ignoreContainerCpuLimitRequirement == flags.ignoreContainerCpuLimit
            && c.ignoreContainerMemoryLimitRequirement == flags.ignoreContainerMemoryLimit
            && c.verboseOutput == flags.verbose
            && Some(c.kubernetesVersion) == env.parseSemver(flags.kubernetesVersion)
            && forall i | 0 <= i < |flags.files| ::
                 c.allFiles[i] == NamedFile(flags.files[i], FileName(flags.files[i], env.absPath))
  {
  }

  /**
   * The process exits 0 exactly when help was shown, or the report was
   * rendered (and written) with no Critical result and, under
   * `--exit-one-on-warning`, no Warning-or-worse result.
   */
  lemma ExitZeroIff(flags: ScoreFlags, env: Env)
    ensures ProcessExitCode(ScoreFiles(flags, env)) == 0 <==>
            ScoreFiles(flags, env).HelpShown? ||
            (ScoreFiles(flags, env).Rendered? && !env.anyCritical && !(flags.exitOneOnWarning && env.anyWarningOrWorse))
  {
  }

  /** With every collaborator succeeding and no explicit version, a known format always renders. */
  lemma KnownFormatRenders(flags: ScoreFlags, env: Env)
    requires !flags.printHelp && IsKnownFormat(flags.outputFormat) && flags.outputVersion == ""
    requires |flags.files| > 0 && forall i | 0 <= i < |flags.files| :: Openable(flags.files[i], env.canOpen)
    requires env.parseSemver(flags.kubernetesVersion).Some? && !env.parseFails && !env.scoreFails
    requires flags.outputFile == "" || !env.writeFails
    ensures ScoreFiles(flags, env).Rendered?
    ensures ScoreFiles(flags, env).exitCode == ExitCode(env.anyCritical, env.anyWarningOrWorse, flags.exitOneOnWarning)
  {
    DefaultVersionAlwaysSelects(flags.outputFormat);
  }

  /** `--help` short-circuits everything else, and nothing else shows help. */
  lemma HelpFirst(flags: ScoreFlags, env: Env)
    ensures ScoreFiles(flags, env).HelpShown? <==> flags.printHelp
  {
  }

  /** Past the format check, the run fails for lack of files exactly when none are given. */
  lemma NoFilesNext(flags: ScoreFlags, env: Env)
    requires !flags.printHelp && IsKnownFormat(flags.outputFormat)
    ensures ScoreFiles(flags, env) == Failed(NoFiles) <==> flags.files == []
  {
  }

  /** Past the file-count check, the run fails on a file exactly when opening the arguments fails on it. */
  lemma OpenFailsFirst(flags: ScoreFlags, env: Env, file: string)
    requires !flags.printHelp && IsKnownFormat(flags.outputFormat) && flags.files != []
    ensures ScoreFiles(flags, env) == Failed(OpenFailed(file)) <==>
            OpenAll(flags.files, env.canOpen, env.absPath) == Err(file)
  {
  }

  /**
   * Once every argument has opened, the version parser, `parser.ParseFiles`
   * and `score.Score` are consulted in that order, and each failure is
   * reported as its own error.
   */
  lemma CollaboratorFailuresInOrder(flags: ScoreFlags, env: Env)
    requires !flags.printHelp && IsKnownFormat(flags.outputFormat) && flags.files != []
    requires OpenAll(flags.files, env.canOpen, env.absPath).Ok?
    ensures ScoreFiles(flags, env) == Failed(InvalidKubernetesVersion) <==>
            env.parseSemver(flags.kubernetesVersion).None?
    ensures ScoreFiles(flags, env) == Failed(ParseFailed) <==>
            env.parseSemver(flags.kubernetesVersion).Some? && env.parseFails
    ensures ScoreFiles(flags, env) == Failed(ScoreFailed) <==>
            env.parseSemver(flags.kubernetesVersion).Some? && !env.parseFails && env.scoreFails
  {
  }

  /**
   * The unknown-format-or-version error is reached only after every argument
   * opened, the version parsed, and parsing and scoring succeeded.
   */
  lemma UnknownAfterScoring(flags: ScoreFlags, env: Env)
    requires ScoreFiles(flags, env) == Failed(UnknownFormatOrVersion)
    ensures !flags.printHelp && IsKnownFormat(flags.outputFormat) && flags.files != []
    ensures OpenAll(flags.files, env.canOpen, env.absPath).Ok?
    ensures env.parseSemver(flags.kubernetesVersion).Some?
    ensures !env.parseFails && !env.scoreFails
    ensures SelectRenderer(flags.outputFormat, GetOutputVersion(flags.outputVersion, flags.outputFormat)).None?
  {
  }

  /**
   * `kube-score score FILE...` with no flags: when the collaborators succeed,
   * the human renderer is used and the exit code ignores warnings.
   */
  lemma DefaultRunRendersHuman(files: seq<string>, env: Env)
    requires files != [] && forall i | 0 <= i < |files| :: Openable(files[i], env.canOpen)
    requires env.parseSemver("v1.18").Some? && !env.parseFails && !env.scoreFails
    ensures ScoreFiles(DefaultFlags(files), env).Rendered?
    ensures ScoreFiles(DefaultFlags(files), env).renderer == Human
    ensures ProcessExitCode(ScoreFiles(DefaultFlags(files), env)) == ExitCode(env.anyCritical, env.anyWarningOrWorse, false)
  {
    var flags := DefaultFlags(files);
    assert GetOutputVersion(flags.outputVersion, flags.outputFormat) == "v1";
  }
}

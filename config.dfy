/**
 * What happens to config.yml once YAML has turned it into records (Config/Config.java):
 * validation, which prints warnings and throws at the first failing check; the time-control
 * fallback; and the reading of an EPD openings file. A Java null is None, and every query
 * validation makes of the filesystem is a field of a FileSystem record.
 */
module Configs {
  import opened Wrappers
  import opened Text

  // ---------------------------------------------------------------------
  // The configuration records (only the fields the modelled code reads)
  // ---------------------------------------------------------------------

  datatype TimeControlCfg = TimeControlCfg(baseTimeMs: int, incrementMs: int)

  datatype Openings = Openings(enabled: bool, file: Option<string>, mode: Option<string>)

  datatype Tournament = Tournament(
    name: Option<string>, mode: Option<string>, engines: Option<seq<string>>,
    concurrency: int, pairsPerMatch: int,
    timeControl: Option<TimeControlCfg>, timeControls: Option<seq<TimeControlCfg>>,
    openings: Option<Openings>)

  /** The webSocket and http sections have the same shape. */
  datatype Endpoint = Endpoint(enabled: bool, host: Option<string>, port: int)

  datatype Server = Server(webSocket: Option<Endpoint>, http: Option<Endpoint>)

  datatype PathsCfg = PathsCfg(engineDir: Option<string>, outputDir: Option<string>, logDir: Option<string>)

  datatype Logging = Logging(level: Option<string>)

  datatype Performance = Performance(engineStartupTimeoutSeconds: int, engineResponseTimeoutSeconds: int,
                                     maxThreadPoolSize: int)

  datatype Deployment = Deployment(environment: Option<string>)

  datatype Config = Config(
    tournament: Option<Tournament>, server: Option<Server>, paths: Option<PathsCfg>,
    logging: Option<Logging>, performance: Option<Performance>, deployment: Option<Deployment>)

  /**
   * The filesystem as validation sees it: Files.exists, Files.isDirectory, Files.isRegularFile,
   * and the message of the IOException Files.createDirectories throws, if it throws one.
   */
  datatype FileSystem = FileSystem(
    pathExists: string -> bool, isDirectory: string -> bool, isRegularFile: string -> bool,
    createDirectories: string -> Option<string>)

  /** Why validation threw; ErrorMessage gives the text of the IOException. */
  datatype ConfigError =
    | MissingTournament | MissingMode | InvalidMode(mode: string)
    | NoEngines | TooFewDistinctEngines(found: nat)
    | NonPositiveConcurrency(concurrency: int) | NonPositivePairs(pairsPerMatch: int)
    | MissingTimeControls
    | NonPositiveBase(baseTimeMs: int) | NegativeIncrement(incrementMs: int)
    | NonPositiveBaseAt(index: nat, baseTimeMs: int) | NegativeIncrementAt(index: nat, incrementMs: int)
    | MissingServer | MissingWebSocket | InvalidWebSocketPort(port: int) | MissingHttp | InvalidHttpPort(port: int)
    | MissingEngineDir | EngineDirNotFound(dir: string) | EngineDirNotDirectory(dir: string)
    | CreateFailed(message: string)
    | InvalidLogLevel(level: string)
    | NonPositiveStartupTimeout | NonPositiveResponseTimeout | NonPositiveThreadPool
    | NoOpeningsFile | OpeningsFileNotFound(file: string) | OpeningsNotAFile(file: string)
    | InvalidOpeningsMode(mode: string)

  /** What validation prints without stopping; WarningText gives the printed line. */
  datatype ConfigWarning =
    | HighConcurrencyWarning(concurrency: int)
    | LowBaseWarning(baseTimeMs: int)
    | LowBaseWarningAt(index: nat, baseTimeMs: int)
    | UnknownEnvironment(environment: string)

  /** The warnings validation printed before it finished, and why it threw, if it threw. */
  datatype Validation = Validation(warnings: seq<ConfigWarning>, error: Option<ConfigError>)

  const TournamentModes: seq<string> := ["round-robin", "pairs"]
  const LogLevels: seq<string> := ["DEBUG", "INFO", "WARN", "ERROR"]
  const Environments: seq<string> := ["development", "production"]
  const OpeningModes: seq<string> := ["sequential", "random"]

  /** Above this concurrency validation warns. */
  const HighConcurrency := 16
  /** Below this base time, in milliseconds, validation warns. */
  const LowBaseTime := 1000
  const MaxPort := 65535

  /** The warning sign, its emoji selector and two spaces, as every warning starts. */
  const WarningMark := "\U{26A0}\U{FE0F}  Warning: "

  // ---------------------------------------------------------------------
  // The printed texts
  // ---------------------------------------------------------------------

  /** List.toString: the elements between brackets, separated by ", ". */
  function ListText(xs: seq<string>): string {
    "[" + Join(xs, ", ") + "]"
  }

  function GotText(x: int): string {
    " (got: " + IntToString(x) + ")"
  }

  function At(index: nat): string {
    "timeControls[" + NatToString(index) + "]"
  }

  /**
   * The text of the IOException for each error. A path is shown as configured; Java prints it
   * through Path.of, which normalises it (a trailing or doubled '/' disappears).
   */
  function ErrorMessage(e: ConfigError): string {
    match e
    case MissingTournament => "Missing 'tournament' section in config.yml"
    case MissingMode => "Tournament mode must be specified"
    case InvalidMode(mode) => "Invalid mode '" + mode + "'. Must be one of: " + ListText(TournamentModes)
    case NoEngines => "At least one engine must be specified in 'engines' list"
    case TooFewDistinctEngines(found) =>
      "At least 2 different engines are required (engines cannot play against themselves). Found: " + NatToString(found)
    case NonPositiveConcurrency(c) => "Concurrency must be positive" + GotText(c)
    case NonPositivePairs(p) => "pairsPerMatch must be positive" + GotText(p)
    case MissingTimeControls => "Missing 'timeControl' or 'timeControls' section"
    case NonPositiveBase(b) => "baseTimeMs must be positive" + GotText(b)
    case NegativeIncrement(i) => "incrementMs cannot be negative" + GotText(i)
    case NonPositiveBaseAt(k, b) => At(k) + ".baseTimeMs must be positive" + GotText(b)
    case NegativeIncrementAt(k, i) => At(k) + ".incrementMs cannot be negative" + GotText(i)
    case MissingServer => "Missing 'server' section"
    case MissingWebSocket => "Missing 'server.webSocket' section"
    case InvalidWebSocketPort(port) => "Invalid WebSocket port" + GotText(port) + ". Must be 1-65535"
    case MissingHttp => "Missing 'server.http' section"
    case InvalidHttpPort(port) => "Invalid HTTP port" + GotText(port) + ". Must be 1-65535"
    case MissingEngineDir => "Missing 'paths.engineDir' in config.yml"
    case EngineDirNotFound(dir) => "Engine directory does not exist: " + dir
    case EngineDirNotDirectory(dir) => "Engine directory path is not a directory: " + dir
    case CreateFailed(message) => message
    case InvalidLogLevel(level) => "Invalid log level '" + level + "'. Must be one of: " + ListText(LogLevels)
    case NonPositiveStartupTimeout => "engineStartupTimeoutSeconds must be positive"
    case NonPositiveResponseTimeout => "engineResponseTimeoutSeconds must be positive"
    case NonPositiveThreadPool => "maxThreadPoolSize must be positive"
    case NoOpeningsFile => "Openings enabled but no file specified"
    case OpeningsFileNotFound(file) => "Openings file not found: " + file
    case OpeningsNotAFile(file) => "Openings path is not a file: " + file
    case InvalidOpeningsMode(mode) => "Invalid openings mode '" + mode + "'. Must be one of: " + ListText(OpeningModes)
  }

  /** Every warning line starts with the warning mark. */
  function WarningText(w: ConfigWarning): (line: string)
    ensures StartsWith(line, WarningMark)
  {
    var text := match w
      case HighConcurrencyWarning(c) => "High concurrency (" + IntToString(c) + ") may cause performance issues"
      case LowBaseWarning(b) => "Very low base time (" + IntToString(b) + "ms). Games may timeout."
      case LowBaseWarningAt(k, b) => At(k) + " has very low base time (" + IntToString(b) + "ms). Games may timeout."
      case UnknownEnvironment(env) => "Unknown environment '" + env + "'";
    assert (WarningMark + text)[..|WarningMark|] == WarningMark;
    WarningMark + text
  }

  // ---------------------------------------------------------------------
  // Validation, one check after another
  // ---------------------------------------------------------------------

  function Fail(e: ConfigError): Validation {
    Validation([], Some(e))
  }

  function Warn(warnings: seq<ConfigWarning>): Validation {
    Validation(warnings, None)
  }

  function Checked(error: Option<ConfigError>): Validation {
    Validation([], error)
  }

  /** Run first and then, unless first threw, next: the printed warnings accumulate. */
  function Then(first: Validation, next: Validation): Validation {
    if first.error.Some? then first else Validation(first.warnings + next.warnings, next.error)
  }

  /** The size of the HashSet built from the engine list. */
  function DistinctCount(names: seq<string>): nat {
    |set e | e in names|
  }

  predicate GoodControl(tc: TimeControlCfg) {
    tc.baseTimeMs > 0 && tc.incrementMs >= 0
  }

  /** The legacy single time control. */
  function CheckLegacyControl(tc: TimeControlCfg): Validation {
    if tc.baseTimeMs <= 0 then Fail(NonPositiveBase(tc.baseTimeMs))
    else if tc.incrementMs < 0 then Fail(NegativeIncrement(tc.incrementMs))
    else Warn(if tc.baseTimeMs < LowBaseTime then [LowBaseWarning(tc.baseTimeMs)] else [])
  }

  /** Why entry i of the list is rejected. */
  function ControlError(tc: TimeControlCfg, i: nat): ConfigError
    requires !GoodControl(tc)
  {
    if tc.baseTimeMs <= 0 then NonPositiveBaseAt(i, tc.baseTimeMs) else NegativeIncrementAt(i, tc.incrementMs)
  }

  /** The loop over the timeControls list, from entry i on. */
  function CheckControlsFrom(tcs: seq<TimeControlCfg>, i: nat): Validation
    requires i <= |tcs|
    decreases |tcs| - i
  {
    if i == |tcs| then Warn([])
    else if !GoodControl(tcs[i]) then Fail(ControlError(tcs[i], i))
    else Then(Warn(if tcs[i].baseTimeMs < LowBaseTime then [LowBaseWarningAt(i, tcs[i].baseTimeMs)] else []),
              CheckControlsFrom(tcs, i + 1))
  }

  predicate HasControlList(t: Tournament) {
    t.timeControls.Some? && t.timeControls.value != []
  }

  function CheckControls(t: Tournament): Validation {
    if t.timeControl.None? && !HasControlList(t) then Fail(MissingTimeControls)
    else Then(if t.timeControl.Some? then CheckLegacyControl(t.timeControl.value) else Warn([]),
              if HasControlList(t) then CheckControlsFrom(t.timeControls.value, 0) else Warn([]))
  }

  /** The checks of the tournament section, which come first. */
  function CheckTournament(t: Tournament): Validation {
    if t.mode.None? then Fail(MissingMode)
    else if t.mode.value !in TournamentModes then Fail(InvalidMode(t.mode.value))
    else if t.engines.None? || t.engines.value == [] then Fail(NoEngines)
    else if DistinctCount(t.engines.value) < 2 then Fail(TooFewDistinctEngines(DistinctCount(t.engines.value)))
    else if t.concurrency <= 0 then Fail(NonPositiveConcurrency(t.concurrency))
    else
      Then(Warn(if t.concurrency > HighConcurrency then [HighConcurrencyWarning(t.concurrency)] else []),
           if t.pairsPerMatch <= 0 then Fail(NonPositivePairs(t.pairsPerMatch)) else CheckControls(t))
  }

  predicate ValidPort(port: int) {
    0 < port <= MaxPort
  }

  function CheckServer(s: Option<Server>): Option<ConfigError> {
    if s.None? then Some(MissingServer)
    else if s.value.webSocket.None? then Some(MissingWebSocket)
    else if !ValidPort(s.value.webSocket.value.port) then Some(InvalidWebSocketPort(s.value.webSocket.value.port))
    else if s.value.http.None? then Some(MissingHttp)
    else if !ValidPort(s.value.http.value.port) then Some(InvalidHttpPort(s.value.http.value.port))
    else None
  }

  /** A failed Files.createDirectories, if the directory is configured. */
  function CreateDirectory(dir: Option<string>, fs: FileSystem): Option<ConfigError> {
    if dir.Some? && fs.createDirectories(dir.value).Some? then Some(CreateFailed(fs.createDirectories(dir.value).value))
    else None
  }

  /** The engine directory must exist and be a directory; the output and log directories are created. */
  function CheckPaths(p: Option<PathsCfg>, fs: FileSystem): Option<ConfigError> {
    if p.None? || p.value.engineDir.None? || p.value.engineDir.value == "" then Some(MissingEngineDir)
    else if !fs.pathExists(p.value.engineDir.value) then Some(EngineDirNotFound(p.value.engineDir.value))
    else if !fs.isDirectory(p.value.engineDir.value) then Some(EngineDirNotDirectory(p.value.engineDir.value))
    else if CreateDirectory(p.value.outputDir, fs).Some? then CreateDirectory(p.value.outputDir, fs)
    else CreateDirectory(p.value.logDir, fs)
  }

  function CheckLogging(l: Option<Logging>): Option<ConfigError> {
    if l.Some? && l.value.level.Some? && l.value.level.value !in LogLevels then Some(InvalidLogLevel(l.value.level.value))
    else None
  }

  function CheckPerformance(p: Option<Performance>): Option<ConfigError> {
    if p.None? then None
    else if p.value.engineStartupTimeoutSeconds <= 0 then Some(NonPositiveStartupTimeout)
    else if p.value.engineResponseTimeoutSeconds <= 0 then Some(NonPositiveResponseTimeout)
    else if p.value.maxThreadPoolSize <= 0 then Some(NonPositiveThreadPool)
    else None
  }

  /** An unknown environment is only a warning. */
  function DeploymentWarnings(d: Option<Deployment>): seq<ConfigWarning> {
    if d.Some? && d.value.environment.Some? && d.value.environment.value !in Environments then
      [UnknownEnvironment(d.value.environment.value)]
    else []
  }

  /** Enabled openings need a named regular file and, when a mode is given, a known mode. */
  function CheckOpenings(o: Option<Openings>, fs: FileSystem): Option<ConfigError> {
    if o.None? || !o.value.enabled then None
    else if o.value.file.None? || o.value.file.value == "" then Some(NoOpeningsFile)
    else if !fs.pathExists(o.value.file.value) then Some(OpeningsFileNotFound(o.value.file.value))
    else if !fs.isRegularFile(o.value.file.value) then Some(OpeningsNotAFile(o.value.file.value))
    else if o.value.mode.Some? && o.value.mode.value !in OpeningModes then Some(InvalidOpeningsMode(o.value.mode.value))
    else None
  }

  /** Config.validate: the sections in source order, stopping at the first check that throws. */
  function Validate(c: Config, fs: FileSystem): (v: Validation)
    ensures v.error.None? <==> WellConfigured(c, fs)
  {
    if c.tournament.None? then Fail(MissingTournament)
    else
      var t := c.tournament.value;
      TournamentChecked(t);
      Then(CheckTournament(t),
      Then(Checked(CheckServer(c.server)),
      Then(Checked(CheckPaths(c.paths, fs)),
      Then(Checked(CheckLogging(c.logging)),
      Then(Checked(CheckPerformance(c.performance)),
      Then(Warn(DeploymentWarnings(c.deployment)),
           Checked(CheckOpenings(t.openings, fs))))))))
  }

  // ---------------------------------------------------------------------
  // What a valid configuration is, stated on its own
  // ---------------------------------------------------------------------

  predicate TournamentOk(t: Tournament) {
    && t.mode.Some? && t.mode.value in TournamentModes
    && t.engines.Some? && DistinctCount(t.engines.value) >= 2
    && t.concurrency > 0 && t.pairsPerMatch > 0
    && (t.timeControl.Some? || HasControlList(t))
    && (t.timeControl.Some? ==> GoodControl(t.timeControl.value))
    && (t.timeControls.Some? ==> forall k :: 0 <= k < |t.timeControls.value| ==> GoodControl(t.timeControls.value[k]))
  }

  predicate ServerOk(s: Option<Server>) {
    && s.Some?
    && s.value.webSocket.Some? && ValidPort(s.value.webSocket.value.port)
    && s.value.http.Some? && ValidPort(s.value.http.value.port)
  }

  predicate PathsOk(p: Option<PathsCfg>, fs: FileSystem) {
    && p.Some? && p.value.engineDir.Some? && p.value.engineDir.value != ""
    && fs.pathExists(p.value.engineDir.value) && fs.isDirectory(p.value.engineDir.value)
    && (p.value.outputDir.Some? ==> fs.createDirectories(p.value.outputDir.value).None?)
    && (p.value.logDir.Some? ==> fs.createDirectories(p.value.logDir.value).None?)
  }

  predicate OpeningsOk(o: Option<Openings>, fs: FileSystem) {
    o.Some? && o.value.enabled ==>
      && o.value.file.Some? && o.value.file.value != ""
      && fs.pathExists(o.value.file.value) && fs.isRegularFile(o.value.file.value)
      && (o.value.mode.Some? ==> o.value.mode.value in OpeningModes)
  }

  /** Every condition validation imposes, in no particular order. */
  predicate WellConfigured(c: Config, fs: FileSystem) {
    && c.tournament.Some? && TournamentOk(c.tournament.value)
    && ServerOk(c.server)
    && PathsOk(c.paths, fs)
    && (c.logging.Some? && c.logging.value.level.Some? ==> c.logging.value.level.value in LogLevels)
    && (c.performance.Some? ==>
          && c.performance.value.engineStartupTimeoutSeconds > 0
          && c.performance.value.engineResponseTimeoutSeconds > 0
          && c.performance.value.maxThreadPoolSize > 0)
    && OpeningsOk(c.tournament.value.openings, fs)
  }

  // ---------------------------------------------------------------------
  // Lemmas about validation
  // ---------------------------------------------------------------------

  /**
   * The list loop passes exactly when every entry has a positive base time and a non-negative
   * increment; otherwise it reports the first bad entry, by its index; when it passes, every
   * entry with a low base time has had its warning printed.
   */
  lemma {:induction false} ControlsChecked(tcs: seq<TimeControlCfg>, i: nat)
    requires i <= |tcs|
    ensures CheckControlsFrom(tcs, i).error.None? <==> forall k :: i <= k < |tcs| ==> GoodControl(tcs[k])
    ensures CheckControlsFrom(tcs, i).error.Some? ==>
      exists k :: i <= k < |tcs| && !GoodControl(tcs[k]) && (forall j :: i <= j < k ==> GoodControl(tcs[j]))
                  && CheckControlsFrom(tcs, i).error == Some(ControlError(tcs[k], k))
    ensures CheckControlsFrom(tcs, i).error.None? ==>
      forall k :: i <= k < |tcs| && tcs[k].baseTimeMs < LowBaseTime ==>
        LowBaseWarningAt(k, tcs[k].baseTimeMs) in CheckControlsFrom(tcs, i).warnings
    decreases |tcs| - i
  {
    if i < |tcs| && GoodControl(tcs[i]) {
      ControlsChecked(tcs, i + 1);
      var v := CheckControlsFrom(tcs, i + 1);
      if v.error.Some? {
        var k :| i + 1 <= k < |tcs| && !GoodControl(tcs[k]) && (forall j :: i + 1 <= j < k ==> GoodControl(tcs[j]))
                 && v.error == Some(ControlError(tcs[k], k));
        assert forall j :: i <= j < k ==> GoodControl(tcs[j]);
      }
    }
  }

  /** The time-control checks pass exactly when some control is configured and every configured one is good. */
  lemma ControlsAccepted(t: Tournament)
    ensures CheckControls(t).error.None? <==>
      && (t.timeControl.Some? || HasControlList(t))
      && (t.timeControl.Some? ==> GoodControl(t.timeControl.value))
      && (t.timeControls.Some? ==> forall k :: 0 <= k < |t.timeControls.value| ==> GoodControl(t.timeControls.value[k]))
  {
    if HasControlList(t) {
      ControlsChecked(t.timeControls.value, 0);
    }
  }

  /** The tournament checks pass exactly when the tournament section is as TournamentOk says. */
  lemma TournamentChecked(t: Tournament)
    ensures CheckTournament(t).error.None? <==> TournamentOk(t)
  {
    if t.engines.Some? && t.engines.value == [] {
      assert DistinctCount(t.engines.value) == 0 by {
        assert (set e | e in t.engines.value) == {};
      }
    }
    ControlsAccepted(t);
  }

  /**
   * A failure in the tournament section is the one reported: nothing after it, in the
   * configuration or on disk, changes what validation prints or throws.
   */
  lemma TournamentFailureFirst(c: Config, c': Config, fs: FileSystem, fs': FileSystem)
    requires c.tournament.Some? && c'.tournament == c.tournament
    requires CheckTournament(c.tournament.value).error.Some?
    ensures Validate(c, fs) == Validate(c', fs') == CheckTournament(c.tournament.value)
  {
  }

  /** A missing mode is reported before anything else, with nothing printed. */
  lemma MissingModeReported(c: Config, fs: FileSystem)
    requires c.tournament.Some? && c.tournament.value.mode.None?
    ensures Validate(c, fs) == Validation([], Some(MissingMode))
    ensures ErrorMessage(Validate(c, fs).error.value) == "Tournament mode must be specified"
  {
  }

  /** A concurrency above 16 is accepted with a warning. */
  lemma HighConcurrencyOnlyWarns(c: Config, fs: FileSystem)
    requires WellConfigured(c, fs) && c.tournament.value.concurrency > HighConcurrency
    ensures Validate(c, fs).error.None?
    ensures HighConcurrencyWarning(c.tournament.value.concurrency) in Validate(c, fs).warnings
  {
  }

  /** An entry of the list with a base time under a second is accepted with a warning naming its index. */
  lemma LowBaseTimeOnlyWarns(c: Config, fs: FileSystem, k: nat)
    requires WellConfigured(c, fs) && HasControlList(c.tournament.value)
    requires k < |c.tournament.value.timeControls.value| && c.tournament.value.timeControls.value[k].baseTimeMs < LowBaseTime
    ensures Validate(c, fs).error.None?
    ensures LowBaseWarningAt(k, c.tournament.value.timeControls.value[k].baseTimeMs) in Validate(c, fs).warnings
  {
    ControlsChecked(c.tournament.value.timeControls.value, 0);
  }

  /** A tournament whose earlier checks pass but that names no time control is rejected for that. */
  lemma MissingTimeControlsRejected(c: Config, fs: FileSystem)
    requires c.tournament.Some?
    requires var t := c.tournament.value;
      t.mode.Some? && t.mode.value in TournamentModes && t.engines.Some? && DistinctCount(t.engines.value) >= 2
      && t.concurrency > 0 && t.pairsPerMatch > 0
    requires c.tournament.value.timeControl.None? && !HasControlList(c.tournament.value)
    ensures Validate(c, fs).error == Some(MissingTimeControls)
    ensures ErrorMessage(Validate(c, fs).error.value) == "Missing 'timeControl' or 'timeControls' section"
  {
  }

  /** A list whose only entry has base time -1000 is rejected, naming entry 0 and the value. */
  lemma NegativeBaseTimeRejected(c: Config, fs: FileSystem)
    requires c.tournament.Some?
    requires var t := c.tournament.value;
      t.mode.Some? && t.mode.value in TournamentModes && t.engines.Some? && DistinctCount(t.engines.value) >= 2
      && t.concurrency > 0 && t.pairsPerMatch > 0
    requires c.tournament.value.timeControl.None?
    requires c.tournament.value.timeControls == Some([TimeControlCfg(-1000, 100)])
    ensures Validate(c, fs).error == Some(NonPositiveBaseAt(0, -1000))
    ensures ErrorMessage(Validate(c, fs).error.value)
         == "timeControls[" + "0" + "]" + ".baseTimeMs must be positive" + " (got: " + "-1000" + ")"
  {
    assert CheckControlsFrom([TimeControlCfg(-1000, 100)], 0) == Fail(NonPositiveBaseAt(0, -1000));
    assert NatToString(1000) == "1000" by {
      assert NatToString(100) == "100" by {
        assert NatToString(10) == "10";
      }
    }
    assert IntToString(-1000) == "-1000";
    assert NatToString(0) == "0";
  }

  // ---------------------------------------------------------------------
  // The effective time controls
  // ---------------------------------------------------------------------

  /** getTimeControls: the list when it has entries, else the legacy control alone, else an IllegalStateException. */
  function GetTimeControls(t: Tournament): (r: Result<seq<TimeControlCfg>, string>)
    ensures r.Failure? <==> t.timeControl.None? && !HasControlList(t)
    ensures r.Failure? ==> r.error == "No time control(s) configured"
    ensures r.Success? ==> r.value != []
    ensures HasControlList(t) ==> r == Success(t.timeControls.value)
    ensures !HasControlList(t) && t.timeControl.Some? ==> r == Success([t.timeControl.value])
  {
    if HasControlList(t) then Success(t.timeControls.value)
    else if t.timeControl.Some? then Success([t.timeControl.value])
    else Failure("No time control(s) configured")
  }

  /** After validation, the effective time controls exist and all have a positive base time and a non-negative increment. */
  lemma ValidatedTimeControls(c: Config, fs: FileSystem)
    requires Validate(c, fs).error.None?
    ensures c.tournament.Some? && GetTimeControls(c.tournament.value).Success?
    ensures var tcs := GetTimeControls(c.tournament.value).value;
      forall k :: 0 <= k < |tcs| ==> GoodControl(tcs[k])
  {
  }

  // ---------------------------------------------------------------------
  // Opening positions from an EPD file
  // ---------------------------------------------------------------------

  /** How many whitespace-separated pieces an EPD line is split into, at most. */
  const EpdSplitLimit := 7
  /** The FEN fields an EPD record starts with: placement, side, castling, en passant. */
  const EpdFenFields := 4

  /**
   * The position one line of the file contributes, if any: there is one exactly when the line,
   * trimmed, is not empty, is not a comment and has at least four fields, and it is those four
   * fields and nothing else.
   */
  function EpdPosition(line: string): (fen: Option<string>)
    ensures var t := Trim(line);
      fen.Some? <==> t != [] && !StartsWith(t, "#") && |Words(t)| >= EpdFenFields
    ensures fen.Some? ==> Words(fen.value) == Words(Trim(line))[..EpdFenFields]
  {
    var t := Trim(line);
    if t == [] || StartsWith(t, "#") then None
    else
      TrimShape(line);
      SplitWsLimitWords(t, EpdSplitLimit);
      var parts := SplitWsLimit(t, EpdSplitLimit);
      if |parts| >= EpdFenFields then
        var w := Words(t);
        assert parts[..EpdFenFields] == w[..EpdFenFields];
        WordsAreTokens(t);
        WordsOfJoin(w[..EpdFenFields]);
        Some(Join(parts[..EpdFenFields], " "))
      else None
  }

  function OptionList(o: Option<string>): seq<string> {
    if o.Some? then [o.value] else []
  }

  /** The positions of the lines, in file order. */
  function EpdPositions(lines: seq<string>): seq<string>
    decreases |lines|
  {
    if lines == [] then []
    else EpdPositions(lines[..|lines| - 1]) + OptionList(EpdPosition(lines[|lines| - 1]))
  }

  /** getStartingPositions, given the outcome of Files.readAllLines on the openings file. */
  method GetStartingPositions(openings: Option<Openings>, read: Result<seq<string>, string>)
    returns (r: Result<seq<string>, string>)
    ensures openings.None? || !openings.value.enabled ==> r == Success([])
    ensures openings.Some? && openings.value.enabled && read.Failure? ==>
      r == Failure("Failed to read openings file: " + read.error)
    ensures openings.Some? && openings.value.enabled && read.Success? ==> r == Success(EpdPositions(read.value))
  {
    if openings.None? || !openings.value.enabled {
      return Success([]);
    }
    if read.Failure? {
      return Failure("Failed to read openings file: " + read.error);
    }
    var lines := read.value;
    var positions: seq<string> := [];
    var i := 0;
    while i < |lines|
      invariant 0 <= i <= |lines|
      invariant positions == EpdPositions(lines[..i])
    {
      var line := Trim(lines[i]);
      if line != [] && !StartsWith(line, "#") {
        var parts := SplitWsLimit(line, EpdSplitLimit);
        if |parts| >= EpdFenFields {
          positions := positions + [Join(parts[..EpdFenFields], " ")];
        }
      }
      assert lines[..i + 1][..i] == lines[..i];
      i := i + 1;
    }
    assert lines[..i] == lines;
    return Success(positions);
  }

  /** Every position read from a file has exactly the four FEN fields of an EPD record. */
  lemma {:induction false} EpdPositionsHaveFourFields(lines: seq<string>)
    ensures forall k :: 0 <= k < |EpdPositions(lines)| ==> |Words(EpdPositions(lines)[k])| == EpdFenFields
    decreases |lines|
  {
    if lines != [] {
      EpdPositionsHaveFourFields(lines[..|lines| - 1]);
    }
  }

  /** Lines are read in file order: the positions of two files one after the other are those of each, in turn. */
  lemma {:induction false} EpdPositionsInOrder(a: seq<string>, b: seq<string>)
    ensures EpdPositions(a + b) == EpdPositions(a) + EpdPositions(b)
    decreases |b|
  {
    if b == [] {
      assert a + b == a;
    } else {
      var b', o := b[..|b| - 1], OptionList(EpdPosition(b[|b| - 1]));
      assert (a + b)[..|a + b| - 1] == a + b';
      assert (a + b)[|a + b| - 1] == b[|b| - 1];
      assert EpdPositions(a + b) == EpdPositions(a + b') + o;
      EpdPositionsInOrder(a, b');
      assert EpdPositions(b) == EpdPositions(b') + o;
    }
  }

  /** Blank lines and comment lines contribute nothing. */
  lemma SkippedLines(line: string)
    requires Trim(line) == [] || StartsWith(Trim(line), "#")
    ensures EpdPositions([line]) == []
  {
  }
}

// The logging facade of LoggingTask.cs: level parsing, the two dated file
// streams, severity routing and the configure-once / close life cycle of the
// global Serilog logger.

module Logging {
  import opened Wrappers
  import opened Text
  import opened Settings

  // ---------------------------------------------------------------------------
  // Levels

  /** Serilog's `LogEventLevel`, in increasing severity. */
  datatype Level = Verbose | Debug | Information | Warning | Error | Fatal

  function Rank(l: Level): nat
  {
    match l
    case Verbose => 0
    case Debug => 1
    case Information => 2
    case Warning => 3
    case Error => 4
    case Fatal => 5
  }

  /** `a < b` on `LogEventLevel`. */
  predicate Below(a: Level, b: Level) { Rank(a) < Rank(b) }

  /** The lower-case name each level is selected by in the settings file. */
  function LevelName(l: Level): string
  {
    match l
    case Verbose => "verbose"
    case Debug => "debug"
    case Information => "information"
    case Warning => "warning"
    case Error => "error"
    case Fatal => "fatal"
  }

  predicate IsLevelName(t: string)
  {
    exists l :: LevelName(l) == t
  }

  /** The level a lower-case name selects, Information for any other text. */
  function LevelNamed(t: string): Level
  {
    if t == LevelName(Verbose) then Verbose
    else if t == LevelName(Debug) then Debug
    else if t == LevelName(Information) then Information
    else if t == LevelName(Warning) then Warning
    else if t == LevelName(Error) then Error
    else if t == LevelName(Fatal) then Fatal
    else Information
  }

  /** `ParseNivel`: the level named by the lower-cased text. */
  function ParseNivel(nivel: string): Level
  {
    LevelNamed(ToLower(nivel))
  }

  /** Distinct levels have distinct names. */
  lemma LevelNameInjective(a: Level, b: Level)
    ensures LevelName(a) == LevelName(b) ==> a == b
  {
    if a != b {
      assert LevelName(a)[0] != LevelName(b)[0] || |LevelName(a)| != |LevelName(b)|;
    }
  }

  /** Level names contain no upper-case letter. */
  lemma LevelNameLower(l: Level)
    ensures forall i :: 0 <= i < |LevelName(l)| ==> !IsUpper(LevelName(l)[i])
  {
  }

  /** A known name selects its level; any other text selects Information. */
  lemma LevelNamedSpec(t: string)
    ensures IsLevelName(t) ==> LevelName(LevelNamed(t)) == t
    ensures !IsLevelName(t) ==> LevelNamed(t) == Information
  {
    if IsLevelName(t) {
      var l :| LevelName(l) == t;
      LevelNameInjective(l, LevelNamed(t));
    }
  }

  /** Every level's own name, in lower case, selects that level. */
  lemma ParseNivelRoundTrip(l: Level)
    ensures ParseNivel(LevelName(l)) == l
  {
    LevelNameLower(l);
    ToLowerOfLower(LevelName(l));
    LevelNamedSpec(LevelName(l));
    LevelNameInjective(LevelNamed(LevelName(l)), l);
  }

  /** Letter case does not matter: a level's name spelt in any mixture of
      cases selects that level. */
  lemma ParseNivelAnyCase(s: string, l: Level)
    requires ToLower(s) == LevelName(l)
    ensures ParseNivel(s) == l
  {
    LevelNamedSpec(ToLower(s));
    LevelNameInjective(ParseNivel(s), l);
  }

  /** Every text that names no level, the empty text and misspellings such as
      "warn" included, selects Information. */
  lemma ParseNivelFallback(s: string)
    requires !IsLevelName(ToLower(s))
    ensures ParseNivel(s) == Information
  {
    LevelNamedSpec(ToLower(s));
  }

  /** The empty text and "warn" name no level. */
  lemma UnknownNames()
    ensures !IsLevelName(ToLower("")) && !IsLevelName(ToLower("warn"))
  {
    assert ToLower("warn") == "warn";
    forall l: Level ensures LevelName(l) != "warn" && LevelName(l) != "" {
      if |LevelName(l)| == 4 {
      }
    }
  }

  // ---------------------------------------------------------------------------
  // Sink paths

  const DateToken := "{Date}"

  /** A file sink's path: the log directory, a slash, and the file template
      with every `{Date}` replaced by the configure-time date stamp. */
  function SinkPath(dir: string, template: string, today: Date): string
    requires today.Valid()
  {
    dir + "/" + ReplaceAll(template, DateToken, DateStamp(today))
  }

  /** The date stamp shares no character with the token it replaces. */
  lemma StampAvoidsToken(today: Date)
    requires today.Valid()
    ensures forall i :: 0 <= i < |DateStamp(today)| ==> DateStamp(today)[i] !in DateToken
  {
    var d := DateStamp(today);
    forall i | 0 <= i < |d| ensures d[i] !in DateToken {
      assert i == 2 || i == 5 || IsDigit(d[i]);
    }
  }

  /** No `{Date}` survives in the file part of a sink path. */
  lemma SinkPathHasNoToken(template: string, today: Date)
    requires today.Valid()
    ensures !Occurs(DateToken, ReplaceAll(template, DateToken, DateStamp(today)))
  {
    StampAvoidsToken(today);
    ReplaceLeavesNone(template, DateToken, DateStamp(today));
  }

  /** A template without the token is used as it is. */
  lemma SinkPathWithoutToken(dir: string, template: string, today: Date)
    requires today.Valid() && !Occurs(DateToken, template)
    ensures SinkPath(dir, template, today) == dir + "/" + template
  {
    ReplaceAbsent(template, DateToken, DateStamp(today));
  }

  /** A template with a single token: the date stamp takes the token's place. */
  lemma SinkPathOneToken(dir: string, before: string, after: string, today: Date)
    requires today.Valid() && FirstAfter(before, DateToken) && !Occurs(DateToken, after)
    ensures SinkPath(dir, before + DateToken + after, today) == dir + "/" + before + DateStamp(today) + after
  {
    ReplaceSplit(before, DateToken, DateStamp(today), after);
    ReplaceAbsent(after, DateToken, DateStamp(today));
  }

  // ---------------------------------------------------------------------------
  // Routing

  /** The three sinks `ConfigurarLogger` registers. */
  datatype Sink = Console | SuccessFile | FailureFile

  const AllSinks := [Console, SuccessFile, FailureFile]

  /** The minimum level of a sub-logger built by `WriteTo.Logger` without a
      `MinimumLevel` call of its own: Serilog's default, Information. */
  const SubLoggerMinimum := Information

  /** What each sink lets through of the events the root logger passes on: the
      console takes everything; each file sits behind a sub-logger with its own
      Information floor and a filter, below Warning for the success file and
      Warning or above for the failure file. */
  predicate SinkAccepts(s: Sink, lv: Level)
  {
    match s
    case Console => true
    case SuccessFile => !Below(lv, SubLoggerMinimum) && Below(lv, Warning)
    case FailureFile => !Below(lv, SubLoggerMinimum) && !Below(lv, Warning)
  }

  function Accepting(ss: seq<Sink>, lv: Level): seq<Sink>
  {
    if ss == [] then []
    else if SinkAccepts(ss[0], lv) then [ss[0]] + Accepting(ss[1..], lv)
    else Accepting(ss[1..], lv)
  }

  /** The sinks an event reaches, in registration order: none when the minimum
      level drops it, otherwise every sink whose filter accepts it. */
  function Routes(minimum: Level, lv: Level): seq<Sink>
  {
    if Below(lv, minimum) then [] else Accepting(AllSinks, lv)
  }

  /** Below the minimum an event reaches no sink at all. */
  lemma BelowMinimumReachesNothing(minimum: Level, lv: Level)
    requires Below(lv, minimum)
    ensures Routes(minimum, lv) == []
  {
  }

  /** An event that passes the minimum reaches the console, and then: no file
      when it is Verbose or Debug, the success file when it is Information, and
      the failure file when it is Warning or above. */
  lemma {:induction false} RoutingPartition(minimum: Level, lv: Level)
    requires !Below(lv, minimum)
    ensures Below(lv, Information) ==> Routes(minimum, lv) == [Console]
    ensures lv == Information ==> Routes(minimum, lv) == [Console, SuccessFile]
    ensures !Below(lv, Warning) ==> Routes(minimum, lv) == [Console, FailureFile]
  {
    assert AllSinks[1..] == [SuccessFile, FailureFile];
    assert AllSinks[1..][1..] == [FailureFile];
    assert Accepting([], lv) == [];
    assert Accepting([FailureFile], lv) ==
      if SinkAccepts(FailureFile, lv) then [FailureFile] else [];
    assert Accepting([SuccessFile, FailureFile], lv) ==
      (if SinkAccepts(SuccessFile, lv) then [SuccessFile] else []) + Accepting([FailureFile], lv);
  }

  /** Exactly one of the two file streams receives an event that passes the
      minimum and is at Information or above. */
  lemma ExactlyOneFile(minimum: Level, lv: Level)
    requires !Below(lv, minimum) && !Below(lv, Information)
    ensures (SuccessFile in Routes(minimum, lv)) != (FailureFile in Routes(minimum, lv))
  {
    RoutingPartition(minimum, lv);
  }

  /** Verbose and Debug events reach neither file, whatever the minimum: at
      most the console. */
  lemma NoFileBelowInformation(minimum: Level, lv: Level)
    requires Below(lv, Information)
    ensures SuccessFile !in Routes(minimum, lv) && FailureFile !in Routes(minimum, lv)
    ensures Routes(minimum, lv) == if Below(lv, minimum) then [] else [Console]
  {
    if !Below(lv, minimum) {
      RoutingPartition(minimum, lv);
    }
  }

  // ---------------------------------------------------------------------------
  // Events

  /** The failure an error report is about; only its message is rendered. */
  datatype Exception = Exception(message: string)

  /** One line written to one sink. */
  datatype Entry = Entry(sink: Sink, level: Level, text: string, error: Option<Exception>)

  /** The configured pipeline: the minimum level and the two file paths, fixed
      when `ConfigurarLogger` ran. */
  datatype Pipeline = Pipeline(minimum: Level, successPath: string, failurePath: string)
  {
    function PathOf(s: Sink): string
    {
      match s
      case Console => ""
      case SuccessFile => successPath
      case FailureFile => failurePath
    }
  }

  function PipelineFor(cfg: LoggingConfig, today: Date): Pipeline
    requires today.Valid()
  {
    Pipeline(ParseNivel(cfg.nivelMinimo),
             SinkPath(cfg.diretorioLogs, cfg.arquivoSucesso, today),
             SinkPath(cfg.diretorioLogs, cfg.arquivoFalha, today))
  }

  /** What one event adds to the output: one entry per sink it reaches, and
      nothing when no pipeline is installed (Serilog's silent logger). */
  function Dispatch(p: Option<Pipeline>, lv: Level, text: string, error: Option<Exception>): seq<Entry>
  {
    match p
    case None => []
    case Some(q) =>
      var rs := Routes(q.minimum, lv);
      seq(|rs|, i requires 0 <= i < |rs| => Entry(rs[i], lv, text, error))
  }

  /** The entries of a dispatched event carry its level, text and error. */
  lemma DispatchCarries(p: Option<Pipeline>, lv: Level, text: string, error: Option<Exception>)
    ensures forall e :: e in Dispatch(p, lv, text, error) ==>
      e.level == lv && e.text == text && e.error == error
  {
  }

  /** Info reports never reach the failure file, and they reach the success
      file exactly when the minimum level lets them through. */
  lemma SuccessStreamLevels(q: Pipeline, text: string)
    ensures forall e :: e in Dispatch(Some(q), Information, text, None) ==> e.sink != FailureFile
    ensures (exists e :: e in Dispatch(Some(q), Information, text, None) && e.sink == SuccessFile) <==>
            !Below(Information, q.minimum)
  {
    if !Below(Information, q.minimum) {
      RoutingPartition(q.minimum, Information);
      var d := Dispatch(Some(q), Information, text, None);
      assert d[1] in d && d[1].sink == SuccessFile;
    }
  }

  /** Debug reports reach neither file: one console entry when the minimum
      level lets them through, nothing otherwise. */
  lemma DebugReachesConsoleOnly(q: Pipeline, text: string)
    ensures forall e :: e in Dispatch(Some(q), Debug, text, None) ==> e.sink == Console
    ensures |Dispatch(Some(q), Debug, text, None)| == if Below(Debug, q.minimum) then 0 else 1
  {
    NoFileBelowInformation(q.minimum, Debug);
  }

  /** Warning and Error reports never reach the success file, and they reach
      the failure file exactly when the minimum level lets them through. */
  lemma FailureStreamLevels(q: Pipeline, lv: Level, text: string, error: Option<Exception>)
    requires lv == Warning || lv == Error
    ensures forall e :: e in Dispatch(Some(q), lv, text, error) ==> e.sink != SuccessFile
    ensures (exists e :: e in Dispatch(Some(q), lv, text, error) && e.sink == FailureFile) <==>
            !Below(lv, q.minimum)
  {
    if !Below(lv, q.minimum) {
      RoutingPartition(q.minimum, lv);
      var d := Dispatch(Some(q), lv, text, error);
      assert d[1] in d && d[1].sink == FailureFile;
    }
  }

  const MsgConfigured := "\U{2705} Logger configurado com sucesso!"
  const MsgClosing := "\U{1F51A} Encerrando logger..."

  /** The text of a warning: the context in brackets, then the message. */
  function AvisoText(contexto: string, mensagem: string): string
  {
    "[" + contexto + "] " + mensagem
  }

  /** The text of an error report: the context in brackets, "Erro:", then the
      exception's message. */
  function ErroText(contexto: string, mensagem: string): string
  {
    "[" + contexto + "] Erro: " + mensagem
  }

  /** Where the parts of a warning text sit. */
  lemma AvisoTextLayout(contexto: string, mensagem: string)
    requires ']' !in contexto
    ensures var t := AvisoText(contexto, mensagem);
      |t| == |contexto| + 3 + |mensagem| &&
      (forall i :: 1 <= i <= |contexto| ==> t[i] != ']') && t[1 + |contexto|] == ']' &&
      t[1..1 + |contexto|] == contexto && t[|contexto| + 3..] == mensagem
  {
    var t := AvisoText(contexto, mensagem);
    forall i | 1 <= i <= |contexto| ensures t[i] != ']' {
      assert t[i] == contexto[i - 1];
    }
  }

  /** A bracket-free context and the message can be read back from a warning. */
  lemma AvisoTextInjective(c1: string, m1: string, c2: string, m2: string)
    requires ']' !in c1 && ']' !in c2
    requires AvisoText(c1, m1) == AvisoText(c2, m2)
    ensures c1 == c2 && m1 == m2
  {
    AvisoTextLayout(c1, m1);
    AvisoTextLayout(c2, m2);
  }

  /** An error report's text is a warning text whose message starts with
      "Erro: ", so the prefix alone does not tell the two apart. */
  lemma ErroTextIsAvisoShaped(contexto: string, mensagem: string)
    ensures ErroText(contexto, mensagem) == AvisoText(contexto, "Erro: " + mensagem)
  {
  }

  // ---------------------------------------------------------------------------
  // The logger

  /** The static `LoggingTask` together with the global `Log.Logger` it
      installs. `pipeline == None` is Serilog's silent logger, in place before
      configuration and again after closing. `written` is everything the sinks
      have received, in order. */
  class Logger {
    var configurado: bool
    var pipeline: Option<Pipeline>
    var written: seq<Entry>

    constructor()
      ensures !configurado && pipeline == None && written == []
    {
      configurado := false;
      pipeline := None;
      written := [];
    }

    /** `ConfigurarLogger`: returns at once when already configured; otherwise
        reads `Config.Instancia` (which may fail, leaving the logger as it
        was), installs the pipeline for the settings' logging section and the
        given date, and announces itself at Information. */
    method ConfigurarLogger(store: ConfigStore, source: LoadOutcome, today: Date)
      returns (r: Result<(), LoadError>)
      requires today.Valid()
      modifies this, store
      ensures old(configurado) ==> r == Success(()) && unchanged(this) && unchanged(store)
      ensures !old(configurado) ==> store.instancia == HeldAfter(old(store.instancia), source)
      ensures !old(configurado) && InstanciaResult(old(store.instancia), source).Failure? ==>
        r == Failure(InstanciaResult(old(store.instancia), source).error) && unchanged(this)
      ensures !old(configurado) && InstanciaResult(old(store.instancia), source).Success? ==>
        var p := PipelineFor(InstanciaResult(old(store.instancia), source).value.logging, today);
        r == Success(()) && configurado && pipeline == Some(p) &&
        written == old(written) + Dispatch(Some(p), Information, MsgConfigured, None)
    {
      if configurado {
        return Success(());
      }
      var config := store.Instancia(source);
      if config.Failure? {
        return Failure(config.error);
      }
      pipeline := Some(PipelineFor(config.value.logging, today));
      configurado := true;
      Emit(Information, MsgConfigured, None);
      r := Success(());
    }

    /** One event through the installed pipeline. */
    method Emit(lv: Level, text: string, error: Option<Exception>)
      modifies this
      ensures configurado == old(configurado) && pipeline == old(pipeline)
      ensures written == old(written) + Dispatch(pipeline, lv, text, error)
    {
      written := written + Dispatch(pipeline, lv, text, error);
    }

    /** `RegistrarInfo`: the message at Information. */
    method RegistrarInfo(mensagem: string)
      modifies this
      ensures configurado == old(configurado) && pipeline == old(pipeline)
      ensures written == old(written) + Dispatch(pipeline, Information, mensagem, None)
    {
      Emit(Information, mensagem, None);
    }

    /** `RegistrarAviso`: the bracketed context and the message at Warning. */
    method RegistrarAviso(mensagem: string, contexto: string)
      modifies this
      ensures configurado == old(configurado) && pipeline == old(pipeline)
      ensures written == old(written) + Dispatch(pipeline, Warning, AvisoText(contexto, mensagem), None)
    {
      Emit(Warning, AvisoText(contexto, mensagem), None);
    }

    /** `RegistrarErro`: the bracketed context and the exception's message at
        Error, with the exception attached. */
    method RegistrarErro(ex: Exception, contexto: string)
      modifies this
      ensures configurado == old(configurado) && pipeline == old(pipeline)
      ensures written == old(written) + Dispatch(pipeline, Error, ErroText(contexto, ex.message), Some(ex))
    {
      Emit(Error, ErroText(contexto, ex.message), Some(ex));
    }

    /** `RegistrarDebug`: the message at Debug. */
    method RegistrarDebug(mensagem: string)
      modifies this
      ensures configurado == old(configurado) && pipeline == old(pipeline)
      ensures written == old(written) + Dispatch(pipeline, Debug, mensagem, None)
    {
      Emit(Debug, mensagem, None);
    }

    /** `FecharLogger`: announces the shutdown, then puts the silent logger back.
        The configured flag is not cleared. */
    method FecharLogger()
      modifies this
      ensures configurado == old(configurado) && pipeline == None
      ensures written == old(written) + Dispatch(old(pipeline), Information, MsgClosing, None)
    {
      Emit(Information, MsgClosing, None);
      pipeline := None;
    }
  }

  /** The default minimum level "Information" selects Information. */
  lemma DefaultMinimum()
    ensures ParseNivel(DefaultLogging.nivelMinimo) == Information
  {
    var n := DefaultLogging.nivelMinimo;
    assert ToLower(n) == LevelName(Information) by {
      ToLowerUpperLower(n, LevelName(Information));
      LevelNameLower(Information);
      ToLowerOfLower(LevelName(Information));
    }
    ParseNivelAnyCase(n, Information);
  }

  /** The default success stream is `logs/sucesso/log-<dd-MM-yyyy>.txt`. */
  lemma DefaultSuccessPath(today: Date)
    requires today.Valid()
    ensures SinkPath(DefaultLogging.diretorioLogs, DefaultLogging.arquivoSucesso, today) ==
      "logs/sucesso/log-" + DateStamp(today) + ".txt"
  {
    assert DefaultLogging.arquivoSucesso == "sucesso/log-" + DateToken + ".txt";
    assert "logs" + "/" + "sucesso/log-" == "logs/sucesso/log-";
    FirstCharAbsent("sucesso/log-", DateToken);
    SinkPathOneToken("logs", "sucesso/log-", ".txt", today);
  }

  /** The default failure stream is `logs/falha/log-<dd-MM-yyyy>.txt`. */
  lemma DefaultFailurePath(today: Date)
    requires today.Valid()
    ensures SinkPath(DefaultLogging.diretorioLogs, DefaultLogging.arquivoFalha, today) ==
      "logs/falha/log-" + DateStamp(today) + ".txt"
  {
    assert DefaultLogging.arquivoFalha == "falha/log-" + DateToken + ".txt";
    assert "logs" + "/" + "falha/log-" == "logs/falha/log-";
    FirstCharAbsent("falha/log-", DateToken);
    SinkPathOneToken("logs", "falha/log-", ".txt", today);
  }

  /** Closing is final: once configuration has succeeded the flag stays set,
      so configuring again after closing installs nothing and later reports
      are lost. */
  method CloseIsFinal(source: LoadOutcome, today: Date, mensagem: string, ex: Exception)
    returns (after: seq<Entry>)
    requires today.Valid() && LoadResult(source).Success?
    ensures after == []
  {
    var store := new ConfigStore();
    var logger := new Logger();
    var _ := logger.ConfigurarLogger(store, source, today);
    logger.FecharLogger();
    var before := logger.written;
    var _ := logger.ConfigurarLogger(store, source, today);
    logger.RegistrarInfo(mensagem);
    logger.RegistrarErro(ex, "");
    after := logger.written[|before|..];
  }

  /** Before configuration every report is lost, whatever its level. */
  method UnconfiguredIsSilent(mensagem: string, ex: Exception) returns (w: seq<Entry>)
    ensures w == []
  {
    var logger := new Logger();
    logger.RegistrarInfo(mensagem);
    logger.RegistrarAviso(mensagem, "");
    logger.RegistrarErro(ex, "");
    logger.RegistrarDebug(mensagem);
    w := logger.written;
  }

  /** A first configuration that fails to load the settings leaves a default
      instance behind, so a second attempt succeeds with the default logging
      settings instead of reporting the failure again. */
  method RetryAfterFailedLoad(first: LoadOutcome, second: LoadOutcome, today: Date)
    returns (r1: Result<(), LoadError>, r2: Result<(), LoadError>, installed: Option<Pipeline>)
    requires today.Valid() && LoadResult(first).Failure?
    ensures r1.Failure? && r2 == Success(())
    ensures installed == Some(PipelineFor(DefaultLogging, today))
  {
    var store := new ConfigStore();
    var logger := new Logger();
    r1 := logger.ConfigurarLogger(store, first, today);
    assert !logger.configurado && store.instancia == Some(DefaultConfig);
    r2 := logger.ConfigurarLogger(store, second, today);
    installed := logger.pipeline;
  }
}

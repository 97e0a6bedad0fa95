/** The settings snapshot of Config.cs: the records and their defaults, the
    five required-field checks of `Validar`, the provider-specific connection
    string of `ObterConnectionString`, and the lazily loaded `Instancia`. */
module Settings {
  import opened Text
  import opened Wrappers

  // ---------------------------------------------------------------------------
  // Records and their defaults

  datatype NavegacaoConfig = NavegacaoConfig(
    urlBase: string,
    timeoutSegundos: int32,
    headlessMode: bool,
    navegadorPadrao: string,
    viewportWidth: int32,
    viewportHeight: int32,
    userAgent: string,
    bloquearImagens: bool,
    bloquearCss: bool)

  datatype ScrapingConfig = ScrapingConfig(
    intervaloEntreRequests: int32,
    maximoTentativas: int32,
    delayAposErro: int32)

  datatype DatabaseConfig = DatabaseConfig(
    provider: string,
    host: string,
    port: int32,
    nomeBanco: string,
    usuario: string,
    senha: string,
    connectionTimeout: int32)

  datatype LoggingConfig = LoggingConfig(
    diretorioLogs: string,
    nivelMinimo: string,
    arquivoSucesso: string,
    arquivoFalha: string)

  datatype AgendamentoConfig = AgendamentoConfig(
    habilitarScheduler: bool,
    intervaloMinutos: int32,
    executarAoIniciar: bool)

  datatype ExportacaoConfig = ExportacaoConfig(
    habilitarExportacao: bool,
    formatoPadrao: string,
    diretorioSaida: string)

  /** One settings snapshot. `Categorias` is a dictionary, so its keys are unique. */
  datatype Config = Config(
    navegacao: NavegacaoConfig,
    categorias: map<string, string>,
    scraping: ScrapingConfig,
    database: DatabaseConfig,
    logging: LoggingConfig,
    agendamento: AgendamentoConfig,
    exportacao: ExportacaoConfig)

  const DefaultNavegacao := NavegacaoConfig("", 30, false, "chromium", 1920, 1080, "", false, false)
  const DefaultScraping := ScrapingConfig(2000, 3, 5000)
  const DefaultDatabase := DatabaseConfig("MySQL", "localhost", 3306, "", "", "", 30)
  const DefaultLogging := LoggingConfig("logs", "Information", "sucesso/log-{Date}.txt", "falha/log-{Date}.txt")
  const DefaultAgendamento := AgendamentoConfig(true, 60, false)
  const DefaultExportacao := ExportacaoConfig(true, "Excel", "exports")

  /** The snapshot every property initialiser produces, before anything is loaded. */
  const DefaultConfig := Config(DefaultNavegacao, map[], DefaultScraping, DefaultDatabase,
                                DefaultLogging, DefaultAgendamento, DefaultExportacao)

  // ---------------------------------------------------------------------------
  // Validation

  /** The five required-field checks, in the order `Validar` runs them. */
  datatype Check = UrlBaseCheck | TimeoutCheck | CategoriasCheck | NomeBancoCheck | UsuarioCheck

  const AllChecks := [UrlBaseCheck, TimeoutCheck, CategoriasCheck, NomeBancoCheck, UsuarioCheck]

  /** Position of a check in the validation sequence. */
  function Position(k: Check): nat
  {
    match k
    case UrlBaseCheck => 0
    case TimeoutCheck => 1
    case CategoriasCheck => 2
    case NomeBancoCheck => 3
    case UsuarioCheck => 4
  }

  /** The check `k` rejects the snapshot `c`. */
  predicate Fails(c: Config, k: Check)
  {
    match k
    case UrlBaseCheck => IsBlank(c.navegacao.urlBase)
    case TimeoutCheck => c.navegacao.timeoutSegundos <= 0
    case CategoriasCheck => |c.categorias| == 0
    case NomeBancoCheck => IsBlank(c.database.nomeBanco)
    case UsuarioCheck => IsBlank(c.database.usuario)
  }

  const MsgUrlBase := "Navegacao.UrlBase não pode estar vazia"
  const MsgTimeout := "Navegacao.TimeoutSegundos deve ser maior que zero"
  const MsgCategorias := "Pelo menos uma categoria deve ser configurada"
  const MsgNomeBanco := "Database.NomeBanco não pode estar vazio"
  const MsgUsuario := "Database.Usuario não pode estar vazio"

  function Message(k: Check): string
  {
    match k
    case UrlBaseCheck => MsgUrlBase
    case TimeoutCheck => MsgTimeout
    case CategoriasCheck => MsgCategorias
    case NomeBancoCheck => MsgNomeBanco
    case UsuarioCheck => MsgUsuario
  }

  /** Each check has its own message. */
  lemma MessageInjective(k: Check, k': Check)
    ensures k != k' ==> Message(k) != Message(k')
  {
  }

  /** The checks of `ks` that reject `c`, in the order of `ks`. */
  function Failing(c: Config, ks: seq<Check>): (r: seq<Check>)
    ensures |r| <= |ks|
  {
    if ks == [] then [] else (if Fails(c, ks[0]) then [ks[0]] else []) + Failing(c, ks[1..])
  }

  function FailingChecks(c: Config): seq<Check>
  {
    Failing(c, AllChecks)
  }

  function Messages(ks: seq<Check>): (r: seq<string>)
    ensures |r| == |ks| && forall i :: 0 <= i < |ks| ==> r[i] == Message(ks[i])
  {
    if ks == [] then [] else [Message(ks[0])] + Messages(ks[1..])
  }

  /** The message check `k` contributes to the list of errors. */
  function Reported(c: Config, k: Check): seq<string>
  {
    if Fails(c, k) then [Message(k)] else []
  }

  /** The messages `Validar` collects in its list of errors. */
  function ValidationErrors(c: Config): seq<string>
  {
    Reported(c, UrlBaseCheck) + Reported(c, TimeoutCheck) + Reported(c, CategoriasCheck) +
    Reported(c, NomeBancoCheck) + Reported(c, UsuarioCheck)
  }

  /** `Validar`: runs every check without stopping at the first failure, adds
      one message per failing check, and succeeds iff the list stays empty. */
  method Validar(c: Config) returns (ok: bool, erros: seq<string>)
    ensures erros == ValidationErrors(c)
    ensures ok <==> |erros| == 0
  {
    erros := [];
    if IsBlank(c.navegacao.urlBase) {
      erros := erros + [Message(UrlBaseCheck)];
    }
    assert erros == Reported(c, UrlBaseCheck);
    if c.navegacao.timeoutSegundos <= 0 {
      erros := erros + [Message(TimeoutCheck)];
    }
    assert erros == Reported(c, UrlBaseCheck) + Reported(c, TimeoutCheck);
    if |c.categorias| == 0 {
      erros := erros + [Message(CategoriasCheck)];
    }
    assert erros == Reported(c, UrlBaseCheck) + Reported(c, TimeoutCheck) + Reported(c, CategoriasCheck);
    if IsBlank(c.database.nomeBanco) {
      erros := erros + [Message(NomeBancoCheck)];
    }
    assert erros == Reported(c, UrlBaseCheck) + Reported(c, TimeoutCheck) + Reported(c, CategoriasCheck) + Reported(c, NomeBancoCheck);
    if IsBlank(c.database.usuario) {
      erros := erros + [Message(UsuarioCheck)];
    }
    assert erros == Reported(c, UrlBaseCheck) + Reported(c, TimeoutCheck) + Reported(c, CategoriasCheck) + Reported(c, NomeBancoCheck) + Reported(c, UsuarioCheck);
    ok := |erros| == 0;
  }

  lemma {:induction false} MessagesAppend(a: seq<Check>, b: seq<Check>)
    ensures Messages(a + b) == Messages(a) + Messages(b)
  {
    if a != [] {
      assert (a + b)[1..] == a[1..] + b;
      MessagesAppend(a[1..], b);
    }
  }

  /** The messages the checks of `ks` contribute, in the order of `ks`. */
  function ReportedAll(c: Config, ks: seq<Check>): seq<string>
  {
    if ks == [] then [] else Reported(c, ks[0]) + ReportedAll(c, ks[1..])
  }

  lemma {:induction false} ReportedAllFailing(c: Config, ks: seq<Check>)
    ensures ReportedAll(c, ks) == Messages(Failing(c, ks))
  {
    if ks != [] {
      ReportedAllFailing(c, ks[1..]);
      MessagesAppend(if Fails(c, ks[0]) then [ks[0]] else [], Failing(c, ks[1..]));
    }
  }

  /** The error list is the messages of the failing checks, in check order. */
  lemma ErrorsOfFailingChecks(c: Config)
    ensures ValidationErrors(c) == Messages(FailingChecks(c))
  {
    ReportedAllFailing(c, AllChecks);
    ReportedAllChecks(c);
  }

  lemma ReportedAllChecks(c: Config)
    ensures ReportedAll(c, AllChecks) == ValidationErrors(c)
  {
    var ks := AllChecks;
    assert ks[1..][1..][1..][1..][1..] == [];
    assert ReportedAll(c, ks[1..][1..][1..][1..]) == Reported(c, UsuarioCheck);
    assert ReportedAll(c, ks[1..][1..][1..]) == Reported(c, NomeBancoCheck) + Reported(c, UsuarioCheck);
    assert ReportedAll(c, ks[1..][1..]) ==
      Reported(c, CategoriasCheck) + (Reported(c, NomeBancoCheck) + Reported(c, UsuarioCheck));
    assert ReportedAll(c, ks[1..]) ==
      Reported(c, TimeoutCheck) + (Reported(c, CategoriasCheck) + (Reported(c, NomeBancoCheck) + Reported(c, UsuarioCheck)));
  }

  lemma {:induction false} FailingMembers(c: Config, ks: seq<Check>)
    ensures forall k :: k in Failing(c, ks) <==> k in ks && Fails(c, k)
  {
    if ks != [] {
      FailingMembers(c, ks[1..]);
      assert ks == [ks[0]] + ks[1..];
    }
  }

  /** A check is reported iff it fails. */
  lemma FailingChecksExact(c: Config, k: Check)
    ensures k in FailingChecks(c) <==> Fails(c, k)
  {
    FailingMembers(c, AllChecks);
    assert k in AllChecks by { assert AllChecks[Position(k)] == k; }
  }

  predicate InCheckOrder(ks: seq<Check>)
  {
    forall i, j :: 0 <= i < j < |ks| ==> Position(ks[i]) < Position(ks[j])
  }

  lemma {:induction false} FailingOrdered(c: Config, ks: seq<Check>)
    requires InCheckOrder(ks)
    ensures InCheckOrder(Failing(c, ks))
  {
    if ks != [] {
      var tail := Failing(c, ks[1..]);
      FailingOrdered(c, ks[1..]);
      FailingMembers(c, ks[1..]);
      if Fails(c, ks[0]) {
        var r := [ks[0]] + tail;
        forall i, j | 0 <= i < j < |r| ensures Position(r[i]) < Position(r[j]) {
          if i == 0 {
            assert r[j] in ks[1..];
          }
        }
      }
    }
  }

  /** Errors come one per failing check, never repeated, in the fixed order
      UrlBase, Timeout, Categorias, NomeBanco, Usuario. */
  lemma ValidationErrorsShape(c: Config)
    ensures |ValidationErrors(c)| == |FailingChecks(c)|
    ensures forall i :: 0 <= i < |FailingChecks(c)| ==> ValidationErrors(c)[i] == Message(FailingChecks(c)[i])
    ensures InCheckOrder(FailingChecks(c))
    ensures forall k :: Message(k) in ValidationErrors(c) <==> Fails(c, k)
  {
    ErrorsOfFailingChecks(c);
    FailingOrdered(c, AllChecks);
    forall k ensures Message(k) in ValidationErrors(c) <==> Fails(c, k) {
      FailingChecksExact(c, k);
      if Message(k) in ValidationErrors(c) {
        var i :| 0 <= i < |ValidationErrors(c)| && ValidationErrors(c)[i] == Message(k);
        MessageInjective(FailingChecks(c)[i], k);
        assert FailingChecks(c)[i] == k;
      }
    }
  }

  /** The snapshot is accepted iff every required field is set. */
  lemma ValidarAcceptsIff(c: Config)
    ensures ValidationErrors(c) == [] <==>
      && !IsBlank(c.navegacao.urlBase)
      && c.navegacao.timeoutSegundos > 0
      && |c.categorias| > 0
      && !IsBlank(c.database.nomeBanco)
      && !IsBlank(c.database.usuario)
  {
    ValidationErrorsShape(c);
    assert Fails(c, UrlBaseCheck) ==> Message(UrlBaseCheck) in ValidationErrors(c);
    assert Fails(c, TimeoutCheck) ==> Message(TimeoutCheck) in ValidationErrors(c);
    assert Fails(c, CategoriasCheck) ==> Message(CategoriasCheck) in ValidationErrors(c);
    assert Fails(c, NomeBancoCheck) ==> Message(NomeBancoCheck) in ValidationErrors(c);
    assert Fails(c, UsuarioCheck) ==> Message(UsuarioCheck) in ValidationErrors(c);
    if ValidationErrors(c) != [] {
      var k := FailingChecks(c)[0];
      FailingChecksExact(c, k);
    }
  }

  /** A snapshot made of defaults only fails four checks: every required field
      except the timeout, which defaults to 30 seconds. */
  lemma DefaultConfigErrors()
    ensures ValidationErrors(DefaultConfig) ==
      [Message(UrlBaseCheck), Message(CategoriasCheck), Message(NomeBancoCheck), Message(UsuarioCheck)]
  {
    assert IsBlank("");
    assert FailingChecks(DefaultConfig) == [UrlBaseCheck, CategoriasCheck, NomeBancoCheck, UsuarioCheck];
  }

  /** `c` with the field that check `k` guards emptied (or the timeout zeroed). */
  function Cleared(c: Config, k: Check): Config
  {
    match k
    case UrlBaseCheck => c.(navegacao := c.navegacao.(urlBase := ""))
    case TimeoutCheck => c.(navegacao := c.navegacao.(timeoutSegundos := 0))
    case CategoriasCheck => c.(categorias := map[])
    case NomeBancoCheck => c.(database := c.database.(nomeBanco := ""))
    case UsuarioCheck => c.(database := c.database.(usuario := ""))
  }

  /** Removing one required field from an accepted snapshot makes validation
      report exactly that field. */
  lemma ClearingOneFieldReportsIt(c: Config, k: Check)
    requires ValidationErrors(c) == []
    ensures ValidationErrors(Cleared(c, k)) == [Message(k)]
  {
    ValidarAcceptsIff(c);
    var c' := Cleared(c, k);
    assert IsBlank("");
    forall k' ensures Fails(c', k') <==> k' == k { }
    FailingMembers(c', AllChecks);
    var f := FailingChecks(c');
    FailingChecksExact(c', k);
    assert f == [k] by {
      if |f| != 1 {
        ValidationErrorsShape(c');
        assert |f| >= 2;
        assert f[0] == k && f[1] == k by {
          FailingChecksExact(c', f[0]);
          FailingChecksExact(c', f[1]);
        }
      }
    }
  }

  // ---------------------------------------------------------------------------
  // Connection strings

  datatype Provider = MySql | PostgreSql | SqlServer

  /** The provider a configured name selects, matched after lower-casing. */
  function ProviderOf(name: string): (r: Option<Provider>)
    ensures r == Some(MySql) <==> ToLower(name) == "mysql"
    ensures r == Some(PostgreSql) <==> ToLower(name) == "postgresql"
    ensures r == Some(SqlServer) <==> ToLower(name) == "sqlserver"
  {
    var n := ToLower(name);
    if n == "mysql" then Some(MySql)
    else if n == "postgresql" then Some(PostgreSql)
    else if n == "sqlserver" then Some(SqlServer)
    else None
  }

  /** `NotSupportedException` with its message. */
  datatype ConfigError = NotSupported(message: string)

  function UnsupportedMessage(provider: string): string
  {
    "Provider '" + provider + "' não suportado"
  }

  /** The provider's fields in the order its format lists them: MySQL as
      Server, Port, Database, Uid, Pwd, Connection Timeout; PostgreSQL as Host,
      Port, Database, Username, Password, Timeout; SQL Server joins host and
      port with a comma under Server, then Database, User Id, Password,
      Connection Timeout. */
  function Fields(p: Provider, db: DatabaseConfig): seq<(string, string)>
  {
    var port := IntToString(db.port as int);
    var timeout := IntToString(db.connectionTimeout as int);
    match p
    case MySql =>
      [("Server", db.host), ("Port", port), ("Database", db.nomeBanco),
       ("Uid", db.usuario), ("Pwd", db.senha), ("Connection Timeout", timeout)]
    case PostgreSql =>
      [("Host", db.host), ("Port", port), ("Database", db.nomeBanco),
       ("Username", db.usuario), ("Password", db.senha), ("Timeout", timeout)]
    case SqlServer =>
      [("Server", db.host + "," + port), ("Database", db.nomeBanco),
       ("User Id", db.usuario), ("Password", db.senha), ("Connection Timeout", timeout)]
  }

  /** Each field written as "key=value;", one after the other. */
  function Terminated(kvs: seq<(string, string)>): string
  {
    if kvs == [] then "" else kvs[0].0 + "=" + kvs[0].1 + ";" + Terminated(kvs[1..])
  }

  /** The interpolated string of one provider's branch. */
  function Render(p: Provider, db: DatabaseConfig): string
  {
    Terminated(Fields(p, db))
  }

  /** `ObterConnectionString`: the provider-specific string, or
      `NotSupportedException` naming the configured provider. */
  function ObterConnectionString(c: Config): (r: Result<string, ConfigError>)
    ensures r.Success? <==> ToLower(c.database.provider) in {"mysql", "postgresql", "sqlserver"}
    ensures r.Failure? ==> r.error == NotSupported(UnsupportedMessage(c.database.provider))
  {
    match ProviderOf(c.database.provider)
    case Some(p) => Success(Render(p, c.database))
    case None => Failure(NotSupported(UnsupportedMessage(c.database.provider)))
  }

  /** The error message quotes the provider exactly as configured. */
  lemma UnsupportedNamesProvider(c: Config)
    requires ObterConnectionString(c).Failure?
    ensures Occurs(c.database.provider, ObterConnectionString(c).error.message)
  {
    var m := UnsupportedMessage(c.database.provider);
    assert m[10..][..|c.database.provider|] == c.database.provider;
  }

  /** Provider names that agree after lower-casing give the same string. */
  lemma ProviderCaseInsensitive(c: Config, name: string)
    requires ToLower(name) == ToLower(c.database.provider)
    ensures var c' := c.(database := c.database.(provider := name));
            ObterConnectionString(c').Success? == ObterConnectionString(c).Success? &&
            (ObterConnectionString(c).Success? ==> ObterConnectionString(c') == ObterConnectionString(c))
  {
    var db' := c.database.(provider := name);
    assert ProviderOf(name) == ProviderOf(c.database.provider);
    if ProviderOf(name).Some? {
      var p := ProviderOf(name).value;
      assert Render(p, db') == Render(p, c.database);
    }
  }

  // A reader for connection strings: ';'-separated "key=value" segments.

  /** Splits at every `sep`, keeping empty parts, like `String.Split`. */
  function SplitOn(s: string, sep: char): (parts: seq<string>)
    ensures |parts| >= 1
  {
    if s == [] then [""]
    else
      var rest := SplitOn(s[1..], sep);
      if s[0] == sep then [""] + rest else [[s[0]] + rest[0]] + rest[1..]
  }

  lemma {:induction false} SplitOnConcat(a: string, sep: char, b: string)
    requires sep !in a
    ensures SplitOn(a + [sep] + b, sep) == [a] + SplitOn(b, sep)
  {
    var s := a + [sep] + b;
    if a == [] {
      assert s[1..] == b;
    } else {
      assert s[0] == a[0] && s[1..] == a[1..] + [sep] + b;
      SplitOnConcat(a[1..], sep, b);
      assert [a[0]] + a[1..] == a;
    }
  }

  /** Splits a segment at its first '='. */
  function KeyValue(seg: string): (string, string)
  {
    if seg == [] then ("", "")
    else if seg[0] == '=' then ("", seg[1..])
    else var kv := KeyValue(seg[1..]); ([seg[0]] + kv.0, kv.1)
  }

  lemma {:induction false} KeyValueSplit(k: string, v: string)
    requires '=' !in k
    ensures KeyValue(k + "=" + v) == (k, v)
  {
    var s := k + "=" + v;
    if k == [] {
      assert s[1..] == v;
    } else {
      assert s[1..] == k[1..] + "=" + v;
      KeyValueSplit(k[1..], v);
      assert [k[0]] + k[1..] == k;
    }
  }

  /** The key/value pairs of the non-empty segments. */
  function Pairs(segs: seq<string>): seq<(string, string)>
  {
    if segs == [] then []
    else (if segs[0] == "" then [] else [KeyValue(segs[0])]) + Pairs(segs[1..])
  }

  function ConnectionFields(s: string): seq<(string, string)>
  {
    Pairs(SplitOn(s, ';'))
  }

  predicate WellFormedField(kv: (string, string))
  {
    kv.0 != "" && '=' !in kv.0 && ';' !in kv.0 && ';' !in kv.1
  }

  lemma {:induction false} TerminatedFields(kvs: seq<(string, string)>)
    requires forall i :: 0 <= i < |kvs| ==> WellFormedField(kvs[i])
    ensures ConnectionFields(Terminated(kvs)) == kvs
  {
    if kvs != [] {
      var (k, v) := kvs[0];
      var seg := k + "=" + v;
      assert ';' !in seg;
      assert Terminated(kvs) == seg + [';'] + Terminated(kvs[1..]);
      SplitOnConcat(seg, ';', Terminated(kvs[1..]));
      KeyValueSplit(k, v);
      TerminatedFields(kvs[1..]);
    }
  }

  lemma NoSemicolonInNumber(x: int)
    ensures ';' !in IntToString(x)
  {
  }

  /** Reading the rendered string back by its ';' and '=' separators gives the
      provider's fields with the configured values, provided no configured text
      contains ';'. */
  lemma ConnectionStringFields(c: Config)
    requires ObterConnectionString(c).Success?
    requires ';' !in c.database.host && ';' !in c.database.nomeBanco
    requires ';' !in c.database.usuario && ';' !in c.database.senha
    ensures ConnectionFields(ObterConnectionString(c).value) ==
            Fields(ProviderOf(c.database.provider).value, c.database)
  {
    var db := c.database;
    var p := ProviderOf(db.provider).value;
    var kvs := Fields(p, db);
    FieldsWellFormed(p, db);
    TerminatedFields(kvs);
  }

  lemma FieldsWellFormed(p: Provider, db: DatabaseConfig)
    requires ';' !in db.host && ';' !in db.nomeBanco && ';' !in db.usuario && ';' !in db.senha
    ensures forall i :: 0 <= i < |Fields(p, db)| ==> WellFormedField(Fields(p, db)[i])
  {
    NoSemicolonInNumber(db.port as int);
    NoSemicolonInNumber(db.connectionTimeout as int);
    var port := IntToString(db.port as int);
    assert ';' !in db.host + "," + port;
    var kvs := Fields(p, db);
    forall i | 0 <= i < |kvs| ensures WellFormedField(kvs[i]) {
      KeyWellFormed(kvs[i].0);
    }
  }

  /** The keys of the three formats. */
  predicate IsKey(k: string)
  {
    k in {"Server", "Port", "Database", "Uid", "Pwd", "Connection Timeout",
          "Host", "Username", "Password", "Timeout", "User Id"}
  }

  lemma KeyWellFormed(k: string)
    requires IsKey(k)
    ensures k != "" && '=' !in k && ';' !in k
  {
  }

  // ---------------------------------------------------------------------------
  // Loading and the lazily created instance

  const SettingsFile := "AutomationSettings.json"

  const MsgFileMissing := "Arquivo de configuração não encontrado: " + SettingsFile + "\n" +
    "Copie o arquivo 'AutomationSettings.example.json' para 'AutomationSettings.json' e configure."

  const MsgNullSettings := "Falha ao deserializar configurações."

  /** What reading and deserialising the settings file yields; the file system
      and the JSON library are outside the model. */
  datatype LoadOutcome =
    | FileMissing
    | Malformed(reason: string)    // the JSON reader threw
    | Deserialized(value: Option<Config>)

  /** The exception `Carregar` rethrows: `FileNotFoundException` for a missing
      file, `InvalidOperationException` when the file deserialises to null, and
      whatever reading or deserialising threw otherwise. */
  datatype LoadError =
    | FileNotFoundException(message: string)
    | InvalidOperationException(message: string)
    | ReadException(message: string)

  /** The result of `Carregar` for a given outcome of the file access. */
  function LoadResult(source: LoadOutcome): (r: Result<Config, LoadError>)
    ensures r.Success? <==> source.Deserialized? && source.value.Some?
    ensures r.Success? ==> r.value == source.value.value
    ensures source.FileMissing? ==> r.Failure? && r.error.FileNotFoundException?
    ensures source == Deserialized(None) ==> r == Failure(InvalidOperationException(MsgNullSettings))
    ensures source.Malformed? ==> r == Failure(ReadException(source.reason))
  {
    match source
    case FileMissing => Failure(FileNotFoundException(MsgFileMissing))
    case Malformed(reason) => Failure(ReadException(reason))
    case Deserialized(None) => Failure(InvalidOperationException(MsgNullSettings))
    case Deserialized(Some(cfg)) => Success(cfg)
  }

  /** What reading `Config.Instancia` yields: the held instance when there is
      one, otherwise the outcome of the first load. */
  function InstanciaResult(held: Option<Config>, source: LoadOutcome): Result<Config, LoadError>
  {
    if held.Some? then Success(held.value) else LoadResult(source)
  }

  /** What `Config.Instancia` holds after it has been read: the instance it
      already held, or else the loaded settings, or the defaults when loading
      failed. */
  function HeldAfter(held: Option<Config>, source: LoadOutcome): Option<Config>
  {
    if held.Some? then held
    else if LoadResult(source).Success? then Some(LoadResult(source).value)
    else Some(DefaultConfig)
  }

  /** The static holder of the single `Config` instance. */
  class ConfigStore {
    var instancia: Option<Config>

    constructor()
      ensures instancia == None
    {
      instancia := None;
    }

    /** `Carregar`: replaces every section of the held instance on success and
        leaves it untouched when the file is missing or unreadable. */
    method Carregar(source: LoadOutcome) returns (r: Result<Config, LoadError>)
      requires instancia.Some?
      modifies this
      ensures r == LoadResult(source)
      ensures instancia == if r.Success? then Some(r.value) else old(instancia)
    {
      r := LoadResult(source);
      if r.Success? {
        instancia := Some(r.value);
      }
    }

    /** `Instancia`: the first access creates a default instance, stores it, and
        then loads into it; later accesses return the stored instance without
        loading again, even when the first load failed. */
    method Instancia(source: LoadOutcome) returns (r: Result<Config, LoadError>)
      modifies this
      ensures r == InstanciaResult(old(instancia), source)
      ensures instancia == HeldAfter(old(instancia), source)
    {
      if instancia.Some? {
        return Success(instancia.value);
      }
      instancia := Some(DefaultConfig);
      r := Carregar(source);
    }
  }

  /** A failed first load is not retried: the next access yields the defaults,
      which validation then rejects. */
  method FailedLoadLeavesDefaults(first: LoadOutcome, second: LoadOutcome)
    returns (r1: Result<Config, LoadError>, r2: Result<Config, LoadError>)
    requires LoadResult(first).Failure?
    ensures r1.Failure? && r2 == Success(DefaultConfig)
    ensures ValidationErrors(r2.value) != []
  {
    var store := new ConfigStore();
    r1 := store.Instancia(first);
    r2 := store.Instancia(second);
    DefaultConfigErrors();
  }
}

/**
 * The `Tmplhate` object of core/tmplhate.go: the fields that hold the
 * variable namespace and its naming convention, the methods that fill
 * them, and the order in which `Init` runs them.
 */
module Core {
  import opened Wrappers
  import opened Casing
  import opened Location
  import opened Values
  import opened KeyNormalization
  import opened Environment

  /** Why a run ends early, through `log.Fatalf`, a panic or `os.Exit(1)`. */
  datatype Fatal =
    | TemplateFailed                  // the template stage did not complete
    | InvalidCase(name: string)       // `LoadCaser` met an unknown convention
    | ValuesUnreadable                // the values location could not be opened or read
    | ValuesMalformed                 // the values document did not parse as a mapping
    | EnvEntryMalformed(entry: string) // an environment entry without "="

  /** What reading and parsing a values source yields (`Read` and `yaml.Unmarshal`). */
  datatype Loaded = Unreadable | Malformed | Document(values: Namespace)

  /**
   * The host facilities `Init` relies on: the home and working directories,
   * `filepath.Join`, and reading and parsing whatever a source names.
   */
  datatype Host = Host(home: string, cwd: string, join: (string, string) -> string, load: Source -> Loaded)

  /** What `GetReader(varsLocation)` hands to `LoadVars`, already read and parsed; `None` for the nil reader. */
  function ValuesReader(varsLocation: string, host: Host): (r: Option<Loaded>)
    ensures r.None? <==> varsLocation == ""
  {
    var source := Classify(varsLocation, host.home, host.cwd, host.join);
    if source == NoReader then None else Some(host.load(source))
  }

  /** `order` is a possible iteration order of the values document, whenever one is parsed. */
  predicate ValuesOrder(reader: Option<Loaded>, order: seq<string>)
  {
    reader.Some? && reader.value.Document? ==> IsKeyOrder(order, reader.value.values)
  }

  /**
   * The namespace after `LoadVars`: unchanged without a reader, replaced
   * wholesale by the normalised document otherwise.
   */
  function LoadedValues(reader: Option<Loaded>, order: seq<string>, normalize: bool, caser: string -> string, prior: Namespace): Result<Namespace, Fatal>
  {
    match reader
    case None => Success(prior)
    case Some(Unreadable) => Failure(ValuesUnreadable)
    case Some(Malformed) => Failure(ValuesMalformed)
    case Some(Document(m)) => Success(NormalizeKeys(m, order, normalize, caser))
  }

  /**
   * The namespace `Init` builds, step by step: template, case convention,
   * values document, environment; or the first fatal error.
   */
  function InitVars(library: CaseLibrary, varsLocation: string, dontNormalize: bool, varsCase: string,
                    templateLoaded: bool, host: Host, environ: seq<string>, order: seq<string>): Result<Namespace, Fatal>
  {
    if !templateLoaded then Failure(TemplateFailed)
    else
      match ParseCase(varsCase)
      case None => Failure(InvalidCase(varsCase))
      case Some(kind) =>
        var caser := library.Transform(kind);
        match LoadedValues(ValuesReader(varsLocation, host), order, !dontNormalize, caser, map[])
        case Failure(e) => Failure(e)
        case Success(values) =>
          match InjectEnv(values, environ, !dontNormalize, caser)
          case Failure(entry) => Failure(EnvEntryMalformed(entry))
          case Success(vars) => Success(vars)
  }

  /**
   * An unknown convention is fatal whether or not normalisation is on,
   * once the template stage has completed; a known one never is.
   */
  lemma InvalidCaseIsFatal(library: CaseLibrary, varsLocation: string, dontNormalize: bool, varsCase: string,
                           host: Host, environ: seq<string>, order: seq<string>)
    ensures InitVars(library, varsLocation, dontNormalize, varsCase, true, host, environ, order) == Failure(InvalidCase(varsCase))
      <==> varsCase != "lower" && varsCase != "upper" && varsCase != "title"
  {
  }

  /**
   * `Init` completes exactly when the template stage completes, the
   * convention is known, the values location is empty or yields a parsed
   * mapping, and every environment entry contains "=".
   */
  lemma InitSucceedsIff(library: CaseLibrary, varsLocation: string, dontNormalize: bool, varsCase: string,
                        templateLoaded: bool, host: Host, environ: seq<string>, order: seq<string>)
    ensures InitVars(library, varsLocation, dontNormalize, varsCase, templateLoaded, host, environ, order).Success?
      <==> && templateLoaded
           && ParseCase(varsCase).Some?
           && (varsLocation == "" || host.load(Classify(varsLocation, host.home, host.cwd, host.join)).Document?)
           && forall i :: 0 <= i < |environ| ==> '=' in environ[i]
  {
  }

  /**
   * The environment is injected last: the env map sits under `EnvKey` (and
   * under the cased "env" when normalising) even when the values document
   * has a key of that name, and every other key of the document is kept.
   */
  lemma EnvInjectedAfterValues(library: CaseLibrary, varsLocation: string, dontNormalize: bool, varsCase: string,
                               host: Host, environ: seq<string>, order: seq<string>)
    requires InitVars(library, varsLocation, dontNormalize, varsCase, true, host, environ, order).Success?
    requires ValuesOrder(ValuesReader(varsLocation, host), order)
    ensures var vars := InitVars(library, varsLocation, dontNormalize, varsCase, true, host, environ, order).value;
      var caser := library.Transform(ParseCase(varsCase).value);
      var env := EnvValue(BuildEnv(environ, KeyFor(!dontNormalize, caser)).value);
      var reader := ValuesReader(varsLocation, host);
      && vars[EnvKey(environ)] == env
      && (!dontNormalize ==> vars[caser("env")] == env)
      && (reader.Some? ==> forall k :: k in reader.value.values ==> k in vars)
  {
    var caser := library.Transform(ParseCase(varsCase).value);
    var normalize := !dontNormalize;
    var reader := ValuesReader(varsLocation, host);
    var values := LoadedValues(reader, order, normalize, caser, map[]).value;
    InjectEnvFrame(values, environ, normalize, caser);
    if reader.Some? {
      NormalizeKeysDomain(reader.value.values, order, normalize, caser);
    }
  }

  /** Without a values location the namespace holds nothing but the env map. */
  lemma NoValuesLocationLeavesOnlyEnv(library: CaseLibrary, dontNormalize: bool, varsCase: string,
                                      host: Host, environ: seq<string>, order: seq<string>)
    requires InitVars(library, "", dontNormalize, varsCase, true, host, environ, order).Success?
    ensures var vars := InitVars(library, "", dontNormalize, varsCase, true, host, environ, order).value;
      var caser := library.Transform(ParseCase(varsCase).value);
      vars.Keys == {EnvKey(environ)} + (if dontNormalize then {} else {caser("env")})
  {
  }

  /** The renderer object (`Tmplhate`), restricted to the fields that build the namespace. */
  class Tmplhate {
    /** The case mappings the chosen caser draws on (`cases` with the `Language` tag). */
    const library: CaseLibrary
    /** `Vars`: the variable namespace handed to the template. */
    var vars: Namespace
    /** `NormalizeVars`: whether names are rewritten to the convention. */
    var normalizeVars: bool
    /** `VarsCase`: the configured convention, as text. */
    var varsCase: string
    /** `Caser`: the convention selected by `LoadCaser`; `None` is Go's zero caser. */
    var caser: Option<CaseKind>

    /** A freshly allocated renderer (`new(core.Tmplhate)`): every field at its zero value. */
    constructor (library: CaseLibrary)
      ensures this.library == library
      ensures vars == map[] && !normalizeVars && varsCase == "" && caser == None
    {
      this.library := library;
      vars := map[];
      normalizeVars := false;
      varsCase := "";
      caser := None;
    }

    /**
     * The transform of the selected caser. It is applied only when
     * normalising, and every method that normalises requires a caser to
     * have been selected; the identity is a placeholder for the zero caser.
     */
    function Transform(): string -> string
      reads this
    {
      match caser
      case Some(kind) => library.Transform(kind)
      case None => Identity
    }

    /** `LoadCaser`: selects the caser named by `varsCase`, or ends the run. */
    method LoadCaser() returns (outcome: Outcome<Fatal>)
      modifies this`caser
      ensures match ParseCase(varsCase)
        case Some(kind) => outcome == Pass && caser == Some(kind)
        case None => outcome == Fail(InvalidCase(varsCase)) && caser == old(caser)
    {
      if varsCase == "lower" {
        caser := Some(Lower);
      } else if varsCase == "upper" {
        caser := Some(Upper);
      } else if varsCase == "title" {
        caser := Some(Title);
      } else {
        return Fail(InvalidCase(varsCase));
      }
      outcome := Pass;
    }

    /**
     * `LoadVars`: with a reader, parses the document and stores each
     * top-level value again under its normalised name, visiting the keys in
     * `order`; the result replaces `vars`.
     */
    method LoadVars(reader: Option<Loaded>, order: seq<string>) returns (outcome: Outcome<Fatal>)
      requires normalizeVars ==> caser.Some?
      requires ValuesOrder(reader, order)
      modifies this`vars
      ensures match LoadedValues(reader, order, normalizeVars, Transform(), old(vars))
        case Success(v) => outcome == Pass && vars == v
        case Failure(e) => outcome == Fail(e) && vars == old(vars)
    {
      if reader.Some? {
        match reader.value
        case Unreadable =>
          return Fail(ValuesUnreadable);
        case Malformed =>
          return Fail(ValuesMalformed);
        case Document(parsed) =>
          var valuesMap := parsed;
          var i := 0;
          while i < |order|
            invariant 0 <= i <= |order|
            invariant forall k :: k in parsed ==> k in valuesMap
            invariant valuesMap == NormalizeKeys(parsed, order[..i], normalizeVars, Transform())
          {
            var k := order[i];
            var ks := if normalizeVars then Transform()(k) else k;
            assert order[..i + 1][..i] == order[..i];
            valuesMap := valuesMap[ks := valuesMap[k]];
            i := i + 1;
          }
          assert order[..i] == order;
          vars := valuesMap;
      }
      outcome := Pass;
    }

    /**
     * `LoadEnvVars`: builds the env map from `environ` (the entries of
     * `os.Environ()`) and stores it under the cased "env" when normalising,
     * then under `es`.
     */
    method LoadEnvVars(environ: seq<string>) returns (outcome: Outcome<Fatal>)
      requires normalizeVars ==> caser.Some?
      modifies this`vars
      ensures match InjectEnv(old(vars), environ, normalizeVars, Transform())
        case Success(v) => outcome == Pass && vars == v
        case Failure(e) => outcome == Fail(EnvEntryMalformed(e)) && vars == old(vars)
    {
      var es := "";
      var env: map<string, string> := map[];
      var i := 0;
      while i < |environ|
        invariant 0 <= i <= |environ|
        invariant BuildEnv(environ[..i], KeyFor(normalizeVars, Transform())) == Success(env)
        invariant es == EnvKey(environ[..i])
      {
        assert environ[..i + 1][..i] == environ[..i];
        var p := SplitEntry(environ[i]);
        if p.None? {
          assert forall j :: 0 <= j < i ==> '=' in environ[..i][j];
          return Fail(EnvEntryMalformed(environ[i]));
        }
        es := "env";
        var (name, value) := p.value;
        ghost var before := env;
        env := env[name := value];
        if normalizeVars {
          env := env[Transform()(name) := value];
        }
        assert KeyFor(normalizeVars, Transform())(name) == if normalizeVars then Transform()(name) else name;
        assert env == AddEntry(before, name, value, KeyFor(normalizeVars, Transform()));
        i := i + 1;
      }
      assert environ[..i] == environ;
      if normalizeVars {
        vars := vars[Transform()("env") := EnvValue(env)];
      }
      vars := vars[es := EnvValue(env)];
      outcome := Pass;
    }

    /**
     * `Init`: resets `vars`, records the flags, and then runs the template
     * stage, `LoadCaser`, `LoadVars` on the values location and
     * `LoadEnvVars`, stopping at the first fatal error.
     */
    method Init(varsLocation: string, dontNormalize: bool, varsCase: string, templateLoaded: bool,
                host: Host, environ: seq<string>, order: seq<string>) returns (outcome: Outcome<Fatal>)
      requires ValuesOrder(ValuesReader(varsLocation, host), order)
      modifies this`vars, this`normalizeVars, this`varsCase, this`caser
      ensures normalizeVars == !dontNormalize && this.varsCase == varsCase
      ensures match InitVars(library, varsLocation, dontNormalize, varsCase, templateLoaded, host, environ, order)
        case Success(v) => outcome == Pass && vars == v
        case Failure(e) => outcome == Fail(e)
    {
      vars := map[];
      normalizeVars, this.varsCase := !dontNormalize, varsCase;
      if !templateLoaded {
        return Fail(TemplateFailed);
      }
      outcome := LoadCaser();
      if outcome.Fail? {
        return;
      }
      outcome := LoadVars(ValuesReader(varsLocation, host), order);
      if outcome.Fail? {
        return;
      }
      outcome := LoadEnvVars(environ);
    }
  }
}

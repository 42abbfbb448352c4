/**
 * The environment namespace (`Tmplhate.LoadEnvVars` in core/tmplhate.go).
 * The process environment is passed in as the list `os.Environ()` returns.
 */
module Environment {
  import opened Wrappers
  import opened Values
  import opened KeyNormalization

  /**
   * `strings.SplitN(e, "=", 2)` as `LoadEnvVars` uses it: the name before
   * the first "=" and the value after it (which may itself contain "=").
   * An entry without "=" splits into one part, and reading the second
   * part panics: that case is `None`.
   */
  function SplitEntry(e: string): (r: Option<(string, string)>)
    ensures r.None? <==> '=' !in e
    ensures r.Some? ==> '=' !in r.value.0 && r.value.0 + "=" + r.value.1 == e
  {
    if e == [] then None
    else if e[0] == '=' then Some(([], e[1..]))
    else
      match SplitEntry(e[1..])
      case None => None
      case Some((name, value)) => Some(([e[0]] + name, value))
  }

  /** Splitting undoes joining a name free of "=" to any value. */
  lemma {:induction false} SplitJoinedEntry(name: string, value: string)
    requires '=' !in name
    ensures SplitEntry(name + "=" + value) == Some((name, value))
  {
    var e := name + "=" + value;
    if name == [] {
      assert e == ['='] + value;
    } else {
      assert e[0] == name[0] != '=' && e[1..] == name[1..] + "=" + value;
      SplitJoinedEntry(name[1..], value);
      assert [name[0]] + name[1..] == name;
    }
  }

  /** The entries `LoadEnvVars` writes for one `name=value`: the name, then its normalised spelling. */
  function AddEntry(env: map<string, string>, name: string, value: string, key: string -> string): map<string, string>
  {
    env[name := value][key(name) := value]
  }

  /** The entry `e` writes the env key `x`. */
  predicate Writes(e: string, x: string, key: string -> string)
  {
    match SplitEntry(e)
    case Some((name, _)) => name == x || key(name) == x
    case None => false
  }

  /**
   * The env map the loop of `LoadEnvVars` builds from `environ`, or the
   * first entry without "=", at which the loop panics.
   */
  function BuildEnv(environ: seq<string>, key: string -> string): (r: Result<map<string, string>, string>)
    ensures r.Success? <==> forall i :: 0 <= i < |environ| ==> '=' in environ[i]
    ensures r.Failure? ==>
      exists i :: (0 <= i < |environ| && environ[i] == r.error && '=' !in r.error
                   && forall j :: 0 <= j < i ==> '=' in environ[j])
    decreases |environ|
  {
    if environ == [] then Success(map[])
    else
      var prefix, last := environ[..|environ| - 1], environ[|environ| - 1];
      match BuildEnv(prefix, key)
      case Failure(e) => Failure(e)
      case Success(env) =>
        match SplitEntry(last)
        case None => Failure(last)
        case Some((name, value)) => Success(AddEntry(env, name, value, key))
  }

  /** The index of the last entry of `environ` that writes `x`. */
  function LastWriter(environ: seq<string>, x: string, key: string -> string): (r: Option<nat>)
    ensures r.Some? ==>
      (r.value < |environ| && Writes(environ[r.value], x, key)
       && forall j :: r.value < j < |environ| ==> !Writes(environ[j], x, key))
    ensures r.None? ==> forall j :: 0 <= j < |environ| ==> !Writes(environ[j], x, key)
    decreases |environ|
  {
    if environ == [] then None
    else if Writes(environ[|environ| - 1], x, key) then Some(|environ| - 1)
    else LastWriter(environ[..|environ| - 1], x, key)
  }

  /**
   * Last write wins: a key is in the env map exactly when some entry
   * writes it, and it holds the value of the last entry that does.
   */
  lemma {:induction false} BuildEnvAt(environ: seq<string>, key: string -> string, x: string)
    requires BuildEnv(environ, key).Success?
    ensures var env := BuildEnv(environ, key).value;
      && (x in env <==> LastWriter(environ, x, key).Some?)
      && (x in env ==> env[x] == SplitEntry(environ[LastWriter(environ, x, key).value]).value.1)
    decreases |environ|
  {
    if environ != [] {
      var prefix := environ[..|environ| - 1];
      assert forall i :: 0 <= i < |prefix| ==> prefix[i] == environ[i];
      BuildEnvAt(prefix, key, x);
    }
  }

  /** The key `es` the env map is stored under: "env" once the loop body has run, "" otherwise. */
  function EnvKey(environ: seq<string>): string
  {
    if |environ| > 0 then "env" else ""
  }

  /** The env map as a value of the namespace. */
  function EnvValue(env: map<string, string>): Value
  {
    Mapping(map k | k in env :: Scalar(env[k]))
  }

  /**
   * The namespace after `LoadEnvVars`: the env map stored under the cased
   * spelling of "env" when normalising, then under `EnvKey`; or the entry
   * at which the loop panics.
   */
  function InjectEnv(vars: Namespace, environ: seq<string>, normalize: bool, caser: string -> string): Result<Namespace, string>
  {
    match BuildEnv(environ, KeyFor(normalize, caser))
    case Failure(e) => Failure(e)
    case Success(env) =>
      var cased := if normalize then vars[caser("env") := EnvValue(env)] else vars;
      Success(cased[EnvKey(environ) := EnvValue(env)])
  }

  /**
   * Injection replaces the entries under `EnvKey` and, when normalising,
   * under the cased "env" (overwriting any values-document key of that
   * name) and leaves every other key as it was.
   */
  lemma InjectEnvFrame(vars: Namespace, environ: seq<string>, normalize: bool, caser: string -> string)
    requires InjectEnv(vars, environ, normalize, caser).Success?
    ensures var r := InjectEnv(vars, environ, normalize, caser).value;
      var env := EnvValue(BuildEnv(environ, KeyFor(normalize, caser)).value);
      && r.Keys == vars.Keys + {EnvKey(environ)} + (if normalize then {caser("env")} else {})
      && r[EnvKey(environ)] == env
      && (normalize ==> r[caser("env")] == env)
      && forall x :: x in vars && x != EnvKey(environ) && !(normalize && x == caser("env")) ==> r[x] == vars[x]
  {
  }

  /**
   * Every environment variable resolves under "env" by its name (and, when
   * normalising, by its cased name), to its own value when no later entry
   * writes the same key; the cased "env" holds the same map.
   */
  lemma EnvironmentVisible(vars: Namespace, environ: seq<string>, normalize: bool, caser: string -> string,
                           i: nat, name: string, value: string)
    requires InjectEnv(vars, environ, normalize, caser).Success?
    requires i < |environ| && SplitEntry(environ[i]) == Some((name, value))
    ensures var r := InjectEnv(vars, environ, normalize, caser).value;
      && r["env"].Mapping? && name in r["env"].entries
      && (normalize ==> caser(name) in r["env"].entries && r[caser("env")] == r["env"])
      && (LastWriter(environ, name, KeyFor(normalize, caser)) == Some(i) ==> r["env"].entries[name] == Scalar(value))
      && (normalize && LastWriter(environ, caser(name), KeyFor(normalize, caser)) == Some(i)
          ==> r["env"].entries[caser(name)] == Scalar(value))
  {
    var key := KeyFor(normalize, caser);
    assert Writes(environ[i], name, key) && Writes(environ[i], key(name), key);
    BuildEnvAt(environ, key, name);
    BuildEnvAt(environ, key, key(name));
  }
}

# tmplhate: the variable namespace, modelled in Dafny

tmplhate renders a Go text template against a namespace of variables. The
namespace comes from a YAML values document and from the process environment.
Top-level names can be normalised to one case convention (`lower`, `upper` or
`title`). This project models the part of `core/tmplhate.go` that builds that
namespace:

- choosing the case convention (`LoadCaser`);
- classifying a template or values location as no reader, an HTTP fetch or a
  file path (`GetReader`, without the I/O);
- normalising the top-level keys of the parsed values document (`LoadVars`);
- injecting the environment (`LoadEnvVars`);
- the order in which `Init` runs these steps.

Modules:

- `Wrappers` (wrappers.dfy): `Option`, `Result` and `Outcome`.
- `Casing` (casing.dfy): the conventions and `ParseCase`, the switch of
  `LoadCaser`. The Unicode case mappings are opaque string transforms, bundled
  in a `CaseLibrary`.
- `Location` (location.dfy): `Protocol` (the first part of
  `strings.SplitN(s, "://", 2)`) and `Classify`.
- `Values` (values.dfy): the `Value` datatype and the `Namespace` map.
- `KeyNormalization` (normalization.dfy): the `LoadVars` loop as a function of
  the key iteration order, plus its properties.
- `Environment` (environment.dfy): splitting `K=V` entries, the env map, and
  how it is stored in the namespace.
- `Core` (core.dfy): the `Tmplhate` class. Its fields are `vars`,
  `normalizeVars`, `varsCase` and `caser`. Its imperative methods are
  `LoadCaser`, `LoadVars`, `LoadEnvVars` and `Init`. Each method's `ensures`
  ties the new state to the pure functions above. `InitVars` is the whole
  pipeline as a function.

Conventions of the model:

- Go's `range` over a map visits the keys in an unspecified order and yields
  each key's value at the moment it is visited. `LoadVars` therefore takes
  `order`, any listing of the parsed keys that has each key exactly once.
  Every lemma holds for every such order.
- `log.Fatalf`, a panic and `os.Exit(1)` all end the run. Each becomes a
  `Fatal` outcome.
- An environment entry without `=` makes `p[1]` panic. The model reports it as
  `EnvEntryMalformed`.
- Parameters stand in for the host: the home directory, the working directory,
  `filepath.Join`, reading and parsing a source (`Host.load`), the list that
  `os.Environ()` returns, and whether the template stage succeeded.

Behaviour of the code worth knowing:

- An empty values location gives no reader, so the values half of the
  namespace stays empty. Standard input is read only for the template.
- The exact location `http` also takes the HTTP branch, because `SplitN`
  returns the whole string as the protocol. `https://…` takes the file branch.
- The environment has one naming policy. Without normalisation, names are kept
  as written and the map is stored once. With normalisation, each name is also
  stored in its cased spelling, and the map is stored under both the cased
  `env` and `es`.
- `es` becomes `"env"` only inside the loop. An empty environment therefore
  puts its map under the empty key.
- When two parsed keys whose spelling changes are cased to the same name
  (`Foo` and `FOO` under `lower`), the value stored under that name depends
  on Go's map iteration order, and normalising the result again can change
  it. `ClashDependsOnOrder` exhibits this. Order independence
  (`NormalizeOrderIrrelevant`) and idempotence (`NormalizeTwiceIsOnce`) are
  proved for documents without such a clash.

## Model

| member | source | states |
|---|---|---|
| `Casing.ParseCase` | core/tmplhate.go:104-115 | a convention is selected exactly for "lower", "upper" and "title", and the selected one is the one with that name |
| `Casing.ParseCaseName` | core/tmplhate.go:105-111 | each convention is selected by its own name and by no other string |
| `Location.Protocol` | core/tmplhate.go:75-76 | the protocol is the prefix of the location up to the first "://", with no "://" starting inside it; it is the whole location when there is no separator |
| `Location.Classify` | core/tmplhate.go:72-101 | there is no reader exactly for the empty location; an HTTP fetch uses the location unchanged |
| `Location.ProtocolIsHttp` | core/tmplhate.go:75-78 | the HTTP branch is taken exactly for the text "http" or a location starting with "http://" |
| `Location.ClassifyByPrefix` | core/tmplhate.go:73-100 | the classification, stated on prefixes alone: empty gives no reader; "http" or "http://…" gives HTTP; "~/rest" gives join(home, rest) and takes priority; "../rest" gives join(cwd, rest) with the ".." dropped; anything else is opened verbatim |
| `Location.HttpsIsOpenedAsFile` | core/tmplhate.go:77-92 | an "https://" location is opened as a file path, unchanged |
| `KeyNormalization.LastSource` | core/tmplhate.go:153-161 | the key it returns is in the order and is renamed onto the given key; when it returns none, no key in the order is |
| `KeyNormalization.AlongKeys` | core/tmplhate.go:153-161 | the loop only adds keys: the result's keys are the original ones plus the new spelling of each visited key |
| `KeyNormalization.AlongAt` | core/tmplhate.go:153-161 | with an idempotent transform, each result entry holds the original value of the last key renamed onto it, or its own original value if none was |
| `KeyNormalization.NormalizeKeysDomain` | core/tmplhate.go:153-161 | normalising keeps every parsed key and adds exactly their new spellings |
| `KeyNormalization.NormalizedKeyHoldsSourceValue` | core/tmplhate.go:153-161 | each new spelling holds the unaltered value of some parsed key spelled that way; nested values are copied, not changed |
| `KeyNormalization.NormalizeKeepsUncontestedValues` | core/tmplhate.go:153-161 | a parsed key keeps its value unless another key is renamed onto it; a key whose spelling changes always keeps its value |
| `KeyNormalization.NormalizeOffIsIdentity` | core/tmplhate.go:155-160 | with normalisation off, the result is the parsed map |
| `KeyNormalization.RevisitIsNoOp` | core/tmplhate.go:153-160 | if `range` visits a key the loop added, nothing changes (idempotent transform), so iterating only the original keys gives the same map |
| `KeyNormalization.NormalizeOrderIrrelevant` | core/tmplhate.go:153-161 | when no two renamed keys clash, every iteration order gives the same namespace |
| `KeyNormalization.AlongStable` | core/tmplhate.go:153-160 | visiting keys whose entry already holds the key's own value leaves the map unchanged |
| `KeyNormalization.NormalizeTwiceIsOnce` | core/tmplhate.go:153-161 | when no two renamed keys clash, normalising an already normalised namespace again, in any order, gives it back unchanged |
| `KeyNormalization.NestedKeysUntouched` | core/tmplhate.go:153-161 | `{Foo: {Bar: 1}}` becomes `{Foo: {Bar: 1}, foo: {Bar: 1}}`: the nested key stays `Bar` |
| `KeyNormalization.ClashDependsOnOrder` | core/tmplhate.go:153-161 | with `Foo` and `FOO` both cased to `foo`, the value of `foo` is that of whichever key is visited last, and normalising the result again in another order changes it |
| `Environment.SplitEntry` | core/tmplhate.go:123-126 | an entry splits exactly when it contains "="; the name has no "=", and name + "=" + value is the entry, so the value may contain "=" |
| `Environment.SplitJoinedEntry` | core/tmplhate.go:123-126 | splitting name + "=" + value gives back that name and value when the name has no "=" |
| `Environment.BuildEnv` | core/tmplhate.go:120-131 | the env map is built exactly when every entry contains "="; otherwise the run stops at the first entry that does not |
| `Environment.LastWriter` | core/tmplhate.go:121-131 | the index it returns is an entry that writes the key, and no later entry does; when it returns none, no entry does |
| `Environment.BuildEnvAt` | core/tmplhate.go:121-131 | last write wins: a key is in the env map exactly when some entry writes it (by its name or, when normalising, its cased name), and it holds the value of the last such entry |
| `Environment.InjectEnvFrame` | core/tmplhate.go:133-138 | the env map is stored under `es` and, when normalising, under the cased "env"; those keys are added or replaced and every other key is unchanged |
| `Environment.EnvironmentVisible` | core/tmplhate.go:119-138 | every variable resolves under "env" by its name, and by its cased name when normalising; under each it holds its own value unless a later entry writes that key; the cased "env" holds the same map |
| `Core.ValuesReader` | core/tmplhate.go:213 | `LoadVars` gets no reader exactly when the values location is empty |
| `Core.InvalidCaseIsFatal` | core/tmplhate.go:193-215 | once the template stage completes, `Init` fails with the invalid-case error exactly for an unknown convention, whether or not normalisation is on |
| `Core.InitSucceedsIff` | core/tmplhate.go:193-215 | `Init` completes exactly when the template stage completes, the convention is known, the values location is empty or parses, and every environment entry has "=" |
| `Core.EnvInjectedAfterValues` | core/tmplhate.go:212-214 | the env map overwrites any values key named `es` or the cased "env"; every parsed key stays in the namespace |
| `Core.NoValuesLocationLeavesOnlyEnv` | core/tmplhate.go:193-215 | with an empty values location, the namespace holds only the env map: under `es`, and under the cased "env" when normalising |
| `Core.Tmplhate.constructor` | cmd/root.go:50 | a new renderer has every field at its zero value |
| `Core.Tmplhate.LoadCaser` | core/tmplhate.go:104-115 | a known convention sets the caser; any other string is fatal and leaves the caser unchanged |
| `Core.Tmplhate.LoadVars` | core/tmplhate.go:142-164 | with no reader, `vars` is unchanged; otherwise it is replaced wholesale by the normalised parsed map, not merged with it; read and parse failures are fatal |
| `Core.Tmplhate.LoadEnvVars` | core/tmplhate.go:118-139 | the loop builds the env map and stores it in `vars` as `InjectEnv` specifies; an entry without "=" is fatal and leaves `vars` unchanged |
| `Core.Tmplhate.Init` | core/tmplhate.go:193-215 | records the flags, resets `vars`, then runs the template stage, `LoadCaser`, `LoadVars` and `LoadEnvVars` in that order; the outcome and the namespace are those of `InitVars` |

## Left out

- Core.Tmplhate.LoadVars: visits only the keys of the parsed document, once each. Go's `range` may also visit a key the loop added. `RevisitIsNoOp` shows such a visit changes nothing when the case transform is idempotent. With a non-idempotent transform, the extra visits are not modelled.
- KeyNormalization.AlongAt, NormalizedKeyHoldsSourceValue, NormalizeKeepsUncontestedValues, NormalizeOrderIrrelevant, NormalizeTwiceIsOnce: these require the case transform to be idempotent. The golang.org/x/text mappings are not modelled, so this property is assumed and not proved.
- The internals of `cases.Lower`, `cases.Upper` and `cases.Title`, and the `Language` field: Unicode case mapping from an external library. The model uses opaque transforms.
- `http.Get`, `os.Open`, `Read`/`io.Copy`, `Close`, `FromStdin` and `os.Stdin.Stat`: network, file and stdin I/O. A failure to open or read becomes the `ValuesUnreadable` outcome.
- `yaml.Unmarshal`: an external parser. Its result is the `Loaded` input: a parsed mapping, or a malformed document. A document that decodes to a nil map is not modelled; in Go, `LoadEnvVars` would then panic writing into it.
- `LoadTemplate`, `ValidateTemplate`, `WriteTemplate` and the `String` and `Tmpl` fields: they wrap Go's `text/template`, whose engine is not part of this model. The template stage of `Init` is one boolean input. That input also covers the usage message and exit when there is no template location and stdin is a terminal.
- `TmplhateFuncs` (`lower`, `upper`, `mul`): library calls and an integer product, all used only by the template engine.
- `os.UserHomeDir`, `os.Getwd` and `filepath.Join`: parameters. Their errors are ignored in the source, and the parameters may take any value.
- Aliasing: Go stores the same env map object under two keys. The model stores equal values, which is the same because nothing mutates the map afterwards.
- Go strings are byte sequences; the model's strings are sequences of characters. All separators involved (`://`, `~/`, `../`, `=`) are ASCII, so nothing changes for valid text, but a location or environment entry that is not valid UTF-8 cannot be represented.
- cmd/root.go: flag and config-file wiring, version printing and exit codes.

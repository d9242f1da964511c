# thumbor server bootstrap, modelled in Dafny

This project models the startup and lifecycle layer of the thumbor imaging
service (`thumbor.server`): how it turns a configuration file, the process
environment and the server parameters into a running HTTP server, and how it
stops on a user interruption.

`thumbor/server.py` itself is not part of this model. Its behaviour is taken
from what `tests/test_server.py` asserts about `get_as_integer`, `get_config`,
`configure_log`, `get_importer`, `validate_config`, `run_server` and `main`.
Where the tests are silent, the choices the model makes are listed below.

Modules, one per concern:

- `Base` (base.dfy): `Option`, `Result` and `Outcome`, plus the startup errors.
- `Coerce` (coerce.dfy): `get_as_integer` over base-10 numerals, with a
  rendering function `Show` as its inverse.
- `Settings` (settings.dfy): configuration values, the declared settings and
  their defaults, and loading. `Get(config, env, key)` reads a setting. The
  environment is an argument of the read, not of the load, because the tests
  patch it after `get_config` returns.
- `LogSetup` (logsetup.dfy): `configure_log` as a choice between
  `DictConfig(...)` and `BasicConfig(level, format, datefmt)`.
- `Importer` (importer.dfy): `get_importer`. Importing by name is replaced by
  a table from module name to the roles the module provides.
- `Params` (params.dfy): the `ServerParameters` class and the
  `Fd = NoFd | IntFd | PathFd` trichotomy.
- `Validation` (validation.dfy): `validate_config` as a method that updates
  `securityKey` and `gifsiclePath` in place. It is specified by two pure
  checks.
- `Server` (server.dfy): a `Host` class records every call made on the HTTP
  server, the socket module, the file system, the IO loop and the engine, in
  order. `run_server` is a method whose trace equals a pure function of
  `fd`, port and address, and of the host's openable files and busy ports.
- `Lifecycle` (lifecycle.dfy): `main` and the phases
  CREATED → BOUND → RUNNING → STOPPED.

Points where the tests leave a choice, and what the model does:

- A security key counts as set only when it is present and non-empty.
- An `fd` given as a string that reads as an integer is used as that
  descriptor, because `get_as_integer` is tried first. Any other non-empty
  string is opened as a path.
- An empty `fd` string binds `(ip, port)` like an absent one.
- Validation runs before the component import. Its error is therefore
  reported first, and its update to the server parameters stays when the
  import then fails.
- Every modelled setting can be overridden from the environment when
  override mode is on.
- The defaults of the settings the bootstrap reads (engine, loader, storage,
  error handler module, the default filter list) are the service's
  documented defaults, listed in `Settings.Default`.
- When the gifsicle check fails, the security key copied in by the first
  check stays in the server parameters.
- Environment values reach the caller as plain strings. For example,
  `USE_GIFSICLE_ENGINE=False` in the environment is a non-empty string and
  therefore truthy.

## Model

| member | source | states |
|---|---|---|
| `Coerce.GetAsInteger` | tests/test_server.py:36-40 | a value is produced exactly when the input is present and is a base-10 numeral; every other input, absent included, gives no value |
| `Coerce.GetAsIntegerOfShow` | tests/test_server.py:36-37 | coercing the decimal rendering of any integer gives back that integer |
| `Coerce.ShowOfGetAsInteger` | tests/test_server.py:36-37 | a canonical unsigned numeral is accepted and is exactly the rendering of the value it yields |
| `Coerce.GetAsIntegerLeadingZero` | tests/test_server.py:36-37 | for every non-empty digit string, a redundant leading zero reads the same value |
| `Coerce.GetAsIntegerPlusSign` | tests/test_server.py:36-37 | for every non-empty digit string, a leading `+` reads the same value as the bare digits |
| `Coerce.GetAsIntegerMinusSign` | tests/test_server.py:36-37 | for every non-empty digit string, a leading `-` reads the negation of the bare digits' value |
| `Coerce.GetAsIntegerExamples` | tests/test_server.py:36-40 | `"1"` gives 1; `"a"`, `""` and `None` give no value |
| `Settings.Load` | tests/test_server.py:42-56 | loading records the override mode, takes the file's settings, and leaves only defaults when the file is unreadable; no environment is read at load time |
| `Settings.Get` | tests/test_server.py:42-56 | with override mode on, a like-named environment variable wins as a plain string; otherwise the file value is used, then the declared default |
| `Settings.EnvIgnoredWithoutOverride` | tests/test_server.py:42-48 | without override mode, any two environments give the same value for every setting |
| `Settings.OverrideOnlyForPresentVariables` | tests/test_server.py:50-56 | with override mode, a setting with no environment variable reads as it would without override |
| `Settings.LoadWithoutOverrideExample` | tests/test_server.py:42-48 | without override, `ENGINE=test` in the environment is ignored: `ENGINE` is `thumbor.engines.pil` and `ALLOWED_SOURCES` is `['mydomain.com']` |
| `Settings.LoadWithOverrideExample` | tests/test_server.py:50-56 | with override, setting `ENGINE=test` after loading makes `ENGINE` read `test`, while `ALLOWED_SOURCES` keeps its file value |
| `Settings.WithValues` | tests/test_server.py:94-97 | a configuration built from keyword values has override mode off and exactly those values |
| `LogSetup.LevelNumber` | tests/test_server.py:61-65 | `DEBUG` is level 10; every known level is a multiple of 10 between 0 and 50 |
| `LogSetup.ConfigureLog` | tests/test_server.py:58-84 | a truthy mapping in `THUMBOR_LOG_CONFIG` is passed on unchanged; otherwise basicConfig gets the named level and the fixed formats, and an unknown level name is an error |
| `LogSetup.LevelIgnoredWithDictConfig` | tests/test_server.py:71-84 | when a structured log configuration is present, the level argument makes no difference |
| `LogSetup.ConfigureLogBasicExample` | tests/test_server.py:58-69 | with the default configuration and `DEBUG`, basicConfig gets level 10, `'%Y-%m-%d %H:%M:%S'` and `'%(asctime)s %(name)s:%(levelname)s %(message)s'` |
| `LogSetup.ConfigureLogDictExample` | tests/test_server.py:71-84 | `THUMBOR_LOG_CONFIG={"level": "INFO"}` reaches dictConfig unchanged |
| `Importer.ImportSingle` | tests/test_server.py:86-102 | a module reference resolves exactly when the setting names a module that provides the role; otherwise it is an import failure naming the setting |
| `Importer.ImportEach` | tests/test_server.py:86-91 | a list imports exactly when every name resolves; the result has one handle per name, in order |
| `Importer.ImportMultiple` | tests/test_server.py:86-91 | an absent list gives an empty collection; a list gives one handle per name; anything else is an import failure |
| `Importer.GetImporter` | tests/test_server.py:86-102 | import succeeds exactly when every configured role resolves, and fails otherwise with an import error; engine, loader and storage are handles to the configured modules; detectors and filters hold one handle per configured name, in order, and none for an absent list; the error-handler slot is filled exactly when custom error handling is on, with an instance of the configured module built from the configuration |
| `Importer.DefaultImportHasFilters` | tests/test_server.py:86-91 | with the default configuration and the shipped modules, import succeeds with a non-empty filter collection and no error handler |
| `Importer.CustomErrorHandlerExample` | tests/test_server.py:93-102 | with `USE_CUSTOM_ERROR_HANDLING=True` and `tests.fixtures.custom_error_handler`, the slot holds that module's handler, built with the configuration |
| `Validation.ResolveSecurityKey` | tests/test_server.py:104-119 | it fails exactly when neither the parameter nor `SECURITY_KEY` is set, with the exact "No security key was found…" message; otherwise it gives the parameter's key when set, else the configuration's |
| `Validation.CheckGifsicle` | tests/test_server.py:121-143 | the check is skipped unless `USE_GIFSICLE_ENGINE` is truthy; when on, it gives the path `which` finds, or fails with the exact "If using USE_GIFSICLE_ENGINE…" message |
| `Validation.ValidateConfig` | tests/test_server.py:104-143 | runs the key check, then the gifsicle check; updates `security_key` and `gifsicle_path` as those checks decide; looks up `gifsicle` only when the flag is on; a pass leaves a non-empty key (and a gifsicle path when the flag is on); `Validation.ValidateConfigExamples` checks the four scenarios of the tests against this contract |
| `Server.RunServerCalls` | tests/test_server.py:163-211 | no `fd`: `bind(port, ip)` then `start(1)`; integer `fd`: `fromfd`, `add_socket`, `start(1)` and no bind; path `fd`: open, `fileno`, close, `fromfd`, `add_socket`, `start(1)`; an absent or empty `fd` binds first; a failure is the bind error after the single bind call in the bind case, and otherwise the open error naming the path after the single open call, with no retry and no socket added; an integer never fails; a successful run always ends in `start(1)`, and a failed one never starts |
| `Server.NumericPathIsDescriptor` | tests/test_server.py:177-211 | a descriptor given as a numeric string makes exactly the calls of the integer it reads as |
| `Server.OpenedFileIsClosed` | tests/test_server.py:193-211 | on a successful run, every descriptor file that was opened is also closed |
| `Server.RunServer` | tests/test_server.py:163-211 | the calls appended to the host's trace, and the outcome, are exactly those `RunServerCalls` gives; `Server.RunServerExamples` checks the three binding scenarios of the tests (no `fd`, `11`, `"/path/bin"`) against this contract |
| `Lifecycle.Prepare` | tests/test_server.py:213-232 | the stages before binding succeed exactly when logging, both validation checks and import all succeed; a failure carries the error of the first stage that failed, in the order logging, security key, gifsicle, import; on success the log setup, key, gifsicle path and importer are those the stages give, the key and path are validated, and the engine is the configured one |
| `Lifecycle.LoopCalls` | tests/test_server.py:237-265 | the IO loop is started; on interruption it is followed by the notice write and then the engine cleanup |
| `Lifecycle.Finish` | tests/test_server.py:213-265 | any failure ends in CREATED with a failed outcome: a preparation error is reported as is with no socket call, a socket failure keeps the socket calls made and its error, and in CREATED the IO loop never starts and nothing is written; RUNNING or STOPPED exactly when preparation and binding succeeded (STOPPED when interrupted, RUNNING otherwise), with the trace being exactly the socket calls followed by `LoopCalls` (the loop start, then the notice and cleanup only when interrupted); STOPPED exactly on interruption, with the trace ending in the notice and the engine's cleanup |
| `Lifecycle.MissingKeyStopsMain` | tests/test_server.py:104-119 | with no security key in the parameters or the configuration, `main` stops in CREATED with the exact "No security key was found…" error and makes no socket call |
| `Lifecycle.CleanupExactlyOnceOnInterrupt` | tests/test_server.py:254-265 | the engine's cleanup runs exactly once when the running loop is interrupted and never otherwise |
| `Lifecycle.RunningImpliesValidated` | tests/test_server.py:213-232 | a process in RUNNING or STOPPED passed every pre-flight check and acquired its socket |
| `Lifecycle.ServerTestPrepares` | tests/test_server.py:216-227 | the test parameters (`DEBUG`, key `sec`, the fixture configuration) pass every preparation stage, and the engine is `thumbor.engines.pil` |
| `Lifecycle.ServerTestMainRun` | tests/test_server.py:213-265 | with the test parameters, `main` binds `(1234, '0.0.0.0')`, starts with 1 process and starts the loop; when interrupted it writes `'-- thumbor closed by user interruption --\n'` and cleans up the engine |
| `Lifecycle.MainRun` | tests/test_server.py:213-265 | composes `Prepare`, `RunServerCalls` and `Finish`: a preparation failure makes no call, stays in CREATED and reports that stage's error; the outcome is a pass exactly when preparation and binding pass, and a pass ends in RUNNING, or STOPPED when interrupted; RUNNING or STOPPED means preparation and binding passed, and the trace is exactly the socket calls followed by `LoopCalls`; every call is a socket call, the loop start, a write or the engine cleanup |
| `Lifecycle.Process.PrepareStages` | tests/test_server.py:213-231 | the preparation stages give `Prepare`'s result and leave the server parameters as validation decides |
| `Lifecycle.Process.Serve` | tests/test_server.py:229-265 | binding and the IO loop append exactly `Serving`'s trace (the success branch of `Finish`) and set its phase |
| `Lifecycle.Process.Bootstrap` | tests/test_server.py:213-265 | the host trace, outcome and phase are those of the pure `MainRun`; the server parameters end as validation decides |

## Left out

- `get_context` and `get_application` (tests/test_server.py:145-161) only build objects. Their only asserted property is that the result is non-null or an instance of a class. `main` in the model treats both as always succeeding.
- `get_server_parameters` and command-line parsing: the model's `main` receives the `ServerParameters` object already filled in.
- Tornado's `HTTPServer` and `IOLoop`, `socket.fromfd`, `open` and `sys.stdout` are not modelled as code. They appear only as calls recorded in the `Host` trace. The socket family and type passed to `fromfd` are not recorded, and `fromfd` is taken never to fail.
- `IOLoop.start` never returns on its own. An `interrupted` flag stands for the interruption. Without one, the model's `main` returns in the RUNNING phase. The process exit after STOPPED is not modelled.
- Python's dynamic import is replaced by a table from module name to the roles the module provides. Constructor errors inside imported modules are not modelled.
- The real `logging` module is replaced by the `LogSetup` value handed to it. `getattr(logging, level)` is modelled only for the standard level names.
- `Coerce.GetAsInteger`: models base-10 numerals with an optional sign only. Python's `int()` also accepts surrounding whitespace and non-ASCII digits.
- `which('gifsicle')` is a lookup in a map from executable name to path. The search of `PATH` itself is left out. `main`'s trace does not record this lookup; `ValidateConfig` returns it separately.
- The configuration file's syntax is not modelled; a loaded file is a map from setting to value. Only the settings the bootstrap reads are modelled. A read of an undeclared setting, which raises `AttributeError` in Python, cannot be written.
- `thumbor/config.py` is not part of this model. The defaults in `Settings.Default` (engine, loader, storage, error handler module, the default filter list) are the service's documented defaults. The fixture file `thumbor_config_server_test.conf` is modelled by `Settings.ServerTestFile` with the one setting the tests read from it, `ALLOWED_SOURCES`; `ENGINE` then keeps its default.
- Loaders, storages and detectors beyond `LOADER`, `STORAGE` and `DETECTORS` (result storage, upload storage, optimizers and others) are not resolved by the model's importer.
- tests/filters/test_stretch.py drives the image-filter pipeline through `FilterTestCase` fixtures and an image outside the bootstrap. Its only assertion is about a request flag set by the stretch filter, which belongs to image processing, not to the bootstrap.

/**
 * `get_importer`: resolving the configured module names of each pluggable
 * role. Importing by name is modelled by a table from module name to the
 * roles that module can fill; a name the table does not know for the role
 * is a fatal startup error.
 */
module Importer {
  import opened Base
  import opened Settings

  datatype Role = EngineRole | LoaderRole | StorageRole | DetectorRole | FilterRole | ErrorHandlerRole

  /** The modules that can be imported, with the roles each provides. */
  type ModuleTable = map<string, set<Role>>

  /** A resolved module reference; the component is instantiated later, per request. */
  datatype Handle = Handle(moduleName: string, role: Role)

  /** A constructed error handler: an instance of the configured class, given the configuration. */
  datatype ErrorHandler = ErrorHandler(moduleName: string, config: Config)

  datatype Importer = Importer(
    engine: Handle,
    loader: Handle,
    storage: Handle,
    detectors: seq<Handle>,
    filters: seq<Handle>,
    errorHandler: Option<ErrorHandler>)

  /** Setting value `v` names a module of `t` that provides `role`. */
  predicate Resolves(t: ModuleTable, v: Value, role: Role) {
    v.StrV? && v.s in t && role in t[v.s]
  }

  predicate AllResolve(t: ModuleTable, items: seq<Value>, role: Role) {
    forall i :: 0 <= i < |items| ==> Resolves(t, items[i], role)
  }

  /** A list-valued setting resolves when it is absent (an empty collection) or every name resolves. */
  predicate ListResolves(t: ModuleTable, v: Value, role: Role) {
    v.NoneV? || (v.ListV? && AllResolve(t, v.items, role))
  }

  function ImportSingle(t: ModuleTable, k: Key, v: Value, role: Role): (r: Result<Handle>)
    ensures r.Ok? <==> Resolves(t, v, role)
    ensures r.Ok? ==> r.value == Handle(v.s, role)
    ensures r.Err? ==> r.error == ImportFailure(Name(k))
  {
    if Resolves(t, v, role) then Ok(Handle(v.s, role)) else Err(ImportFailure(Name(k)))
  }

  /** Importing every name of a list, in order; the first that fails stops the import. */
  function ImportEach(t: ModuleTable, k: Key, items: seq<Value>, role: Role): (r: Result<seq<Handle>>)
    ensures r.Ok? <==> AllResolve(t, items, role)
    ensures r.Ok? ==> (|r.value| == |items|
      && forall i :: 0 <= i < |items| ==> r.value[i] == Handle(items[i].s, role))
    ensures r.Err? ==> r.error == ImportFailure(Name(k))
  {
    if items == [] then Ok([])
    else
      var h :- ImportSingle(t, k, items[0], role);
      var hs :- ImportEach(t, k, items[1..], role);
      Ok([h] + hs)
  }

  /** `hs` holds one handle per module that the list setting `v` names, in order; none for `None`. */
  predicate HandlesFor(hs: seq<Handle>, v: Value, role: Role) {
    && (v.NoneV? ==> hs == [])
    && (v.ListV? ==> |hs| == |v.items| && forall i :: 0 <= i < |v.items| ==> v.items[i].StrV? && hs[i] == Handle(v.items[i].s, role))
  }

  function ImportMultiple(t: ModuleTable, k: Key, v: Value, role: Role): (r: Result<seq<Handle>>)
    ensures r.Ok? <==> ListResolves(t, v, role)
    ensures r.Ok? ==> HandlesFor(r.value, v, role)
    ensures r.Err? ==> r.error == ImportFailure(Name(k))
  {
    match v
    case NoneV => Ok([])
    case ListV(items) => ImportEach(t, k, items, role)
    case _ => Err(ImportFailure(Name(k)))
  }

  /** Every role the configuration names can be resolved against `t`. */
  predicate Resolvable(t: ModuleTable, c: Config, env: Env) {
    Resolves(t, Get(c, env, Engine), EngineRole)
    && Resolves(t, Get(c, env, Loader), LoaderRole)
    && Resolves(t, Get(c, env, Storage), StorageRole)
    && ListResolves(t, Get(c, env, Detectors), DetectorRole)
    && ListResolves(t, Get(c, env, Filters), FilterRole)
    && (Truthy(Get(c, env, UseCustomErrorHandling))
        ==> Resolves(t, Get(c, env, ErrorHandlerModule), ErrorHandlerRole))
  }

  /**
   * Model of `get_importer(config)`: import every role's modules, and when
   * custom error handling is enabled construct one error handler from the
   * configured module with the configuration.
   */
  function GetImporter(t: ModuleTable, c: Config, env: Env): (r: Result<Importer>)
    ensures r.Ok? <==> Resolvable(t, c, env)
    ensures r.Err? ==> r.error.ImportFailure?
    ensures r.Ok? ==> r.value.engine == Handle(Get(c, env, Engine).s, EngineRole)
    ensures r.Ok? ==> r.value.loader == Handle(Get(c, env, Loader).s, LoaderRole)
    ensures r.Ok? ==> r.value.storage == Handle(Get(c, env, Storage).s, StorageRole)
    ensures r.Ok? ==> HandlesFor(r.value.detectors, Get(c, env, Detectors), DetectorRole)
    ensures r.Ok? ==> HandlesFor(r.value.filters, Get(c, env, Filters), FilterRole)
    ensures r.Ok? ==> (r.value.errorHandler.Some? <==> Truthy(Get(c, env, UseCustomErrorHandling)))
    ensures r.Ok? && r.value.errorHandler.Some?
      ==> r.value.errorHandler.value == ErrorHandler(Get(c, env, ErrorHandlerModule).s, c)
  {
    var engine :- ImportSingle(t, Engine, Get(c, env, Engine), EngineRole);
    var loader :- ImportSingle(t, Loader, Get(c, env, Loader), LoaderRole);
    var storage :- ImportSingle(t, Storage, Get(c, env, Storage), StorageRole);
    var detectors :- ImportMultiple(t, Detectors, Get(c, env, Detectors), DetectorRole);
    var filters :- ImportMultiple(t, Filters, Get(c, env, Filters), FilterRole);
    if Truthy(Get(c, env, UseCustomErrorHandling)) then
      var handler :- ImportSingle(t, ErrorHandlerModule, Get(c, env, ErrorHandlerModule), ErrorHandlerRole);
      Ok(Importer(engine, loader, storage, detectors, filters, Some(ErrorHandler(handler.moduleName, c))))
    else
      Ok(Importer(engine, loader, storage, detectors, filters, None))
  }

  /** `t` holds the modules that ship with the service, under their default names. */
  predicate ProvidesDefaults(t: ModuleTable) {
    Resolves(t, Default(Engine), EngineRole)
    && Resolves(t, Default(Loader), LoaderRole)
    && Resolves(t, Default(Storage), StorageRole)
    && AllResolve(t, DefaultFilters, FilterRole)
  }

  /** The default configuration imports, and its filter collection is not empty. */
  lemma DefaultImportHasFilters(t: ModuleTable, env: Env)
    requires ProvidesDefaults(t)
    ensures var r := GetImporter(t, WithValues(map[]), env);
      r.Ok? && |r.value.filters| > 0 && r.value.errorHandler.None?
  {
  }

  /** With custom error handling on, the handler slot holds an instance of the configured module's class. */
  lemma CustomErrorHandlerExample(t: ModuleTable, env: Env)
    requires ProvidesDefaults(t)
    requires "tests.fixtures.custom_error_handler" in t
    requires ErrorHandlerRole in t["tests.fixtures.custom_error_handler"]
    ensures var name := "tests.fixtures.custom_error_handler";
      var c := WithValues(map[UseCustomErrorHandling := BoolV(true), ErrorHandlerModule := StrV(name)]);
      var r := GetImporter(t, c, env);
      r.Ok? && r.value.errorHandler == Some(ErrorHandler(name, c))
  {
  }
}

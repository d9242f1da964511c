/**
 * `validate_config`: the two pre-flight checks, in order, that complete the
 * server parameters or stop the startup with a configuration error.
 */
module Validation {
  import opened Base
  import opened Settings
  import opened Params

  const NoSecurityKeyMessage: string :=
    "No security key was found for this instance of thumbor. "
    + "Please provide one using the conf file or a security key file."

  const NoGifsicleMessage: string :=
    "If using USE_GIFSICLE_ENGINE configuration to True, "
    + "the `gifsicle` binary must be in the PATH and must be an executable."

  /** The executables found on `PATH`: name to absolute path (the answers `which` gives). */
  type PathLookup = map<string, string>

  /** A credential counts as set when it is present and not empty. */
  predicate KeySet(k: Option<string>) {
    k.Some? && k.value != ""
  }

  /** The configuration's `SECURITY_KEY`, when it is a non-empty string. */
  function ConfiguredKey(c: Config, env: Env): Option<string> {
    var v := Get(c, env, SecurityKey);
    if v.StrV? && v.s != "" then Some(v.s) else None
  }

  /**
   * The effective credential: the parameter's own when set, else the
   * configuration's; an error with the exact message when neither is set.
   */
  function ResolveSecurityKey(current: Option<string>, c: Config, env: Env): (r: Result<string>)
    ensures r.Err? <==> !KeySet(current) && ConfiguredKey(c, env).None?
    ensures r.Err? ==> r.error == RuntimeError(NoSecurityKeyMessage)
    ensures r.Ok? ==> r.value != ""
    ensures KeySet(current) ==> r == Ok(current.value)
    ensures !KeySet(current) && r.Ok? ==> Get(c, env, SecurityKey) == StrV(r.value)
  {
    if KeySet(current) then Ok(current.value)
    else match ConfiguredKey(c, env)
      case Some(k) => Ok(k)
      case None => Err(RuntimeError(NoSecurityKeyMessage))
  }

  /**
   * The gifsicle check: skipped (`Ok(None)`) when `USE_GIFSICLE_ENGINE` is
   * not truthy; otherwise the path `which` finds, or the exact error.
   */
  function CheckGifsicle(c: Config, env: Env, which: PathLookup): (r: Result<Option<string>>)
    ensures !Truthy(Get(c, env, UseGifsicleEngine)) ==> r == Ok(None)
    ensures Truthy(Get(c, env, UseGifsicleEngine)) ==>
      (r.Ok? <==> "gifsicle" in which)
      && (r.Ok? ==> r.value == Some(which["gifsicle"]))
      && (r.Err? ==> r.error == RuntimeError(NoGifsicleMessage))
  {
    if !Truthy(Get(c, env, UseGifsicleEngine)) then Ok(None)
    else if "gifsicle" in which then Ok(Some(which["gifsicle"]))
    else Err(RuntimeError(NoGifsicleMessage))
  }

  /**
   * Model of `validate_config(config, server_parameters)`. `lookups` lists
   * the executables looked up on `PATH`, so that a skipped check is visible.
   * A failure of the second check leaves the first check's update in place.
   */
  method ValidateConfig(c: Config, env: Env, p: ServerParameters, which: PathLookup)
    returns (r: Outcome, lookups: seq<string>)
    modifies p`securityKey, p`gifsiclePath
    ensures var key := ResolveSecurityKey(old(p.securityKey), c, env);
      key.Err? ==> (r == Fail(key.error) && lookups == []
        && p.securityKey == old(p.securityKey) && p.gifsiclePath == old(p.gifsiclePath))
    ensures var key := ResolveSecurityKey(old(p.securityKey), c, env);
      var gifsicle := CheckGifsicle(c, env, which);
      key.Ok? ==> (p.securityKey == Some(key.value)
        && lookups == (if Truthy(Get(c, env, UseGifsicleEngine)) then ["gifsicle"] else [])
        && r == (if gifsicle.Err? then Fail(gifsicle.error) else Pass)
        && p.gifsiclePath == (if gifsicle.Ok? && gifsicle.value.Some? then gifsicle.value else old(p.gifsiclePath)))
    ensures r.Pass? ==> Validated(p.securityKey, p.gifsiclePath, c, env)
  {
    lookups := [];
    var key := ResolveSecurityKey(p.securityKey, c, env);
    if key.Err? {
      r := Fail(key.error);
      return;
    }
    p.securityKey := Some(key.value);
    if Truthy(Get(c, env, UseGifsicleEngine)) {
      lookups := ["gifsicle"];
      if "gifsicle" in which {
        p.gifsiclePath := Some(which["gifsicle"]);
      } else {
        r := Fail(RuntimeError(NoGifsicleMessage));
        return;
      }
    }
    r := Pass;
  }

  /** What a passed validation guarantees to the later stages. */
  predicate Validated(securityKey: Option<string>, gifsiclePath: Option<string>, c: Config, env: Env) {
    KeySet(securityKey) && (Truthy(Get(c, env, UseGifsicleEngine)) ==> gifsiclePath.Some?)
  }

  /** The four validation scenarios of the server tests, checked against the method's contract. */
  method ValidateConfigExamples()
  {
    var which := map["gifsicle" := "/usr/bin/gifsicle"];
    var p := new ServerParameters(8888, "0.0.0.0", NoFd, "", false, "DEBUG", false, "", None);
    var r, lookups := ValidateConfig(WithValues(map[SecurityKey := NoneV]), map[], p, which);
    assert r == Fail(RuntimeError(NoSecurityKeyMessage));

    p := new ServerParameters(8888, "0.0.0.0", NoFd, "", false, "DEBUG", false, "", None);
    r, lookups := ValidateConfig(WithValues(map[SecurityKey := StrV("something")]), map[], p, which);
    assert r == Pass && p.securityKey == Some("something") && lookups == [];

    var gifsicleOn := WithValues(map[SecurityKey := StrV("test"), UseGifsicleEngine := BoolV(true)]);
    p := new ServerParameters(8888, "0.0.0.0", NoFd, "", false, "DEBUG", false, "", None);
    r, lookups := ValidateConfig(gifsicleOn, map[], p, which);
    assert r == Pass && p.gifsiclePath == Some("/usr/bin/gifsicle");

    p := new ServerParameters(8888, "0.0.0.0", NoFd, "", false, "DEBUG", false, "", None);
    r, lookups := ValidateConfig(gifsicleOn, map[], p, map[]);
    assert r == Fail(RuntimeError(NoGifsicleMessage)) && lookups == ["gifsicle"];
  }
}

/** Loading the CLI configuration, internal/config/config.go: built-in
    defaults, then the config file, then the `CODEMINT_BASE_URL` and
    `CODEMINT_PROFILE` environment variables, then the explicit overrides.
    The home directory, the file system (reading and decoding the file) and
    the environment are parameters. */
module Config {
  import opened Wrappers
  import opened ApiErrors
  import Install

  const DefaultBaseURL: string := "https://codemint.app"
  const DefaultProfile: string := "default"

  datatype Config = Config(baseURL: string, profile: string)

  datatype LoadOptions = LoadOptions(configPath: string, baseURLOverride: string, profileOverride: string)

  /** What reading the config file gives: nothing (the file is missing or
      cannot be read), text that is not a JSON object of the two fields,
      or the fields the file holds (a field the file leaves out is `None`). */
  datatype FileRead =
    | Unreadable
    | Invalid
    | Decoded(baseURL: Option<string>, profile: Option<string>)

  /** The environment: the value of a variable, "" when it is unset. */
  type Env = string -> string

  const BaseURLVar: string := "CODEMINT_BASE_URL"
  const ProfileVar: string := "CODEMINT_PROFILE"

  /** The file `Load` reads: the given path, else `config.json` in
      `.config/codemint` under the home directory, or the error finding
      the home directory. */
  function ConfigFile(opts: LoadOptions, home: Result<string, Error>): (r: Result<Install.Path, Error>)
    ensures opts.configPath != "" ==> r == Success([opts.configPath])
    ensures opts.configPath == "" && home.Failure? ==> r == Failure(home.error)
    ensures opts.configPath == "" && home.Success? ==>
              r == Success([home.value, ".config", "codemint", "config.json"])
  {
    if opts.configPath != "" then Success([opts.configPath])
    else match home
      case Failure(e) => Failure(e)
      case Success(h) => Success([h, ".config", "codemint", "config.json"])
  }

  /** `value` when it is set (non-empty), else `fallback`. */
  function Prefer(value: string, fallback: string): string {
    if value != "" then value else fallback
  }

  /** A field the file holds, else the value below it. */
  function FromFile(field: Option<string>, below: string): string {
    match field
    case Some(v) => v
    case None => below
  }

  /** The configuration by layers, lowest first: defaults, file, environment,
      overrides. An unreadable file is no layer; an invalid one is an error. */
  function Layered(opts: LoadOptions, home: Result<string, Error>, read: Install.Path -> FileRead, env: Env)
    : (r: Result<Config, Error>)
  {
    match ConfigFile(opts, home)
    case Failure(e) => Failure(e)
    case Success(path) =>
      var file := read(path);
      if file.Invalid? then Failure(Other("invalid config file"))
      else
        var base := if file.Decoded? then FromFile(file.baseURL, DefaultBaseURL) else DefaultBaseURL;
        var profile := if file.Decoded? then FromFile(file.profile, DefaultProfile) else DefaultProfile;
        Success(Config(Prefer(opts.baseURLOverride, Prefer(env(BaseURLVar), base)),
                       Prefer(opts.profileOverride, Prefer(env(ProfileVar), profile))))
  }

  /** `Load(opts)`: `cfg` starts from the defaults and each later source
      overwrites the fields it sets. */
  method Load(opts: LoadOptions, home: Result<string, Error>, read: Install.Path -> FileRead, env: Env)
    returns (r: Result<Config, Error>)
    ensures r == Layered(opts, home, read, env)
  {
    var cfg := Config(DefaultBaseURL, DefaultProfile);
    var path: Install.Path := [opts.configPath];
    if opts.configPath == "" {
      if home.Failure? {
        return Failure(home.error);
      }
      path := [home.value, ".config", "codemint", "config.json"];
    }
    var file := read(path);
    if file.Invalid? {
      return Failure(Other("invalid config file"));
    }
    if file.Decoded? {
      if file.baseURL.Some? {
        cfg := cfg.(baseURL := file.baseURL.value);
      }
      if file.profile.Some? {
        cfg := cfg.(profile := file.profile.value);
      }
    }
    var v := env(BaseURLVar);
    if v != "" {
      cfg := cfg.(baseURL := v);
    }
    v := env(ProfileVar);
    if v != "" {
      cfg := cfg.(profile := v);
    }
    if opts.baseURLOverride != "" {
      cfg := cfg.(baseURL := opts.baseURLOverride);
    }
    if opts.profileOverride != "" {
      cfg := cfg.(profile := opts.profileOverride);
    }
    return Success(cfg);
  }

  /** With no file, no environment and no overrides, the configuration is
      the built-in one. */
  lemma DefaultsWithoutSources(opts: LoadOptions, home: Result<string, Error>, read: Install.Path -> FileRead, env: Env)
    requires opts.baseURLOverride == "" && opts.profileOverride == ""
    requires ConfigFile(opts, home).Success? && read(ConfigFile(opts, home).value) == Unreadable
    requires env(BaseURLVar) == "" && env(ProfileVar) == ""
    ensures Layered(opts, home, read, env) == Success(Config(DefaultBaseURL, DefaultProfile))
  {
  }

  /** `Load` fails exactly when the home directory is needed and unknown,
      or the file is readable but invalid. */
  lemma LoadFailures(opts: LoadOptions, home: Result<string, Error>, read: Install.Path -> FileRead, env: Env)
    ensures Layered(opts, home, read, env).Failure? <==>
              ConfigFile(opts, home).Failure? || read(ConfigFile(opts, home).value).Invalid?
    ensures ConfigFile(opts, home).Success? && read(ConfigFile(opts, home).value).Invalid? ==>
              Layered(opts, home, read, env) == Failure(Other("invalid config file"))
  {
  }

  /** A non-empty override decides its field, whatever the file and the
      environment say. */
  lemma OverrideWins(opts: LoadOptions, home: Result<string, Error>, read: Install.Path -> FileRead, env: Env)
    requires Layered(opts, home, read, env).Success?
    ensures opts.baseURLOverride != "" ==> Layered(opts, home, read, env).value.baseURL == opts.baseURLOverride
    ensures opts.profileOverride != "" ==> Layered(opts, home, read, env).value.profile == opts.profileOverride
  {
  }

  /** Without an override, a set environment variable beats the file; with
      neither, the file's field beats the default. */
  lemma EnvironmentBeatsFile(opts: LoadOptions, home: Result<string, Error>, read: Install.Path -> FileRead, env: Env)
    requires Layered(opts, home, read, env).Success?
    ensures var c := Layered(opts, home, read, env).value;
            opts.baseURLOverride == "" && env(BaseURLVar) != "" ==> c.baseURL == env(BaseURLVar)
    ensures var c := Layered(opts, home, read, env).value;
            opts.profileOverride == "" && env(ProfileVar) != "" ==> c.profile == env(ProfileVar)
    ensures var c := Layered(opts, home, read, env).value;
            var file := read(ConfigFile(opts, home).value);
            opts.baseURLOverride == "" && env(BaseURLVar) == "" ==>
              c.baseURL == (if file.Decoded? && file.baseURL.Some? then file.baseURL.value else DefaultBaseURL)
    ensures var c := Layered(opts, home, read, env).value;
            var file := read(ConfigFile(opts, home).value);
            opts.profileOverride == "" && env(ProfileVar) == "" ==>
              c.profile == (if file.Decoded? && file.profile.Some? then file.profile.value else DefaultProfile)
  {
  }
}

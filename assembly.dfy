/**
 * getHeadscaleApp: from validated settings to the runtime configuration
 * handed to the coordination library. The relay-map loader, the library
 * constructor and the ACL-policy loader are outside this model; they are
 * parameters, each given as the outcome it produces for its argument. The
 * relay map's type belongs to the networking library and is the type
 * parameter `M`.
 */
module Assembly {
  import opened Wrappers
  import opened Strings
  import opened Settings
  import opened Paths

  const Second: int := 1_000_000_000

  /** Keepalive interval (60 s) plus a margin: timeouts at or below this are refused. */
  const MinInactivityTimeout: int := 65 * Second

  /** What loadDerpMap returns: a map (or nil) and an error (or nil). */
  datatype DerpLoad<M> = DerpLoad(derpMap: Option<M>, err: Option<string>)

  /** The library's Config record. */
  datatype Config<M> = Config(
    serverUrl: string,
    addr: string,
    privateKeyPath: string,
    derpMap: Option<M>,
    ephemeralNodeInactivityTimeout: int,
    dbType: string,
    dbPath: string,
    dbHost: string,
    dbPort: int,
    dbName: string,
    dbUser: string,
    dbPass: string,
    tlsLetsEncryptHostname: string,
    tlsLetsEncryptCacheDir: string,
    tlsLetsEncryptChallengeType: string,
    tlsCertPath: string,
    tlsKeyPath: string
  )

  /** The fatal outcomes: a timeout that is too low, or the constructor's own error. */
  datatype AppError = TimeoutTooLow(setting: string) | ConstructorFailed(cause: string)

  const TimeoutErrorPrefix: string := "ephemeral_node_inactivity_timeout ("
  const TimeoutErrorSuffix: string := ") is set too low, must be more than 1m5s\n"

  /** The error's text: the timeout message quotes the setting; a constructor error is passed on as is. */
  function AppErrorText(e: AppError): (t: string)
    ensures e.TimeoutTooLow? ==>
      HasPrefix(t, TimeoutErrorPrefix) && HasSuffix(t, TimeoutErrorSuffix)
      && |t| == |TimeoutErrorPrefix| + |e.setting| + |TimeoutErrorSuffix|
      && t[|TimeoutErrorPrefix|..|t| - |TimeoutErrorSuffix|] == e.setting
    ensures e.ConstructorFailed? ==> t == e.cause
  {
    match e
    case TimeoutTooLow(setting) =>
      TimeoutErrorPrefix + setting + TimeoutErrorSuffix
    case ConstructorFailed(cause) => cause
  }

  /** The non-fatal outcomes, which the source only logs. */
  datatype Warning = DerpMapNotLoaded(cause: string) | AclPolicyNotLoaded(cause: string)

  const DerpWarningPrefix: string := "Could not load DERP servers map file: "
  const AclWarningPrefix: string := "Could not load the ACL policy: "

  /** The logged message, as formatted by `Printf`: a fixed prefix naming what failed, then the cause. */
  function WarningText(w: Warning): (t: string)
    ensures w.DerpMapNotLoaded? ==> HasPrefix(t, DerpWarningPrefix) && t[|DerpWarningPrefix|..] == w.cause
    ensures w.AclPolicyNotLoaded? ==> HasPrefix(t, AclWarningPrefix) && t[|AclWarningPrefix|..] == w.cause
  {
    match w
    case DerpMapNotLoaded(cause) => DerpWarningPrefix + cause
    case AclPolicyNotLoaded(cause) => AclWarningPrefix + cause
  }

  /** Whether an ACL policy was asked for, and at which path. */
  datatype AclState = NotRequested | Loaded(path: string) | NotLoaded(path: string)

  /** The constructed server: its configuration, its policy state and what was logged. */
  datatype App<M> = App(config: Config<M>, acl: AclState, warnings: seq<Warning>)

  /** The Config built from the settings: path-valued settings resolved, the rest copied. */
  function BuildConfig<M>(s: Settings, derpMap: Option<M>): (cfg: Config<M>)
    ensures cfg.privateKeyPath == AbsPath(s.configFileUsed, s.privateKeyPath)
    ensures cfg.dbPath == AbsPath(s.configFileUsed, s.dbPath)
    ensures cfg.tlsLetsEncryptCacheDir == AbsPath(s.configFileUsed, s.tlsLetsEncryptCacheDir)
    ensures cfg.tlsCertPath == AbsPath(s.configFileUsed, s.tlsCertPath)
    ensures cfg.tlsKeyPath == AbsPath(s.configFileUsed, s.tlsKeyPath)
    ensures cfg.serverUrl == s.serverUrl && cfg.addr == s.listenAddr && cfg.derpMap == derpMap
    ensures cfg.ephemeralNodeInactivityTimeout == s.ephemeralNodeInactivityTimeout
    ensures cfg.dbType == s.dbType && cfg.dbHost == s.dbHost && cfg.dbPort == s.dbPort
    ensures cfg.dbName == s.dbName && cfg.dbUser == s.dbUser && cfg.dbPass == s.dbPass
    ensures cfg.tlsLetsEncryptHostname == s.tlsLetsEncryptHostname
    ensures cfg.tlsLetsEncryptChallengeType == s.tlsLetsEncryptChallengeType
  {
    var resolve := (p: string) => AbsPath(s.configFileUsed, p);
    Config(
      serverUrl := s.serverUrl,
      addr := s.listenAddr,
      privateKeyPath := resolve(s.privateKeyPath),
      derpMap := derpMap,
      ephemeralNodeInactivityTimeout := s.ephemeralNodeInactivityTimeout,
      dbType := s.dbType,
      dbPath := resolve(s.dbPath),
      dbHost := s.dbHost,
      dbPort := s.dbPort,
      dbName := s.dbName,
      dbUser := s.dbUser,
      dbPass := s.dbPass,
      tlsLetsEncryptHostname := s.tlsLetsEncryptHostname,
      tlsLetsEncryptCacheDir := resolve(s.tlsLetsEncryptCacheDir),
      tlsLetsEncryptChallengeType := s.tlsLetsEncryptChallengeType,
      tlsCertPath := resolve(s.tlsCertPath),
      tlsKeyPath := resolve(s.tlsKeyPath)
    )
  }

  /** The relay map as the configuration receives it, whatever the loader reported. */
  function LoadedDerpMap<M>(s: Settings, loadDerpMap: string -> DerpLoad<M>): Option<M> {
    loadDerpMap(AbsPath(s.configFileUsed, s.derpMapPath)).derpMap
  }

  /** The log line for a relay-map load, if it reported an error. */
  function DerpWarnings<M>(load: DerpLoad<M>): seq<Warning> {
    match load.err
    case Some(cause) => [DerpMapNotLoaded(cause)]
    case None => []
  }

  /** The policy step: skipped for an empty path, else a load at the resolved path. */
  function AclOutcome(s: Settings, loadAclPolicy: string -> Option<string>): (acl: AclState)
    ensures acl.NotRequested? <==> s.aclPolicyPath == ""
    ensures s.aclPolicyPath != "" ==>
      acl.path == AbsPath(s.configFileUsed, s.aclPolicyPath)
      && (acl.Loaded? <==> loadAclPolicy(acl.path).None?)
  {
    if s.aclPolicyPath == "" then NotRequested
    else
      var path := AbsPath(s.configFileUsed, s.aclPolicyPath);
      if loadAclPolicy(path).None? then Loaded(path) else NotLoaded(path)
  }

  /** The log line for a policy that was requested and did not load. */
  function AclWarnings(acl: AclState, loadAclPolicy: string -> Option<string>): seq<Warning> {
    match acl
    case NotLoaded(path) =>
      (match loadAclPolicy(path)
       case Some(cause) => [AclPolicyNotLoaded(cause)]
       case None => [])
    case _ => []
  }

  /**
   * getHeadscaleApp. `loadDerpMap` gives the loader's outcome for a path,
   * `newHeadscale` the constructor's error (None: it succeeded) for a
   * Config, and `loadAclPolicy` the policy loader's error for a path.
   */
  function GetHeadscaleApp<M>(
    s: Settings,
    loadDerpMap: string -> DerpLoad<M>,
    newHeadscale: Config<M> -> Option<string>,
    loadAclPolicy: string -> Option<string>
  ): (r: Result<App<M>, AppError>)
    ensures r.Err? && r.error.TimeoutTooLow? <==> s.ephemeralNodeInactivityTimeout <= MinInactivityTimeout
    ensures s.ephemeralNodeInactivityTimeout <= MinInactivityTimeout
      ==> r == Err(TimeoutTooLow(s.ephemeralNodeInactivityTimeoutText))
    ensures s.ephemeralNodeInactivityTimeout > MinInactivityTimeout
      ==> (r.Ok? <==> newHeadscale(BuildConfig(s, LoadedDerpMap(s, loadDerpMap))).None?)
    ensures r.Err? && r.error.ConstructorFailed?
      ==> Some(r.error.cause) == newHeadscale(BuildConfig(s, LoadedDerpMap(s, loadDerpMap)))
    ensures r.Ok? ==> r.value.config == BuildConfig(s, LoadedDerpMap(s, loadDerpMap))
    ensures r.Ok? ==> r.value.config.ephemeralNodeInactivityTimeout > MinInactivityTimeout
    ensures r.Ok? ==> (r.value.acl.NotRequested? <==> s.aclPolicyPath == "")
    ensures r.Ok? && s.aclPolicyPath != ""
      ==> (r.value.acl.path == AbsPath(s.configFileUsed, s.aclPolicyPath)
           && (r.value.acl.Loaded? <==> loadAclPolicy(r.value.acl.path).None?))
    ensures r.Ok? ==> (
      r.value.warnings
      == (match loadDerpMap(AbsPath(s.configFileUsed, s.derpMapPath)).err
          case Some(cause) => [DerpMapNotLoaded(cause)]
          case None => [])
         + (match r.value.acl
            case NotLoaded(path) => [AclPolicyNotLoaded(loadAclPolicy(path).value)]
            case _ => []))
  {
    var derp := loadDerpMap(AbsPath(s.configFileUsed, s.derpMapPath));
    if s.ephemeralNodeInactivityTimeout <= MinInactivityTimeout then
      Err(TimeoutTooLow(s.ephemeralNodeInactivityTimeoutText))
    else
      var cfg := BuildConfig(s, derp.derpMap);
      match newHeadscale(cfg)
      case Some(cause) => Err(ConstructorFailed(cause))
      case None =>
        var acl := AclOutcome(s, loadAclPolicy);
        Ok(App(cfg, acl, DerpWarnings(derp) + AclWarnings(acl, loadAclPolicy)))
  }

  /** A refused timeout is decided before the constructor or the policy loader is consulted. */
  lemma RejectionReachesNoLibraryCall<M>(
    s: Settings, loadDerpMap: string -> DerpLoad<M>,
    newHeadscale1: Config<M> -> Option<string>, newHeadscale2: Config<M> -> Option<string>,
    loadAclPolicy1: string -> Option<string>, loadAclPolicy2: string -> Option<string>)
    requires s.ephemeralNodeInactivityTimeout <= MinInactivityTimeout
    ensures GetHeadscaleApp(s, loadDerpMap, newHeadscale1, loadAclPolicy1)
         == GetHeadscaleApp(s, loadDerpMap, newHeadscale2, loadAclPolicy2)
  {
  }

  /** The boundary is exclusive: exactly 65 s is refused, one nanosecond more is accepted. */
  lemma TimeoutBoundary<M>(s: Settings, loadDerpMap: string -> DerpLoad<M>, loadAclPolicy: string -> Option<string>)
    ensures GetHeadscaleApp(s.(ephemeralNodeInactivityTimeout := 65 * Second), loadDerpMap, _ => None, loadAclPolicy).Err?
    ensures GetHeadscaleApp(s.(ephemeralNodeInactivityTimeout := 65 * Second + 1), loadDerpMap, _ => None, loadAclPolicy).Ok?
  {
  }

  /**
   * A refused timeout reports the configured value as written: its text
   * names the key, quotes the setting and ends in a newline.
   */
  lemma TimeoutErrorQuotesSetting<M>(
    s: Settings, loadDerpMap: string -> DerpLoad<M>,
    newHeadscale: Config<M> -> Option<string>, loadAclPolicy: string -> Option<string>)
    requires s.ephemeralNodeInactivityTimeout <= MinInactivityTimeout
    ensures var r := GetHeadscaleApp(s, loadDerpMap, newHeadscale, loadAclPolicy);
      r.Err? &&
      var t := AppErrorText(r.error);
      HasPrefix(t, TimeoutErrorPrefix) && HasSuffix(t, "\n")
      && t[|TimeoutErrorPrefix|..|TimeoutErrorPrefix| + |s.ephemeralNodeInactivityTimeoutText|]
         == s.ephemeralNodeInactivityTimeoutText
  {
    var t := AppErrorText(TimeoutTooLow(s.ephemeralNodeInactivityTimeoutText));
    assert t == TimeoutErrorPrefix + s.ephemeralNodeInactivityTimeoutText + TimeoutErrorSuffix;
    assert t[|t| - 1..] == TimeoutErrorSuffix[|TimeoutErrorSuffix| - 1..];
  }

  /** A policy that fails to load changes neither the outcome nor the configuration. */
  lemma AclFailureIsNotFatal<M>(
    s: Settings, loadDerpMap: string -> DerpLoad<M>, newHeadscale: Config<M> -> Option<string>,
    loadAclPolicy1: string -> Option<string>, loadAclPolicy2: string -> Option<string>)
    ensures var r1, r2 := GetHeadscaleApp(s, loadDerpMap, newHeadscale, loadAclPolicy1),
                          GetHeadscaleApp(s, loadDerpMap, newHeadscale, loadAclPolicy2);
      r1.Ok? == r2.Ok? && (r1.Ok? ==> r1.value.config == r2.value.config)
  {
  }

  /** A relay-map error is only logged: loaders that agree on the map give the same outcome. */
  lemma DerpErrorIsNotFatal<M>(
    s: Settings, loadDerpMap1: string -> DerpLoad<M>, loadDerpMap2: string -> DerpLoad<M>,
    newHeadscale: Config<M> -> Option<string>, loadAclPolicy: string -> Option<string>)
    requires LoadedDerpMap(s, loadDerpMap1) == LoadedDerpMap(s, loadDerpMap2)
    ensures var r1, r2 := GetHeadscaleApp(s, loadDerpMap1, newHeadscale, loadAclPolicy),
                          GetHeadscaleApp(s, loadDerpMap2, newHeadscale, loadAclPolicy);
      r1.Ok? == r2.Ok? && (r1.Ok? ==> r1.value.config == r2.value.config && r1.value.acl == r2.value.acl)
  {
    var r1 := GetHeadscaleApp(s, loadDerpMap1, newHeadscale, loadAclPolicy);
    var r2 := GetHeadscaleApp(s, loadDerpMap2, newHeadscale, loadAclPolicy);
    if r1.Ok? && r2.Ok? && s.aclPolicyPath != "" {
      assert r1.value.acl.path == r2.value.acl.path;
    }
  }

  /** When the configuration directory is absolute, every path set in the Config is absolute. */
  lemma ConfigPathsAreAbsolute<M>(s: Settings, derpMap: Option<M>)
    requires IsAbsolute(Dir(s.configFileUsed))
    ensures var cfg := BuildConfig(s, derpMap);
      (cfg.privateKeyPath == "" || IsAbsolute(cfg.privateKeyPath))
      && (cfg.dbPath == "" || IsAbsolute(cfg.dbPath))
      && (cfg.tlsLetsEncryptCacheDir == "" || IsAbsolute(cfg.tlsLetsEncryptCacheDir))
      && (cfg.tlsCertPath == "" || IsAbsolute(cfg.tlsCertPath))
      && (cfg.tlsKeyPath == "" || IsAbsolute(cfg.tlsKeyPath))
  {
    var f := s.configFileUsed;
    if s.privateKeyPath != "" { AbsPathIsAbsolute(f, s.privateKeyPath); }
    if s.dbPath != "" { AbsPathIsAbsolute(f, s.dbPath); }
    if s.tlsLetsEncryptCacheDir != "" { AbsPathIsAbsolute(f, s.tlsLetsEncryptCacheDir); }
    if s.tlsCertPath != "" { AbsPathIsAbsolute(f, s.tlsCertPath); }
    if s.tlsKeyPath != "" { AbsPathIsAbsolute(f, s.tlsKeyPath); }
  }

  /** The settings that would reproduce `cfg`: its values written back under their keys. */
  function SettingsOf<M>(s: Settings, cfg: Config<M>): Settings {
    s.(serverUrl := cfg.serverUrl, listenAddr := cfg.addr, privateKeyPath := cfg.privateKeyPath,
       ephemeralNodeInactivityTimeout := cfg.ephemeralNodeInactivityTimeout,
       dbType := cfg.dbType, dbPath := cfg.dbPath, dbHost := cfg.dbHost, dbPort := cfg.dbPort,
       dbName := cfg.dbName, dbUser := cfg.dbUser, dbPass := cfg.dbPass,
       tlsLetsEncryptHostname := cfg.tlsLetsEncryptHostname,
       tlsLetsEncryptCacheDir := cfg.tlsLetsEncryptCacheDir,
       tlsLetsEncryptChallengeType := cfg.tlsLetsEncryptChallengeType,
       tlsCertPath := cfg.tlsCertPath, tlsKeyPath := cfg.tlsKeyPath)
  }

  /**
   * Building is stable: a Config written back into the settings builds to
   * itself, provided the configuration directory is absolute or empty.
   */
  lemma RebuildIsStable<M>(s: Settings, derpMap: Option<M>)
    requires Dir(s.configFileUsed) == "" || IsAbsolute(Dir(s.configFileUsed))
    ensures var cfg := BuildConfig(s, derpMap);
      BuildConfig(SettingsOf(s, cfg), derpMap) == cfg
  {
    var f := s.configFileUsed;
    AbsPathIdempotent(f, s.privateKeyPath);
    AbsPathIdempotent(f, s.dbPath);
    AbsPathIdempotent(f, s.tlsLetsEncryptCacheDir);
    AbsPathIdempotent(f, s.tlsCertPath);
    AbsPathIdempotent(f, s.tlsKeyPath);
  }
}

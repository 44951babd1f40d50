# Headscale configuration loading and bootstrap, modelled in Dafny

This project models the configuration layer of the headscale command-line
front end (`cmd/headscale/cli/utils.go`). It covers three parts:

- **Validation** (`LoadConfig`). Four cross-field rules are checked over the
  settings that were read, and none of them stops the others:
  1. a Let's Encrypt hostname must not be set together with a certificate or key path;
  2. TLS-ALPN-01 with a hostname needs a listen address ending in `:443`;
  3. the challenge type must be `HTTP-01` or `TLS-ALPN-01`;
  4. the server URL must start with `http://` or `https://`.

  Each violated rule adds one message. The error text is those messages
  joined by newlines, with no trailing newline.
- **Path resolution** (`absPath`). A relative path is placed in the directory
  of the configuration file that was loaded.
- **Runtime-config assembly** (`getHeadscaleApp`). This part has four steps:
  - it refuses an ephemeral-node inactivity timeout of 65 s or less;
  - it builds the library's `Config` from the settings, resolving the path-valued ones;
  - it calls the library constructor;
  - if a policy path is configured, it asks for the ACL policy to be loaded,
    and a failure there is only logged.

The settings store is an explicit record (`Settings.Settings`). It holds
every key the code reads, the timeout as integer nanoseconds (and as the
raw text that the error message quotes), and the path of the configuration
file that was loaded. The following are parameters of
`Assembly.GetHeadscaleApp`, given as the outcome each produces for its
argument: the relay-map loader, the library constructor `NewHeadscale`, and
`LoadACLPolicy`. The relay map's own type is the type parameter `M`.

Modules:
- `Wrappers` (`wrappers.dfy`) holds Option and Result.
- `Strings` holds Go's `HasPrefix`, `HasSuffix`, `TrimSuffix`, `Join` and `Split` on `"\n"`, and their lemmas.
- `Settings` holds the settings record.
- `Paths` holds `Dir` (the directory part of `filepath.Split`) and `AbsPath`.
- `Validation` holds the rules, the `Validate` method and `LoadConfig`.
- `Assembly` holds `BuildConfig` and `GetHeadscaleApp`.

Three points where the code's behaviour is easy to misread:
- The validation messages come in the code's order: exclusion, port,
  challenge type, URL. So an empty URL, a hostname with a certificate path
  and an unknown challenge type give the lines exclusion, challenge type, URL.
- When the relay-map file opens but fails to parse, `loadDerpMap` returns a
  non-nil map together with the error (line 147). `DerpLoad` allows that
  pair, and the map goes into the `Config` whatever the error.
- Defaults and layering are not applied here; the settings record is their result.

## Model

| member | source | states |
|---|---|---|
| `Strings.TrimSuffix` | cmd/headscale/cli/utils.go:62 | one trailing copy of the suffix is removed when present; otherwise the text is unchanged |
| `Strings.TrimTerminated` | cmd/headscale/cli/utils.go:45-62 | trimming the final newline off text built by appending `message + "\n"` for each message gives the messages joined by newline |
| `Validation.Validate` | cmd/headscale/cli/utils.go:44-65 | builds the error text the way the source does, step by step; the result is `Outcome(s)`: no error when no rule is violated, otherwise the violated rules' messages joined by newline |
| `Validation.ErrorText` | cmd/headscale/cli/utils.go:41 | the read error's text is the fixed prefix, the cause unchanged, then `" \n"`; a validation error's text is its joined lines |
| `Validation.LoadConfig` | cmd/headscale/cli/utils.go:39-65 | an unreadable file gives the read error and skips validation; a read file gives no error iff no rule is violated, else one validation error with the joined messages |
| `Validation.ViolationsAreLines` | cmd/headscale/cli/utils.go:46-60 | every reported message is a single, non-empty line |
| `Validation.ValidationReportsEachViolation` | cmd/headscale/cli/utils.go:44-65 | validation passes iff no rule is violated; otherwise the error text splits on newlines into exactly the violated rules' messages in check order, and it does not end in a newline |
| `Validation.ReportedLinesAreViolations` | cmd/headscale/cli/utils.go:44-65 | the lines of the reported error are exactly the violated rules' messages, in order |
| `Validation.ExclusionRule` | cmd/headscale/cli/utils.go:46-48 | the mutual-exclusion line is reported iff the hostname is set and the certificate path or the key path is set |
| `Validation.PortRule` | cmd/headscale/cli/utils.go:50-52 | the port line is reported iff the hostname is set, the challenge is TLS-ALPN-01 and the listen address does not end in `:443`; with HTTP-01 it never is |
| `Validation.ChallengeRule` | cmd/headscale/cli/utils.go:54-56 | the challenge-type line is reported iff the type is neither HTTP-01 nor TLS-ALPN-01, and changing the hostname does not change that |
| `Validation.SchemeRule` | cmd/headscale/cli/utils.go:58-60 | the server-URL line is reported iff the URL starts with neither `http://` nor `https://` |
| `Validation.ThreeViolationsThreeLines` | cmd/headscale/cli/utils.go:44-65 | no short-circuiting: an empty server URL, a hostname with a certificate or key path, and any unsupported challenge type give a three-line error: exclusion, challenge type, URL |
| `Paths.Dir` | cmd/headscale/cli/utils.go:72 | the directory part is a prefix of the path that is empty or ends in `/`, with no `/` after it |
| `Paths.DirAtLastSlash` | cmd/headscale/cli/utils.go:72 | the directory part ends at the last `/` of the path |
| `Paths.IsAbsolute` | cmd/headscale/cli/utils.go:71 | a path is absolute iff it starts with `/` |
| `Paths.AbsPath` | cmd/headscale/cli/utils.go:68-78 | an empty or absolute path is returned unchanged; a relative one becomes the configuration directory followed by the path; the result always ends with the path |
| `Paths.DirUnder` | cmd/headscale/cli/utils.go:74 | the directory of a path joined under a directory `a` is `a` followed by the path's own directory |
| `Paths.AbsPathDir` | cmd/headscale/cli/utils.go:68-78 | a resolved relative path lies in the configuration file's directory, below its own directory part |
| `Paths.AbsPathIsAbsolute` | cmd/headscale/cli/utils.go:68-78 | under an absolute configuration directory, every non-empty path resolves to an absolute one |
| `Paths.AbsPathIdempotent` | cmd/headscale/cli/utils.go:68-78 | resolving twice is resolving once when the configuration directory is absolute or empty |
| `Paths.AbsPathNotIdempotentUnderRelativeDir` | cmd/headscale/cli/utils.go:68-78 | under any non-empty relative configuration directory `d`, resolving a relative path `p` twice gives `d + d + p`: the directory is nested again |
| `Paths.AbsPathNotIdempotentExample` | cmd/headscale/cli/utils.go:68-78 | for example, `x` under `conf/config.yaml` becomes `conf/x`, and resolving that gives `conf/conf/x` |
| `Paths.AbsPathExamples` | cmd/headscale/cli/utils.go:68-78 | `""` stays `""`; `/a/b` is unchanged; `rel/x` under `/etc/headscale/config.yaml` becomes `/etc/headscale/rel/x`; a bare file name as the configuration file leaves `rel/x` as is |
| `Assembly.BuildConfig` | cmd/headscale/cli/utils.go:94-116 | the private-key, database, cache-dir, certificate and key paths are `AbsPath` of their settings; every other field is its setting, copied unchanged |
| `Assembly.AppErrorText` | cmd/headscale/cli/utils.go:89-91 | the timeout error's text names the key, quotes the setting unchanged between its fixed prefix and suffix, and ends with "must be more than 1m5s" and a newline; a constructor error's text is passed on verbatim |
| `Assembly.WarningText` | cmd/headscale/cli/utils.go:83 | the logged message (as `Printf` formats it) is the fixed prefix naming what failed (relay map or ACL policy, line 128), followed by the cause unchanged |
| `Assembly.AclOutcome` | cmd/headscale/cli/utils.go:125-130 | no policy load is requested iff the policy path is empty; otherwise the load is at `AbsPath` of the path, and the policy counts as loaded iff the loader reports no error |
| `Assembly.GetHeadscaleApp` | cmd/headscale/cli/utils.go:80-133 | refused with the timeout error iff the timeout is at most 65 s; otherwise success iff the constructor accepts the built `Config`, whose error is propagated verbatim; on success the configuration is the built one, the timeout is copied unchanged, an ACL load is requested iff the policy path is non-empty (at `AbsPath` of it), and the warnings are exactly the relay-map and policy load failures |
| `Assembly.RejectionReachesNoLibraryCall` | cmd/headscale/cli/utils.go:86-92 | a refused timeout gives the same result whatever the constructor and the policy loader would do |
| `Assembly.TimeoutErrorQuotesSetting` | cmd/headscale/cli/utils.go:89-91 | a refused timeout's error text starts with the key's prefix, quotes the configured setting as written, and ends in a newline |
| `Assembly.TimeoutBoundary` | cmd/headscale/cli/utils.go:86-92 | exactly 65 s is refused and 65 s plus 1 ns is accepted |
| `Assembly.AclFailureIsNotFatal` | cmd/headscale/cli/utils.go:125-132 | whether the policy loads changes neither success nor the configuration |
| `Assembly.DerpErrorIsNotFatal` | cmd/headscale/cli/utils.go:81-84 | a relay-map load error is not fatal: loaders that hand over the same map give the same success, configuration and ACL state |
| `Assembly.ConfigPathsAreAbsolute` | cmd/headscale/cli/utils.go:94-116 | under an absolute configuration directory, every non-empty path in the `Config` is absolute |
| `Assembly.RebuildIsStable` | cmd/headscale/cli/utils.go:94-116 | a `Config` written back into the settings builds to itself when the configuration directory is absolute or empty |

## Left out

- The configuration search order is not modelled (cmd/headscale/cli/utils.go:25-34). Neither are `SetDefault` (36-37) and `AutomaticEnv` overriding. These are library behaviour over process-global state, so the model takes their result, the settings record, as input. Finding and reading the file is the `ConfigFile` input.
- `loadDerpMap` (135-148) is not modelled. It is file I/O plus YAML decoding into a type of the networking library. It is the `loadDerpMap` parameter, and its outcome keeps the source's (map, error) pair.
- `headscale.NewHeadscale` and `LoadACLPolicy` are not modelled (118, 126). They are calls into the coordination library, whose code is not part of this model. They are parameters that report an error or none. The library's `Headscale` handle is represented by `App`.
- `JsonOutput` (150-180) is not modelled. It is JSON marshalling, `log.Fatalln` and printing to standard output. An unrecognised format still prints an empty line.
- Paths.AbsPath: joins as "directory ending in `/`" followed by the path, and uses `/` as the only separator. It does not clean the result the way `filepath.Join` does. Go resolves `.` and `..`, collapses `//` and drops a trailing `/`. So `keys/` under `/etc/headscale/config.yaml` gives `/etc/headscale/keys` in Go and `/etc/headscale/keys/` in the model.
- Duration parsing is not modelled. The timeout is an unbounded integer number of nanoseconds, with no 64-bit range. The timeout error quotes the setting's raw text, and `1m5s` is written out as Go prints 65 s.
- Assembly.GetHeadscaleApp: when the result is a fatal error, it does not carry the relay-map log line that the source printed before failing. Log lines are kept only in a successful result.
- Assembly.WarningText: gives the message that `log.Printf` formats. The standard logger's date and time header and the newline it adds are not modelled, since they depend on the clock and the logger's settings.

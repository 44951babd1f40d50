/**
 * LoadConfig: reading the configuration file and checking the four
 * cross-field rules over the settings that were read. Every violated rule
 * adds one message; the messages are reported together as one error whose
 * text has one line per violated rule, in the order the rules are checked.
 */
module Validation {
  import opened Wrappers
  import opened Strings
  import opened Settings

  // The four messages are spelled in short pieces: the verifier sees that
  // no piece, and so no message, holds a newline.
  const FatalPrefix: string := "Fatal config error: "
  const ExclusionMessage: string :=
    FatalPrefix + "set either " + "tls_letsencrypt_hostname" + " or tls_cert_path/" + "tls_key_path, not both"
  const PortMessage: string :=
    FatalPrefix + "when using " + "tls_letsencrypt_hostname" + " with TLS-ALPN-01" + " as challenge type, "
    + "listen_addr must end" + " in :443"
  const ChallengeMessage: string :=
    FatalPrefix + "the only supported " + "values for " + "tls_letsencrypt_challenge_type"
    + " are HTTP-01 and " + "TLS-ALPN-01"
  const SchemeMessage: string :=
    FatalPrefix + "server_url must start" + " with https:// or " + "http://"

  /** Rule 1: a Let's Encrypt hostname together with a certificate or key path. */
  predicate BothTlsModesSet(s: Settings) {
    s.tlsLetsEncryptHostname != "" && (s.tlsCertPath != "" || s.tlsKeyPath != "")
  }

  /** Rule 2: TLS-ALPN-01 with a hostname needs a listen address on port 443. */
  predicate AlpnPortMismatch(s: Settings) {
    s.tlsLetsEncryptHostname != "" && s.tlsLetsEncryptChallengeType == "TLS-ALPN-01"
    && !HasSuffix(s.listenAddr, ":443")
  }

  /** Rule 3: the challenge type is neither of the two supported ones. */
  predicate UnsupportedChallengeType(s: Settings) {
    s.tlsLetsEncryptChallengeType != "HTTP-01" && s.tlsLetsEncryptChallengeType != "TLS-ALPN-01"
  }

  /** Rule 4: the server URL has neither an http:// nor an https:// scheme. */
  predicate MissingUrlScheme(s: Settings) {
    !HasPrefix(s.serverUrl, "http://") && !HasPrefix(s.serverUrl, "https://")
  }

  /** The messages of the violated rules, in the order the rules are checked. */
  function Violations(s: Settings): (v: seq<string>)
    ensures |v| <= 4
  {
    (if BothTlsModesSet(s) then [ExclusionMessage] else [])
    + (if AlpnPortMismatch(s) then [PortMessage] else [])
    + (if UnsupportedChallengeType(s) then [ChallengeMessage] else [])
    + (if MissingUrlScheme(s) then [SchemeMessage] else [])
  }

  /** Outcome of the validation step: nil, or one error with the given text. */
  datatype Check = Passed | Failed(text: string)

  /** What validation returns for the given settings. */
  function Outcome(s: Settings): Check {
    var v := Violations(s);
    if v == [] then Passed else Failed(Join(v))
  }

  /**
   * The validation step as the source runs it: each violated rule appends
   * its message and a newline to an error text; a non-empty text is
   * returned without its final newline.
   */
  method Validate(s: Settings) returns (r: Check)
    ensures r == Outcome(s)
  {
    var errorText := "";
    ghost var reported: seq<string> := [];
    assert errorText == Terminated(reported);
    if BothTlsModesSet(s) {
      TerminatedAppend(reported, ExclusionMessage);
      errorText := errorText + ExclusionMessage + "\n";
      reported := reported + [ExclusionMessage];
    }
    if AlpnPortMismatch(s) {
      TerminatedAppend(reported, PortMessage);
      errorText := errorText + PortMessage + "\n";
      reported := reported + [PortMessage];
    }
    if UnsupportedChallengeType(s) {
      TerminatedAppend(reported, ChallengeMessage);
      errorText := errorText + ChallengeMessage + "\n";
      reported := reported + [ChallengeMessage];
    }
    if MissingUrlScheme(s) {
      TerminatedAppend(reported, SchemeMessage);
      errorText := errorText + SchemeMessage + "\n";
      reported := reported + [SchemeMessage];
    }
    assert reported == Violations(s);
    if errorText != "" {
      TrimTerminated(reported);
      r := Failed(TrimSuffix(errorText, "\n"));
    } else {
      r := Passed;
    }
  }

  /** The configuration file as the loader finds it. */
  datatype ConfigFile = Found(settings: Settings) | Unreadable(cause: string)

  datatype ConfigError = ReadError(cause: string) | ValidationError(text: string)

  const ReadErrorPrefix: string := "Fatal error reading config file: "
  const ReadErrorSuffix: string := " \n"

  /** The text of a LoadConfig error: the read error wraps its cause; a validation error is its lines. */
  function ErrorText(e: ConfigError): (t: string)
    ensures e.ReadError? ==>
      HasPrefix(t, ReadErrorPrefix) && HasSuffix(t, ReadErrorSuffix)
      && |t| == |ReadErrorPrefix| + |e.cause| + |ReadErrorSuffix|
      && t[|ReadErrorPrefix|..|t| - |ReadErrorSuffix|] == e.cause
    ensures e.ValidationError? ==> t == e.text
  {
    match e
    case ReadError(cause) => ReadErrorPrefix + cause + ReadErrorSuffix
    case ValidationError(text) => text
  }

  /**
   * LoadConfig after the file search: a file that cannot be read is fatal
   * and skips validation; otherwise validation decides.
   */
  method LoadConfig(file: ConfigFile) returns (err: Option<ConfigError>)
    ensures file.Unreadable? ==> err == Some(ReadError(file.cause))
    ensures file.Found? ==> (err == None <==> Violations(file.settings) == [])
    ensures file.Found? && err.Some? ==> err.value == ValidationError(Join(Violations(file.settings)))
  {
    match file
    case Unreadable(cause) =>
      err := Some(ReadError(cause));
    case Found(s) =>
      var check := Validate(s);
      match check
      case Passed => err := None;
      case Failed(text) => err := Some(ValidationError(text));
  }

  /** One of the four validation messages. */
  predicate IsMessage(m: string) {
    m == ExclusionMessage || m == PortMessage || m == ChallengeMessage || m == SchemeMessage
  }

  lemma ExclusionMessageIsLine()
    ensures '\n' !in ExclusionMessage
  {
    assert '\n' !in FatalPrefix;
    assert '\n' !in "set either ";
    assert '\n' !in "tls_letsencrypt_hostname";
    assert '\n' !in " or tls_cert_path/";
    assert '\n' !in "tls_key_path, not both";
  }

  lemma PortMessageIsLine()
    ensures '\n' !in PortMessage
  {
    assert '\n' !in FatalPrefix;
    assert '\n' !in "when using ";
    assert '\n' !in "tls_letsencrypt_hostname";
    assert '\n' !in " with TLS-ALPN-01";
    assert '\n' !in " as challenge type, ";
    assert '\n' !in "listen_addr must end";
    assert '\n' !in " in :443";
  }

  lemma ChallengeMessageIsLine()
    ensures '\n' !in ChallengeMessage
  {
    assert '\n' !in FatalPrefix;
    assert '\n' !in "the only supported ";
    assert '\n' !in "values for ";
    assert '\n' !in "tls_letsencrypt_challenge_type";
    assert '\n' !in " are HTTP-01 and ";
    assert '\n' !in "TLS-ALPN-01";
  }

  lemma SchemeMessageIsLine()
    ensures '\n' !in SchemeMessage
  {
    assert '\n' !in FatalPrefix;
    assert '\n' !in "server_url must start";
    assert '\n' !in " with https:// or ";
    assert '\n' !in "http://";
  }

  lemma MessagesAreLines(m: string)
    requires IsMessage(m)
    ensures '\n' !in m && m != ""
  {
    ExclusionMessageIsLine();
    PortMessageIsLine();
    ChallengeMessageIsLine();
    SchemeMessageIsLine();
  }

  lemma ViolationsAreLines(s: Settings)
    ensures SingleLines(Violations(s))
    ensures forall i :: 0 <= i < |Violations(s)| ==> Violations(s)[i] != ""
  {
    var v := Violations(s);
    assert forall i :: 0 <= i < |v| ==> IsMessage(v[i]);
    forall i | 0 <= i < |v|
      ensures '\n' !in v[i] && v[i] != ""
    {
      MessagesAreLines(v[i]);
    }
  }

  /**
   * Validation aggregates: it passes iff no rule is violated, and otherwise
   * its text splits into exactly the violated rules' messages, in check
   * order, without a trailing newline.
   */
  lemma ValidationReportsEachViolation(s: Settings)
    ensures Outcome(s).Passed? <==> Violations(s) == []
    ensures Outcome(s).Failed? ==> Split(Outcome(s).text) == Violations(s)
    ensures Outcome(s).Failed? ==> !HasSuffix(Outcome(s).text, "\n")
  {
    var v := Violations(s);
    if v != [] {
      ViolationsAreLines(s);
      SplitJoin(v);
      JoinHasNoTrailingNewline(v);
    }
  }

  /** The lines of the error text, or none when validation passes. */
  function ReportedLines(s: Settings): seq<string> {
    match Outcome(s)
    case Passed => []
    case Failed(text) => Split(text)
  }

  lemma ReportedLinesAreViolations(s: Settings)
    ensures ReportedLines(s) == Violations(s)
  {
    ValidationReportsEachViolation(s);
  }

  /** The mutual-exclusion line appears iff a hostname and a certificate or key path are both set. */
  lemma ExclusionRule(s: Settings)
    ensures ExclusionMessage in ReportedLines(s)
      <==> s.tlsLetsEncryptHostname != "" && (s.tlsCertPath != "" || s.tlsKeyPath != "")
  {
    ReportedLinesAreViolations(s);
  }

  /** The port line appears iff a hostname is set, the challenge is TLS-ALPN-01 and the address does not end in :443. */
  lemma PortRule(s: Settings)
    ensures PortMessage in ReportedLines(s)
      <==> s.tlsLetsEncryptHostname != "" && s.tlsLetsEncryptChallengeType == "TLS-ALPN-01"
           && !HasSuffix(s.listenAddr, ":443")
    ensures s.tlsLetsEncryptChallengeType == "HTTP-01" ==> PortMessage !in ReportedLines(s)
  {
    ReportedLinesAreViolations(s);
  }

  /** The challenge-type line appears iff the type is unsupported, whatever the hostname. */
  lemma ChallengeRule(s: Settings, hostname: string)
    ensures ChallengeMessage in ReportedLines(s)
      <==> s.tlsLetsEncryptChallengeType != "HTTP-01" && s.tlsLetsEncryptChallengeType != "TLS-ALPN-01"
    ensures (ChallengeMessage in ReportedLines(s))
      == (ChallengeMessage in ReportedLines(s.(tlsLetsEncryptHostname := hostname)))
  {
    ReportedLinesAreViolations(s);
    ReportedLinesAreViolations(s.(tlsLetsEncryptHostname := hostname));
  }

  /** The scheme line appears iff the server URL starts with neither http:// nor https://. */
  lemma SchemeRule(s: Settings)
    ensures SchemeMessage in ReportedLines(s)
      <==> !HasPrefix(s.serverUrl, "http://") && !HasPrefix(s.serverUrl, "https://")
  {
    ReportedLinesAreViolations(s);
  }

  /**
   * No short-circuiting: an empty server URL, a hostname with a certificate
   * or key path and an unsupported challenge type give a three-line error.
   */
  lemma ThreeViolationsThreeLines(s: Settings)
    requires s.serverUrl == "" && s.tlsLetsEncryptHostname != ""
    requires s.tlsCertPath != "" || s.tlsKeyPath != ""
    requires UnsupportedChallengeType(s)
    ensures Outcome(s).Failed?
    ensures ReportedLines(s) == [ExclusionMessage, ChallengeMessage, SchemeMessage]
  {
    ReportedLinesAreViolations(s);
  }
}

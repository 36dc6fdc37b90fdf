/**
 * Configuration of the mirror middleware and its validator `New`
 * (plugin/mirror/mirror.go). Durations (`time.Duration`) are nanosecond
 * counts; only their sign is ever inspected.
 */
module MirrorConfig {

  datatype Result<+T, +E> = Ok(value: T) | Err(error: E)

  /** A mirror target, transport timeouts and limiter parameters. */
  datatype Config = Config(
    scheme: string,
    host: string,
    timeout: int,
    keepAlive: int,
    tlsHandshakeTimeout: int,
    connections: int,
    variable: string)

  /** One constructor per guard of `New`; `Message` gives the text the source reports. */
  datatype ConfigError =
    | EmptySchemeOrHost
    | InvalidScheme
    | NegativeTimeout
    | NegativeKeepAlive
    | NegativeTLSHandshakeTimeout
    | NegativeConnections
    | WrongHeader(header: string)
    | UnsupportedVariable(variable: string)

  const HeaderPrefix: string := "request.header."
  const ClientIP: string := "client.ip"
  const RequestHost: string := "request.host"

  /** The only limiting variables the validator lets through. */
  const SupportedVariables: set<string> := {ClientIP, RequestHost}
  const SupportedSchemes: set<string> := {"http", "https"}

  /** `strings.HasPrefix`. */
  predicate HasPrefix(s: string, prefix: string) {
    |prefix| <= |s| && s[..|prefix|] == prefix
  }

  /** `strings.TrimPrefix`: drops `prefix` when `s` starts with it, else returns `s`. */
  function TrimPrefix(s: string, prefix: string): (r: string)
    ensures HasPrefix(s, prefix) ==> prefix + r == s
    ensures !HasPrefix(s, prefix) ==> r == s
  {
    if HasPrefix(s, prefix) then s[|prefix|..] else s
  }

  /** The error text `New` returns for each failure; its first two characters already name the guard. */
  function Message(e: ConfigError): (m: string)
    ensures |m| >= 2 && m[0] == Head(e)[0] && m[1] == Head(e)[1]
  {
    match e
    case EmptySchemeOrHost => "Scheme and host can't be empty."
    case InvalidScheme => "Invalid scheme, only http[s] allowed."
    case NegativeTimeout => "Timeout can't be less zero."
    case NegativeKeepAlive => "Keepalive can't be less zero."
    case NegativeTLSHandshakeTimeout => "TLSHandshakeTimeout can't be less zero."
    case NegativeConnections => "Connections limit can't be less zero."
    case WrongHeader(header) => "Wrong header: " + header
    case UnsupportedVariable(variable) => "Unsupported limiting variable: '" + variable + "'"
  }

  /** The validator: guard checks in source order, the first failing one decides the error. */
  function New(scheme: string, host: string, timeout: int, keepAlive: int,
               tlsHandshakeTimeout: int, connections: int, variable: string): (r: Result<Config, ConfigError>)
    ensures r.Ok? ==> Valid(r.value)
    ensures r.Ok? ==> r.value == Config(scheme, host, timeout, keepAlive, tlsHandshakeTimeout, connections, variable)
  {
    if scheme == "" || host == "" then Err(EmptySchemeOrHost)
    else if scheme != "http" && scheme != "https" then Err(InvalidScheme)
    else if timeout < 0 then Err(NegativeTimeout)
    else if keepAlive < 0 then Err(NegativeKeepAlive)
    else if tlsHandshakeTimeout < 0 then Err(NegativeTLSHandshakeTimeout)
    else if connections < 0 then Err(NegativeConnections)
    else if HasPrefix(variable, HeaderPrefix) && |TrimPrefix(variable, HeaderPrefix)| == 0 then
      Err(WrongHeader(TrimPrefix(variable, HeaderPrefix)))
    else if variable != ClientIP && variable != RequestHost then Err(UnsupportedVariable(variable))
    else Ok(Config(scheme, host, timeout, keepAlive, tlsHandshakeTimeout, connections, variable))
  }

  /** Re-validates an existing configuration by passing its own fields to `New`. */
  function FromOther(c: Config): (r: Result<Config, ConfigError>)
    ensures r.Ok? ==> r.value == c
  {
    New(c.scheme, c.host, c.timeout, c.keepAlive, c.tlsHandshakeTimeout, c.connections, c.variable)
  }

  /** What a valid configuration is, stated independently of the guard chain. */
  predicate Valid(c: Config) {
    && c.scheme in SupportedSchemes
    && c.host != ""
    && c.timeout >= 0
    && c.keepAlive >= 0
    && c.tlsHandshakeTimeout >= 0
    && c.connections >= 0
    && c.variable in SupportedVariables
  }

  /** A guard of the validator: whether it passes, and the error it reports if not. */
  datatype Check = Check(passes: bool, error: ConfigError)

  /**
   * The validator's guards as a table, in the order they are evaluated. The
   * header guard fails exactly when the variable is the bare prefix, i.e. the
   * header name after it is empty.
   */
  function Checks(c: Config): seq<Check> {
    [ Check(c.scheme != "" && c.host != "", EmptySchemeOrHost),
      Check(c.scheme in SupportedSchemes, InvalidScheme),
      Check(c.timeout >= 0, NegativeTimeout),
      Check(c.keepAlive >= 0, NegativeKeepAlive),
      Check(c.tlsHandshakeTimeout >= 0, NegativeTLSHandshakeTimeout),
      Check(c.connections >= 0, NegativeConnections),
      Check(c.variable != HeaderPrefix, WrongHeader("")),
      Check(c.variable in SupportedVariables, UnsupportedVariable(c.variable)) ]
  }

  /** The header guard fails exactly on the bare prefix, whose header name is empty. */
  lemma BareHeaderPrefix(variable: string)
    ensures (HasPrefix(variable, HeaderPrefix) && |TrimPrefix(variable, HeaderPrefix)| == 0)
      <==> variable == HeaderPrefix
  {
    if HasPrefix(variable, HeaderPrefix) && |TrimPrefix(variable, HeaderPrefix)| == 0 {
      assert variable == variable[..|HeaderPrefix|];
    }
  }

  /** `New` succeeds exactly on valid inputs, and then returns them unchanged as a `Config`. */
  lemma NewAcceptsExactlyValid(scheme: string, host: string, timeout: int, keepAlive: int,
                               tlsHandshakeTimeout: int, connections: int, variable: string)
    ensures var c := Config(scheme, host, timeout, keepAlive, tlsHandshakeTimeout, connections, variable);
      && (New(scheme, host, timeout, keepAlive, tlsHandshakeTimeout, connections, variable).Ok? <==> Valid(c))
      && (New(scheme, host, timeout, keepAlive, tlsHandshakeTimeout, connections, variable).Ok? ==>
            New(scheme, host, timeout, keepAlive, tlsHandshakeTimeout, connections, variable).value == c)
  {
  }

  /** `New` succeeds exactly when every guard of the table passes. */
  lemma NewSucceedsIffAllChecksPass(c: Config)
    ensures FromOther(c).Ok? <==> forall k :: 0 <= k < |Checks(c)| ==> Checks(c)[k].passes
  {
    var cs := Checks(c);
    BareHeaderPrefix(c.variable);
    assert (forall k :: 0 <= k < |cs| ==> cs[k].passes) <==>
      cs[0].passes && cs[1].passes && cs[2].passes && cs[3].passes &&
      cs[4].passes && cs[5].passes && cs[6].passes && cs[7].passes;
  }

  /** When guard `k` is the first to fail, `New` reports exactly that guard's error. */
  lemma NewReportsFirstFailingCheck(c: Config, k: nat)
    requires k < |Checks(c)| && !Checks(c)[k].passes
    requires forall j :: 0 <= j < k ==> Checks(c)[j].passes
    ensures New(c.scheme, c.host, c.timeout, c.keepAlive, c.tlsHandshakeTimeout,
                c.connections, c.variable) == Err(Checks(c)[k].error)
  {
    var cs := Checks(c);
    BareHeaderPrefix(c.variable);
    assert k > 0 ==> cs[0].passes;
    assert k > 1 ==> cs[1].passes;
    assert k > 2 ==> cs[2].passes;
    assert k > 3 ==> cs[3].passes;
    assert k > 4 ==> cs[4].passes;
    assert k > 5 ==> cs[5].passes;
    assert k > 6 ==> cs[6].passes;
  }

  /**
   * Every `request.header.*` variable is rejected, although the CLI usage text
   * advertises it: a bare prefix fails the header guard, any other fails the
   * variable guard. Which error is seen depends only on the variable once the
   * earlier guards pass.
   */
  lemma HeaderVariablesRejected(scheme: string, host: string, timeout: int, keepAlive: int,
                                tlsHandshakeTimeout: int, connections: int, variable: string)
    requires HasPrefix(variable, HeaderPrefix)
    ensures New(scheme, host, timeout, keepAlive, tlsHandshakeTimeout, connections, variable).Err?
    ensures Valid(Config(scheme, host, timeout, keepAlive, tlsHandshakeTimeout, connections, ClientIP)) ==>
      New(scheme, host, timeout, keepAlive, tlsHandshakeTimeout, connections, variable).error ==
        if variable == HeaderPrefix then WrongHeader("") else UnsupportedVariable(variable)
  {
  }

  /** Different failures are reported with different texts. */
  lemma MessagesDistinct(e1: ConfigError, e2: ConfigError)
    requires e1 != e2
    ensures Message(e1) != Message(e2)
  {
    if e1.WrongHeader? && e2.WrongHeader? {
      var p := "Wrong header: ";
      assert Message(e1)[|p|..] == e1.header;
      assert Message(e2)[|p|..] == e2.header;
    } else if e1.UnsupportedVariable? && e2.UnsupportedVariable? {
      var p := "Unsupported limiting variable: '";
      assert Message(e1)[|p|..|Message(e1)| - 1] == e1.variable;
      assert Message(e2)[|p|..|Message(e2)| - 1] == e2.variable;
    } else {
      assert Message(e1)[..2] == [Message(e1)[0], Message(e1)[1]];
      assert Message(e2)[..2] == [Message(e2)[0], Message(e2)[1]];
    }
  }

  /** The first two characters of each message; they already tell the guards apart. */
  function Head(e: ConfigError): string {
    match e
    case EmptySchemeOrHost => "Sc"
    case InvalidScheme => "In"
    case NegativeTimeout => "Ti"
    case NegativeKeepAlive => "Ke"
    case NegativeTLSHandshakeTimeout => "TL"
    case NegativeConnections => "Co"
    case WrongHeader(_) => "Wr"
    case UnsupportedVariable(_) => "Un"
  }


  /** A configuration `New` produced passes re-validation unchanged. */
  lemma FromOtherRoundTrip(scheme: string, host: string, timeout: int, keepAlive: int,
                           tlsHandshakeTimeout: int, connections: int, variable: string)
    requires New(scheme, host, timeout, keepAlive, tlsHandshakeTimeout, connections, variable).Ok?
    ensures var c := New(scheme, host, timeout, keepAlive, tlsHandshakeTimeout, connections, variable).value;
      FromOther(c) == Ok(c)
  {
  }

  /** Re-validation never alters a configuration: it either rejects it or returns it as is. */
  lemma FromOtherIdempotent(c: Config)
    ensures FromOther(c).Ok? ==> FromOther(c).value == c
    ensures FromOther(c).Ok? <==> Valid(c)
  {
  }
}

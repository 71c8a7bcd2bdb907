/** `NatsConnectionFactory`: resolving the connect timeout, URL and credentials
    from configuration, connecting, and logging a failure unless asked to be
    silent before rethrowing it. The NATS client's own connect call is an
    oracle: `dial` is what it yields (a connection id, or the error it throws). */
module NatsConnections {
  import opened Common
  import opened Text

  const TIMEOUT_KEY: string := "Weikio:Nats:Timeout"
  const URL_KEY: string := "Weikio:Nats:Url"
  const USERNAME_KEY: string := "Weikio:Nats:Username"
  const PASSWORD_KEY: string := "Weikio:Nats:Password"

  /** `TimeSpan.FromSeconds(10).TotalMilliseconds`. */
  const DEFAULT_TIMEOUT_MS: int := 10000
  const DEFAULT_URL: string := "nats://localhost:4222"
  const CONNECT_ERROR_MESSAGE: string := "Failed to create NATS Connection"

  const INT32_MIN: int := -0x8000_0000
  const INT32_MAX: int := 0x7FFF_FFFF

  /** Flattened `IConfiguration`: a missing key reads as null. */
  type Configuration = map<string, string>

  /** The fields of the NATS `Options` object that the factory sets. */
  datatype ConnectOptions = ConnectOptions(
    timeout: int,
    url: Option<string>,
    user: Option<string>,
    password: Option<string>)

  /** `ConnectionFactory.GetDefaultOptions()`, as far as these fields go: the
      client's own timeout, and no URL or credentials. */
  function DefaultOptions(): ConnectOptions {
    ConnectOptions(2000, None, None, None)
  }

  /** An open connection, with the options it was opened with. */
  datatype Connection = Connection(id: nat, options: ConnectOptions)

  /** The white space `int.Parse` skips around a number. */
  predicate IsNumberWhite(c: char) {
    c == ' ' || ('\t' <= c <= '\r')
  }

  function TrimStart(s: string): string {
    if |s| > 0 && IsNumberWhite(s[0]) then TrimStart(s[1..]) else s
  }

  function TrimEnd(s: string): string {
    if |s| > 0 && IsNumberWhite(s[|s| - 1]) then TrimEnd(s[..|s| - 1]) else s
  }

  /** `int.Parse(s)` in the invariant culture: optional white space, an optional
      sign, one or more decimal digits, optional white space, and any number of
      trailing NUL characters, which the .NET parser ignores; a value outside
      the 32-bit range overflows. */
  function ParseInt32(s: string): (r: Result<int>)
    ensures r.Success? ==> INT32_MIN <= r.value <= INT32_MAX
    ensures r.Failure? ==> r.error in {FormatException(s), OverflowException(s)}
  {
    ParseTrimmed(TrimEnd(TrimStart(TrimTrailingNuls(s))), s)
  }

  function TrimTrailingNuls(s: string): string {
    if |s| > 0 && s[|s| - 1] == '\0' then TrimTrailingNuls(s[..|s| - 1]) else s
  }

  /** The number `int.Parse(s)` reads once white space is trimmed off to `t`. */
  function ParseTrimmed(t: string, s: string): (r: Result<int>)
    ensures r.Success? ==> INT32_MIN <= r.value <= INT32_MAX
    ensures r.Failure? ==> r.error in {FormatException(s), OverflowException(s)}
  {
    var signed := |t| > 0 && (t[0] == '-' || t[0] == '+');
    var digits := if signed then t[1..] else t;
    if |digits| == 0 || !AllDigits(digits) then Failure(FormatException(s))
    else
      var v: int := if signed && t[0] == '-' then -(DigitsValue(digits) as int) else DigitsValue(digits);
      if v < INT32_MIN || v > INT32_MAX then Failure(OverflowException(s)) else Success(v)
  }

  /** `n.ToString()` in the invariant culture. */
  function Int32ToString(n: int): string {
    if n < 0 then "-" + Decimal(-n) else Decimal(n)
  }

  predicate AllNumberWhite(s: string) {
    forall i :: 0 <= i < |s| ==> IsNumberWhite(s[i])
  }

  lemma {:induction false} TrimStartWhite(pre: string, y: string)
    requires AllNumberWhite(pre)
    requires |y| > 0 && !IsNumberWhite(y[0])
    ensures TrimStart(pre + y) == y
  {
    if |pre| == 0 {
      assert pre + y == y;
    } else {
      assert (pre + y)[1..] == pre[1..] + y;
      TrimStartWhite(pre[1..], y);
    }
  }

  lemma {:induction false} TrimEndWhite(x: string, post: string)
    requires AllNumberWhite(post)
    requires |x| > 0 && !IsNumberWhite(x[|x| - 1])
    ensures TrimEnd(x + post) == x
  {
    if |post| == 0 {
      assert x + post == x;
    } else {
      assert (x + post)[..|x + post| - 1] == x + post[..|post| - 1];
      TrimEndWhite(x, post[..|post| - 1]);
    }
  }

  /** A number written out is read back by the trimmed-number parser. */
  lemma Int32ReadBack(n: int, s: string)
    requires INT32_MIN <= n <= INT32_MAX
    ensures ParseTrimmed(Int32ToString(n), s) == Success(n)
  {
    var m := if n < 0 then -n else n;
    PadDigitsValue(m, DigitCount(m));
    if n < 0 {
      assert Int32ToString(n)[1..] == Decimal(m);
    }
  }

  lemma {:induction false} TrimNulsOff(x: string, nuls: string)
    requires forall i :: 0 <= i < |nuls| ==> nuls[i] == '\0'
    requires |x| > 0 && x[|x| - 1] != '\0'
    ensures TrimTrailingNuls(x + nuls) == x
  {
    if |nuls| == 0 {
      assert x + nuls == x;
    } else {
      assert (x + nuls)[..|x + nuls| - 1] == x + nuls[..|nuls| - 1];
      TrimNulsOff(x, nuls[..|nuls| - 1]);
    }
  }

  /** Every 32-bit number, written out, surrounded by any white space that
      `int.Parse` skips and followed by any number of NUL characters, parses
      back to itself. */
  lemma Int32RoundTrip(n: int, pre: string, post: string, nuls: string)
    requires INT32_MIN <= n <= INT32_MAX
    requires AllNumberWhite(pre) && AllNumberWhite(post)
    requires forall i :: 0 <= i < |nuls| ==> nuls[i] == '\0'
    ensures ParseInt32(pre + Int32ToString(n) + post + nuls) == Success(n)
  {
    var x := Int32ToString(n);
    var s := pre + x + post;
    var d := Decimal(if n < 0 then -n else n);
    assert x[|x| - 1] == d[|d| - 1];
    assert !IsNumberWhite(x[0]);
    assert s[|s| - 1] != '\0' by {
      if |post| > 0 {
        assert s[|s| - 1] == post[|post| - 1];
        assert IsNumberWhite(post[|post| - 1]);
      } else {
        assert s[|s| - 1] == x[|x| - 1];
      }
    }
    TrimNulsOff(s, nuls);
    TrimEndWhite(x, post);
    TrimStartWhite(pre, x + post);
    assert s == pre + (x + post);
    Int32ReadBack(n, s + nuls);
  }

  /** `Create(bool silent)`'s timeout: ten seconds unless configured, and then
      whatever `int.Parse` makes of the configured text (which may throw). */
  function ResolveTimeout(configuration: Configuration): (r: Result<int>)
    ensures TIMEOUT_KEY !in configuration ==> r == Success(DEFAULT_TIMEOUT_MS)
    ensures TIMEOUT_KEY in configuration ==> r == ParseInt32(configuration[TIMEOUT_KEY])
  {
    match Lookup(configuration, TIMEOUT_KEY)
    case None => Success(DEFAULT_TIMEOUT_MS)
    case Some(text) => ParseInt32(text)
  }

  /** The options `Create(silent, timeout)` connects with: the given timeout;
      the configured URL unless it is null or white space, when the local
      default is used; the user name and password only when they are neither
      null nor white space. */
  ghost predicate ResolvedOptions(configuration: Configuration, timeout: int, o: ConnectOptions) {
    var url := Lookup(configuration, URL_KEY);
    var user := Lookup(configuration, USERNAME_KEY);
    var password := Lookup(configuration, PASSWORD_KEY);
    && o.timeout == timeout
    && (IsNullOrWhiteSpace(url) ==> o.url == Some(DEFAULT_URL))
    && (!IsNullOrWhiteSpace(url) ==> o.url == url)
    && (IsNullOrWhiteSpace(user) ==> o.user == None)
    && (!IsNullOrWhiteSpace(user) ==> o.user == user)
    && (IsNullOrWhiteSpace(password) ==> o.password == None)
    && (!IsNullOrWhiteSpace(password) ==> o.password == password)
  }

  /** What `Create(silent, timeout)` is required to do. Setting a negative
      timeout on the options throws `ArgumentOutOfRangeException` before any
      connection attempt; otherwise the connection is opened with the resolved
      options, or the client's error is rethrown unchanged. Whatever is thrown
      inside the try block is logged exactly when `silent` is false. */
  ghost predicate CreatedAs(configuration: Configuration, silent: bool, timeout: int,
                            dial: Result<nat>, r: Result<Connection>, errorLogged: bool)
  {
    && (timeout < 0 ==> r == Failure(ArgumentOutOfRange(timeout)) && errorLogged == !silent)
    && (timeout >= 0 && dial.Failure? ==> r == Failure(dial.error) && errorLogged == !silent)
    && (timeout >= 0 && dial.Success? ==>
          && r.Success? && !errorLogged && r.value.id == dial.value
          && ResolvedOptions(configuration, timeout, r.value.options))
  }

  /** What one call of a `Create` overload ends with: a connection or the
      exception it throws, and whether it logged the connect error. */
  datatype ConnectOutcome = ConnectOutcome(result: Result<Connection>, errorLogged: bool)

  /** The outcome of `Create(silent, timeout)`. */
  function Connect(configuration: Configuration, silent: bool, timeout: int, dial: Result<nat>): (o: ConnectOutcome)
    ensures CreatedAs(configuration, silent, timeout, dial, o.result, o.errorLogged)
  {
    if timeout < 0 then ConnectOutcome(Failure(ArgumentOutOfRange(timeout)), !silent)
    else
      match dial
      case Failure(e) => ConnectOutcome(Failure(e), !silent)
      case Success(id) =>
        var url := Lookup(configuration, URL_KEY);
        var user := Lookup(configuration, USERNAME_KEY);
        var password := Lookup(configuration, PASSWORD_KEY);
        var options := ConnectOptions(timeout, if IsNullOrWhiteSpace(url) then Some(DEFAULT_URL) else url,
                                      if IsNullOrWhiteSpace(user) then None else user,
                                      if IsNullOrWhiteSpace(password) then None else password);
        ConnectOutcome(Success(Connection(id, options)), false)
  }

  /** The outcome of `Create(silent)`: the timeout is resolved outside the try
      block, so a malformed configured timeout throws without being logged. */
  function CreateOutcome(configuration: Configuration, silent: bool, dial: Result<nat>): (o: ConnectOutcome)
    ensures ResolveTimeout(configuration).Failure? ==>
      o == ConnectOutcome(Failure(ResolveTimeout(configuration).error), false)
    ensures ResolveTimeout(configuration).Success? ==>
      o == Connect(configuration, silent, ResolveTimeout(configuration).value, dial)
  {
    match ResolveTimeout(configuration)
    case Failure(e) => ConnectOutcome(Failure(e), false)
    case Success(timeout) => Connect(configuration, silent, timeout, dial)
  }

  /** Whatever a `Create` overload throws is the timeout's parse error, the
      timeout setter's error or the client's own error; a connect error is
      logged only when not silent, and never when a connection is returned. */
  lemma CreateOutcomeErrors(configuration: Configuration, silent: bool, dial: Result<nat>)
    ensures var o := CreateOutcome(configuration, silent, dial);
      && (o.errorLogged ==> !silent && o.result.Failure?)
      && (o.result.Failure? ==>
            || (ResolveTimeout(configuration).Failure? && o.result.error == ResolveTimeout(configuration).error)
            || o.result.error.ArgumentOutOfRange?
            || (dial.Failure? && o.result.error == dial.error))
      && (o.result.Success? <==> ResolveTimeout(configuration).Success? && ResolveTimeout(configuration).value >= 0
                                 && dial.Success?)
  {
  }

  class NatsConnectionFactory {
    const configuration: Configuration

    constructor (configuration: Configuration)
      ensures this.configuration == configuration
    {
      this.configuration := configuration;
    }

    /** `Create()`: the same as `Create(false)`. */
    method Create(dial: Result<nat>) returns (r: Result<Connection>, errorLogged: bool)
      ensures ConnectOutcome(r, errorLogged) == CreateOutcome(configuration, false, dial)
    {
      r, errorLogged := CreateQuiet(false, dial);
    }

    /** `Create(int timeout)`: the same as `Create(false, timeout)`. */
    method CreateWithTimeout(timeout: int, dial: Result<nat>) returns (r: Result<Connection>, errorLogged: bool)
      ensures ConnectOutcome(r, errorLogged) == Connect(configuration, false, timeout, dial)
    {
      r, errorLogged := CreateConnection(false, timeout, dial);
    }

    /** `Create(bool silent)`: ten seconds unless a timeout is configured, and
        then that text parsed, before delegating. */
    method CreateQuiet(silent: bool, dial: Result<nat>) returns (r: Result<Connection>, errorLogged: bool)
      ensures ConnectOutcome(r, errorLogged) == CreateOutcome(configuration, silent, dial)
    {
      var timeout := DEFAULT_TIMEOUT_MS;
      var timeoutFromConfiguration := Lookup(configuration, TIMEOUT_KEY);
      if timeoutFromConfiguration.Some? {
        var parsed := ParseInt32(timeoutFromConfiguration.value);
        if parsed.Failure? {
          return Failure(parsed.error), false;
        }
        timeout := parsed.value;
      }
      r, errorLogged := CreateConnection(silent, timeout, dial);
    }

    /** `Create(bool silent, int timeout)`: fills in the options field by field,
        then connects; the catch block logs unless silent and rethrows. */
    method CreateConnection(silent: bool, timeout: int, dial: Result<nat>)
      returns (r: Result<Connection>, errorLogged: bool)
      ensures ConnectOutcome(r, errorLogged) == Connect(configuration, silent, timeout, dial)
    {
      var opts := DefaultOptions();
      if timeout < 0 {
        // the `Timeout` setter throws; the catch block logs unless silent and rethrows
        errorLogged := !silent;
        r := Failure(ArgumentOutOfRange(timeout));
        return;
      }
      opts := opts.(timeout := timeout);
      var url := Lookup(configuration, URL_KEY);
      var username := Lookup(configuration, USERNAME_KEY);
      var password := Lookup(configuration, PASSWORD_KEY);
      opts := opts.(url := if IsNullOrWhiteSpace(url) then Some(DEFAULT_URL) else url);
      if !IsNullOrWhiteSpace(username) {
        opts := opts.(user := username);
      }
      if !IsNullOrWhiteSpace(password) {
        opts := opts.(password := password);
      }
      match dial {
        case Success(id) =>
          r, errorLogged := Success(Connection(id, opts)), false;
        case Failure(e) =>
          // the catch block: log unless silent, then rethrow
          errorLogged := !silent;
          r := Failure(e);
      }
    }
  }
}

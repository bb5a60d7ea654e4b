/** Server-side utilities (gru/utils.py): the log level chosen from the
    environment, the TLS option decision tree, and the way a failed SSH
    connect is turned into the message a user sees. The environment, the file
    system and the SSH library are parameters. */
module Utils {
  import opened Common

  // ---------------------------------------------------------------------------
  // get_logging_level
  // ---------------------------------------------------------------------------

  /** The values of Python's logging constants. */
  const DEBUG: int := 10
  const INFO: int := 20
  const WARNING: int := 30
  const ERROR: int := 40
  const CRITICAL: int := 50

  /** The table of level names. */
  function LevelTable(): map<string, int> {
    map["info" := INFO, "debug" := DEBUG, "warning" := WARNING,
        "critical" := CRITICAL, "error" := ERROR]
  }

  /** `value.strip().lower()`. */
  function Normalize(value: string): string {
    Lower(Strip(value))
  }

  /** The level named by the `LOG_LEVEL` environment variable (`None` when it
      is unset, which reads as "info"); an unknown name is the KeyError the
      dictionary lookup raises. */
  function GetLoggingLevel(env: Option<string>): (r: Result<int, Exc>)
    ensures r.Failure? ==> r.error.kind == KeyError
  {
    var lvl := Normalize(if env.Some? then env.value else "info");
    if lvl in LevelTable() then Success(LevelTable()[lvl])
    else Failure(Exc(KeyError, "'" + lvl + "'"))
  }

  /** Without `LOG_LEVEL` the level is INFO. */
  lemma LoggingLevelDefault()
    ensures GetLoggingLevel(None) == Success(INFO)
  {
    NormalizeDefault();
    InfoLevel();
  }

  lemma InfoLevel()
    ensures "info" in LevelTable() && LevelTable()["info"] == INFO
  {
  }

  /** A set variable names a level iff, stripped and lower-cased, it is one of
      the five names, and the level is then one of the five values. */
  lemma LoggingLevelNamed(value: string)
    ensures GetLoggingLevel(Some(value)).Success? <==> Normalize(value) in LevelTable()
    ensures GetLoggingLevel(Some(value)).Success? ==>
      GetLoggingLevel(Some(value)).value in {DEBUG, INFO, WARNING, ERROR, CRITICAL}
  {
    if Normalize(value) in LevelTable() {
      LevelTableValues(Normalize(value));
    }
  }

  lemma LevelTableValues(name: string)
    requires name in LevelTable()
    ensures LevelTable()[name] in {DEBUG, INFO, WARNING, ERROR, CRITICAL}
  {
  }

  lemma NormalizeDefault()
    ensures Normalize("info") == "info"
  {
    StripNoSpace("info");
    LowerNoUpper("info");
  }

  /** Normalizing twice is normalizing once. */
  lemma NormalizeIdempotent(value: string)
    ensures Normalize(Normalize(value)) == Normalize(value)
  {
    var t := Strip(value);
    LowerStrip(t);
    StripIdempotent(value);
    LowerIdempotent(t);
  }

  /** Surrounding white space and letter case never change the chosen level. */
  lemma LevelIgnoresCaseAndSpace(value: string)
    ensures GetLoggingLevel(Some(value)) == GetLoggingLevel(Some(Normalize(value)))
  {
    NormalizeIdempotent(value);
  }

  // ---------------------------------------------------------------------------
  // get_ssl_context
  // ---------------------------------------------------------------------------

  /** A server-side TLS context loaded from a certificate and a key file. */
  datatype SslContext = SslContext(certFile: string, keyFile: string)

  /** `cert` and `key` are the configured paths ("" when not provided);
      `isFile` is the file-system test and `loadError` what
      `load_cert_chain` raises on the two files (an SSLError for a file that
      is not a certificate or a key that does not match), if anything. */
  function GetSslContext(cert: string, key: string, isFile: string -> bool, loadError: Option<Exc>)
    : (r: Result<Option<SslContext>, Exc>)
    ensures r == Success(None) <==> cert == "" && key == ""
    ensures r.Success? && r.value.Some? <==> cert != "" && key != "" && isFile(cert) && isFile(key) && loadError.None?
    ensures r.Success? && r.value.Some? ==> r.value.value == SslContext(cert, key)
    ensures cert == "" && key != "" ==> r == Failure(Exc(ValueError, "cert_file is not provided"))
    ensures cert != "" && key == "" ==> r == Failure(Exc(ValueError, "key_file is not provided"))
    ensures cert != "" && key != "" && !isFile(cert) ==> r == Failure(Exc(ValueError, "File " + cert + " does not exist"))
    ensures cert != "" && key != "" && isFile(cert) && !isFile(key) ==> r == Failure(Exc(ValueError, "File " + key + " does not exist"))
    ensures cert != "" && key != "" && isFile(cert) && isFile(key) && loadError.Some? ==> r == Failure(loadError.value)
  {
    if cert == "" && key == "" then Success(None)
    else if cert == "" then Failure(Exc(ValueError, "cert_file is not provided"))
    else if key == "" then Failure(Exc(ValueError, "key_file is not provided"))
    else if !isFile(cert) then Failure(Exc(ValueError, "File " + cert + " does not exist"))
    else if !isFile(key) then Failure(Exc(ValueError, "File " + key + " does not exist"))
    else if loadError.Some? then Failure(loadError.value)
    else Success(Some(SslContext(cert, key)))
  }

  /** When both files are missing, the error names the certificate; the
      files are never loaded. */
  lemma CertCheckedBeforeKey(cert: string, key: string, isFile: string -> bool, loadError: Option<Exc>)
    requires cert != "" && key != "" && !isFile(cert) && !isFile(key)
    ensures GetSslContext(cert, key, isFile, loadError).Failure?
    ensures GetSslContext(cert, key, isFile, loadError).error.message == "File " + cert + " does not exist"
  {
  }

  // ---------------------------------------------------------------------------
  // create_ssh_client
  // ---------------------------------------------------------------------------

  /** What one `ssh.connect` call does. */
  datatype ConnectOutcome = Connected | Raised(exc: Exc)

  /** The result of `create_ssh_client`: the exception it lets out, if any,
      and how many times it called `connect`. */
  datatype Connection = Connection(error: Option<Exc>, attempts: nat)

  function UnableToConnect(host: string, port: int): string {
    "Unable to connect to " + host + ":" + IntToString(port)
  }

  /** The exception a connect outcome propagates as, unmapped. */
  function Propagated(o: ConnectOutcome): Option<Exc> {
    match o
    case Connected => None
    case Raised(e) => Some(e)
  }

  /** `first` is the outcome of the first connect and `retry` that of the
      second, which happens only after an EOFError. A socket error (timeouts
      included) and an authentication failure become ValueErrors with fixed
      messages; an error of the retry is not mapped. */
  function CreateSshClient(host: string, port: int, first: ConnectOutcome, retry: ConnectOutcome): (c: Connection)
    ensures c.attempts == (if first.Raised? && first.exc.kind == EofError then 2 else 1)
    ensures first == Connected ==> c.error == None
    ensures first.Raised? && first.exc.kind in {SocketError, SocketTimeout}
      ==> c.error == Some(Exc(ValueError, UnableToConnect(host, port)))
    ensures first.Raised? && first.exc.kind == AuthError
      ==> c.error == Some(Exc(ValueError, "Authentication failed."))
    ensures first.Raised? && first.exc.kind == EofError ==> c.error == Propagated(retry)
    ensures first.Raised? && first.exc.kind !in {SocketError, SocketTimeout, AuthError, EofError}
      ==> c.error == Some(first.exc)
  {
    match first
    case Connected => Connection(None, 1)
    case Raised(e) =>
      if e.kind == SocketError || e.kind == SocketTimeout then
        Connection(Some(Exc(ValueError, UnableToConnect(host, port))), 1)
      else if e.kind == AuthError then
        Connection(Some(Exc(ValueError, "Authentication failed.")), 1)
      else if e.kind == EofError then
        Connection(Propagated(retry), 2)
      else
        Connection(Some(e), 1)
  }

  /** Case folding leaves a decimal number alone. */
  lemma LowerIntToString(i: int)
    ensures Lower(IntToString(i)) == IntToString(i)
  {
    var s := IntToString(i);
    var d := NatToDigits(if i < 0 then -i else i);
    assert forall j :: 0 <= j < |d| ==> IsDigit(d[j]);
    assert forall j :: 0 <= j < |s| ==> s[j] == '-' || IsDigit(s[j]);
  }

  /** The lower-cased "Unable to connect" message keeps the host, lower-cased,
      and the port. */
  lemma UnableToConnectLower(host: string, port: int)
    ensures Lower(UnableToConnect(host, port)) == "unable to connect to " + Lower(host) + ":" + IntToString(port)
  {
    var head, tail := "Unable to connect to ", IntToString(port);
    LowerConcat(head, host);
    LowerConcat(head + host, ":");
    LowerConcat(head + host + ":", tail);
    LowerIntToString(port);
    LowerConnectHead();
  }

  lemma LowerConnectHead()
    ensures Lower("Unable to connect to ") == "unable to connect to "
    ensures Lower(":") == ":"
  {
  }
}

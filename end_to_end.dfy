/** Properties that span the browser and the server: what the server decides
    about a login and how the browser reacts, and what the server makes of
    the messages the browser sends on the WebSocket. */
module EndToEnd {
  import opened Common
  import opened Utils
  import opened Handlers
  import opened ClientTerminal

  /** The object the server's `json.loads` makes of a message the browser's
      `JSON.stringify` sent. */
  function Wire(m: ClientMsg): map<string, Json> {
    match m
    case ResizeMsg(c, r) => map["resize" := JArray([JInt(c), JInt(r)])]
    case DataMsg(d) => map["data" := JString(d)]
  }

  /** The answer the browser gets when `post` writes `result`. */
  function Answer(result: LoginResult): Response {
    Response(200, "OK", Some(result))
  }

  /** A minion login to localhost that fails at the socket: the server drops
      the stale registration of that port (unless in "term" mode), and the
      browser, seeing the same message, reloads the client list. */
  lemma DanglingMinion(port: int, mode: string, socketErr: Exc, retry: ConnectOutcome)
    requires socketErr.kind in {SocketError, SocketTimeout}
    ensures var c := CreateSshClient("localhost", port, Raised(socketErr), retry);
      && c.error.Some? && CaughtByPost(c.error.value)
      && DanglingCacheKey(c.error.value, port, mode) == (if mode != "term" then Some(IntToString(port)) else None)
      && Classify(Answer(LoginResult(None, Some(c.error.value.message), None))) == NoSession(c.error.value.message, true)
  {
    LocalhostMessage(port);
  }

  lemma LocalhostMessage(port: int)
    ensures StartsWith(Lower(UnableToConnect("localhost", port)), DanglingPrefix)
    ensures StartsWith(Lower(UnableToConnect("localhost", port)), "unable to")
  {
    var tail := ":" + IntToString(port);
    LowerLocalhostMessage(port);
    PrefixOfConcat(DanglingPrefix, tail);
    DanglingPrefixStartsUnableTo();
    PrefixTransitive(DanglingPrefix + tail, DanglingPrefix, "unable to");
  }

  lemma LowerLocalhostMessage(port: int)
    ensures Lower(UnableToConnect("localhost", port)) == DanglingPrefix + (":" + IntToString(port))
  {
    var tail := IntToString(port);
    UnableToConnectLower("localhost", port);
    LocalhostPrefix();
    assert DanglingPrefix + ":" + tail == DanglingPrefix + (":" + tail);
  }

  lemma LocalhostPrefix()
    ensures "unable to connect to " + Lower("localhost") == DanglingPrefix
  {
    LowerNoUpper("localhost");
  }

  lemma DanglingPrefixStartsUnableTo()
    ensures StartsWith(DanglingPrefix, "unable to")
  {
    assert DanglingPrefix[..9] == "unable to";
  }

  lemma PrefixOfConcat(a: string, b: string)
    ensures StartsWith(a + b, a)
  {
    assert (a + b)[..|a|] == a;
  }

  lemma PrefixTransitive(s: string, p: string, q: string)
    requires StartsWith(s, p) && StartsWith(p, q)
    ensures StartsWith(s, q)
  {
    assert s[..|q|] == p[..|q|];
  }

  /** A wrong password is reported but neither deletes a registration nor
      reloads the client list. */
  lemma AuthenticationFailureKeepsClients(host: string, port: int, mode: string, authErr: Exc, retry: ConnectOutcome)
    requires authErr.kind == AuthError
    ensures var c := CreateSshClient(host, port, Raised(authErr), retry);
      && c.error == Some(Exc(ValueError, "Authentication failed."))
      && DanglingCacheKey(c.error.value, port, mode) == None
      && Classify(Answer(LoginResult(None, Some("Authentication failed."), None))) == NoSession("Authentication failed.", false)
  {
    var low := Lower("Authentication failed.");
    assert low[0] == 'a' && low[1] == 'u';
    assert !StartsWith(low, "unable to");
    assert !StartsWith(low, DanglingPrefix);
  }

  /** A successful login gives the browser the session id and encoding the
      server wrote. */
  lemma LoginReady(id: string, encoding: string)
    requires id != ""
    ensures Classify(Answer(LoginResult(Some(id), None, Some(encoding)))) == Ready(id, Some(encoding))
  {
  }

  /** A resize the browser sends reaches the SSH channel as that size, when
      both numbers fit the 32-bit fields of the window-change request; larger
      ones are refused without effect. */
  lemma ResizeReachesChannel(cols: nat, rows: nat)
    ensures cols < 0x1_0000_0000 && rows < 0x1_0000_0000 ==> ResizeStep(Wire(ResizeMsg(cols, rows))) == ApplyResize(cols, rows)
    ensures !(cols < 0x1_0000_0000 && rows < 0x1_0000_0000) ==> ResizeStep(Wire(ResizeMsg(cols, rows))) == ResizeRefused
    ensures DataStep(Wire(ResizeMsg(cols, rows))) == NoData
  {
    var items := [JInt(cols), JInt(rows)];
    assert Wire(ResizeMsg(cols, rows))["resize"] == JArray(items);
    assert items[0] == JInt(cols) && items[1] == JInt(rows);
  }

  /** Keystrokes the browser sends are queued for the channel, unchanged, as
      evidently intended; as written, every non-empty one raises instead. */
  lemma KeystrokesReachBuffer(data: string)
    ensures ResizeStep(Wire(DataMsg(data))) == NoResize
    ensures DataStep(Wire(DataMsg(data))) == if data != "" then QueueData(data) else NoData
    ensures data != "" ==> DataStepAsWritten(Wire(DataMsg(data))).DataRaises?
  {
  }
}

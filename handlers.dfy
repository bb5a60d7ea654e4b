/** The HTTP and WebSocket request handlers of the server (gru/handlers.py):
    argument validation, the client endpoint behind a proxy, the login
    outcome, WebSocket message dispatch, the upload body and the clean-up of
    stale client registrations. The SSH library, the Redis cache and the
    port-open test are parameters or small objects. */
module Handlers {
  import opened Common
  import opened Utils
  import opened Minions

  // ---------------------------------------------------------------------------
  // BaseMixin.get_value
  // ---------------------------------------------------------------------------

  /** The arguments of a request: those of the query string and those of the
      form-encoded body, each name with its values in order. */
  datatype Request = Request(query: map<string, seq<string>>, body: map<string, seq<string>>)

  function ValuesOf(m: map<string, seq<string>>, name: string): seq<string> {
    if name in m then m[name] else []
  }

  /** The control characters Tornado's argument accessors replace by a
      space: U+0000 to U+0008 and U+000E to U+001F. */
  predicate IsControl(c: char) {
    c <= '\U{8}' || ('\U{E}' <= c && c <= '\U{1F}')
  }

  /** Tornado's replacement of every control character by a space. */
  function SpaceControls(s: string): (r: string)
    ensures |r| == |s|
    ensures forall i :: 0 <= i < |s| && !IsControl(s[i]) ==> r[i] == s[i]
    ensures NoControls(r)
  {
    seq(|s|, i requires 0 <= i < |s| => if IsControl(s[i]) then ' ' else s[i])
  }

  /** Tornado's argument accessors return the last value with its control
      characters replaced by spaces, then stripped; `None` stands for the
      MissingArgumentError. `query` selects `get_query_argument`, otherwise
      `get_argument` (query and body). */
  function Lookup(req: Request, name: string, query: bool): Option<string> {
    var vs := if query then ValuesOf(req.query, name) else ValuesOf(req.query, name) + ValuesOf(req.body, name);
    if vs == [] then None else Some(Strip(SpaceControls(vs[|vs| - 1])))
  }

  function MissingArgument(name: string): Exc {
    Exc(MissingArgumentError, "HTTP 400: Bad Request (Missing argument " + name + ")")
  }

  /** `get_value(name, arg_type)`: the argument, unchanged, unless it is
      absent (MissingArgumentError) or empty (InvalidValueError). */
  function GetValue(req: Request, name: string, argType: string): (r: Result<string, Exc>)
    ensures var v := Lookup(req, name, argType == "query");
      && (v == None ==> r == Failure(MissingArgument(name)))
      && (v == Some("") ==> r == Failure(Exc(InvalidValueError, name + " is missing")))
      && (v.Some? && v.value != "" ==> r == Success(v.value))
    ensures r.Success? ==> r.value != ""
  {
    match Lookup(req, name, argType == "query")
    case None => Failure(MissingArgument(name))
    case Some(v) => if v == "" then Failure(Exc(InvalidValueError, name + " is missing")) else Success(v)
  }

  /** A value made only of a control character is empty once the accessor
      has replaced and stripped it, so it is reported missing. */
  lemma ControlValueMissing(name: string)
    ensures GetValue(Request(map[name := ["\U{1}"]], map[]), name, "query")
            == Failure(Exc(InvalidValueError, name + " is missing"))
  {
    assert SpaceControls("\U{1}") == " ";
  }

  predicate NoControls(s: string) {
    forall i :: 0 <= i < |s| ==> !IsControl(s[i])
  }

  /** A slice of a string free of control characters is free of them. */
  lemma SliceNoControls(t: string, lo: nat, hi: nat)
    requires lo <= hi <= |t| && NoControls(t)
    ensures NoControls(t[lo..hi])
  {
    forall i | 0 <= i < hi - lo ensures !IsControl(t[lo..hi][i]) {
      assert t[lo..hi][i] == t[lo + i];
    }
  }

  /** Stripping a string free of control characters keeps it free of them. */
  lemma StripNoControls(t: string)
    requires NoControls(t)
    ensures NoControls(Strip(t))
  {
    var k := |t| - |LStrip(t)|;
    assert Strip(t) == t[k..k + |Strip(t)|];
    SliceNoControls(t, k, k + |Strip(t)|);
  }

  /** The accessors never return a control character. */
  lemma LookupNoControls(req: Request, name: string, query: bool)
    ensures Lookup(req, name, query).Some? ==> NoControls(Lookup(req, name, query).value)
  {
    var vs := if query then ValuesOf(req.query, name) else ValuesOf(req.query, name) + ValuesOf(req.body, name);
    if vs != [] {
      StripNoControls(SpaceControls(vs[|vs| - 1]));
    }
  }

  /** A value never comes back with a control character in it. */
  lemma GetValueNoControls(req: Request, name: string, argType: string)
    ensures var r := GetValue(req, name, argType);
      r.Success? ==> NoControls(r.value)
  {
    LookupNoControls(req, name, argType == "query");
  }

  // ---------------------------------------------------------------------------
  // BaseMixin.get_client_endpoint
  // ---------------------------------------------------------------------------

  datatype Endpoint = Endpoint(ip: string, port: int)

  /** What `int()` raises for a string that is not a decimal literal. */
  function IntValueError(s: string): (e: Exc)
    ensures e.kind == ValueError
  {
    Exc(ValueError, "invalid literal for int() with base 10: '" + s + "'")
  }

  /** What `int()` raises for an argument of the Python type `typeName`. */
  function IntTypeError(typeName: string): (e: Exc)
    ensures e.kind == TypeError
  {
    Exc(TypeError, "int() argument must be a string, a bytes-like object or a real number, not '" + typeName + "'")
  }

  /** `int(value)` of a header value (`None` when the header is absent). */
  function PortOf(value: Option<string>): (r: Result<int, Exc>)
    ensures r.Success? <==> value.Some? && ParseInt(value.value).Some?
    ensures r.Success? ==> r.value == ParseInt(value.value).value
  {
    match value
    case None => Failure(IntTypeError("NoneType"))
    case Some(s) =>
      match ParseInt(s)
      case Some(p) => Success(p)
      case None => Failure(IntValueError(s))
  }

  function Header(headers: map<string, string>, name: string): Option<string> {
    if name in headers then Some(headers[name]) else None
  }

  /** The endpoint at `ip` with the port `int()` gave, or the exception it
      raised. */
  function AtPort(ip: string, port: Result<int, Exc>): (r: Result<Endpoint, Exc>)
    ensures r.Success? <==> port.Success?
    ensures r.Success? ==> r.value == Endpoint(ip, port.value)
    ensures r.Failure? ==> r.error == port.error
  {
    match port
    case Success(p) => Success(Endpoint(ip, p))
    case Failure(e) => Failure(e)
  }

  /** `remoteIp` is the peer address as Tornado reports it (`xheaders=True`
      already applies the proxy headers to it), `connection` the address of
      the connection context. */
  function GetClientEndpoint(remoteIp: string, headers: map<string, string>, connection: Endpoint): (r: Result<Endpoint, Exc>)
    ensures Header(headers, "X-Real-Ip") == Some(remoteIp) ==>
      r == AtPort(remoteIp, PortOf(Header(headers, "X-Real-Port")))
    ensures Header(headers, "X-Real-Ip") != Some(remoteIp) && "X-Forwarded-For" in headers && Contains(headers["X-Forwarded-For"], remoteIp) ==>
      r == AtPort(remoteIp, PortOf(Header(headers, "X-Forwarded-Port")))
    ensures Header(headers, "X-Real-Ip") != Some(remoteIp) && !Contains(if "X-Forwarded-For" in headers then headers["X-Forwarded-For"] else "", remoteIp) ==>
      r == Success(connection)
    ensures r.Success? && r.value != connection ==> r.value.ip == remoteIp
  {
    var portHeader :=
      if Header(headers, "X-Real-Ip") == Some(remoteIp) then Some("X-Real-Port")
      else if Contains(if "X-Forwarded-For" in headers then headers["X-Forwarded-For"] else "", remoteIp) then Some("X-Forwarded-Port")
      else None;
    if portHeader.None? then Success(connection)
    else AtPort(remoteIp, PortOf(Header(headers, portHeader.value)))
  }

  /** Behind a proxy that sets X-Real-Ip and X-Real-Port, the endpoint is the
      peer address with the port the proxy wrote in decimal. */
  lemma RealIpEndpoint(ip: string, port: int, headers: map<string, string>, connection: Endpoint)
    requires Header(headers, "X-Real-Ip") == Some(ip) && Header(headers, "X-Real-Port") == Some(IntToString(port))
    ensures GetClientEndpoint(ip, headers, connection) == Success(Endpoint(ip, port))
  {
    ParseIntToString(port);
  }

  // ---------------------------------------------------------------------------
  // IndexHandler.get_args and get_server_encoding
  // ---------------------------------------------------------------------------

  /** Python's `int(value)` of a decoded JSON value. */
  function PyInt(j: Json): (r: Result<int, Exc>)
    ensures j.JInt? ==> r == Success(j.i)
    ensures j.JBool? ==> r == Success(if j.b then 1 else 0)
    ensures j.JString? ==> (r.Success? <==> ParseInt(j.s).Some?)
    ensures j.JString? && r.Success? ==> ParseInt(j.s) == Some(r.value)
    ensures j.JString? && r.Failure? ==> r.error.kind == ValueError
    ensures j.JNull? || j.JArray? || j.JObject? ==> r.Failure? && r.error.kind == TypeError
  {
    if j.JInt? then Success(j.i)
    else if j.JBool? then Success(if j.b then 1 else 0)
    else if j.JString? then
      (match ParseInt(j.s)
       case Some(i) => Success(i)
       case None => Failure(IntValueError(j.s)))
    else Failure(IntTypeError(PyTypeName(j)))
  }

  /** The Python type name of a decoded JSON value. */
  function PyTypeName(j: Json): string {
    match j
    case JNull => "NoneType"
    case JBool(_) => "bool"
    case JInt(_) => "int"
    case JString(_) => "str"
    case JArray(_) => "list"
    case JObject(_) => "dict"
  }

  function KeyMissing(key: string): Exc {
    Exc(KeyError, "'" + key + "'")
  }

  /** A login argument the SSH library is given; anything but a string is
      refused with a TypeError. */
  function TextOf(j: Json): Result<string, Exc> {
    if j.JString? then Success(j.s) else Failure(Exc(TypeError, "str expected"))
  }

  /** `get_args()` on the decoded request body: `hostname` defaults to
      "localhost", `username`, `password` and `port` are required, `port` is
      converted with `int`. */
  function GetArgs(data: Json): (r: Result<SshArgs, Exc>)
    ensures !data.JObject? ==> r.Failure? && r.error.kind == AttributeError
    ensures data.JObject? && "username" !in data.fields ==> r == Failure(KeyMissing("username"))
    ensures data.JObject? && "username" in data.fields && "password" !in data.fields ==> r == Failure(KeyMissing("password"))
    ensures data.JObject? && "username" in data.fields && "password" in data.fields && "port" !in data.fields
      ==> r == Failure(KeyMissing("port"))
    ensures (data.JObject? && "username" in data.fields && "password" in data.fields && "port" in data.fields
             && PyInt(data.fields["port"]).Failure?) ==> r == Failure(PyInt(data.fields["port"]).error)
    ensures (data.JObject? && "username" in data.fields && "password" in data.fields && "port" in data.fields
             && data.fields["username"].JString? && data.fields["password"].JString?
             && PyInt(data.fields["port"]).Success?
             && ("hostname" in data.fields ==> data.fields["hostname"].JString?)) ==> r.Success?
    ensures r.Success? ==> data.JObject? && PyInt(data.fields["port"]) == Success(r.value.port)
    ensures r.Success? ==> (if "hostname" in data.fields then data.fields["hostname"] else JString("localhost")) == JString(r.value.hostname)
    ensures r.Success? ==> JString(r.value.username) == data.fields["username"] && JString(r.value.password) == data.fields["password"]
  {
    if !data.JObject? then Failure(Exc(AttributeError, "object has no attribute 'get'"))
    else
      var m := data.fields;
      var hostname := if "hostname" in m then m["hostname"] else JString("localhost");
      if "username" !in m then Failure(KeyMissing("username"))
      else if "password" !in m then Failure(KeyMissing("password"))
      else if "port" !in m then Failure(KeyMissing("port"))
      else
        match PyInt(m["port"])
        case Failure(e) => Failure(e)
        case Success(port) =>
          match (TextOf(hostname), TextOf(m["username"]), TextOf(m["password"]))
          case (Success(h), Success(u), Success(p)) => Success(SshArgs(h, port, u, p))
          case (Failure(e), _, _) => Failure(e)
          case (_, Failure(e), _) => Failure(e)
          case (_, _, Failure(e)) => Failure(e)
  }

  /** The minion login form (username, password, port as text, no hostname)
      gives the arguments for localhost at that port. */
  lemma GetArgsMinionForm(username: string, password: string, port: int)
    ensures GetArgs(JObject(map["username" := JString(username), "password" := JString(password),
                                "port" := JString(IntToString(port))]))
            == Success(SshArgs("localhost", port, username, password))
  {
    ParseIntToString(port);
  }

  /** `get_server_encoding`: the trimmed output of `locale charmap`, or
      "UTF-8" when the command fails (`None`) or prints only white space. */
  function GetServerEncoding(charmap: Option<string>): (r: string)
    ensures r != "" && Strip(r) == r
    ensures charmap.Some? && Strip(charmap.value) != "" ==> r == Strip(charmap.value)
    ensures charmap.None? || Strip(charmap.value) == "" ==> r == "UTF-8"
  {
    StripNoSpace("UTF-8");
    if charmap.Some? && Strip(charmap.value) != "" then
      StripIdempotent(charmap.value);
      Strip(charmap.value)
    else "UTF-8"
  }

  // ---------------------------------------------------------------------------
  // IndexHandler.post
  // ---------------------------------------------------------------------------

  /** A client registration as kept in the cache. */
  datatype Host = Host(name: string, ip: string, publicIp: string, port: int)

  /** The Redis cache of client registrations; a key is the decimal port. */
  class Cache {
    var entries: map<string, Host>

    constructor (entries: map<string, Host>)
      ensures this.entries == entries
    {
      this.entries := entries;
    }

    /** `delete_cache(key)`: removes the key if present. */
    method Delete(key: string)
      modifies this
      ensures entries == old(entries) - {key}
    {
      entries := entries - {key};
    }
  }

  /** What `post` does with the request: writes the result, or lets an
      exception out (Tornado then answers with an error page). */
  datatype PostOutcome = Written(result: LoginResult) | Escaped(exc: Exc)

  /** The exception classes `post` catches around the connect. */
  predicate CaughtByPost(e: Exc) {
    e.kind in {ValueError, SshError, AuthError, SocketTimeout}
  }

  /** The cache key `post` deletes after a caught error: the port's entry, when
      the lower-cased message starts with "unable to" and the server is not in
      "term" mode. */
  function DanglingCacheKey(err: Exc, port: int, mode: string): (k: Option<string>)
    ensures k.Some? <==> StartsWith(Lower(err.message), "unable to") && mode != "term"
    ensures k.Some? ==> k.value == IntToString(port) && ParseInt(k.value) == Some(port)
  {
    if StartsWith(Lower(err.message), "unable to") && mode != "term" then
      ParseIntToString(port);
      Some(IntToString(port))
    else None
  }

  /** The exception, if any, that escapes the connect and the shell opening
      of `post`: `create_ssh_client`, then `invoke_shell` (`shellError`). */
  function LoginError(args: SshArgs, first: ConnectOutcome, retry: ConnectOutcome, shellError: Option<Exc>): Option<Exc> {
    var c := CreateSshClient(args.hostname, args.port, first, retry);
    if c.error.Some? then c.error else shellError
  }

  class IndexHandler {
    const loop: IOLoop
    const registry: Registry
    const cache: Cache
    var result: LoginResult

    constructor (loop: IOLoop, registry: Registry, cache: Cache)
      ensures this.loop == loop && this.registry == registry && this.cache == cache
      ensures result == LoginResult(None, None, None)
    {
      this.loop := loop;
      this.registry := registry;
      this.cache := cache;
      result := LoginResult(None, None, None);
    }

    /** `post()`. `data` is the decoded body; `first`/`retry` the connect
        outcomes; `shellError` what `invoke_shell` raises; `confEncoding` the
        configured encoding ("" when unset); `charmap` the output of
        `locale charmap`; `mode` the server mode; `newId` and `fd` the id and
        channel descriptor of the minion created on success. */
    method Post(data: Json, first: ConnectOutcome, retry: ConnectOutcome, shellError: Option<Exc>,
                confEncoding: string, charmap: Option<string>, mode: string, newId: string, fd: int)
      returns (outcome: PostOutcome, minion: Minion?)
      modifies this, registry, cache, loop
      ensures GetArgs(data).Failure? ==>
        && outcome == Escaped(GetArgs(data).error) && minion == null
        && result == old(result) && registry.entries == old(registry.entries)
        && cache.entries == old(cache.entries) && loop.ops == old(loop.ops)
      ensures GetArgs(data).Success? ==>
        var args := GetArgs(data).value;
        var err := LoginError(args, first, retry, shellError);
        && (err.Some? && !CaughtByPost(err.value) ==>
              && outcome == Escaped(err.value) && minion == null && result == old(result)
              && registry.entries == old(registry.entries) && cache.entries == old(cache.entries)
              && loop.ops == old(loop.ops))
        && (err.Some? && CaughtByPost(err.value) ==>
              && outcome == Written(result) && minion == null
              && result == old(result).(status := Some(err.value.message))
              && cache.entries == (if DanglingCacheKey(err.value, args.port, mode).Some?
                                   then old(cache.entries) - {DanglingCacheKey(err.value, args.port, mode).value}
                                   else old(cache.entries))
              && registry.entries == old(registry.entries) && loop.ops == old(loop.ops))
        && (err.None? ==>
              && minion != null && fresh(minion) && minion.id == newId && minion.data2send == []
              && registry.entries == old(registry.entries)[newId := Entry(minion, args)]
              && result == old(result).(id := Some(newId),
                                        encoding := Some(if confEncoding != "" then confEncoding else GetServerEncoding(charmap)))
              && outcome == Written(result)
              && cache.entries == old(cache.entries)
              && loop.ops == old(loop.ops) + [RecycleLater(2000, newId)])
    {
      minion := null;
      match GetArgs(data) {
        case Failure(e) =>
          outcome := Escaped(e);
        case Success(args) =>
          var err := LoginError(args, first, retry, shellError);
          if err.Some? {
            if !CaughtByPost(err.value) {
              outcome := Escaped(err.value);
              return;
            }
            var key := DanglingCacheKey(err.value, args.port, mode);
            if key.Some? {
              cache.Delete(key.value);
            }
            result := result.(status := Some(err.value.message));
            outcome := Written(result);
          } else {
            var encoding := if confEncoding != "" then confEncoding else GetServerEncoding(charmap);
            minion := new Minion(newId, fd, loop, registry);
            registry.entries := registry.entries[newId := Entry(minion, args)];
            loop.ops := loop.ops + [RecycleLater(2000, newId)];
            result := result.(id := Some(newId), encoding := Some(encoding));
            outcome := Written(result);
          }
      }
    }
  }

  // ---------------------------------------------------------------------------
  // WSHandler.on_message and on_close
  // ---------------------------------------------------------------------------

  /** What the `resize` member of a message leads to. */
  datatype ResizeEffect =
    | NoResize                      // absent, falsy or not of length 2
    | ApplyResize(cols: int, rows: int)
    | ResizeRefused                 // resize_pty raised TypeError or struct.error, swallowed
    | ResizeRaises(exc: Exc)        // len() of a number: the TypeError escapes

  /** `len(value)`, or `None` for the TypeError of a value without length. */
  function PyLen(j: Json): Option<nat> {
    match j
    case JString(s) => Some(|s|)
    case JArray(a) => Some(|a|)
    case JObject(m) => Some(|m|)
    case _ => None
  }

  /** A value `struct.pack(">I", v)` accepts (booleans are integers). */
  function UInt32Of(j: Json): Option<int> {
    match j
    case JInt(i) => if 0 <= i < 0x1_0000_0000 then Some(i) else None
    case JBool(b) => Some(if b then 1 else 0)
    case _ => None
  }

  function ResizeStep(msg: map<string, Json>): (e: ResizeEffect)
    ensures e.ApplyResize? <==>
      exists a, b :: Get(msg, "resize") == Some(JArray([a, b])) && UInt32Of(a).Some? && UInt32Of(b).Some?
    ensures e.ApplyResize? ==> 0 <= e.cols < 0x1_0000_0000 && 0 <= e.rows < 0x1_0000_0000
    ensures e.ApplyResize? ==>
      && "resize" in msg && msg["resize"].JArray? && |msg["resize"].items| == 2
      && UInt32Of(msg["resize"].items[0]) == Some(e.cols) && UInt32Of(msg["resize"].items[1]) == Some(e.rows)
    ensures e.ResizeRaises? <==> Get(msg, "resize").Some? && Truthy(msg["resize"]) && PyLen(msg["resize"]).None?
  {
    match Get(msg, "resize")
    case None => NoResize
    case Some(r) =>
      if !Truthy(r) then NoResize
      else match PyLen(r)
        case None => ResizeRaises(Exc(TypeError, "object has no len()"))
        case Some(n) =>
          if n != 2 then NoResize
          else if r.JArray? && UInt32Of(r.items[0]).Some? && UInt32Of(r.items[1]).Some? then
            assert r == JArray([r.items[0], r.items[1]]);
            ApplyResize(UInt32Of(r.items[0]).value, UInt32Of(r.items[1]).value)
          else ResizeRefused
  }

  /** What the `data` member of a message leads to. */
  datatype DataEffect = NoData | QueueData(data: string) | DataRaises(exc: Exc)

  /** `data and isinstance(data, str)`: a non-empty string. */
  predicate IsInput(msg: map<string, Json>) {
    Get(msg, "data").Some? && msg["data"].JString? && msg["data"].s != ""
  }

  /** The data step as written: it appends to `minion.data_to_dst`, an
      attribute `Minion` does not have, so the AttributeError escapes. */
  function DataStepAsWritten(msg: map<string, Json>): DataEffect {
    if IsInput(msg) then DataRaises(Exc(AttributeError, "'Minion' object has no attribute 'data_to_dst'"))
    else NoData
  }

  /** As written, no message ever reaches the minion's buffer, and every
      keystroke raises. */
  lemma DataStepAsWrittenDropsInput(msg: map<string, Json>)
    ensures !DataStepAsWritten(msg).QueueData?
    ensures IsInput(msg) ==> DataStepAsWritten(msg).DataRaises?
    ensures DataStepAsWritten(map["data" := JString("ls\n")]).DataRaises?
  {
  }

  /** The data step as evidently intended: the input is queued on
      `data2send`, the buffer `do_write` sends from. */
  function DataStep(msg: map<string, Json>): (e: DataEffect)
    ensures e.QueueData? <==> IsInput(msg)
    ensures e.QueueData? ==> Get(msg, "data") == Some(JString(e.data)) && e.data != ""
    ensures !e.DataRaises?
  {
    if IsInput(msg) then QueueData(msg["data"].s) else NoData
  }

  /** `on_close`'s reason: the one set, or 'client disconnected'. */
  function CloseReason(current: Option<string>): (r: string)
    ensures r != ""
    ensures current.Some? && current.value != "" ==> r == current.value
    ensures current.None? || current.value == "" ==> r == "client disconnected"
  {
    if current.Some? && current.value != "" then current.value else "client disconnected"
  }

  datatype CloseEffect = NoClose | CloseMinion(reason: string) | CloseRaises(exc: Exc)

  /** `on_close` as written calls `minion.close(reason=...)`, but
      `Minion.close` takes `msg`: the call raises TypeError. */
  function CloseStepAsWritten(hasMinion: bool, reason: string): CloseEffect {
    if hasMinion then CloseRaises(Exc(TypeError, "close() got an unexpected keyword argument 'reason'"))
    else NoClose
  }

  lemma CloseStepAsWrittenNeverCloses(hasMinion: bool, reason: string)
    ensures !CloseStepAsWritten(hasMinion, reason).CloseMinion?
    ensures hasMinion ==> CloseStepAsWritten(hasMinion, reason).CloseRaises?
  {
  }

  /** `on_close` as evidently intended: the minion is closed with the reason. */
  function CloseStep(hasMinion: bool, reason: string): (e: CloseEffect)
    ensures e.CloseMinion? <==> hasMinion
    ensures e.CloseMinion? ==> e.reason == reason
    ensures !e.CloseRaises?
  {
    if hasMinion then CloseMinion(reason) else NoClose
  }

  /** What one JSON object message does to the minion: the resize step,
      then the data step, which queues the input and runs `do_write` at
      once; and the exception that escapes, if any. */
  function MessageEffect(st: MinionState, id: string, fd: int, msg: map<string, Json>, send: SendOutcome)
    : (MinionState, Option<Exc>)
    requires DataStep(msg).QueueData? && send.Sent? ==> send.n <= |Join(st.data2send)| + |DataStep(msg).data|
  {
    var resize := ResizeStep(msg);
    if resize.ResizeRaises? then (st, Some(resize.exc))
    else
      var resized := if resize.ApplyResize? then st.(ptySizes := st.ptySizes + [(resize.cols, resize.rows)]) else st;
      var data := DataStep(msg);
      if data.QueueData? then
        JoinAppend(st.data2send, data.data);
        (AfterWrite(resized.(data2send := st.data2send + [data.data]), id, fd, send), None)
      else (resized, None)
  }

  /** A resize that raises stops the message with nothing changed; otherwise
      nothing escapes and exactly the validated size reaches `resize_pty`. */
  lemma MessageResizes(st: MinionState, id: string, fd: int, msg: map<string, Json>, send: SendOutcome)
    requires DataStep(msg).QueueData? && send.Sent? ==> send.n <= |Join(st.data2send)| + |DataStep(msg).data|
    ensures var (s, escaped) := MessageEffect(st, id, fd, msg, send);
      && (ResizeStep(msg).ResizeRaises? ==> s == st && escaped == Some(ResizeStep(msg).exc))
      && (!ResizeStep(msg).ResizeRaises? ==>
            && escaped.None?
            && s.ptySizes == st.ptySizes
                 + (if ResizeStep(msg).ApplyResize? then [(ResizeStep(msg).cols, ResizeStep(msg).rows)] else []))
  {
  }

  /** Input is queued behind what is buffered and `do_write` sends from the
      joined buffer: exactly the unsent suffix stays, the minion waits for
      WRITE iff something is left, and it stays registered and open. A
      message without input touches nothing but the window size. */
  lemma {:induction false} MessageQueuesInput(st: MinionState, id: string, fd: int, msg: map<string, Json>, n: nat)
    requires !ResizeStep(msg).ResizeRaises?
    requires DataStep(msg).QueueData? ==> n <= |Join(st.data2send)| + |DataStep(msg).data|
    ensures var s := MessageEffect(st, id, fd, msg, Sent(n)).0;
      && (DataStep(msg).NoData? ==> s == st.(ptySizes := s.ptySizes))
      && (DataStep(msg).QueueData? ==>
            && Join(s.data2send) == (Join(st.data2send) + DataStep(msg).data)[n..]
            && s.mode == (if Join(s.data2send) != "" then WRITE else READ)
            && s.entries == st.entries && !s.chanClosed == !st.chanClosed && s.wsCloses == st.wsCloses
            && s.forwarded == st.forwarded)
  {
    var resize := ResizeStep(msg);
    var resized := if resize.ApplyResize? then st.(ptySizes := st.ptySizes + [(resize.cols, resize.rows)]) else st;
    var data := DataStep(msg);
    if data.QueueData? {
      JoinAppend(st.data2send, data.data);
      var queued := resized.(data2send := st.data2send + [data.data]);
      WriteKeepsUnsent(queued, id, fd, n);
    }
  }

  class WSHandler {
    /** The minion `minion_ref` refers to, `null` when there is no reference. */
    const minion: Minion?
    var closeReason: Option<string>

    constructor (minion: Minion?, closeReason: Option<string>)
      ensures this.minion == minion && this.closeReason == closeReason
    {
      this.minion := minion;
      this.closeReason := closeReason;
    }

    /** `on_message`, with the data step as evidently intended. `message` is
        the decoded frame (`None` when it is not JSON); `send` is what the
        channel does when `do_write` runs. */
    method OnMessage(message: Option<Json>, send: SendOutcome) returns (escaped: Option<Exc>)
      requires (minion != null && message.Some? && message.value.JObject? && DataStep(message.value.fields).QueueData?
                && send.Sent?) ==> send.n <= |Join(minion.data2send)| + |DataStep(message.value.fields).data|
      modifies if minion == null then {} else {minion, minion.loop, minion.registry}
      ensures minion == null ==> escaped.Some? && escaped.value.kind == TypeError
      ensures minion != null && (message.None? || !message.value.JObject?) ==>
        escaped.None? && minion.State() == old(minion.State())
      ensures minion != null && message.Some? && message.value.JObject? ==>
        (minion.State(), escaped) == MessageEffect(old(minion.State()), minion.id, minion.fd, message.value.fields, send)
    {
      if minion == null {
        escaped := Some(Exc(TypeError, "'NoneType' object is not callable"));
        return;
      }
      escaped := None;
      if message.None? || !message.value.JObject? {
        return;
      }
      var msg := message.value.fields;
      var resize := ResizeStep(msg);
      match resize {
        case ResizeRaises(e) =>
          escaped := Some(e);
          return;
        case ApplyResize(cols, rows) =>
          minion.ResizePty(cols, rows);
        case _ =>
      }
      match DataStep(msg) {
        case QueueData(d) =>
          minion.Queue(d);
          minion.DoWrite(send);
        case _ =>
      }
    }

    /** `on_close`, with the close call as evidently intended. */
    method OnClose()
      modifies this, if minion == null then {} else {minion, minion.loop, minion.registry}
      ensures closeReason == Some(CloseReason(old(closeReason)))
      ensures minion != null ==> minion.State() == AfterClose(old(minion.State()), minion.id, minion.fd, closeReason)
    {
      var reason := CloseReason(closeReason);
      closeReason := Some(reason);
      match CloseStep(minion != null, reason) {
        case CloseMinion(r) =>
          minion.Close(Some(r));
        case _ =>
      }
    }
  }

  // ---------------------------------------------------------------------------
  // UploadHandler
  // ---------------------------------------------------------------------------

  /** Where an upload goes: the session whose SSH client writes it, and the
      file name under /tmp. */
  datatype UploadTarget = UploadTarget(minionId: string, filename: string)

  /** `prepare()`: both query arguments are required; an id without a
      session fails on `None["ssh"]`. */
  function PrepareUpload(req: Request, minions: map<string, Entry>): (r: Result<UploadTarget, Exc>)
    ensures r.Success? <==>
      GetValue(req, "minion", "query").Success? && GetValue(req, "minion", "query").value in minions
      && GetValue(req, "file", "query").Success?
    ensures r.Success? ==> r.value == UploadTarget(GetValue(req, "minion", "query").value, GetValue(req, "file", "query").value)
  {
    match GetValue(req, "minion", "query")
    case Failure(e) => Failure(e)
    case Success(id) =>
      if id !in minions then Failure(Exc(TypeError, "'NoneType' object is not subscriptable"))
      else
        match GetValue(req, "file", "query")
        case Failure(e) => Failure(e)
        case Success(f) => Success(UploadTarget(id, f))
  }

  class UploadHandler {
    /** The request body received so far. */
    var data: seq<bv8>

    constructor ()
      ensures data == []
    {
      data := [];
    }

    /** `data_received(chunk)`: the body grows by the chunk, in arrival order. */
    method DataReceived(chunk: seq<bv8>)
      modifies this
      ensures data == old(data) + chunk
      ensures data[..|old(data)|] == old(data)
    {
      data := data + chunk;
    }
  }

  // ---------------------------------------------------------------------------
  // CleanHandler.get
  // ---------------------------------------------------------------------------

  /** The cache key of a registration: its port in decimal. */
  function HostKey(h: Host): string {
    IntToString(h.port)
  }

  /** The registrations whose port is open, in their original order. */
  function OpenHosts(hosts: seq<Host>, isOpen: int -> bool): seq<Host> {
    if hosts == [] then []
    else OpenHosts(hosts[..|hosts| - 1], isOpen) + (if isOpen(hosts[|hosts| - 1].port) then [hosts[|hosts| - 1]] else [])
  }

  /** The keys CleanHandler deletes: those of registrations whose port is closed. */
  function ClosedKeys(hosts: seq<Host>, isOpen: int -> bool): set<string> {
    set h | h in hosts && !isOpen(h.port) :: HostKey(h)
  }

  /** OpenHosts keeps exactly the open registrations. */
  lemma {:induction false} OpenHostsMembers(hosts: seq<Host>, isOpen: int -> bool)
    ensures forall h :: h in OpenHosts(hosts, isOpen) <==> h in hosts && isOpen(h.port)
  {
    if hosts != [] {
      OpenHostsMembers(hosts[..|hosts| - 1], isOpen);
      assert hosts == hosts[..|hosts| - 1] + [hosts[|hosts| - 1]];
    }
  }

  /** Filtering distributes over concatenation, so the relative order of the
      kept registrations is the original one. */
  lemma {:induction false} OpenHostsConcat(a: seq<Host>, b: seq<Host>, isOpen: int -> bool)
    ensures OpenHosts(a + b, isOpen) == OpenHosts(a, isOpen) + OpenHosts(b, isOpen)
    decreases |b|
  {
    if b == [] {
      assert a + b == a;
    } else {
      var b' := b[..|b| - 1];
      assert (a + b)[..|a + b| - 1] == a + b';
      OpenHostsConcat(a, b', isOpen);
    }
  }

  /** One more registration read: the filter and the deleted keys grow by it. */
  lemma CleanStep(hosts: seq<Host>, i: nat, isOpen: int -> bool)
    requires i < |hosts|
    ensures OpenHosts(hosts[..i + 1], isOpen) == OpenHosts(hosts[..i], isOpen) + (if isOpen(hosts[i].port) then [hosts[i]] else [])
    ensures ClosedKeys(hosts[..i + 1], isOpen) == ClosedKeys(hosts[..i], isOpen) + (if isOpen(hosts[i].port) then {} else {HostKey(hosts[i])})
  {
    assert hosts[..i + 1][..i] == hosts[..i];
    assert hosts[..i + 1] == hosts[..i] + [hosts[i]];
  }

  lemma RemoveMore(m: map<string, Host>, keys: set<string>, k: string)
    ensures (m - keys) - {k} == m - (keys + {k})
  {
  }

  /** `CleanHandler.get()`: `hosts` is the list read from the cache and
      `isOpen` the port-open test. */
  method Clean(hosts: seq<Host>, isOpen: int -> bool, cache: Cache) returns (actual: seq<Host>)
    modifies cache
    ensures actual == OpenHosts(hosts, isOpen)
    ensures cache.entries == old(cache.entries) - ClosedKeys(hosts, isOpen)
  {
    actual := [];
    ghost var closed: set<string> := {};
    var i := 0;
    while i < |hosts|
      invariant 0 <= i <= |hosts|
      invariant actual == OpenHosts(hosts[..i], isOpen)
      invariant closed == ClosedKeys(hosts[..i], isOpen)
      invariant cache.entries == old(cache.entries) - closed
    {
      var host := hosts[i];
      CleanStep(hosts, i, isOpen);
      if isOpen(host.port) {
        actual := actual + [host];
      } else {
        RemoveMore(old(cache.entries), closed, HostKey(host));
        cache.Delete(HostKey(host));
        closed := closed + {HostKey(host)};
      }
      i := i + 1;
    }
    assert hosts[..|hosts|] == hosts;
  }
}

/** The server side of one terminal session (gru/minion.py): a `Minion` owns
    the SSH shell channel of a session, buffers what the browser typed until
    the channel takes it, and tells the IOLoop which readiness it waits for.
    The IOLoop is modelled by the log of calls made on it, the channel by the
    outcome of each `send`/`recv` (a parameter), and the global `MINIONS`
    table by a `Registry` object. */
module Minions {
  import opened Common

  /** Tornado's IOLoop event bits. */
  const READ: bv32 := 0x001
  const WRITE: bv32 := 0x004
  const ERROR: bv32 := 0x018

  const BufferSize: nat := 64 * 1024

  /** The login arguments kept with each session: (hostname, port, username, password). */
  datatype SshArgs = SshArgs(hostname: string, port: int, username: string, password: string)

  /** A call made on the IOLoop. Delays are in milliseconds. */
  datatype LoopOp =
    | UpdateHandler(fd: int, events: bv32)
    | CallLater(delayMs: nat, fd: int, events: bv32)
    | RemoveHandler(fd: int)
    | RecycleLater(delayMs: nat, minionId: string)

  class IOLoop {
    var ops: seq<LoopOp>

    constructor ()
      ensures ops == []
    {
      ops := [];
    }
  }

  /** One entry of `MINIONS`: the minion and the arguments it was created with. */
  datatype Entry = Entry(minion: Minion, args: SshArgs)

  /** The global `MINIONS` dictionary, keyed by minion id. */
  class Registry {
    var entries: map<string, Entry>

    constructor ()
      ensures entries == map[]
    {
      entries := map[];
    }
  }

  /** What one `chan.send(data)` does: it takes a prefix of `n` characters,
      or raises socket.timeout, whose errno tells whether the connection was
      reset. */
  datatype SendOutcome = Sent(n: nat) | SendTimeout(connReset: bool)

  /** What one `chan.recv(BUFFER_SIZE)` does. */
  datatype RecvOutcome = Received(data: seq<bv8>) | RecvTimeout(connReset: bool)

  /** `''.join(parts)`. */
  function Join(parts: seq<string>): string {
    if parts == [] then "" else Join(parts[..|parts| - 1]) + parts[|parts| - 1]
  }

  lemma JoinAppend(parts: seq<string>, s: string)
    ensures Join(parts + [s]) == Join(parts) + s
  {
    assert (parts + [s])[..|parts|] == parts;
  }

  /** The IOLoop calls `update_event_handler(requested)` makes when the
      minion currently waits for `current`. */
  function EventOps(current: bv32, requested: bv32, fd: int): seq<LoopOp> {
    (if current != requested then [UpdateHandler(fd, requested)] else [])
    + (if requested == WRITE then [CallLater(100, fd, WRITE)] else [])
  }

  /** The handler is re-registered exactly when the mode changes, so asking
      for the mode already in force never re-registers. */
  lemma EventOpsUpdateIffChanged(current: bv32, requested: bv32, fd: int)
    ensures UpdateHandler(fd, requested) in EventOps(current, requested, fd) <==> current != requested
    ensures forall op :: op in EventOps(current, requested, fd) && op.UpdateHandler? ==> op == UpdateHandler(fd, requested)
  {
  }

  /** The handlers `__call__` runs for an event mask, in the order it runs them. */
  datatype Handler = OnRead | OnWrite | OnError

  function Dispatch(events: bv32): (hs: seq<Handler>)
    ensures OnRead in hs <==> events & READ != 0
    ensures OnWrite in hs <==> events & WRITE != 0
    ensures OnError in hs <==> events & ERROR != 0
    ensures forall i, j :: 0 <= i < j < |hs| ==> hs[i] != hs[j] && Rank(hs[i]) < Rank(hs[j])
  {
    (if events & READ != 0 then [OnRead] else [])
    + (if events & WRITE != 0 then [OnWrite] else [])
    + (if events & ERROR != 0 then [OnError] else [])
  }

  function Rank(h: Handler): nat {
    match h
    case OnRead => 0
    case OnWrite => 1
    case OnError => 2
  }

  /** Whether `do_read` closes the minion: on a connection reset, at end of
      file, or when the WebSocket it forwards to is already closed. */
  predicate ReadCloses(recv: RecvOutcome, wsAttached: bool, wsClosedError: bool) {
    match recv
    case RecvTimeout(reset) => reset
    case Received(d) => d == [] || (wsAttached && wsClosedError)
  }

  // ---------------------------------------------------------------------------
  // The state of a minion and what each of its methods does to it
  // ---------------------------------------------------------------------------

  /** Everything a minion's methods change: its own fields, the IOLoop's log
      of calls and the `MINIONS` table. */
  datatype MinionState = MinionState(
    data2send: seq<string>, mode: bv32, wsAttached: bool,
    wsCloses: seq<Option<string>>, forwarded: seq<seq<bv8>>, ptySizes: seq<(int, int)>,
    chanClosed: bool, sshClosed: bool, ops: seq<LoopOp>, entries: map<string, Entry>)

  /** The IOLoop calls `close` makes: the handler is removed only when a
      WebSocket handler is attached. */
  function CloseOps(wsAttached: bool, fd: int): seq<LoopOp> {
    if wsAttached then [RemoveHandler(fd)] else []
  }

  /** `update_event_handler(requested)`. */
  function AfterUpdate(st: MinionState, fd: int, requested: bv32): MinionState {
    st.(mode := requested, ops := st.ops + EventOps(st.mode, requested, fd))
  }

  /** `close(msg)`: the WebSocket handler (if any) is unregistered and closed
      with `msg`, the channel and the client are closed, and the id leaves
      `MINIONS` whether it was there or not. */
  function AfterClose(st: MinionState, id: string, fd: int, msg: Option<string>): MinionState {
    st.(ops := st.ops + CloseOps(st.wsAttached, fd),
        wsCloses := st.wsCloses + (if st.wsAttached then [msg] else []),
        chanClosed := true, sshClosed := true, entries := st.entries - {id})
  }

  /** `do_write()` when `chan.send` has outcome `send`. */
  function AfterWrite(st: MinionState, id: string, fd: int, send: SendOutcome): (r: MinionState)
    requires send.Sent? ==> send.n <= |Join(st.data2send)|
    ensures r.wsAttached == st.wsAttached && r.ptySizes == st.ptySizes && r.forwarded == st.forwarded
  {
    if st.data2send == [] then st
    else match send
      case SendTimeout(reset) =>
        if reset then AfterClose(st, id, fd, Some("do_write: chan error")) else AfterUpdate(st, fd, WRITE)
      case Sent(n) =>
        var rest := Join(st.data2send)[n..];
        if rest != "" then AfterUpdate(st.(data2send := [rest]), fd, WRITE)
        else AfterUpdate(st.(data2send := []), fd, READ)
  }

  /** The message `do_read` closes with, in each closing case. */
  function ReadCloseMsg(recv: RecvOutcome): string {
    match recv
    case RecvTimeout(_) => "do_read: chan error"
    case Received(d) => if d == [] then "BYE ~" else "websocket closed"
  }

  /** `do_read()` when `chan.recv` has outcome `recv`: the new state, and
      whether the AttributeError of a missing WebSocket handler escapes. */
  function AfterRead(st: MinionState, id: string, fd: int, recv: RecvOutcome, wsClosedError: bool): (r: (MinionState, bool))
    ensures r.0.data2send == st.data2send && r.0.mode == st.mode
    ensures r.0.wsAttached == st.wsAttached && r.0.ptySizes == st.ptySizes
  {
    match recv
    case RecvTimeout(reset) =>
      (if reset then AfterClose(st, id, fd, Some("do_read: chan error")) else st, false)
    case Received(d) =>
      if d == [] then (AfterClose(st, id, fd, Some("BYE ~")), false)
      else if !st.wsAttached then (st, true)
      else if wsClosedError then (AfterClose(st, id, fd, Some("websocket closed")), false)
      else (st.(forwarded := st.forwarded + [d]), false)
  }

  /** The first step of `__call__`: `do_read` for READ. */
  function CallRead(st: MinionState, id: string, fd: int, events: bv32, recv: RecvOutcome, wsClosedError: bool): (r: (MinionState, bool))
    ensures r.0.data2send == st.data2send && r.0.mode == st.mode
    ensures r.0.wsAttached == st.wsAttached && r.0.ptySizes == st.ptySizes
  {
    if events & READ != 0 then AfterRead(st, id, fd, recv, wsClosedError) else (st, false)
  }

  /** The second step: `do_write` for WRITE. */
  function CallWrite(st: MinionState, id: string, fd: int, events: bv32, send: SendOutcome): (r: MinionState)
    requires send.Sent? ==> send.n <= |Join(st.data2send)|
    ensures r.wsAttached == st.wsAttached && r.ptySizes == st.ptySizes && r.forwarded == st.forwarded
  {
    if events & WRITE != 0 then AfterWrite(st, id, fd, send) else st
  }

  /** The third step: `close` for ERROR. */
  function CallError(st: MinionState, id: string, fd: int, events: bv32): (r: MinionState)
    ensures r.data2send == st.data2send && r.mode == st.mode && r.wsAttached == st.wsAttached
    ensures r.ptySizes == st.ptySizes && r.forwarded == st.forwarded
  {
    if events & ERROR != 0 then AfterClose(st, id, fd, Some("IOLOOP ERROR")) else st
  }

  /** `__call__(fd, events)`: the new state, the handlers that ran and
      whether `do_read` raised, which stops the rest. */
  function AfterCall(st: MinionState, id: string, fd: int, events: bv32, recv: RecvOutcome,
                     wsClosedError: bool, send: SendOutcome): (MinionState, seq<Handler>, bool)
    requires send.Sent? ==> send.n <= |Join(st.data2send)|
  {
    var read := CallRead(st, id, fd, events, recv, wsClosedError);
    if read.1 then (read.0, [OnRead], true)
    else (CallError(CallWrite(read.0, id, fd, events, send), id, fd, events), Dispatch(events), false)
  }

  // ---------------------------------------------------------------------------
  // What the steps promise
  // ---------------------------------------------------------------------------

  /** `close` removes exactly the minion's own id from `MINIONS`, closes the
      channel and the client, and leaves the buffer, mode, frames and sizes. */
  lemma CloseRemovesOnlyItself(st: MinionState, id: string, fd: int, msg: Option<string>)
    ensures var c := AfterClose(st, id, fd, msg);
      && id !in c.entries && c.chanClosed && c.sshClosed
      && (forall k :: k in st.entries && k != id ==> k in c.entries && c.entries[k] == st.entries[k])
      && (forall k :: k in c.entries ==> k in st.entries)
      && c.data2send == st.data2send && c.mode == st.mode && c.forwarded == st.forwarded && c.ptySizes == st.ptySizes
  {
  }

  /** Closing twice has the effect on `MINIONS` of closing once. */
  lemma CloseTwiceEntries(st: MinionState, id: string, fd: int, m1: Option<string>, m2: Option<string>)
    ensures AfterClose(AfterClose(st, id, fd, m1), id, fd, m2).entries == AfterClose(st, id, fd, m1).entries
  {
    assert st.entries - {id} - {id} == st.entries - {id};
  }

  /** After `chan.send` took `n` characters, the buffer holds exactly the
      unsent suffix of its join, as at most one piece, and the minion waits
      for WRITE iff something is left, READ otherwise. */
  lemma {:induction false} WriteKeepsUnsent(st: MinionState, id: string, fd: int, n: nat)
    requires st.data2send != [] && n <= |Join(st.data2send)|
    ensures var w := AfterWrite(st, id, fd, Sent(n));
      && |w.data2send| <= 1
      && Join(w.data2send) == Join(st.data2send)[n..]
      && Join(st.data2send)[..n] + Join(w.data2send) == Join(st.data2send)
      && w.mode == (if Join(w.data2send) != "" then WRITE else READ)
      && w.ops == st.ops + EventOps(st.mode, w.mode, fd)
      && w.entries == st.entries && w.chanClosed == st.chanClosed && w.wsCloses == st.wsCloses
  {
    var all := Join(st.data2send);
    var rest := all[n..];
    var w := AfterWrite(st, id, fd, Sent(n));
    assert all[..n] + rest == all;
    if rest != "" {
      assert w == AfterUpdate(st.(data2send := [rest]), fd, WRITE);
      JoinAppend([], rest);
      assert [] + [rest] == [rest];
    } else {
      assert w == AfterUpdate(st.(data2send := []), fd, READ);
    }
  }

  /** A timeout without a reset keeps the buffer and asks to be called again
      for WRITE; a reset closes the minion; an empty buffer changes nothing. */
  lemma WriteTimeoutAndReset(st: MinionState, id: string, fd: int, send: SendOutcome)
    requires send.Sent? ==> send.n <= |Join(st.data2send)|
    ensures st.data2send == [] ==> AfterWrite(st, id, fd, send) == st
    ensures st.data2send != [] && send == SendTimeout(false) ==>
      var w := AfterWrite(st, id, fd, send);
      && w.data2send == st.data2send && w.mode == WRITE && CallLater(100, fd, WRITE) in w.ops
      && w.entries == st.entries && w.chanClosed == st.chanClosed
    ensures st.data2send != [] && send == SendTimeout(true) ==>
      var w := AfterWrite(st, id, fd, send);
      && w.data2send == st.data2send && w.mode == st.mode
      && w.entries == st.entries - {id} && w.chanClosed && w.sshClosed
      && w.wsCloses == st.wsCloses + (if st.wsAttached then [Some("do_write: chan error")] else [])
  {
    if st.data2send != [] && send == SendTimeout(false) {
      var w := AfterWrite(st, id, fd, send);
      assert w.ops == st.ops + EventOps(st.mode, WRITE, fd);
      assert EventOps(st.mode, WRITE, fd)[|EventOps(st.mode, WRITE, fd)| - 1] == CallLater(100, fd, WRITE);
    }
  }

  /** `do_read` raises iff data arrives with no handler attached; it
      forwards exactly the data that arrives while the WebSocket is open, and
      closes the minion, with the matching message, iff `ReadCloses`. */
  lemma ReadForwardsOrCloses(st: MinionState, id: string, fd: int, recv: RecvOutcome, wsClosedError: bool)
    ensures var (s, raised) := AfterRead(st, id, fd, recv, wsClosedError);
      && (raised <==> recv.Received? && recv.data != [] && !st.wsAttached)
      && s.forwarded == st.forwarded
           + (if recv.Received? && recv.data != [] && st.wsAttached && !wsClosedError then [recv.data] else [])
      && (ReadCloses(recv, st.wsAttached, wsClosedError) ==>
            s == AfterClose(st.(forwarded := s.forwarded), id, fd, Some(ReadCloseMsg(recv))))
      && (!ReadCloses(recv, st.wsAttached, wsClosedError) ==>
            s.entries == st.entries && s.chanClosed == st.chanClosed && s.sshClosed == st.sshClosed
            && s.ops == st.ops && s.wsCloses == st.wsCloses)
  {
  }

  /** Whether `do_read` runs and raises (data, but no WebSocket handler). */
  predicate ReadRaises(events: bv32, recv: RecvOutcome, wsAttached: bool) {
    events & READ != 0 && recv.Received? && recv.data != [] && !wsAttached
  }

  /** Whether `do_write` closes the minion: a reset while sending. */
  predicate WriteCloses(buffer: seq<string>, send: SendOutcome) {
    buffer != [] && send == SendTimeout(true)
  }

  /** Whether one `__call__` closes the minion, in any of its steps. */
  predicate CallCloses(events: bv32, recv: RecvOutcome, wsAttached: bool, wsClosedError: bool,
                       buffer: seq<string>, send: SendOutcome) {
    || (events & READ != 0 && ReadCloses(recv, wsAttached, wsClosedError))
    || (!ReadRaises(events, recv, wsAttached) && events & WRITE != 0 && WriteCloses(buffer, send))
    || (!ReadRaises(events, recv, wsAttached) && events & ERROR != 0)
  }

  /** What each step of `__call__` does to `MINIONS` and the two `closed`
      flags: remove the id and set both exactly when the step closes. */
  predicate ClosesAs(before: MinionState, after: MinionState, id: string, closes: bool) {
    && after.entries == (if closes then before.entries - {id} else before.entries)
    && after.chanClosed == (before.chanClosed || closes)
    && after.sshClosed == (before.sshClosed || closes)
  }

  lemma ReadClosesAs(st: MinionState, id: string, fd: int, events: bv32, recv: RecvOutcome, wsClosedError: bool)
    ensures ClosesAs(st, CallRead(st, id, fd, events, recv, wsClosedError).0, id,
                     events & READ != 0 && ReadCloses(recv, st.wsAttached, wsClosedError))
  {
  }

  lemma WriteClosesAs(st: MinionState, id: string, fd: int, events: bv32, send: SendOutcome)
    requires send.Sent? ==> send.n <= |Join(st.data2send)|
    ensures ClosesAs(st, CallWrite(st, id, fd, events, send), id, events & WRITE != 0 && WriteCloses(st.data2send, send))
  {
  }

  lemma ErrorClosesAs(st: MinionState, id: string, fd: int, events: bv32)
    ensures ClosesAs(st, CallError(st, id, fd, events), id, events & ERROR != 0)
  {
  }

  /** Closing in several steps is closing once. */
  lemma ClosesAsChain(s0: MinionState, s1: MinionState, s2: MinionState, id: string, a: bool, b: bool)
    requires ClosesAs(s0, s1, id, a) && ClosesAs(s1, s2, id, b)
    ensures ClosesAs(s0, s2, id, a || b)
  {
    assert s0.entries - {id} - {id} == s0.entries - {id};
  }

  /** `__call__` runs the handlers `Dispatch(events)` names, unless `do_read`
      raises, which stops the rest and changes nothing. */
  lemma CallStopsOnRaise(st: MinionState, id: string, fd: int, events: bv32,
                         recv: RecvOutcome, wsClosedError: bool, send: SendOutcome)
    requires send.Sent? ==> send.n <= |Join(st.data2send)|
    ensures var (s, ran, raised) := AfterCall(st, id, fd, events, recv, wsClosedError, send);
      && (raised <==> ReadRaises(events, recv, st.wsAttached))
      && ran == (if raised then [OnRead] else Dispatch(events))
      && (raised ==> s == st)
  {
    if events & READ != 0 {
      ReadForwardsOrCloses(st, id, fd, recv, wsClosedError);
    }
  }

  /** For READ, `__call__` forwards what `do_read` forwards; without READ it
      forwards nothing. */
  lemma CallForwardsRead(st: MinionState, id: string, fd: int, events: bv32,
                         recv: RecvOutcome, wsClosedError: bool, send: SendOutcome)
    requires send.Sent? ==> send.n <= |Join(st.data2send)|
    ensures var s := AfterCall(st, id, fd, events, recv, wsClosedError, send).0;
      && (events & READ != 0 ==> s.forwarded == AfterRead(st, id, fd, recv, wsClosedError).0.forwarded)
      && (events & READ == 0 ==> s.forwarded == st.forwarded)
  {
    var read := CallRead(st, id, fd, events, recv, wsClosedError);
    if !read.1 {
    }
  }

  /** The minion leaves `MINIONS`, with channel and client closed, iff one of
      the steps of `__call__` closed it. */
  lemma {:induction false} CallClosesIff(st: MinionState, id: string, fd: int, events: bv32,
                                         recv: RecvOutcome, wsClosedError: bool, send: SendOutcome)
    requires send.Sent? ==> send.n <= |Join(st.data2send)|
    ensures ClosesAs(st, AfterCall(st, id, fd, events, recv, wsClosedError, send).0, id,
                     CallCloses(events, recv, st.wsAttached, wsClosedError, st.data2send, send))
  {
    var read := CallRead(st, id, fd, events, recv, wsClosedError);
    ReadClosesAs(st, id, fd, events, recv, wsClosedError);
    if read.1 {
      assert !(events & READ != 0 && ReadCloses(recv, st.wsAttached, wsClosedError));
    } else {
      var written := CallWrite(read.0, id, fd, events, send);
      WriteClosesAs(read.0, id, fd, events, send);
      ErrorClosesAs(written, id, fd, events);
      ClosesAsChain(st, read.0, written, id,
        events & READ != 0 && ReadCloses(recv, st.wsAttached, wsClosedError),
        events & WRITE != 0 && WriteCloses(st.data2send, send));
      ClosesAsChain(st, written, CallError(written, id, fd, events), id,
        (events & READ != 0 && ReadCloses(recv, st.wsAttached, wsClosedError))
          || (events & WRITE != 0 && WriteCloses(st.data2send, send)),
        events & ERROR != 0);
    }
  }

  /** For WRITE the buffer keeps exactly the unsent suffix of its join;
      otherwise, or on a timeout, it is unchanged. */
  lemma CallWritesBuffer(st: MinionState, id: string, fd: int, events: bv32,
                         recv: RecvOutcome, wsClosedError: bool, send: SendOutcome)
    requires send.Sent? ==> send.n <= |Join(st.data2send)|
    ensures var (s, _, raised) := AfterCall(st, id, fd, events, recv, wsClosedError, send);
      && (!raised && events & WRITE != 0 && st.data2send != [] && send.Sent? ==>
            Join(s.data2send) == Join(st.data2send)[send.n..])
      && (events & WRITE == 0 || send.SendTimeout? || st.data2send == [] ==> s.data2send == st.data2send)
      && s.ptySizes == st.ptySizes && s.wsAttached == st.wsAttached
  {
    var read := CallRead(st, id, fd, events, recv, wsClosedError);
    if !read.1 {
      if events & WRITE != 0 && st.data2send != [] && send.Sent? {
        WriteKeepsUnsent(read.0, id, fd, send.n);
      }
    }
  }

  class Minion {
    const id: string
    const fd: int
    const loop: IOLoop
    const registry: Registry

    /** Input not yet taken by the channel. */
    var data2send: seq<string>
    /** The readiness the IOLoop watches for. */
    var mode: bv32
    /** Whether a WebSocket handler is attached (`ws_handler` is not None). */
    var wsAttached: bool
    /** The reasons passed to `ws_handler.close`, in order. */
    var wsCloses: seq<Option<string>>
    /** The frames written to the WebSocket, in order. */
    var forwarded: seq<seq<bv8>>
    /** Window sizes passed to `chan.resize_pty`, in order. */
    var ptySizes: seq<(int, int)>
    var chanClosed: bool
    var sshClosed: bool

    /** The minion's fields with the IOLoop log and `MINIONS`. */
    function State(): MinionState
      reads this, loop, registry
    {
      MinionState(data2send, mode, wsAttached, wsCloses, forwarded, ptySizes, chanClosed, sshClosed,
                  loop.ops, registry.entries)
    }

    constructor (id: string, fd: int, loop: IOLoop, registry: Registry)
      ensures this.id == id && this.fd == fd && this.loop == loop && this.registry == registry
      ensures data2send == [] && mode == READ && !wsAttached
      ensures wsCloses == [] && forwarded == [] && ptySizes == []
      ensures !chanClosed && !sshClosed
    {
      this.id := id;
      this.fd := fd;
      this.loop := loop;
      this.registry := registry;
      data2send := [];
      mode := READ;
      wsAttached := false;
      wsCloses := [];
      forwarded := [];
      ptySizes := [];
      chanClosed := false;
      sshClosed := false;
    }

    /** Attaches a WebSocket handler (`ws_handler = handler`). */
    method SetHandler()
      modifies this
      ensures State() == old(State()).(wsAttached := true)
    {
      wsAttached := true;
    }

    /** `chan.resize_pty(width, height)`. */
    method ResizePty(width: int, height: int)
      modifies this
      ensures State() == old(State()).(ptySizes := old(ptySizes) + [(width, height)])
    {
      ptySizes := ptySizes + [(width, height)];
    }

    /** Queues browser input (`data2send.append(data)`). */
    method Queue(data: string)
      modifies this
      ensures State() == old(State()).(data2send := old(data2send) + [data])
      ensures Join(data2send) == Join(old(data2send)) + data
    {
      JoinAppend(data2send, data);
      data2send := data2send + [data];
    }

    method UpdateEventHandler(requested: bv32)
      modifies this, loop
      ensures State() == AfterUpdate(old(State()), fd, requested)
    {
      var ops := [];
      if mode != requested {
        mode := requested;
        ops := [UpdateHandler(fd, requested)];
      }
      if requested == WRITE {
        ops := ops + [CallLater(100, fd, WRITE)];
      }
      loop.ops := loop.ops + ops;
    }

    /** Removes this minion from `MINIONS` (absent or not) after closing the
        WebSocket handler, the channel and the SSH client. */
    method Close(msg: Option<string>)
      modifies this, loop, registry
      ensures State() == AfterClose(old(State()), id, fd, msg)
    {
      if wsAttached {
        loop.ops := loop.ops + [RemoveHandler(fd)];
        wsCloses := wsCloses + [msg];
      }
      chanClosed := true;
      sshClosed := true;
      registry.entries := registry.entries - {id};
    }

    /** Sends what is buffered; keeps exactly the part the channel did not take. */
    method DoWrite(send: SendOutcome)
      requires send.Sent? ==> send.n <= |Join(data2send)|
      modifies this, loop, registry
      ensures State() == AfterWrite(old(State()), id, fd, send)
    {
      if data2send == [] {
        return;
      }
      var data := Join(data2send);
      match send {
        case SendTimeout(reset) =>
          if reset {
            Close(Some("do_write: chan error"));
          } else {
            UpdateEventHandler(WRITE);
          }
        case Sent(n) =>
          data2send := [];
          var rest := data[n..];
          if rest != "" {
            data2send := data2send + [rest];
            UpdateEventHandler(WRITE);
          } else {
            UpdateEventHandler(READ);
          }
      }
    }

    /** Reads from the channel and forwards to the WebSocket; end of file
        closes the minion instead. `raised` is the AttributeError that escapes
        when data arrives and no WebSocket handler is attached;
        `wsClosedError` is whether `write_message` raises
        WebSocketClosedError. */
    method DoRead(recv: RecvOutcome, wsClosedError: bool) returns (raised: bool)
      requires recv.Received? ==> |recv.data| <= BufferSize
      modifies this, loop, registry
      ensures (State(), raised) == AfterRead(old(State()), id, fd, recv, wsClosedError)
    {
      raised := false;
      match recv {
        case RecvTimeout(reset) =>
          if reset {
            Close(Some("do_read: chan error"));
          }
        case Received(d) =>
          if d == [] {
            Close(Some("BYE ~"));
            return;
          }
          if !wsAttached {
            raised := true;
            return;
          }
          if wsClosedError {
            Close(Some("websocket closed"));
          } else {
            forwarded := forwarded + [d];
          }
      }
    }

    /** `__call__(fd, events)`: runs the handlers `Dispatch(events)` names, in
        order; an exception out of `do_read` stops the rest. */
    method Call(events: bv32, recv: RecvOutcome, wsClosedError: bool, send: SendOutcome)
      returns (ran: seq<Handler>, raised: bool)
      requires recv.Received? ==> |recv.data| <= BufferSize
      requires send.Sent? ==> send.n <= |Join(data2send)|
      modifies this, loop, registry
      ensures State() == AfterCall(old(State()), id, fd, events, recv, wsClosedError, send).0
      ensures ran == AfterCall(old(State()), id, fd, events, recv, wsClosedError, send).1
      ensures raised == AfterCall(old(State()), id, fd, events, recv, wsClosedError, send).2
    {
      ghost var read := CallRead(State(), id, fd, events, recv, wsClosedError);
      ran := [];
      raised := false;
      if events & READ != 0 {
        raised := DoRead(recv, wsClosedError);
        ran := [OnRead];
        if raised {
          return;
        }
      }
      assert State() == read.0;
      assert ran == if events & READ != 0 then [OnRead] else [];
      ghost var written := CallWrite(read.0, id, fd, events, send);
      if events & WRITE != 0 {
        DoWrite(send);
        ran := ran + [OnWrite];
      }
      assert State() == written;
      assert ran == (if events & READ != 0 then [OnRead] else []) + (if events & WRITE != 0 then [OnWrite] else []);
      if events & ERROR != 0 {
        Close(Some("IOLOOP ERROR"));
        ran := ran + [OnError];
      }
    }
  }
}

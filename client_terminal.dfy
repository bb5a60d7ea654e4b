/** The browser's terminal session (static/js/main.js): the cached cell size
    and the dimension it gives, the terminal widget with its resize rule and
    its first-output flag, the login handshake and the WebSocket url, the
    decoding of each frame, the login form check and the session storage.
    The DOM, the widget's rendering and the browser's decoders are parameters. */
module ClientTerminal {
  import opened Common

  // ---------------------------------------------------------------------------
  // getCurrentDimension
  // ---------------------------------------------------------------------------

  /** `parseInt(x / w, 10)` for a pixel length and a positive cell size: the
      quotient truncated. */
  function Trunc(x: nat, w: nat): (q: nat)
    requires w > 0
    ensures q * w <= x < (q + 1) * w
  {
    x / w
  }

  /** The module-level `cell` object; 0 stands for a size not yet known
      (undefined or 0, both falsy). */
  class CellCache {
    var width: nat
    var height: nat

    constructor ()
      ensures width == 0 && height == 0
    {
      width := 0;
      height := 0;
    }

    /** `getCurrentDimension(term)`. `measured` is the widget's cell size, or
        `None` when reading it throws; `None` in a result is NaN (a division
        by an unknown cell size). The cell size is read only while one of
        the cached sizes is unknown. */
    method CurrentDimension(measured: Option<(nat, nat)>, innerWidth: nat, innerHeight: nat)
      returns (cols: Option<nat>, rows: Option<nat>)
      modifies this
      ensures old(width) > 0 && old(height) > 0 ==> width == old(width) && height == old(height)
      ensures (old(width) == 0 || old(height) == 0) && measured.Some? ==> width == measured.value.0 && height == measured.value.1
      ensures (old(width) == 0 || old(height) == 0) && measured.None? ==> width == old(width) && height == old(height)
      ensures cols == if width > 0 then Some(Trunc(innerWidth, width)) else None
      ensures rows == if height > 0 then Some(Trunc(innerHeight, height)) else None
    {
      if width == 0 || height == 0 {
        if measured.Some? {
          width := measured.value.0;
          height := measured.value.1;
        }
      }
      cols := if width > 0 then Some(Trunc(innerWidth, width)) else None;
      rows := if height > 0 then Some(Trunc(innerHeight, height)) else None;
    }
  }

  // ---------------------------------------------------------------------------
  // The terminal widget: resizeWindow, write2terminal, onData, sock.onclose
  // ---------------------------------------------------------------------------

  /** A message the browser sends over the WebSocket. */
  datatype ClientMsg = ResizeMsg(cols: nat, rows: nat) | DataMsg(data: string)

  /** The message `resizeWindow(cols, rows)` sends from a terminal of the
      current size, if any. */
  function ResizeMessage(curCols: nat, curRows: nat, cols: nat, rows: nat): (m: Option<ClientMsg>)
    ensures m.Some? <==> cols != curCols || rows != curRows
    ensures m.Some? ==> m.value == ResizeMsg(cols, rows)
  {
    if cols != curCols || rows != curRows then Some(ResizeMsg(cols, rows)) else None
  }

  /** After the terminal took the new size, the same call sends nothing. */
  lemma ResizeTwiceSendsOnce(curCols: nat, curRows: nat, cols: nat, rows: nat)
    ensures ResizeMessage(cols, rows, cols, rows) == None
    ensures ResizeMessage(curCols, curRows, cols, rows).Some? ==> ResizeMessage(curCols, curRows, cols, rows).value.cols == cols
  {
  }

  function MessagesOf(m: Option<ClientMsg>): seq<ClientMsg> {
    if m.Some? then [m.value] else []
  }

  /** The terminal created by `wsCallback`, with its socket: `sent` is every
      message sent on the socket, `written` every text given to `term.write`,
      and `disposed` means `term` (and `sock`) are undefined since the close. */
  class Terminal {
    var cols: nat
    var rows: nat
    var resized: bool
    var disposed: bool
    var written: seq<Option<string>>
    var sent: seq<ClientMsg>

    /** `new window.Terminal(...)`: the widget starts at its default size. */
    constructor (cols: nat, rows: nat)
      ensures this.cols == cols && this.rows == rows
      ensures !resized && !disposed && written == [] && sent == []
    {
      this.cols := cols;
      this.rows := rows;
      resized := false;
      disposed := false;
      written := [];
      sent := [];
    }

    /** `sock.onopen`: the fit addon sets the size the container allows. */
    method OnOpen(fitCols: nat, fitRows: nat)
      modifies this
      ensures cols == fitCols && rows == fitRows
      ensures resized == old(resized) && disposed == old(disposed) && written == old(written) && sent == old(sent)
    {
      cols := fitCols;
      rows := fitRows;
    }

    /** `term.resizeWindow(cols, rows)`. NaN differs from every size, and the
        widget's `resize` throws on it before anything is sent. */
    method ResizeWindow(newCols: Option<nat>, newRows: Option<nat>) returns (threw: bool)
      modifies this
      ensures threw <==> newCols.None? || newRows.None?
      ensures threw ==> cols == old(cols) && rows == old(rows) && sent == old(sent)
      ensures !threw ==> (cols == newCols.value && rows == newRows.value
        && sent == old(sent) + MessagesOf(ResizeMessage(old(cols), old(rows), newCols.value, newRows.value)))
      ensures resized == old(resized) && disposed == old(disposed) && written == old(written)
    {
      if newCols.None? || newRows.None? {
        return true;
      }
      threw := false;
      var m := ResizeMessage(cols, rows, newCols.value, newRows.value);
      if m.Some? {
        cols, rows := newCols.value, newRows.value;
        sent := sent + [m.value];
      }
    }

    /** `write2terminal(text)`: the text is written, and the first time the
        terminal is fitted to the window; `resized` is set only when that
        fitting did not throw. Nothing happens once the terminal is gone. */
    method Write2Terminal(text: Option<string>, cell: CellCache, measured: Option<(nat, nat)>, innerWidth: nat, innerHeight: nat)
      modifies this, cell
      ensures old(disposed) || old(resized) ==> cell.width == old(cell.width) && cell.height == old(cell.height)
      ensures !old(disposed) && !old(resized) ==>
        if (old(cell.width) > 0 && old(cell.height) > 0) || measured.None?
        then cell.width == old(cell.width) && cell.height == old(cell.height)
        else cell.width == measured.value.0 && cell.height == measured.value.1
      ensures disposed == old(disposed)
      ensures old(disposed) ==> (cols == old(cols) && rows == old(rows) && written == old(written)
        && sent == old(sent) && resized == old(resized))
      ensures !old(disposed) ==> written == old(written) + [text]
      ensures !old(disposed) && old(resized) ==> cols == old(cols) && rows == old(rows) && sent == old(sent) && resized
      ensures !old(disposed) && !old(resized) ==> (resized <==> cell.width > 0 && cell.height > 0)
      ensures !old(disposed) && !old(resized) && resized ==> (
        && cols == Trunc(innerWidth, cell.width) && rows == Trunc(innerHeight, cell.height)
        && sent == old(sent) + MessagesOf(ResizeMessage(old(cols), old(rows), cols, rows)))
      ensures !old(disposed) && !old(resized) && !resized ==> cols == old(cols) && rows == old(rows) && sent == old(sent)
    {
      if disposed {
        return;
      }
      written := written + [text];
      if !resized {
        var c, r := cell.CurrentDimension(measured, innerWidth, innerHeight);
        var threw := ResizeWindow(c, r);
        if !threw {
          resized := true;
        }
      }
    }

    /** `term.onData(data)`: the keystrokes go to the server. */
    method OnData(data: string)
      requires !disposed
      modifies this
      ensures sent == old(sent) + [DataMsg(data)]
      ensures cols == old(cols) && rows == old(rows) && written == old(written)
      ensures resized == old(resized) && disposed == old(disposed)
    {
      sent := sent + [DataMsg(data)];
    }

    /** `sock.onclose`: the terminal is disposed of. */
    method OnClose()
      modifies this
      ensures disposed
      ensures cols == old(cols) && rows == old(rows) && written == old(written)
      ensures resized == old(resized) && sent == old(sent)
    {
      disposed := true;
    }
  }

  // ---------------------------------------------------------------------------
  // wsCallback: the handshake and the WebSocket url
  // ---------------------------------------------------------------------------

  /** The answer to the login POST: status, status text and `responseJSON`
      (`None` when the body is not JSON). */
  datatype Response = Response(status: int, statusText: string, body: Option<LoginResult>)

  /** How `wsCallback` reads the answer. `Broken` is a TypeError thrown by
      reading a member of an undefined or null value. */
  datatype Handshake =
    | Failed(message: string)
    | NoSession(message: string, reload: bool)
    | Ready(id: string, encoding: Option<string>)
    | Broken

  /** The lower-cased status that makes the browser reload the client list. */
  const DanglingPrefix: string := "unable to connect to localhost"

  function Classify(resp: Response): (h: Handshake)
    ensures resp.status != 200 ==> h == Failed(IntToString(resp.status) + ": " + resp.statusText)
    ensures resp.status == 200 && resp.body.Some? && (resp.body.value.id == None || resp.body.value.id == Some("")) ==>
      (resp.body.value.status.Some? ==>
         h == NoSession(resp.body.value.status.value, StartsWith(Lower(resp.body.value.status.value), DanglingPrefix)))
      && (resp.body.value.status.None? ==> h == Broken)
    ensures h.Ready? <==> resp.status == 200 && resp.body.Some? && resp.body.value.id.Some? && resp.body.value.id.value != ""
    ensures h.Ready? ==> h.id == resp.body.value.id.value && h.encoding == resp.body.value.encoding
    ensures h.NoSession? ==> resp.body.Some? && Some(h.message) == resp.body.value.status
    ensures h.Broken? <==> resp.status == 200 && (resp.body.None? || ((resp.body.value.id == None || resp.body.value.id == Some("")) && resp.body.value.status.None?))
  {
    if resp.status != 200 then Failed(IntToString(resp.status) + ": " + resp.statusText)
    else match resp.body
      case None => Broken
      case Some(msg) =>
        if msg.id == None || msg.id == Some("") then
          match msg.status
          case None => Broken
          case Some(st) => NoSession(st, StartsWith(Lower(st), DanglingPrefix))
        else Ready(msg.id.value, msg.encoding)
  }

  /** `String.prototype.replace` with a string pattern: only its first
      occurrence is replaced. */
  function ReplaceFirst(s: string, pat: string, rep: string): string
    decreases |s|
  {
    if StartsWith(s, pat) then rep + s[|pat|..]
    else if s == [] then []
    else [s[0]] + ReplaceFirst(s[1..], pat, rep)
  }

  /** Where the pattern does not occur, nothing is replaced. */
  lemma {:induction false} ReplaceFirstAbsent(s: string, pat: string, rep: string)
    requires !Contains(s, pat)
    ensures ReplaceFirst(s, pat, rep) == s
    decreases |s|
  {
    if s != [] {
      ReplaceFirstAbsent(s[1..], pat, rep);
    }
  }

  /** A string that begins with the pattern has exactly that prefix replaced. */
  lemma ReplaceFirstPrefix(pat: string, rest: string, rep: string)
    ensures ReplaceFirst(pat + rest, pat, rep) == rep + rest
  {
    var s := pat + rest;
    assert s[..|pat|] == pat;
    assert s[|pat|..] == rest;
  }

  /** `scheme = proto === "http:" ? "ws:" : "wss:"`. */
  function Scheme(protocol: string): string {
    if protocol == "http:" then "ws:" else "wss:"
  }

  /** `${url.replace(proto, scheme)}ws?id=${msg.id}`. */
  function WsUrl(href: string, protocol: string, id: string): string {
    ReplaceFirst(href, protocol, Scheme(protocol)) + "ws?id=" + id
  }

  /** A url in which the protocol string does not occur is kept as it is,
      with the session path appended. */
  lemma WsUrlWithoutProtocol(href: string, protocol: string, id: string)
    requires !Contains(href, protocol)
    ensures WsUrl(href, protocol, id) == href + "ws?id=" + id
  {
    ReplaceFirstAbsent(href, protocol, Scheme(protocol));
  }

  /** A page location begins with its protocol, so the socket url is the page
      url with "ws:" or "wss:" in front and the session id at the end. */
  lemma WsUrlOfLocation(protocol: string, rest: string, id: string)
    ensures WsUrl(protocol + rest, protocol, id) == Scheme(protocol) + rest + "ws?id=" + id
    ensures StartsWith(WsUrl(protocol + rest, protocol, id), "ws:") <==> protocol == "http:"
  {
    ReplaceFirstPrefix(protocol, rest, Scheme(protocol));
    var u := WsUrl(protocol + rest, protocol, id);
    if protocol != "http:" {
      assert u[..3] == "wss";
    }
  }

  /** The effects of `wsCallback` before the socket opens. */
  datatype HandshakeEffect = HandshakeEffect(message: Option<string>, reload: bool, socketUrl: Option<string>)

  /** `session` is `window.sessionStorage`; `href` and `protocol` the page
      location. */
  method WsCallback(resp: Response, session: SessionStorage, href: string, protocol: string)
    returns (effect: HandshakeEffect)
    modifies session
    ensures effect.socketUrl.Some? <==> Classify(resp).Ready?
    ensures Classify(resp).Ready? ==>
      && effect.socketUrl == Some(WsUrl(href, protocol, Classify(resp).id))
      && session.items == map["minion" := Classify(resp).id]
      && effect.message.None? && !effect.reload
    ensures !Classify(resp).Ready? ==> session.items == old(session.items)
    ensures effect.reload <==> Classify(resp).NoSession? && Classify(resp).reload
    ensures Classify(resp).Failed? || Classify(resp).NoSession? ==> effect.message == Some(Classify(resp).message)
    ensures Classify(resp).Broken? ==> effect.message.None?
  {
    match Classify(resp) {
      case Failed(m) =>
        effect := HandshakeEffect(Some(m), false, None);
      case NoSession(m, reload) =>
        effect := HandshakeEffect(Some(m), reload, None);
      case Broken =>
        effect := HandshakeEffect(None, false, None);
      case Ready(id, _) =>
        session.SetSession("minion", id);
        effect := HandshakeEffect(None, false, Some(WsUrl(href, protocol, id)));
    }
  }

  // ---------------------------------------------------------------------------
  // The frame decoder and processBlobData
  // ---------------------------------------------------------------------------

  /** A `TextDecoder` for an encoding label. */
  datatype Decoder = Decoder(name: string)

  /** `new TextDecoder(msg.encoding)`: a label the browser does not know (and
      `null`) throws, and the decoder stays undefined. */
  function DecoderFor(encoding: Option<string>, known: string -> bool): (d: Option<Decoder>)
    ensures d.Some? <==> encoding.Some? && known(encoding.value)
    ensures d.Some? ==> d.value.name == encoding.value
  {
    if encoding.Some? && known(encoding.value) then Some(Decoder(encoding.value)) else None
  }

  /** What the FileReader does with a frame. */
  datatype ReadOutcome = Loaded(bytes: seq<bv8>) | ReadFailed

  /** The texts `processBlobData` passes to its callback, one per call;
      `decode` is the browser's decoder (`None` when decoding throws), and
      an undefined decoder throws as well. */
  function ProcessBlobData(hasTextDecoder: bool, read: ReadOutcome, decoder: Option<Decoder>,
                           decode: (Decoder, seq<bv8>) -> Option<string>): (calls: seq<Option<string>>)
    ensures |calls| <= 1
    ensures |calls| == 1 <==> hasTextDecoder && read.Loaded?
    ensures |calls| == 1 && decoder.None? ==> calls[0] == None
    ensures |calls| == 1 && decoder.Some? ==> calls[0] == decode(decoder.value, read.bytes)
  {
    if !hasTextDecoder then []
    else match read
      case ReadFailed => []
      case Loaded(bytes) =>
        var text := if decoder.None? then None else decode(decoder.value, bytes);
        [text]
  }

  // ---------------------------------------------------------------------------
  // validateFormData
  // ---------------------------------------------------------------------------

  /** `!data.get(attr)`: the field is absent or empty. */
  predicate Missing(form: map<string, string>, field: string) {
    field !in form || form[field] == ""
  }

  /** The last required field that is missing: `forEach` does not stop at the
      `return`, so a later missing field overwrites an earlier message. */
  function LastMissing(form: map<string, string>, fields: seq<string>): (r: Option<string>)
    ensures r.None? <==> forall i :: 0 <= i < |fields| ==> !Missing(form, fields[i])
    ensures r.Some? ==> exists i :: (0 <= i < |fields| && fields[i] == r.value && Missing(form, fields[i])
      && forall j :: i < j < |fields| ==> !Missing(form, fields[j]))
  {
    if fields == [] then None
    else if Missing(form, fields[|fields| - 1]) then Some(fields[|fields| - 1])
    else
      var r := LastMissing(form, fields[..|fields| - 1]);
      assert forall i :: 0 <= i < |fields| - 1 ==> fields[..|fields| - 1][i] == fields[i];
      r
  }

  /** `${data.get(name)}`: a missing form value prints as "null". */
  function FormText(form: map<string, string>, name: string): string {
    if name in form then form[name] else "null"
  }

  /** `validateFormData(formID, fields)`: the error message and the tab title
      it sets. */
  method ValidateFormData(form: map<string, string>, fields: seq<string>) returns (error: string, title: string)
    ensures error == "" <==> forall i :: 0 <= i < |fields| ==> !Missing(form, fields[i])
    ensures error != "" ==> LastMissing(form, fields).Some? && error == LastMissing(form, fields).value + " is required"
    ensures title == FormText(form, "username") + "@port:" + FormText(form, "port")
  {
    error := "";
    var i := 0;
    while i < |fields|
      invariant 0 <= i <= |fields|
      invariant error == (if LastMissing(form, fields[..i]).Some? then LastMissing(form, fields[..i]).value + " is required" else "")
    {
      assert fields[..i + 1][..i] == fields[..i];
      if Missing(form, fields[i]) {
        error := fields[i] + " is required";
      }
      i := i + 1;
    }
    assert fields[..|fields|] == fields;
    title := FormText(form, "username") + "@port:" + FormText(form, "port");
  }

  // ---------------------------------------------------------------------------
  // setSession
  // ---------------------------------------------------------------------------

  /** `window.sessionStorage`. */
  class SessionStorage {
    var items: map<string, string>

    constructor ()
      ensures items == map[]
    {
      items := map[];
    }

    /** `getItem(name)`. */
    function GetSession(name: string): Option<string>
      reads this
    {
      if name in items then Some(items[name]) else None
    }

    /** `setSession(name, data)`: storage is cleared, then the one key set. */
    method SetSession(name: string, data: string)
      modifies this
      ensures items == map[name := data]
      ensures GetSession(name) == Some(data)
      ensures forall other :: other != name ==> GetSession(other) == None
    {
      items := map[];
      items := items[name := data];
    }
  }
}

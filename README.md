# Gru web terminal: a verified model of its session core

Gru is a web SSH terminal.

- **Server.** A Tornado application. It logs a browser into an SSH host and keeps a *minion* per session: the SSH channel, a buffer of pending input and the IOLoop readiness it waits for. It relays the channel over a WebSocket, receives uploaded files, and keeps a Redis cache of registered clients with the ports they listen on.
- **Browser.** A jQuery page. It measures the terminal, sends resizes and keystrokes, decodes what the server sends, and uploads a file in slices.

This project models the decision logic and the state machines of both sides in Dafny, and proves what they promise:

| file | module | models |
|---|---|---|
| `common.dfy` | `Common` | `Option`, `Result`, decoded JSON, exceptions, the login answer, and the few string operations both sides use: `strip`, `lower`, `startswith`, `in`, `str(int)`, `int(str)`. It proves `int(str(n)) == n`. |
| `utils.dfy` | `Utils` | `gru/utils.py`: the log level, the TLS option decision tree, and how a failed SSH connect becomes the message a user sees. |
| `minion.dfy` | `Minions` | `gru/minion.py`: the `Minion` class, the IOLoop calls it makes (as a log), and the global `MINIONS` table. |
| `handlers.dfy` | `Handlers` | `gru/handlers.py`: argument checks, the client endpoint, `get_args`, the server encoding, the login outcome, WebSocket message dispatch, the upload body and the clean-up of stale registrations. |
| `client_terminal.dfy` | `ClientTerminal` | `static/js/main.js`: the terminal session (dimensions, resize rule, first-output flag, handshake, WebSocket url, frame decoding, form check, session storage). |
| `client_upload.dfy` | `ClientUpload` | `static/js/main.js`: the chunked upload, and the state machine its request callbacks drive. |
| `end_to_end.dfy` | `EndToEnd` | What the server decides and what the browser does with it, in both directions. |

External code the model does not see comes in as parameters:
- **SSH library:** connect outcomes, what `send`/`recv` did, the channel size.
- **Redis:** a `Cache` object.
- **File system:** an `isFile` predicate.
- **Port test:** an `isOpen` predicate.
- **Browser:** the cell size the widget reports, the known encodings, the decoder, what the FileReader did.

IOLoop calls are recorded as a log of operations.

Where the code differs from what one might expect of it, the model follows the code:
- **Slice length.** The upload slices are `chunkSize + 1` bytes long (`nextSlice = slice + chunkSize + 1`). `Blob.slice` excludes its end, so consecutive slices do not overlap; they are one byte longer than the chunk size.
- **No retry on failure.** The error callback of a chunk only logs: no status code causes a retry, and the upload stalls (`Stalled`).
- **No clamping.** `getCurrentDimension` does not raise cols or rows to at least 1.
- **No encoding fallback.** An encoding the browser does not know leaves the decoder undefined. Every later frame then reaches `write2terminal` as `undefined`.
- **Integer progress.** Integers stand in for the floating-point percentage.

The two server files are different revisions of the code: `handlers.py` uses `minion.data_to_dst`, `minion.close(reason=…)`, `set_handler` and `recycle_minion`, and `minion.py` defines none of them. The first two are under "Findings". `set_handler` is modelled as the assignment of `ws_handler` (`Minion.SetHandler`). Calling `recycle_minion` from `post` is modelled as the scheduled operation `RecycleLater(2000, id)`.

## Model

| member | source | states |
|---|---|---|
| Common.ParseIntToString | gru/handlers.py:131 | `int(str(n)) == n` for every integer, so a port survives being written as a cache key or a form field and read back |
| Utils.GetLoggingLevel | gru/utils.py:25-36 | a name that is not in the table is a KeyError |
| Utils.LoggingLevelDefault | gru/utils.py:35-36 | with no `LOG_LEVEL` the default "info" gives INFO |
| Utils.LoggingLevelNamed | gru/utils.py:27-36 | a set value succeeds iff, stripped and lower-cased, it is one of the five level names, and then gives one of the five level values |
| Utils.NormalizeIdempotent | gru/utils.py:35 | stripping and lower-casing twice is the same as once |
| Utils.LevelIgnoresCaseAndSpace | gru/utils.py:35 | surrounding white space and letter case never change the chosen level |
| Utils.GetSslContext | gru/utils.py:65-79 | no context exactly when neither file is given; a context exactly when both are given, both exist and `load_cert_chain` raises nothing, built from them; each missing or absent file gives its own ValueError message, and a load that raises lets that exception out |
| Utils.CertCheckedBeforeKey | gru/utils.py:72-75 | when neither file exists, the error names the certificate |
| Utils.CreateSshClient | gru/utils.py:48-62 | connect is tried twice exactly when the first attempt ends in EOFError, and once otherwise; a socket error (timeouts included) becomes `Unable to connect to host:port`; an authentication failure becomes `Authentication failed.`; after EOF, the retry's own error propagates unmapped, as does any other error |
| Utils.UnableToConnectLower | gru/utils.py:56 | the lower-cased connect message is `unable to connect to ` + lower-cased host + `:` + port |
| Minions.JoinAppend | gru/minion.py:66 | `''.join` of a buffer with one more piece is the old join followed by that piece |
| Minions.EventOpsUpdateIffChanged | gru/minion.py:34-39 | the handler is re-registered iff the requested mode differs from the current one, and only ever with the requested mode |
| Minions.Dispatch | gru/minion.py:25-32 | `do_read` runs iff the READ bit is set, `do_write` iff WRITE is set, `close` iff an ERROR bit is set; each runs at most once, in the order read, write, close |
| Minions.AfterWrite | gru/minion.py:61-84 | `do_write` never touches the WebSocket handler, the window size or what was forwarded |
| Minions.AfterRead | gru/minion.py:41-59 | `do_read` never touches the buffer, the mode, the WebSocket handler or the window size |
| Minions.CallRead | gru/minion.py:27-28 | the READ step of `__call__` leaves the buffer, mode, handler and window size as they were |
| Minions.CallWrite | gru/minion.py:29-30 | the WRITE step of `__call__` leaves the handler, window size and forwarded data as they were |
| Minions.CallError | gru/minion.py:31-32 | the ERROR step of `__call__` leaves the buffer, mode, handler, window size and forwarded data as they were |
| Minions.CloseRemovesOnlyItself | gru/minion.py:86-98 | `close` removes exactly its own id from `MINIONS`, keeps every other entry as it was, adds none, closes channel and client, and leaves buffer, mode, window size and forwarded data alone |
| Minions.CloseTwiceEntries | gru/minion.py:95 | `MINIONS.pop(id, None)` makes a second close leave `MINIONS` as the first left it |
| Minions.WriteKeepsUnsent | gru/minion.py:66-84 | after `chan.send` took `n` characters the buffer is at most one piece, holding exactly the unsent suffix of the old join (sent prefix + rest = old join); the mode is WRITE iff something is left, READ otherwise, and the loop log grows by exactly that mode change; `MINIONS`, the channel and the WebSocket are untouched |
| Minions.WriteTimeoutAndReset | gru/minion.py:61-77 | an empty buffer changes nothing; a timeout without reset keeps the buffer and schedules WRITE again in 0.1 s; a connection reset keeps the buffer, closes the minion and removes it from `MINIONS`, closing an attached WebSocket with `do_write: chan error` |
| Minions.ReadForwardsOrCloses | gru/minion.py:41-59 | `do_read` raises iff data arrives with no WebSocket handler; it forwards exactly the data that arrives while the WebSocket is attached and open; it closes, with the message of its case, iff `ReadCloses` (reset, end of file, closed WebSocket), and otherwise leaves `MINIONS`, the loop log, the closed flags and the WebSocket closes alone |
| Minions.ReadClosesAs | gru/minion.py:27-28 | the READ step removes the id from `MINIONS` and closes channel and client iff READ is set and `do_read` closes |
| Minions.WriteClosesAs | gru/minion.py:29-30 | the WRITE step removes the id and closes iff WRITE is set, the buffer is not empty and the send hits a connection reset |
| Minions.ErrorClosesAs | gru/minion.py:31-32 | the ERROR step removes the id and closes iff an ERROR bit is set |
| Minions.CallStopsOnRaise | gru/minion.py:25-32 | `__call__` raises iff READ is set and data arrives with no handler; then only `do_read` ran and nothing changed; otherwise exactly the handlers `Dispatch(events)` names ran |
| Minions.CallForwardsRead | gru/minion.py:27-28 | with READ, `__call__` forwards exactly what `do_read` forwards; without READ it forwards nothing |
| Minions.CallClosesIff | gru/minion.py:25-32 | the minion leaves `MINIONS`, with channel and client closed, iff one of `do_read`, `do_write` or the ERROR branch closed it; otherwise `MINIONS` and the closed flags are unchanged |
| Minions.CallWritesBuffer | gru/minion.py:29-30 | with WRITE, a non-empty buffer and a successful send, the buffer holds exactly the unsent suffix of its join; without WRITE, on a timeout or with an empty buffer it is unchanged; the handler and window size never change |
| Minions.Minion.constructor | gru/minion.py:14-23 | a new minion has an empty buffer, waits for READ and has no WebSocket handler |
| Minions.Minion.SetHandler | gru/handlers.py:220 | only the WebSocket handler is attached; nothing else changes |
| Minions.Minion.ResizePty | gru/handlers.py:243 | the channel receives exactly this window size; nothing else changes |
| Minions.Minion.Queue | gru/handlers.py:249 | the piece is appended to the buffer, so the join grows by exactly the queued text; nothing else changes |
| Minions.Minion.UpdateEventHandler | gru/minion.py:34-39 | the whole new state is `AfterUpdate`: the mode is the requested one and the loop log grows by `EventOps` (see EventOpsUpdateIffChanged); nothing else changes |
| Minions.Minion.Close | gru/minion.py:86-98 | the whole new state is `AfterClose` (see CloseRemovesOnlyItself): an attached WebSocket is unregistered and closed with the message, the channel and the SSH client are closed, the id leaves `MINIONS` |
| Minions.Minion.DoWrite | gru/minion.py:61-84 | the whole new state, loop log and `MINIONS` included, is `AfterWrite` of the old one (see WriteKeepsUnsent and WriteTimeoutAndReset) |
| Minions.Minion.DoRead | gru/minion.py:41-59 | the whole new state and whether it raised are `AfterRead` of the old state (see ReadForwardsOrCloses) |
| Minions.Minion.Call | gru/minion.py:25-32 | the new state, the handlers run and whether it raised are `AfterCall` of the old state: `do_read`, `do_write` and `close` by the event bits, stopping when `do_read` raises (see CallStopsOnRaise, CallForwardsRead, CallClosesIff, CallWritesBuffer) |
| Handlers.GetValue | gru/handlers.py:83-92 | a missing argument is a MissingArgumentError; an empty one is `InvalidValueError('<name> is missing')`; otherwise the argument as the accessor returns it (control characters U+0000-U+0008 and U+000E-U+001F replaced by spaces, then stripped) is returned, never empty; `query` reads the query string only |
| Handlers.SpaceControls | gru/handlers.py:85-88 | the accessor's replacement keeps the length, keeps every other character in place, and leaves no control character |
| Handlers.GetValueNoControls | gru/handlers.py:85-92 | a value `get_value` returns never contains a control character |
| Handlers.ControlValueMissing | gru/handlers.py:85-91 | a query argument holding only U+0001 becomes empty after the replacement and the strip, so it is reported as `<name> is missing` |
| Handlers.PortOf | gru/handlers.py:108 | `int(port)` succeeds iff the header is present and is a decimal integer, and then gives that integer |
| Handlers.GetClientEndpoint | gru/handlers.py:94-109 | if the peer address equals X-Real-Ip, the port is X-Real-Port; else, if it occurs in X-Forwarded-For, the port is X-Forwarded-Port; else the connection address is returned unchanged; a port that is missing or not a number is an error |
| Handlers.RealIpEndpoint | gru/handlers.py:102-103 | a proxy that writes its real IP and port headers yields exactly that address and port |
| Handlers.PyInt | gru/handlers.py:131 | an integer is kept, a boolean gives 1 or 0, a string succeeds iff it parses and then gives the parsed number (else a ValueError), and null, lists and objects are TypeErrors |
| Handlers.GetArgs | gru/handlers.py:123-134 | a body that is not an object fails with an AttributeError; a missing username, password or port is a KeyError for that key, checked in that order; a port `int` refuses fails with `int`'s own error; a result has hostname (default `localhost`), username and password as sent, and `port == int(data["port"])`; and the arguments are accepted whenever username, password and (if given) hostname are strings and `int` accepts the port |
| Handlers.GetArgsMinionForm | gru/handlers.py:127-131 | the minion login form (no hostname, port as text) gives the arguments for localhost at that port |
| Handlers.GetServerEncoding | gru/handlers.py:136-148 | the trimmed `locale charmap` output when it is non-empty, otherwise `UTF-8`; never empty, never padded |
| Handlers.DanglingCacheKey | gru/handlers.py:176-178 | a cache key is deleted iff the lower-cased message starts with `unable to` and the mode is not `term`; the key is `str(port)`, which reads back as the port |
| Handlers.Cache.Delete | gru/handlers.py:178 | exactly the key is removed from the cache |
| Handlers.IndexHandler.constructor | gru/handlers.py:121 | the result starts as `id`, `status` and `encoding` all null |
| Handlers.IndexHandler.Post | gru/handlers.py:165-193 | bad arguments escape and change nothing; an error the handler does not catch escapes and changes nothing; a caught error leaves `id` null, puts the message in `status`, and deletes the cache entry of the port iff `DanglingCacheKey` says so; success adds exactly the new minion's id to `MINIONS` with the login arguments, schedules its recycling in 2 s, and writes `id` and the configured or detected encoding |
| Handlers.ResizeStep | gru/handlers.py:240-245 | a resize is applied iff it is a two-element list of integers that fit 32 bits, and then with exactly those two numbers, in order; `len()` of a truthy number escapes as TypeError; every other truthy two-element value is refused quietly; absent, falsy or other lengths do nothing |
| Handlers.DataStepAsWrittenDropsInput | gru/handlers.py:247-250 | as written, no message ever reaches the minion's buffer: every non-empty string raises AttributeError |
| Handlers.DataStep | gru/handlers.py:247-250 | as intended: input is queued iff `data` is a non-empty string, and then exactly that string is queued; it never raises |
| Handlers.CloseReason | gru/handlers.py:254-255 | the reason already set, if non-empty; `client disconnected` when none is set or it is empty; never empty |
| Handlers.CloseStepAsWrittenNeverCloses | gru/handlers.py:257-259 | as written, `on_close` never closes the minion: with a minion present it raises TypeError |
| Handlers.CloseStep | gru/handlers.py:257-259 | as intended: the minion is closed iff present, with the close reason |
| Handlers.MessageResizes | gru/handlers.py:238-245 | a resize that raises stops the message with the minion unchanged and lets the exception out; otherwise nothing escapes and the channel gets exactly the `ResizeStep` size, or none |
| Handlers.MessageQueuesInput | gru/handlers.py:247-250 | a message without input changes nothing but the window size; input is queued behind the buffer and written at once, leaving exactly the unsent suffix of buffer + input, with mode WRITE iff something is left; `MINIONS`, the channel and the WebSocket are untouched |
| Handlers.WSHandler.OnMessage | gru/handlers.py:229-250 | without a minion, a TypeError; text that is not JSON, or JSON that is not an object, leaves the whole minion state alone; for an object, the whole new minion state (loop log and `MINIONS` included) and the escaping exception are `MessageEffect` of the old state (see MessageResizes, MessageQueuesInput) |
| Handlers.WSHandler.OnClose | gru/handlers.py:252-259 | the reason becomes `CloseReason(old)`; a present minion's whole new state is `AfterClose` with that reason (see CloseRemovesOnlyItself) |
| Handlers.PrepareUpload | gru/handlers.py:272-276 | an upload target exists iff both query arguments are valid and the session id is in `MINIONS`, and it carries exactly those two values |
| Handlers.UploadHandler.constructor | gru/handlers.py:270 | the body starts empty |
| Handlers.UploadHandler.DataReceived | gru/handlers.py:278-279 | the body grows by exactly the chunk, after what came before |
| Handlers.OpenHostsMembers | gru/handlers.py:379-386 | a registration is returned iff it was read and its port is open |
| Handlers.OpenHostsConcat | gru/handlers.py:380-383 | filtering distributes over concatenation, so kept registrations keep their order |
| Handlers.Clean | gru/handlers.py:377-386 | returns the open registrations in their original order, and deletes from the cache exactly the keys of those whose port is closed |
| ClientTerminal.Trunc | static/js/main.js:98-99 | `q * w <= x < (q + 1) * w`: the viewport divided by the cell size, truncated |
| ClientTerminal.CellCache.CurrentDimension | static/js/main.js:88-101 | the cell size is measured only while not cached (a measurement that throws changes nothing), and cols/rows are the truncated quotients, or NaN while the size is unknown |
| ClientTerminal.ResizeMessage | static/js/main.js:192-198 | a resize message is produced iff cols or rows differ from the current size, and then it carries the new size |
| ClientTerminal.ResizeTwiceSendsOnce | static/js/main.js:193 | a second call with the size just taken sends nothing |
| ClientTerminal.Terminal.constructor | static/js/main.js:172-177 | a new terminal has sent and written nothing, and is not yet resized |
| ClientTerminal.Terminal.OnOpen | static/js/main.js:207-220 | the fitted size is taken and nothing is sent |
| ClientTerminal.Terminal.ResizeWindow | static/js/main.js:192-198 | a NaN dimension throws and sends nothing; otherwise the terminal takes the size, and `{"resize": [cols, rows]}` is sent iff the size differs |
| ClientTerminal.Terminal.Write2Terminal | static/js/main.js:182-190 | after the close nothing happens; otherwise the text is written, and only the first time is the terminal fitted to the window: the cell cache keeps a known size and otherwise takes the measurement (if it did not throw), `resized` becomes true iff the cached size is then known, and the terminal takes the viewport divided by that cell size, sending at most the one resize message; later calls leave size, cache and messages alone |
| ClientTerminal.Terminal.OnData | static/js/main.js:200-202 | exactly one data message with the keystrokes is sent |
| ClientTerminal.Terminal.OnClose | static/js/main.js:230-243 | the terminal is disposed of; nothing else changes |
| ClientTerminal.Classify | static/js/main.js:140-156 | a status other than 200 gives `<status>: <statusText>`; a session iff the answer carries a non-empty id, with the id and encoding from the answer; without an id, the status message, with a client-list reload iff the lower-cased status starts with `unable to connect to localhost`; a missing body or status throws |
| ClientTerminal.ReplaceFirstAbsent | static/js/main.js:169 | `replace` leaves a url without the protocol string unchanged |
| ClientTerminal.WsUrlWithoutProtocol | static/js/main.js:166-169 | a page url in which the protocol string does not occur becomes the socket url unchanged, with `ws?id=<id>` appended |
| ClientTerminal.ReplaceFirstPrefix | static/js/main.js:169 | `replace` on a url that begins with the protocol swaps exactly that prefix |
| ClientTerminal.WsUrlOfLocation | static/js/main.js:166-169 | the socket url is the page url with `ws:` (when the page is `http:`) or `wss:` instead of the protocol, followed by `ws?id=<id>`; it starts with `ws:` iff the page is `http:` |
| ClientTerminal.WsCallback | static/js/main.js:136-170 | a socket url exists iff the handshake is a session, and then session storage holds exactly `minion = id`; without a session the storage is unchanged and the message is shown; reload iff the dangling-localhost case |
| ClientTerminal.DecoderFor | static/js/main.js:159-163 | a decoder exists iff the encoding is given and known, and then it is for that encoding |
| ClientTerminal.ProcessBlobData | static/js/main.js:110-133 | the callback runs exactly once per frame when TextDecoder exists and the read succeeds, whether decoding succeeds or throws (then with `undefined`), and never otherwise |
| ClientTerminal.LastMissing | static/js/main.js:72-81 | none iff every required field is present and non-empty; otherwise the last missing field |
| ClientTerminal.ValidateFormData | static/js/main.js:68-86 | no error iff all fields are filled; otherwise `<last missing field> is required`; the tab title is `username@port:port`, with `null` for a missing value |
| ClientTerminal.SessionStorage.SetSession | static/js/main.js:59-62 | afterwards storage holds exactly the one key with its value |
| ClientUpload.ChunkAt | static/js/main.js:361 | the slice at `slice` is `[slice, min(slice + chunkSize + 1, totalSize))`, within the file |
| ClientUpload.PlanTiles | static/js/main.js:358-393 | the slices from an offset tile the rest of the file: the first starts there, each starts where the previous ended, the last ends at `totalSize`; every non-final slice is `chunkSize + 1` bytes, and none is empty unless the file is |
| ClientUpload.TilesOrdered | static/js/main.js:358-393 | in a tiling, an earlier slice ends no later than a later one starts |
| ClientUpload.TilesCoverOnce | static/js/main.js:358-393 | every byte of the file lies in exactly one slice: no gap, no overlap |
| ClientUpload.PlanCount | static/js/main.js:358-393 | from offset `s`, the upload takes `(totalSize - s + chunkSize) / (chunkSize + 1)` requests |
| ClientUpload.ChunksCount | static/js/main.js:358-393 | a file takes `ceil(totalSize / (chunkSize + 1))` requests; an empty file takes one |
| ClientUpload.PlanReassembles | static/js/main.js:358-393 | the slices from an offset, concatenated in posting order, are the file from that offset |
| ClientUpload.ChunksReassemble | static/js/main.js:358-393 | appending every slice in posting order rebuilds the file exactly |
| ClientUpload.PercentBelowHundred | static/js/main.js:383-390 | an intermediate percentage is below 100 and never lower than the previous one |
| ClientUpload.FiveMegabyteExample | static/js/main.js:349-393 | a 5,000,000-byte file goes as [0, 2097153), [2097153, 4194306), [4194306, 5000000), showing 41 and then 83 |
| ClientUpload.AckStep | static/js/main.js:387-393 | a success moves the current slice from the remaining plan to the acknowledged part |
| ClientUpload.Transfer.Start | static/js/main.js:332-356 | the first slice is posted, progress is 0 and `uploading` is set |
| ClientUpload.Transfer.OnSuccess | static/js/main.js:382-412 | when another slice remains, it starts at `nextSlice` and is the only new request, and progress is `Percent(slice)`, below 100; otherwise exactly one DELETE to the same url is the only new request, progress is 100 and `uploading` is false; the slices posted so far plus those left are always exactly `Chunks(totalSize)` |
| ClientUpload.Transfer.OnError | static/js/main.js:376-381 | the upload stalls: no new request, no DELETE, progress and `uploading` unchanged |
| ClientUpload.CompletedCalls | static/js/main.js:394-411 | a finished upload posted every slice once in file order, then sent one DELETE, and sent no DELETE before that |
| EndToEnd.DanglingMinion | gru/handlers.py:176-178 | a minion login to localhost that fails at the socket is caught; the server drops the port's registration unless in `term` mode, and the browser, reading the same message, reloads the client list |
| EndToEnd.LocalhostMessage | static/js/main.js:147-148 | the localhost connect message, lower-cased, starts with both `unable to connect to localhost` and `unable to` |
| EndToEnd.AuthenticationFailureKeepsClients | gru/utils.py:57-58 | a wrong password is reported but deletes no registration and reloads nothing |
| EndToEnd.LoginReady | static/js/main.js:145-156 | a successful login gives the browser the session id and encoding the server wrote |
| EndToEnd.ResizeReachesChannel | gru/handlers.py:240-245 | a resize the browser sends reaches the channel as that size when both numbers fit 32 bits, and is refused quietly otherwise; it queues no data |
| EndToEnd.KeystrokesReachBuffer | gru/handlers.py:247-250 | keystrokes the browser sends are queued unchanged and cause no resize; as written, every non-empty one raises instead |

## Left out

- **SSH library.** paramiko itself (connect, `invoke_shell`, `exec_command`, SFTP, `resize_pty`'s wire format) is left out: each call's outcome is a parameter.
- **Upload writing.** `UploadHandler.post` and `_write_chunk` (base64 decoding and the SFTP append to `/tmp`) are left out; only the body accumulation is modelled.
- **Other handlers.** `DownloadHandler`, `PortHandler`, `RegisterHandler`, `DeregisterHandler`, `HostsHandler` and `DebugHandler` are I/O plumbing outside the modelled core. So are `BaseMixin.exec_remote_cmd`, `detect_file_existense` and `WSHandler.open`.
- **Outside the core.** `main.py`, the Redis helpers, `find_free_port`, `is_port_open` and `run_async_func` are I/O and wiring. `main.py` imports handlers that `gru/handlers.py` does not define.
- **Browser UI.** The DOM is left out: show/hide, dialogs, `fillClientsTable`, `loadClients` (modelled as the `reload` flag), `copySelectedText`, download, `beforeunload`.
- **No server DELETE.** The upload's DELETE goes to a handler that defines no `delete` method (Tornado answers 405). The model records that the DELETE is sent and says nothing about the answer.
- **Upload path.** The upload url (`/upload?minion=…&file=…`, with the file name not URL-encoded) is not modelled.
- **One upload at a time.** Only one transfer is modelled. Overlapping uploads, and the FileReader `readyState` check, are left out.
- Handlers.IndexHandler.Post: takes the decoded JSON body as its input. A body that is not JSON (the ValueError of `json_decode`) is not modelled. Neither is the `term` form argument passed to `invoke_shell`.
- Handlers.IndexHandler.Post: keeps the minion's encoding in the result only, not as the dynamically added attribute `minion.encoding`.
- Handlers.GetArgs: a hostname, username or password that is not a string is rejected here with a TypeError. The source passes it on to the SSH library, whose handling of it is not modelled.
- Common.Json: has no floating-point numbers. A float port (`int(22.0)` gives 22) and a float resize value are not modelled.
- Common.Strip: strips ASCII white space only. Python's `str.strip` also removes Unicode white space such as U+00A0, U+0085 and U+3000; this affects GetValue, GetServerEncoding and GetLoggingLevel, and is not modelled.
- Handlers.GetClientEndpoint: header names are compared exactly, as Tornado normalizes them; Tornado's case-insensitive lookup is not modelled.
- Common.ParseInt: accepts ASCII digits, an optional sign and ASCII white space. Python's `int` also accepts underscores between digits and non-ASCII digits and spaces; those are not modelled.
- Common.Lower: folds ASCII letters only. Python's and JavaScript's full Unicode case mapping is not modelled.
- ClientUpload.Percent: integer division stands in for `Math.floor((uploaded / totalSize) * 100)`. Floating-point rounding of that expression is not modelled.
- ClientTerminal.CellCache.CurrentDimension: cell and window sizes are integers. Fractional cell sizes, and `parseInt` reading an exponent form such as `5e-7` for a tiny quotient, are not modelled.
- ClientTerminal.Terminal.ResizeWindow: assumes the widget takes exactly the size it is given and throws on NaN. The widget's own minimum size is not modelled, nor what `term.write(undefined)` displays.
- Handlers.WSHandler.OnMessage: a dead weak reference (`minion_ref()` returning None) is not modelled. The model's "no minion" case is the missing reference, which raises the same TypeError at the call.
- **Logging** calls everywhere are left out, as is the `print` in `create_ssh_client`.
- **Concurrency** is left out: the thread pool, the IOLoop's scheduling, and the timing of `call_later`. The 2 s and 0.1 s delays are recorded as 2000 ms and 100 ms.

## Findings

| source | as written | input that shows it | evidently intended | confidence | as-written member | corrected member |
|---|---|---|---|---|---|---|
| gru/handlers.py:249 | `minion.data_to_dst.append(data)` — `Minion` has no `data_to_dst` (its buffer is `data2send`, gru/minion.py:21) | the message `{"data": "ls\n"}` raises AttributeError, and the keystrokes never reach the channel | append to `data2send` and write | high (not executed) | Handlers.DataStepAsWrittenDropsInput | Handlers.DataStep |
| gru/handlers.py:259 | `minion.close(reason=self.close_reason)` — `Minion.close` takes `msg` (gru/minion.py:86) | any WebSocket close with a live minion raises TypeError; the minion is never closed or removed from `MINIONS` | `minion.close(msg=self.close_reason)` | high (not executed) | Handlers.CloseStepAsWrittenNeverCloses | Handlers.CloseStep |

Both rows assume the two server files are otherwise made to fit: taken literally, `set_handler` is also missing, so `open` fails before a minion is attached.

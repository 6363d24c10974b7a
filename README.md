# vproxy: TLS unwrap adapter and websocks configuration reader

This project models two parts of vproxy in Dafny and proves properties of them.

1. **`SSLUnwrapRingBuffer`**: the receive side of the non-blocking TLS adapter.
   - Encrypted bytes from the network land in an input ring buffer.
   - A *pass* (`generalUnwrap`) sets the operating flag and calls `SSLEngine.unwrap` once over the input ring and the application's plain ring.
   - The engine callback (`unwrap` / `unwrapHandshake`) reads the two statuses. It returns a "continue?" answer, and may do one more thing: defer one follow-up action, call the paired wrap side inline, or start the delegated-task runner.
   - After the engine call, "writable" fires if the input went from full to not full. Then the operating flag is cleared.
   - Finally the single deferred action, if any, is polled and run. Re-unwrap and the defragment actions start a new pass.
   - `switchBuffer` hands the plain ring over to another buffer, moving the adapter's handler with it.
2. **`ConfigProcessor.parse`**: the websocks agent's configuration reader.
   - It works line by line over trimmed lines, as a three-state machine: normal, server list, domain list.
   - In normal mode it reads keyword settings: listen port, credentials, trust store path and password, strict mode, pool size.
   - It reads server entries (`websocks://host:port` / `websockss://host:port`) and domain entries (`/regex/`, or a literal suffix with its dots escaped).
   - The first bad line raises an exception.
   - At the end the credentials must be present.

Files:

- `Wrappers.dfy`: `Option` and `Result`.
- `JavaStrings.dfy`: the JDK string operations the parser relies on: `String.trim`, `String.lastIndexOf`, `String.split(":")`, `replaceAll("\\.", "\\\\.")` and `Integer.parseInt`. Each carries its own contract and partner lemmas.
- `SslUnwrap.dfy`: the adapter.
  - The pure functions `Decide`, `Pass`, `Run`, `Store` and `Switch` describe it as a function of a `State`: ring summaries, flags, deferred deque and event log.
  - The classes `AppBuffer` (the swappable plain buffer) and `SslUnwrapRingBuffer` hold fields that their methods update in place. Each method is proved to produce exactly the state the pure function gives.
- `WebsocksConfig.dfy`: the parser.
  - The pure functions `NormalLine`, `ServerLine`, `DomainLine`, `Feed1`, `Feed` and `ParseConfig` give the meaning.
  - The class `ConfigProcessor` holds the source's fields. Its `Parse` method runs the source's `while` loop over the lines and updates the fields; it is proved equal to `ParseConfig`.

How the environment is modelled:

- **The TLS engine is an oracle.** Each pass takes the next `Step` of a script. A step says what `engine.unwrap` returned (statuses and byte counts), or that it threw `SSLException`. It also says what the input ring's `canDefragment()` answered.
- **Ring buffers are `(used, cap)` counts.**
- **Observable effects go into a ghost event log.** These are: engine calls, with the operating flag at that moment; the callback's answer; "writable" and "readable"; inline calls into the pair's `generalWrap`; task runners started; deferred actions run, with the flag at that moment.
- **Input is passed in.** The channel read count for `storeBytesFrom` and the file's lines for `parse` are parameters.

## Model

| member | source | states |
|---|---|---|
| SslUnwrap.OnRecord | src/main/java/net/cassite/vproxy/util/ringbuffer/SSLUnwrapRingBuffer.java:217-252 | record path: CLOSED answers false and defers nothing; OK defers a re-unwrap and answers true; BUFFER_UNDERFLOW answers true and defers an input defragment exactly when the input can be defragmented; BUFFER_OVERFLOW defers an app defragment and answers false; never wraps inline or spawns a task |
| SslUnwrap.OnHandshake | src/main/java/net/cassite/vproxy/util/ringbuffer/SSLUnwrapRingBuffer.java:166-215 | handshake path: BUFFER_UNDERFLOW answers false and defers an input defragment iff possible; otherwise the answer is true iff the handshake status is not NOT_HANDSHAKING; FINISHED defers the pair's wrap, NEED_TASK starts the task runner, NEED_WRAP calls the pair's wrap inline, NEED_UNWRAP defers a re-unwrap, each iff that status; never an app defragment |
| SslUnwrap.Decide | src/main/java/net/cassite/vproxy/util/ringbuffer/SSLUnwrapRingBuffer.java:131-145 | an SSLException gives false with no effect; NOT_HANDSHAKING goes to the record path, any other status to the handshake path; at most one effect per call (deferred action, inline wrap, task runner), and a wrap or a task only together with a true answer |
| SslUnwrap.AfterTasks | src/main/java/net/cassite/vproxy/util/ringbuffer/SSLUnwrapRingBuffer.java:196-202 | after the delegated tasks, resumption goes to the pair's wrap iff the handshake status is NEED_WRAP or FINISHED, to this side's unwrap iff it is any of the other three |
| SslUnwrap.Pass | src/main/java/net/cassite/vproxy/util/ringbuffer/SSLUnwrapRingBuffer.java:122-157 | one pass over a non-empty input: the input loses exactly the bytes the engine consumed and the plain ring gains exactly those it produced; operating is clear again afterwards; the deque holds exactly the action the callback deferred (so at most one); closed and both capacities unchanged; the log gains the engine call made with operating set, the callback's effects and answer, then "writable" exactly when the input was full before and has room after |
| SslUnwrap.PassLog | src/main/java/net/cassite/vproxy/util/ringbuffer/SSLUnwrapRingBuffer.java:127-157 | a pass makes exactly one engine call, with operating set, and fires "writable" once when the input went from full to not full and otherwise not at all |
| SslUnwrap.PassDisciplined | src/main/java/net/cassite/vproxy/util/ringbuffer/SSLUnwrapRingBuffer.java:127-157 | the events a pass appends keep the discipline: its engine call is made with operating set |
| SslUnwrap.PassWritable | src/main/java/net/cassite/vproxy/util/ringbuffer/SSLUnwrapRingBuffer.java:127-155 | a pass fires "writable" exactly once when the input went from full to not full, and otherwise not at all |
| SslUnwrap.Run | src/main/java/net/cassite/vproxy/util/ringbuffer/SSLUnwrapRingBuffer.java:122-164 | generalUnwrap with all passes its deferred actions start: a no-op on an empty input; a non-empty input runs a pass on the next step, whose events open what the whole run appends (no step left, or one no engine could return, gives None); afterwards operating is clear and nothing is deferred (so the single-slot assertion holds at every poll), closed and capacities unchanged, the log only grows, the input only shrinks and the plain ring only grows |
| SslUnwrap.AfterPass | src/main/java/net/cassite/vproxy/util/ringbuffer/SSLUnwrapRingBuffer.java:159-163 | the poll after the pass: an empty deque ends generalUnwrap where it is; otherwise the polled action runs, with operating clear, and its events come next in the log; a polled pair's wrap always completes; same frame guarantees as Run |
| SslUnwrap.RunDeferred | src/main/java/net/cassite/vproxy/util/ringbuffer/SSLUnwrapRingBuffer.java:89-109 | running a polled action: it is logged with operating clear; the pair's wrap is called and nothing else changes; a re-unwrap or defragment over a non-empty input is followed at once by a new engine call made with operating set; same frame guarantees as Run |
| SslUnwrap.RunDisciplined | src/main/java/net/cassite/vproxy/util/ringbuffer/SSLUnwrapRingBuffer.java:128-163 | across all nested passes, every engine call happens with operating set and every deferred action starts with operating clear: the engine is never re-entered |
| SslUnwrap.RunDeferredDisciplined | src/main/java/net/cassite/vproxy/util/ringbuffer/SSLUnwrapRingBuffer.java:159-163 | the same discipline for the events a polled action and the passes it starts append |
| SslUnwrap.RunWritableOnce | src/main/java/net/cassite/vproxy/util/ringbuffer/SSLUnwrapRingBuffer.java:127-155 | over a whole generalUnwrap, nested passes included, "writable" fires exactly once if the input was full at the start and has room at the end, and never otherwise (in particular never when it was not full) |
| SslUnwrap.RunDeferredWritableOnce | src/main/java/net/cassite/vproxy/util/ringbuffer/SSLUnwrapRingBuffer.java:152-163 | the same count for a polled action and the passes it starts |
| SslUnwrap.OverflowNeverSettles | src/main/java/net/cassite/vproxy/util/ringbuffer/SSLUnwrapRingBuffer.java:96-101 | an engine that keeps answering BUFFER_OVERFLOW without moving bytes makes every pass defer an app defragment that starts the next pass at once: no script of any length lets generalUnwrap return |
| SslUnwrap.Store | src/main/java/net/cassite/vproxy/util/ringbuffer/SSLUnwrapRingBuffer.java:68-84 | closed: returns 0 and changes nothing (no read, no pass); a read of 0 or -1 is returned as is with no pass; otherwise the read bytes are added to the input and the result is exactly that of generalUnwrap over the filled input, the read count being returned; the closed flag is never reset; the input never holds more than before plus what was read |
| SslUnwrap.StoreEvents | src/main/java/net/cassite/vproxy/util/ringbuffer/SSLUnwrapRingBuffer.java:68-84 | a store keeps the engine discipline and fires "writable" at most once, and only if the read filled the input ring |
| SslUnwrap.Switch | src/main/java/net/cassite/vproxy/util/ringbuffer/SSLUnwrapRingBuffer.java:297-312 | refused with "plain buffer not empty" when it holds bytes, else with "not a ByteBufferRingBuffer" for the wrong kind, each leaving the state unchanged; otherwise the new ring becomes the plain ring and the result is exactly that of generalUnwrap over it |
| SslUnwrap.SslUnwrapRingBuffer.constructor | src/main/java/net/cassite/vproxy/util/ringbuffer/SSLUnwrapRingBuffer.java:50-66 | the handler is attached to the plain buffer, the input ring is empty with the given capacity, not closed, nothing deferred |
| SslUnwrap.SslUnwrapRingBuffer.Defer | src/main/java/net/cassite/vproxy/util/ringbuffer/SSLUnwrapRingBuffer.java:89-109 | deferGeneralWrap appends to the deque, the other three push at its front; nothing else changes |
| SslUnwrap.SslUnwrapRingBuffer.Unwrap | src/main/java/net/cassite/vproxy/util/ringbuffer/SSLUnwrapRingBuffer.java:217-252 | returns OnRecord's answer and pushes OnRecord's action onto the deque |
| SslUnwrap.SslUnwrapRingBuffer.UnwrapHandshake | src/main/java/net/cassite/vproxy/util/ringbuffer/SSLUnwrapRingBuffer.java:166-215 | returns OnHandshake's answer, pushes its action, and logs the inline wrap or the started task runner |
| SslUnwrap.SslUnwrapRingBuffer.Callback | src/main/java/net/cassite/vproxy/util/ringbuffer/SSLUnwrapRingBuffer.java:131-145 | the callback behaves as Decide: answer, deferred action and logged effects |
| SslUnwrap.SslUnwrapRingBuffer.CallEngine | src/main/java/net/cassite/vproxy/util/ringbuffer/SSLUnwrapRingBuffer.java:130-145 | the engine moves the step's byte counts between the rings and the callback runs; the plain buffer object and its handler are untouched |
| SslUnwrap.SslUnwrapRingBuffer.OnePass | src/main/java/net/cassite/vproxy/util/ringbuffer/SSLUnwrapRingBuffer.java:127-157 | the object ends in exactly the state Pass gives |
| SslUnwrap.SslUnwrapRingBuffer.GeneralUnwrap | src/main/java/net/cassite/vproxy/util/ringbuffer/SSLUnwrapRingBuffer.java:122-164 | the object ends in exactly the state Run gives, and keeps its plain buffer; the single-slot assertion before the poll is proved |
| SslUnwrap.SslUnwrapRingBuffer.RunAction | src/main/java/net/cassite/vproxy/util/ringbuffer/SSLUnwrapRingBuffer.java:89-105 | the object ends in exactly the state RunDeferred gives |
| SslUnwrap.SslUnwrapRingBuffer.StoreBytesFrom | src/main/java/net/cassite/vproxy/util/ringbuffer/SSLUnwrapRingBuffer.java:68-84 | return value and new state are those of Store |
| SslUnwrap.SslUnwrapRingBuffer.SwitchBuffer | src/main/java/net/cassite/vproxy/util/ringbuffer/SSLUnwrapRingBuffer.java:297-312 | outcome and new state are those of Switch; a refusal changes neither buffer; on success the plain buffer is the argument, the handler is attached to it and detached from the old buffer, whose contents stay as they were (when that is a different object) |
| SslUnwrap.SslUnwrapRingBuffer.ResumeAfterTasks | src/main/java/net/cassite/vproxy/util/ringbuffer/SSLUnwrapRingBuffer.java:111-117 | the task runner's resumption: the pair's wrap when AfterTasks says so, otherwise a full generalUnwrap as Run gives |
| SslUnwrap.SslUnwrapRingBuffer.OnPlainWritable | src/main/java/net/cassite/vproxy/util/ringbuffer/SSLUnwrapRingBuffer.java:32-35 | the plain buffer's writable event runs generalUnwrap |
| SslUnwrap.SslUnwrapRingBuffer.OnPlainReadable | src/main/java/net/cassite/vproxy/util/ringbuffer/SSLUnwrapRingBuffer.java:27-30 | the plain buffer's readable event is passed on and nothing else changes |
| SslUnwrap.SslUnwrapRingBuffer.WriteTo | src/main/java/net/cassite/vproxy/util/ringbuffer/SSLUnwrapRingBuffer.java:255-258 | delegated to the plain ring: at most the bytes it holds, the channel takes and the caller allows, and the largest such count, are removed from it |
| SslUnwrap.SslUnwrapRingBuffer.Free | src/main/java/net/cassite/vproxy/util/ringbuffer/SSLUnwrapRingBuffer.java:260-264 | free space is the input ring's, never negative, zero iff the input is full |
| SslUnwrap.SslUnwrapRingBuffer.Used | src/main/java/net/cassite/vproxy/util/ringbuffer/SSLUnwrapRingBuffer.java:266-270 | used is the plain ring's count, within its capacity |
| SslUnwrap.SslUnwrapRingBuffer.Capacity | src/main/java/net/cassite/vproxy/util/ringbuffer/SSLUnwrapRingBuffer.java:272-277 | capacity is the plain ring's, never below used |
| SslUnwrap.SslUnwrapRingBuffer.Close | src/main/java/net/cassite/vproxy/util/ringbuffer/SSLUnwrapRingBuffer.java:280-282 | sets the closed latch and changes nothing else |
| SslUnwrap.SslUnwrapRingBuffer.Clear | src/main/java/net/cassite/vproxy/util/ringbuffer/SSLUnwrapRingBuffer.java:292-294 | empties the plain ring, keeping its capacity and handler |
| JavaStrings.Trim | src/main/java/net/cassite/vproxyx/websocks/ConfigProcessor.java:76 | String.trim: empty iff every character is at most a space; otherwise neither end is; an already trimmed string is unchanged |
| JavaStrings.TrimBetweenBlanks | src/main/java/net/cassite/vproxyx/websocks/ConfigProcessor.java:76 | trim removes a blank prefix and a blank suffix and keeps the text between them as it is; together with Trim's contract, both are as long as they can be |
| JavaStrings.TrimKeeps | src/main/java/net/cassite/vproxyx/websocks/ConfigProcessor.java:76 | trim only removes characters: every character of the result is one of the argument |
| JavaStrings.ParseInt | src/main/java/net/cassite/vproxyx/websocks/ConfigProcessor.java:84 | Integer.parseInt: a value only for a string whose first character is '-', '+' or a digit and whose other characters are all digits, never for a bare sign, always within the 32-bit range, with the sign it was written with |
| JavaStrings.ParseIntDecimal | src/main/java/net/cassite/vproxyx/websocks/ConfigProcessor.java:84 | parseInt reads back every int written in decimal |
| JavaStrings.ParseIntPlusSign | src/main/java/net/cassite/vproxyx/websocks/ConfigProcessor.java:128 | parseInt accepts a leading '+' |
| JavaStrings.ParseIntUnsigned | src/main/java/net/cassite/vproxyx/websocks/ConfigProcessor.java:84 | parseInt of plain digits is their decimal value when it fits in an int, and fails (NumberFormatException) when it does not |
| JavaStrings.ParseIntSigned | src/main/java/net/cassite/vproxyx/websocks/ConfigProcessor.java:84 | after a '-' or '+' the digits read as the negated or plain value when it fits in an int, and fail when it does not |
| JavaStrings.Split | src/main/java/net/cassite/vproxyx/websocks/ConfigProcessor.java:93 | split(":"): a string without ':' comes back whole; otherwise the colon-separated pieces with the trailing empty ones removed |
| JavaStrings.PiecesOfJoin | src/main/java/net/cassite/vproxyx/websocks/ConfigProcessor.java:93 | splitting colon-free parts joined by ':' gives the parts back |
| JavaStrings.JoinPieces | src/main/java/net/cassite/vproxyx/websocks/ConfigProcessor.java:93 | joining the pieces with ':' gives the string back |
| JavaStrings.SplitDropsTrailingEmpty | src/main/java/net/cassite/vproxyx/websocks/ConfigProcessor.java:93-94 | "u:p:" splits into exactly u and p |
| JavaStrings.SplitSingleTrailingColon | src/main/java/net/cassite/vproxyx/websocks/ConfigProcessor.java:93-94 | "u:" splits into the single part u |
| JavaStrings.LastIndexOf | src/main/java/net/cassite/vproxyx/websocks/ConfigProcessor.java:155 | lastIndexOf: -1 iff the character is absent, otherwise a position holding it with none after |
| JavaStrings.EscapeDots | src/main/java/net/cassite/vproxyx/websocks/ConfigProcessor.java:199 | replaceAll of "." by "\\.": every dot in the result is preceded by a backslash |
| JavaStrings.UnescapeEscapeDots | src/main/java/net/cassite/vproxyx/websocks/ConfigProcessor.java:199 | the escaping loses nothing: removing the inserted backslashes gives the entry back |
| WebsocksConfig.Listen | src/main/java/net/cassite/vproxyx/websocks/ConfigProcessor.java:82-90 | agent.listen: not an integer is an error that leaves every field as it was (parseInt throws before the assignment); an integer is stored in listenPort even when it is then refused as out of 1..65535; no other field changes |
| WebsocksConfig.ListenStoresPort | src/main/java/net/cassite/vproxyx/websocks/ConfigProcessor.java:81-90 | "agent.listen n" stores n, and the parse continues iff n is in 1..65535 |
| WebsocksConfig.Auth | src/main/java/net/cassite/vproxyx/websocks/ConfigProcessor.java:92-101 | proxy.server.auth succeeds iff split(":") gives exactly two parts whose trimmed forms are non-empty, and then stores them as user and pass; a wrong part count stores nothing; an empty user is stored before the error, with pass untouched; an empty password is stored after the user; no other field changes |
| WebsocksConfig.AuthDispatch | src/main/java/net/cassite/vproxyx/websocks/ConfigProcessor.java:91-92 | a line starting with the auth keyword is handled as an auth setting of its trimmed remainder |
| WebsocksConfig.AuthTrailingColonAccepted | src/main/java/net/cassite/vproxyx/websocks/ConfigProcessor.java:93-101 | "proxy.server.auth u:p:" is accepted as user u and password p |
| WebsocksConfig.AuthSinglePartRefused | src/main/java/net/cassite/vproxyx/websocks/ConfigProcessor.java:93-95 | "proxy.server.auth u:" is refused as malformed |
| WebsocksConfig.CacertsPath | src/main/java/net/cassite/vproxyx/websocks/ConfigProcessor.java:103-106 | an empty path is an error, anything else is stored; no other field changes |
| WebsocksConfig.CacertsPswd | src/main/java/net/cassite/vproxyx/websocks/ConfigProcessor.java:108-111 | an empty password is an error, anything else is stored; no other field changes |
| WebsocksConfig.Strict | src/main/java/net/cassite/vproxyx/websocks/ConfigProcessor.java:113-123 | agent.strict accepts exactly "on" (true) and "off" (false); anything else is an error naming the value and leaves every field as it was |
| WebsocksConfig.Pool | src/main/java/net/cassite/vproxyx/websocks/ConfigProcessor.java:125-135 | agent.pool accepts exactly the integers at least 0 and stores them; a non-integer or a negative value is an error that leaves every field as it was; no other field changes |
| WebsocksConfig.SettingNotMarker | src/main/java/net/cassite/vproxyx/websocks/ConfigProcessor.java:81-139 | a line starting with a setting keyword is never a list marker |
| WebsocksConfig.Setting | src/main/java/net/cassite/vproxyx/websocks/ConfigProcessor.java:81-135 | a line starting with a setting keyword stays in normal mode, leaves the lists alone and never raises "unknown line"; each field changes only under its own keyword; the cacerts errors come only from an empty argument |
| WebsocksConfig.NormalLine | src/main/java/net/cassite/vproxyx/websocks/ConfigProcessor.java:80-142 | normal mode: moves to the server list iff the line is its start marker, to the domain list iff it is that start marker; "unknown line" iff no keyword fits and it is no start marker; each field changes only under its own keyword; the lists never change; a line that raises nothing keeps the fields well formed; the two cacerts errors need an empty argument after their keyword |
| WebsocksConfig.ArgumentNotEmpty | src/main/java/net/cassite/vproxyx/websocks/ConfigProcessor.java:102-111 | after a keyword ending in a space, a line that does not end in blank has a non-empty argument |
| WebsocksConfig.CacertsStored | src/main/java/net/cassite/vproxyx/websocks/ConfigProcessor.java:102-111 | on such a line the two cacerts emptiness errors cannot occur |
| WebsocksConfig.CacertsChecksUnreachable | src/main/java/net/cassite/vproxyx/websocks/ConfigProcessor.java:102-111 | on every trimmed line the cacerts emptiness checks never fire: they are dead code |
| WebsocksConfig.BareListenIsUnknown | src/main/java/net/cassite/vproxyx/websocks/ConfigProcessor.java:140-141 | "agent.listen" without an argument is an unknown line |
| WebsocksConfig.ParseAddress | src/main/java/net/cassite/vproxyx/websocks/ConfigProcessor.java:155-170 | no ':' is a bad address; any other refusal is a bad host or a bad port; on success the host is the non-empty text before the last ':', the port what parseInt makes of the colon-free rest, in 1..65535 |
| WebsocksConfig.AddressAt | src/main/java/net/cassite/vproxyx/websocks/ConfigProcessor.java:158-170 | once the last ':' is found: a bad host iff it is the first character, else a bad port iff the rest is not an int in 1..65535, else the server with the text before it as host |
| WebsocksConfig.ParseAddressRefusals | src/main/java/net/cassite/vproxyx/websocks/ConfigProcessor.java:155-170 | a bad host exactly when the last ':' is the address's first character; otherwise a bad port exactly when the text after the last ':' is not an int in 1..65535 |
| WebsocksConfig.ParseAddressAccepts | src/main/java/net/cassite/vproxyx/websocks/ConfigProcessor.java:155-170 | every non-empty host followed by ':' and a text parseInt reads as a port number is accepted as that host and port, leading zeros and '+' included |
| WebsocksConfig.LastColonBefore | src/main/java/net/cassite/vproxyx/websocks/ConfigProcessor.java:155 | the ':' after the host is the last one when the text after it has none |
| WebsocksConfig.PortLeadingZero | src/main/java/net/cassite/vproxyx/websocks/ConfigProcessor.java:164 | "h:080" is host h and port 80 |
| WebsocksConfig.LastColonOfAddress | src/main/java/net/cassite/vproxyx/websocks/ConfigProcessor.java:155 | in host:port the last ':' is the separator, whatever colons the host holds |
| WebsocksConfig.ParseAddressRender | src/main/java/net/cassite/vproxyx/websocks/ConfigProcessor.java:155-170 | every non-empty host with a port in range reads back from host:port |
| WebsocksConfig.ParseServer | src/main/java/net/cassite/vproxyx/websocks/ConfigProcessor.java:148-170 | unknown protocol iff neither scheme starts the entry; otherwise the result is exactly that of reading the address after the scheme, with the TLS flag set iff the scheme is websockss://; on success the host is non-empty and the port in 1..65535 |
| WebsocksConfig.ParseServerRender | src/main/java/net/cassite/vproxyx/websocks/ConfigProcessor.java:148-170 | every server entry written as scheme://host:port reads back as itself |
| WebsocksConfig.ServerLine | src/main/java/net/cassite/vproxyx/websocks/ConfigProcessor.java:143-187 | the end marker returns to normal mode; any other line whose server reads appends exactly that server and stays in the list, one that does not raises the entry's error and changes nothing |
| WebsocksConfig.ServerEntryAdded | src/main/java/net/cassite/vproxyx/websocks/ConfigProcessor.java:143-187 | a written server line read in the server list adds that server and changes nothing else |
| WebsocksConfig.DomainPattern | src/main/java/net/cassite/vproxyx/websocks/ConfigProcessor.java:195-200 | "/" alone is an error; "/X/" gives X; any other entry gives exactly ".*", the entry with every dot escaped, "$" |
| WebsocksConfig.DomainLine | src/main/java/net/cassite/vproxyx/websocks/ConfigProcessor.java:188-203 | the end marker returns to normal mode; any other line whose pattern builds appends exactly that pattern and stays in the list, "/" raises its error and changes nothing; the servers never change |
| WebsocksConfig.DomainEntryAdded | src/main/java/net/cassite/vproxyx/websocks/ConfigProcessor.java:188-203 | inside the domain list a trimmed entry whose pattern builds appends that pattern and changes nothing else |
| WebsocksConfig.DomainRegexAdded | src/main/java/net/cassite/vproxyx/websocks/ConfigProcessor.java:196-197 | inside the domain list "/re/" appends re itself |
| WebsocksConfig.SlashedPattern | src/main/java/net/cassite/vproxyx/websocks/ConfigProcessor.java:196-197 | "/re/" gives the pattern re |
| WebsocksConfig.SlashedEntry | src/main/java/net/cassite/vproxyx/websocks/ConfigProcessor.java:76-78 | "/re/" is not changed by trim, is not a comment and is not the end marker |
| WebsocksConfig.DomainSuffixAdded | src/main/java/net/cassite/vproxyx/websocks/ConfigProcessor.java:198-202 | inside the domain list any other non-comment entry d appends ".*" + d + "$" with d's dots escaped |
| WebsocksConfig.SuffixPattern | src/main/java/net/cassite/vproxyx/websocks/ConfigProcessor.java:198-200 | an entry not starting with '/' or '#' is read and gives ".*", its dots escaped, "$" |
| WebsocksConfig.Feed1 | src/main/java/net/cassite/vproxyx/websocks/ConfigProcessor.java:75-203 | after an exception nothing changes; a blank or comment line changes nothing; the lists only grow; a line that raises nothing keeps the fields well formed |
| WebsocksConfig.Dispatch | src/main/java/net/cassite/vproxyx/websocks/ConfigProcessor.java:80-203 | a line that is read goes to its state's branch: the state changes iff it is a start marker in normal mode or the matching end marker in a list; the lists only grow; inside a list only entry errors are raised |
| WebsocksConfig.Feed | src/main/java/net/cassite/vproxyx/websocks/ConfigProcessor.java:75-204 | reading lines only appends to the domain and server lists |
| WebsocksConfig.FeedSticks | src/main/java/net/cassite/vproxyx/websocks/ConfigProcessor.java:75-204 | once a line raised an exception no later line is read |
| WebsocksConfig.FeedAppend | src/main/java/net/cassite/vproxyx/websocks/ConfigProcessor.java:75-204 | reading a file in two parts is reading it whole |
| WebsocksConfig.IgnoredLineNoEffect | src/main/java/net/cassite/vproxyx/websocks/ConfigProcessor.java:76-78 | a blank or comment line inserted anywhere, in any state, changes nothing |
| WebsocksConfig.ModeChanges | src/main/java/net/cassite/vproxyx/websocks/ConfigProcessor.java:136-194 | the state changes iff the line is a start marker in normal mode or the matching end marker in a list |
| WebsocksConfig.FeedWellFormed | src/main/java/net/cassite/vproxyx/websocks/ConfigProcessor.java:80-203 | lines that raise nothing keep the fields well formed |
| WebsocksConfig.DefaultsWellFormed | src/main/java/net/cassite/vproxyx/websocks/ConfigProcessor.java:21-28 | the field defaults (port 1080, pool 10, strict off, no credentials) are well formed |
| WebsocksConfig.ParseConfig | src/main/java/net/cassite/vproxyx/websocks/ConfigProcessor.java:67-208 | the parse succeeds iff no line raised an exception and both user and pass are set, whatever state the file ends in (an unfinished list is accepted); "proxy.server.auth not present" iff no line failed but a credential is missing |
| WebsocksConfig.ParseConfigSuccess | src/main/java/net/cassite/vproxyx/websocks/ConfigProcessor.java:206-207 | after a successful parse user and pass are set, non-empty and colon-free, the listen port is in range, the pool size is not negative and every server is well formed |
| WebsocksConfig.ConfigProcessor.constructor | src/main/java/net/cassite/vproxyx/websocks/ConfigProcessor.java:21-33 | the fields start at their defaults |
| WebsocksConfig.ConfigProcessor.SetListen | src/main/java/net/cassite/vproxyx/websocks/ConfigProcessor.java:82-90 | updates the fields as Listen says |
| WebsocksConfig.ConfigProcessor.SetAuth | src/main/java/net/cassite/vproxyx/websocks/ConfigProcessor.java:92-101 | updates the fields as Auth says |
| WebsocksConfig.ConfigProcessor.SetCacertsPath | src/main/java/net/cassite/vproxyx/websocks/ConfigProcessor.java:103-106 | updates the fields as CacertsPath says |
| WebsocksConfig.ConfigProcessor.SetCacertsPswd | src/main/java/net/cassite/vproxyx/websocks/ConfigProcessor.java:108-111 | updates the fields as CacertsPswd says |
| WebsocksConfig.ConfigProcessor.SetStrict | src/main/java/net/cassite/vproxyx/websocks/ConfigProcessor.java:113-123 | updates the fields as Strict says |
| WebsocksConfig.ConfigProcessor.SetPool | src/main/java/net/cassite/vproxyx/websocks/ConfigProcessor.java:125-135 | updates the fields as Pool says |
| WebsocksConfig.ConfigProcessor.NormalStep | src/main/java/net/cassite/vproxyx/websocks/ConfigProcessor.java:80-142 | updates the fields and the state as NormalLine says |
| WebsocksConfig.ConfigProcessor.ServerStep | src/main/java/net/cassite/vproxyx/websocks/ConfigProcessor.java:143-187 | updates the fields and the state as ServerLine says |
| WebsocksConfig.ConfigProcessor.DomainStep | src/main/java/net/cassite/vproxyx/websocks/ConfigProcessor.java:188-203 | updates the fields and the state as DomainLine says |
| WebsocksConfig.ConfigProcessor.ReadLine | src/main/java/net/cassite/vproxyx/websocks/ConfigProcessor.java:75-203 | one iteration of the loop does what Feed1 says |
| WebsocksConfig.FeedRest | src/main/java/net/cassite/vproxyx/websocks/ConfigProcessor.java:75 | when the loop stops, at an exception or after the last line, the lines it did not read change nothing |
| WebsocksConfig.ConfigProcessor.Parse | src/main/java/net/cassite/vproxyx/websocks/ConfigProcessor.java:67-208 | the loop over the lines leaves exactly the fields, and returns exactly the exception, that ParseConfig gives |

## Left out

- The TLS engine itself: cryptography, record framing, session buffer sizes. Each call is an oracle step constrained only by "consumes at most what the input holds, produces at most the plain ring's free space".
- SslUnwrap.Run: the oracle script bounds the chain of passes. Run is None when the script runs out before the chain ends, and the methods require a script long enough.
- SslUnwrap.Run: the source's own recursion is not bounded. BUFFER_OVERFLOW defers an app defragment (SSLUnwrapRingBuffer.java:96-101, 245), whose action calls generalUnwrap synchronously inside the poll at line 163. When the plain ring's room stays below what the engine needs, this repeats without end (in Java, until the stack overflows); the comment at line 246 says nothing can be done there. The model shows it only as None for every script length (`OverflowNeverSettles`) and does not say what should happen instead.
- The ring buffer classes are not part of this model. Their zero-copy windows, `defragment`, `canDefragment`, handler lists and event triggering are summarised by used and capacity counts, the oracle's `canDefragment` answer and logged events.
  - Defragmenting changes no count.
  - When the plain buffer fires its own readable or writable events is up to that buffer. The model exposes the handler's two entry points (`OnPlainWritable`, `OnPlainReadable`) instead.
- The byte contents and their order are not modelled, so the end-to-end "no data loss" property is out of reach. Only counts are modelled.
- The delegated-task thread and the resumer's hand-off to the event loop are concurrency. Starting the runner is a logged event. `ResumeAfterTasks` is the runnable the resumer eventually runs, with the handshake status after the tasks as a parameter.
- Handlers of this adapter that re-enter it from inside the "writable" notification, which fires while the operating flag is still set, are external code and are not modelled.
- The pair's `generalWrap` is external. Calling it is a logged event that changes no state of this side.
- Logging, `clean()` (off-heap release) and the IOException catch in `generalUnwrap`, which the source marks as impossible for memory buffers.
- SslUnwrap.Store: `read` is the count the input ring's own `storeBytesFrom(channel)` returned. IOExceptions from the channel are not modelled.
- SslUnwrap.SslUnwrapRingBuffer.WriteTo: the channel is summarised by how many bytes it accepts. IOExceptions are not modelled.
- In the parser:
  - Files are not read: the input is the sequence of lines `readLine` would return.
  - Host classification (`Utils.parseIpv4StringConsiderV6Compatible`, `Utils.isIpv6`), `InetAddress`, DNS resolution and `ServerGroup.add` are external. A server is recorded by host, port and TLS flag, and failures of those calls are not modelled.
  - A domain entry is kept as regular-expression text. `Pattern.compile` and its PatternSyntaxException are not modelled.
- JavaStrings.ParseInt: only ASCII digits are modelled. `Integer.parseInt` also accepts other Unicode decimal digits.
- The getters of `ConfigProcessor` return fields unchanged; the Dafny fields are read directly.
- The two cacerts emptiness errors keep separate constructors, although the source reports both with the message "cacert path not specified". Both checks are unreachable (`CacertsChecksUnreachable`).


/**
 The websocks agent's configuration file reader (ConfigProcessor.parse).

 The file is a sequence of lines, each trimmed; blank lines and lines
 starting with '#' are skipped. Outside a list, a line is a keyword setting
 or the start of a server list or a domain list; inside a list every line is
 an entry until the list's end marker. The first bad line aborts the parse,
 keeping whatever fields that line had already set; at the end the
 credentials must be present.

 The server group the entries are registered with is summarised by the
 list of servers added to it, and a domain entry by its regular expression
 as text.
 */
module WebsocksConfig {
  import opened Wrappers
  import opened JavaStrings

  /** The parser's `step`: 0, 1 and 2 in the source. */
  datatype Mode = Normal | ServerList | DomainList

  /** A proxy server entry: where it is and whether the websocket runs over TLS (handle.data). */
  datatype Server = Server(host: string, port: int, useSsl: bool)

  /** The processor's fields, plus the servers it added to the group. */
  datatype Config = Config(
    listenPort: int,
    domains: seq<string>,
    user: Option<string>,
    pass: Option<string>,
    cacertsPath: Option<string>,
    cacertsPswd: Option<string>,
    strictMode: bool,
    poolSize: int,
    servers: seq<Server>)

  /** The field initialisers; a null String is None. */
  const Defaults: Config := Config(1080, [], None, None, None, None, false, 10, [])

  /** One constructor per exception parse() throws, carrying the text its message includes. */
  datatype ConfigError =
    | ListenNotInteger
    | ListenOutOfRange
    | AuthMalformed(auth: string)
    | AuthUserEmpty
    | AuthPassEmpty
    | CacertsPathMissing
    | CacertsPswdMissing    // reported with the same message as CacertsPathMissing
    | StrictInvalid(value: string)
    | PoolNotInteger
    | PoolNegative
    | UnknownLine(line: string)
    | UnknownProtocol(line: string)
    | BadAddress(address: string)
    | BadHost(address: string)
    | BadPort(address: string)
    | EmptyRegex            // the line "/": substring(1, 0) throws
    | AuthMissing

  /** The parser after some lines: the fields, the step, the exception that stopped it (if any). */
  datatype Outcome = Outcome(config: Config, mode: Mode, failure: Option<ConfigError>)

  const ListenKey: string := "agent.listen "
  const AuthKey: string := "proxy.server.auth "
  const PathKey: string := "agent.cacerts.path "
  const PswdKey: string := "agent.cacerts.pswd "
  const StrictKey: string := "agent.strict "
  const PoolKey: string := "agent.pool "
  const ServerListStart: string := "proxy.server.list.start"
  const ServerListEnd: string := "proxy.server.list.end"
  const DomainListStart: string := "proxy.domain.list.start"
  const DomainListEnd: string := "proxy.domain.list.end"
  const PlainScheme: string := "websocks://"
  const SslScheme: string := "websockss://"

  predicate IsPort(n: int) {
    1 <= n <= 65535
  }

  /** A line starting with one of the six setting keywords. */
  predicate IsSetting(line: string) {
    ListenKey <= line || AuthKey <= line || PathKey <= line || PswdKey <= line || StrictKey <= line || PoolKey <= line
  }

  /** The exceptions a list entry can raise. */
  predicate EntryError(e: ConfigError) {
    e.UnknownProtocol? || e.BadAddress? || e.BadHost? || e.BadPort? || e.EmptyRegex?
  }

  /** What holds of the fields after any run of lines that did not fail. */
  predicate WellFormed(c: Config) {
    && IsPort(c.listenPort)
    && 0 <= c.poolSize <= MaxInt
    && (c.user.Some? <==> c.pass.Some?)
    && (c.user.Some? ==> c.user.value != [] && ':' !in c.user.value)
    && (c.pass.Some? ==> c.pass.value != [] && ':' !in c.pass.value)
    && (c.cacertsPath.Some? ==> c.cacertsPath.value != [])
    && (c.cacertsPswd.Some? ==> c.cacertsPswd.value != [])
    && forall k :: 0 <= k < |c.servers| ==> IsPort(c.servers[k].port) && c.servers[k].host != []
  }

  // ----- settings outside a list -----

  /** Every keyword ends in a space and no list marker holds one, so a setting line is never a marker. */
  lemma SettingNotMarker(line: string)
    ensures IsSetting(line) ==>
      line != ServerListStart && line != DomainListStart && line != ServerListEnd && line != DomainListEnd
  {
    if IsSetting(line) {
      var key := if ListenKey <= line then ListenKey else if AuthKey <= line then AuthKey
        else if PathKey <= line then PathKey else if PswdKey <= line then PswdKey
        else if StrictKey <= line then StrictKey else PoolKey;
      assert key <= line && key[|key| - 1] == ' ';
      assert line[|key| - 1] == ' ';
      assert ' ' !in ServerListStart && ' ' !in DomainListStart && ' ' !in ServerListEnd && ' ' !in DomainListEnd;
    }
  }

  /** What every setting line does: stays in normal mode and leaves the lists alone. */
  predicate SettingStep(c: Config, o: Outcome) {
    && o.mode == Normal
    && o.config.domains == c.domains && o.config.servers == c.servers
    && o.failure != Some(AuthMissing) && !(o.failure.Some? && o.failure.value.UnknownLine?)
    && (o.failure.None? && WellFormed(c) ==> WellFormed(o.config))
  }

  /** agent.listen: the port is stored even when it is then refused as out of range. */
  function Listen(c: Config, port: string): (o: Outcome)
    ensures SettingStep(c, o) && o.config == c.(listenPort := o.config.listenPort)
    ensures o.failure.None? <==> ParseInt(port).Some? && IsPort(ParseInt(port).value)
    ensures ParseInt(port).None? <==> o.failure == Some(ListenNotInteger)
    ensures ParseInt(port).Some? ==> o.config.listenPort == ParseInt(port).value
    ensures o.failure.Some? ==> o.failure.value in {ListenNotInteger, ListenOutOfRange}
    // parseInt throws before the field is assigned
    ensures o.failure == Some(ListenNotInteger) ==> o.config == c
  {
    match ParseInt(port)
    case None => Outcome(c, Normal, Some(ListenNotInteger))
    case Some(n) => Outcome(c.(listenPort := n), Normal, if IsPort(n) then None else Some(ListenOutOfRange))
  }

  /**
   proxy.server.auth: exactly two colon-separated parts (trailing empty
   parts dropped, as split(":") does), each trimmed and not empty. The user
   is stored before the password is looked at.
   */
  function Auth(c: Config, auth: string): (o: Outcome)
    ensures SettingStep(c, o) && o.config == c.(user := o.config.user, pass := o.config.pass)
    ensures |Split(auth)| != 2 <==> o.failure == Some(AuthMalformed(auth))
    ensures o.failure.None? <==>
      |Split(auth)| == 2 && Trim(Split(auth)[0]) != [] && Trim(Split(auth)[1]) != []
    ensures o.failure.None? ==> o.config.user == Some(Trim(Split(auth)[0])) && o.config.pass == Some(Trim(Split(auth)[1]))
    ensures o.failure.Some? ==> o.failure.value in {AuthMalformed(auth), AuthUserEmpty, AuthPassEmpty}
    // what the fields hold after a refused line: nothing stored, the empty user only, or the user and the empty password
    ensures o.failure == Some(AuthMalformed(auth)) ==> o.config == c
    ensures o.failure == Some(AuthUserEmpty) ==> o.config.user == Some([]) && o.config.pass == c.pass
    ensures o.failure == Some(AuthPassEmpty) ==>
      |Split(auth)| == 2 && o.config.user == Some(Trim(Split(auth)[0])) && o.config.user != Some([]) && o.config.pass == Some([])
  {
    var userpass := Split(auth);
    if |userpass| != 2 then Outcome(c, Normal, Some(AuthMalformed(auth)))
    else
      SplitPartsColonFree(auth);
      var user := Trim(userpass[0]);
      TrimKeeps(userpass[0], ':');
      if user == [] then Outcome(c.(user := Some(user)), Normal, Some(AuthUserEmpty))
      else
        var pass := Trim(userpass[1]);
        TrimKeeps(userpass[1], ':');
        Outcome(c.(user := Some(user), pass := Some(pass)), Normal, if pass == [] then Some(AuthPassEmpty) else None)
  }

  /** agent.cacerts.path */
  function CacertsPath(c: Config, path: string): (o: Outcome)
    ensures SettingStep(c, o) && o.config == c.(cacertsPath := o.config.cacertsPath)
    ensures path == [] <==> o.failure == Some(CacertsPathMissing)
    ensures path != [] ==> o == Outcome(c.(cacertsPath := Some(path)), Normal, None)
  {
    if path == [] then Outcome(c, Normal, Some(CacertsPathMissing))
    else Outcome(c.(cacertsPath := Some(path)), Normal, None)
  }

  /** agent.cacerts.pswd */
  function CacertsPswd(c: Config, pswd: string): (o: Outcome)
    ensures SettingStep(c, o) && o.config == c.(cacertsPswd := o.config.cacertsPswd)
    ensures pswd == [] <==> o.failure == Some(CacertsPswdMissing)
    ensures pswd != [] ==> o == Outcome(c.(cacertsPswd := Some(pswd)), Normal, None)
  {
    if pswd == [] then Outcome(c, Normal, Some(CacertsPswdMissing))
    else Outcome(c.(cacertsPswd := Some(pswd)), Normal, None)
  }

  /** agent.strict: exactly "on" or "off". */
  function Strict(c: Config, value: string): (o: Outcome)
    ensures SettingStep(c, o) && o.config == c.(strictMode := o.config.strictMode)
    ensures o.failure.None? <==> value == "on" || value == "off"
    ensures o.failure.None? ==> (o.config.strictMode <==> value == "on")
    ensures o.failure.Some? ==> o.failure == Some(StrictInvalid(value)) && o.config == c
  {
    if value == "on" then Outcome(c.(strictMode := true), Normal, None)
    else if value == "off" then Outcome(c.(strictMode := false), Normal, None)
    else Outcome(c, Normal, Some(StrictInvalid(value)))
  }

  /** agent.pool: a non-negative int. */
  function Pool(c: Config, size: string): (o: Outcome)
    ensures SettingStep(c, o) && o.config == c.(poolSize := o.config.poolSize)
    ensures o.failure.None? <==> ParseInt(size).Some? && ParseInt(size).value >= 0
    ensures o.failure.None? ==> o.config.poolSize == ParseInt(size).value
    ensures ParseInt(size).None? <==> o.failure == Some(PoolNotInteger)
    ensures o.failure.Some? ==> o.failure.value in {PoolNotInteger, PoolNegative} && o.config == c
  {
    match ParseInt(size)
    case None => Outcome(c, Normal, Some(PoolNotInteger))
    case Some(n) => if n < 0 then Outcome(c, Normal, Some(PoolNegative)) else Outcome(c.(poolSize := n), Normal, None)
  }

  /** The text after a keyword, trimmed. */
  function Argument(line: string, key: string): string
    requires key <= line
  {
    Trim(line[|key|..])
  }

  /** A line starting with a setting keyword: the first keyword that fits wins. */
  function Setting(c: Config, line: string): (o: Outcome)
    requires IsSetting(line)
    ensures SettingStep(c, o)
    ensures !(ListenKey <= line) ==> o.config.listenPort == c.listenPort
    ensures !(AuthKey <= line) ==> o.config.user == c.user && o.config.pass == c.pass
    ensures !(PathKey <= line) ==> o.config.cacertsPath == c.cacertsPath
    ensures !(PswdKey <= line) ==> o.config.cacertsPswd == c.cacertsPswd
    ensures !(StrictKey <= line) ==> o.config.strictMode == c.strictMode
    ensures !(PoolKey <= line) ==> o.config.poolSize == c.poolSize
    ensures o.failure == Some(CacertsPathMissing) ==> PathKey <= line && Argument(line, PathKey) == []
    ensures o.failure == Some(CacertsPswdMissing) ==> PswdKey <= line && Argument(line, PswdKey) == []
  {
    if ListenKey <= line then Listen(c, Argument(line, ListenKey))
    else if AuthKey <= line then Auth(c, Argument(line, AuthKey))
    else if PathKey <= line then CacertsPath(c, Argument(line, PathKey))
    else if PswdKey <= line then CacertsPswd(c, Argument(line, PswdKey))
    else if StrictKey <= line then Strict(c, Argument(line, StrictKey))
    else Pool(c, Argument(line, PoolKey))
  }

  /** A line in normal mode (already trimmed, not blank, not a comment): a setting, a list marker, or unknown. */
  function NormalLine(c: Config, line: string): (o: Outcome)
    ensures o.mode == ServerList <==> line == ServerListStart
    ensures o.mode == DomainList <==> line == DomainListStart
    ensures o.failure == Some(UnknownLine(line)) <==>
      !IsSetting(line) && line != ServerListStart && line != DomainListStart
    ensures o.config.domains == c.domains && o.config.servers == c.servers
    ensures !(ListenKey <= line) ==> o.config.listenPort == c.listenPort
    ensures !(AuthKey <= line) ==> o.config.user == c.user && o.config.pass == c.pass
    ensures !(PathKey <= line) ==> o.config.cacertsPath == c.cacertsPath
    ensures !(PswdKey <= line) ==> o.config.cacertsPswd == c.cacertsPswd
    ensures !(StrictKey <= line) ==> o.config.strictMode == c.strictMode
    ensures !(PoolKey <= line) ==> o.config.poolSize == c.poolSize
    ensures o.failure.None? && WellFormed(c) ==> WellFormed(o.config)
    ensures o.failure != Some(AuthMissing)
    ensures o.failure == Some(CacertsPathMissing) ==> PathKey <= line && Argument(line, PathKey) == []
    ensures o.failure == Some(CacertsPswdMissing) ==> PswdKey <= line && Argument(line, PswdKey) == []
  {
    SettingNotMarker(line);
    if IsSetting(line) then Setting(c, line)
    else if line == ServerListStart then Outcome(c, ServerList, None)
    else if line == DomainListStart then Outcome(c, DomainList, None)
    else Outcome(c, Normal, Some(UnknownLine(line)))
  }

  /** No part that split(":") hands back contains a ':'. */
  lemma SplitPartsColonFree(s: string)
    ensures forall k :: 0 <= k < |Split(s)| ==> ':' !in Split(s)[k]
  {
    if ':' in s {
      assert forall k :: 0 <= k < |Split(s)| ==> Split(s)[k] == Pieces(s)[k];
    }
  }

  // ----- list entries -----

  /**
   The address part of a server entry: the last ':' separates host from
   port (so the host may itself contain colons), the host must not be empty
   and the port must be a port number. The messages quote the address.
   */
  function ParseAddress(address: string, useSsl: bool): (r: Result<Server, ConfigError>)
    ensures r.Success? ==> IsPort(r.value.port) && r.value.host != [] && r.value.useSsl == useSsl
    ensures r.Success? ==>
      && |r.value.host| < |address| && address[..|r.value.host|] == r.value.host && address[|r.value.host|] == ':'
      && ':' !in address[|r.value.host| + 1..] && ParseInt(address[|r.value.host| + 1..]) == Some(r.value.port)
    ensures ':' !in address ==> r == Failure(BadAddress(address))
    ensures r.Failure? ==> r.error in {BadAddress(address), BadHost(address), BadPort(address)}
    ensures r.Failure? ==> EntryError(r.error)
  {
    var colonIdx := LastIndexOf(address, ':');
    if colonIdx == -1 then Failure(BadAddress(address))
    else
      var portPart := address[colonIdx + 1..];
      assert ':' !in portPart by {
        forall k | 0 <= k < |portPart| ensures portPart[k] != ':' { assert portPart[k] == address[colonIdx + 1 + k]; }
      }
      AddressAt(address, colonIdx, useSsl)
  }

  /** What follows once the last ':' of the address is found at colonIdx. */
  function AddressAt(address: string, colonIdx: nat, useSsl: bool): (r: Result<Server, ConfigError>)
    requires colonIdx < |address| && address[colonIdx] == ':' && ':' !in address[colonIdx + 1..]
    ensures r == Failure(BadHost(address)) <==> colonIdx == 0
    ensures colonIdx > 0 ==>
      var port := ParseInt(address[colonIdx + 1..]);
      (r == Failure(BadPort(address)) <==> port.None? || !IsPort(port.value))
    ensures r.Success? ==> IsPort(r.value.port) && r.value.host != [] && r.value.useSsl == useSsl
    ensures r.Success? ==>
      && r.value.host == address[..colonIdx] && |r.value.host| == colonIdx
      && ParseInt(address[colonIdx + 1..]) == Some(r.value.port)
    ensures r.Failure? ==> r.error == BadHost(address) || r.error == BadPort(address)
  {
    var hostPart := address[..colonIdx];
    var portPart := address[colonIdx + 1..];
    if hostPart == [] then Failure(BadHost(address))
    else
      match ParseInt(portPart)
      case None => Failure(BadPort(address))
      case Some(port) => if !IsPort(port) then Failure(BadPort(address)) else Success(Server(hostPart, port, useSsl))
  }

  /** A server list entry: the scheme says whether the websocket runs over TLS. */
  function ParseServer(line: string): (r: Result<Server, ConfigError>)
    ensures !(PlainScheme <= line) && !(SslScheme <= line) <==> r == Failure(UnknownProtocol(line))
    ensures r.Success? ==> IsPort(r.value.port) && r.value.host != []
    ensures r.Success? ==> (r.value.useSsl <==> SslScheme <= line)
    ensures PlainScheme <= line ==> r == ParseAddress(line[|PlainScheme|..], false)
    ensures SslScheme <= line ==> r == ParseAddress(line[|SslScheme|..], true)
    ensures r.Failure? ==> EntryError(r.error)
  {
    if !(PlainScheme <= line) && !(SslScheme <= line) then Failure(UnknownProtocol(line))
    else
      var useSsl := "websockss" <= line;
      assert useSsl <==> SslScheme <= line by {
        if PlainScheme <= line { assert line[8] == ':'; } else { assert line[8] == 's'; }
      }
      ParseAddress(line[if useSsl then |SslScheme| else |PlainScheme|..], useSsl)
  }

  /** How a server entry is written in the file. */
  function Render(s: Server): string {
    (if s.useSsl then SslScheme else PlainScheme) + s.host + ":" + Decimal(s.port)
  }

  /** The last ':' of host + ":" + port is the separator, whatever colons the host holds. */
  lemma LastColonOfAddress(host: string, port: int)
    ensures LastIndexOf(host + ":" + Decimal(port), ':') == |host|
  {
    var digits := Decimal(port);
    var address := host + ":" + digits;
    DecimalColonFree(port);
    assert address[|host|] == ':';
  }

  /**
   Which addresses are refused, and why: BadHost exactly when the last ':'
   is the first character, BadPort exactly when what follows the last ':'
   is not an int in 1..65535.
   */
  lemma ParseAddressRefusals(address: string, useSsl: bool)
    ensures var r := ParseAddress(address, useSsl); var i := LastIndexOf(address, ':');
      && (r == Failure(BadHost(address)) <==> i == 0)
      && (i > 0 ==>
            var port := ParseInt(address[i + 1..]);
            (r == Failure(BadPort(address)) <==> port.None? || !IsPort(port.value)))
  {
    var i := LastIndexOf(address, ':');
    if i >= 0 {
      assert ParseAddress(address, useSsl) == AddressAt(address, i, useSsl);
    }
  }

  /** A port text parseInt accepts has no ':' in it. */
  lemma ParsedColonFree(text: string)
    requires ParseInt(text).Some?
    ensures ':' !in text
  {
    forall k | 0 <= k < |text| ensures text[k] != ':' {
      if k == 0 { assert text[0] == '-' || text[0] == '+' || IsDigit(text[0]); } else { assert IsDigit(text[k]); }
    }
  }

  /**
   Every non-empty host followed by ':' and a text parseInt reads as a port
   number is accepted: leading zeros and an explicit '+' included.
   */
  lemma ParseAddressAccepts(host: string, portText: string, useSsl: bool)
    requires host != [] && ParseInt(portText).Some? && IsPort(ParseInt(portText).value)
    ensures ParseAddress(host + ":" + portText, useSsl) == Success(Server(host, ParseInt(portText).value, useSsl))
  {
    var address := host + ":" + portText;
    ParsedColonFree(portText);
    LastColonBefore(host, portText);
    assert address[..|host|] == host;
    assert address[|host| + 1..] == portText;
  }

  /** The last ':' of host + ":" + text is the separator when text has none. */
  lemma {:induction false} LastColonBefore(host: string, text: string)
    requires ':' !in text
    ensures LastIndexOf(host + ":" + text, ':') == |host|
    decreases |text|
  {
    var address := host + ":" + text;
    if text == [] {
      assert address[|address| - 1] == ':';
    } else {
      var shorter := text[..|text| - 1];
      assert address[|address| - 1] == text[|text| - 1];
      assert address[..|address| - 1] == host + ":" + shorter;
      assert ':' !in shorter by {
        forall k | 0 <= k < |shorter| ensures shorter[k] != ':' { assert shorter[k] == text[k]; }
      }
      LastColonBefore(host, shorter);
    }
  }

  /** "h:080" names port 80: parseInt takes leading zeros. */
  lemma PortLeadingZero()
    ensures ParseAddress("h:080", false) == Success(Server("h", 80, false))
  {
    ParseIntUnsigned("080");
    assert DigitsValue("080") == 80 by {
      assert "080"[..2] == "08" && "08"[..1] == "0" && "0"[..0] == "";
    }
    assert "h:080" == "h" + ":" + "080";
    ParseAddressAccepts("h", "080", false);
  }

  lemma ParseAddressRender(host: string, port: int, useSsl: bool)
    requires host != [] && IsPort(port)
    ensures ParseAddress(host + ":" + Decimal(port), useSsl) == Success(Server(host, port, useSsl))
  {
    var address := host + ":" + Decimal(port);
    LastColonOfAddress(host, port);
    ParseIntDecimal(port);
    assert address[..|host|] == host;
    assert address[|host| + 1..] == Decimal(port);
  }

  /** Every well-formed server entry reads back as itself. */
  lemma ParseServerRender(s: Server)
    requires s.host != [] && IsPort(s.port)
    ensures ParseServer(Render(s)) == Success(s)
  {
    var scheme := if s.useSsl then SslScheme else PlainScheme;
    var line := Render(s);
    assert line == scheme + (s.host + ":" + Decimal(s.port));
    assert scheme <= line;
    assert line[|scheme|..] == s.host + ":" + Decimal(s.port);
    assert line[8] == scheme[8];
    assert ("websockss" <= line) == s.useSsl;
    ParseAddressRender(s.host, s.port, s.useSsl);
  }

  /**
   A domain list entry: "/re/" is taken as the regular expression re;
   anything else matches host names ending in it, its dots escaped.
   */
  function DomainPattern(line: string): (r: Result<string, ConfigError>)
    ensures r.Failure? <==> line == "/"
    ensures r.Failure? ==> r.error == EmptyRegex
    ensures r.Success? && |line| >= 2 && line[0] == '/' && line[|line| - 1] == '/' ==> "/" + r.value + "/" == line
    ensures r.Success? && !(|line| >= 2 && line[0] == '/' && line[|line| - 1] == '/') ==>
      |r.value| >= 3 && r.value[..2] == ".*" && r.value[|r.value| - 1] == '$'
      && UnescapeDots(r.value[2..|r.value| - 1]) == line
    ensures !(|line| >= 1 && line[0] == '/' && line[|line| - 1] == '/') ==> r == Success(".*" + EscapeDots(line) + "$")
  {
    if "/" <= line && line[|line| - 1] == '/' then
      if |line| < 2 then Failure(EmptyRegex)
      else
        assert line == "/" + line[1..|line| - 1] + "/";
        Success(line[1..|line| - 1])
    else
      var regexp := ".*" + EscapeDots(line) + "$";
      assert regexp[2..|regexp| - 1] == EscapeDots(line);
      UnescapeEscapeDots(line);
      Success(regexp)
  }

  // ----- the line loop -----

  /** Skipped without effect: blank after trimming, or a comment. */
  predicate Ignored(line: string) {
    line == [] || "#" <= line
  }

  /** A line inside the server list: its end marker, or an entry added to the group. */
  function ServerLine(c: Config, line: string): (o: Outcome)
    ensures o.mode == Normal <==> line == ServerListEnd
    ensures o.mode != DomainList
    ensures o.config.domains == c.domains && c.servers <= o.config.servers
    ensures o.failure.None? && WellFormed(c) ==> WellFormed(o.config)
    ensures o.failure.Some? ==> EntryError(o.failure.value)
    ensures line != ServerListEnd && o.failure.None? ==>
      ParseServer(line).Success? && o.config.servers == c.servers + [ParseServer(line).value]
    ensures line != ServerListEnd && ParseServer(line).Success? ==>
      o == Outcome(c.(servers := c.servers + [ParseServer(line).value]), ServerList, None)
    ensures line != ServerListEnd && ParseServer(line).Failure? ==> o == Outcome(c, ServerList, Some(ParseServer(line).error))
  {
    if line == ServerListEnd then Outcome(c, Normal, None)
    else
      match ParseServer(line)
      case Failure(e) => Outcome(c, ServerList, Some(e))
      case Success(server) =>
        AddServerWellFormed(c, server);
        Outcome(c.(servers := c.servers + [server]), ServerList, None)
  }

  /** Adding a server with a host and a port number keeps the fields well formed. */
  lemma AddServerWellFormed(c: Config, s: Server)
    requires IsPort(s.port) && s.host != []
    ensures WellFormed(c) ==> WellFormed(c.(servers := c.servers + [s]))
  {
    var servers := c.servers + [s];
    assert forall k :: 0 <= k < |servers| ==> servers[k] == if k < |c.servers| then c.servers[k] else s;
  }

  /** A line inside the domain list: its end marker, or a pattern appended to the domains. */
  function DomainLine(c: Config, line: string): (o: Outcome)
    ensures o.mode == Normal <==> line == DomainListEnd
    ensures o.mode != ServerList
    ensures o.config.servers == c.servers && c.domains <= o.config.domains
    ensures o.config.(domains := c.domains) == c
    ensures o.failure.Some? ==> EntryError(o.failure.value)
    ensures line != DomainListEnd && o.failure.None? ==>
      DomainPattern(line).Success? && o.config.domains == c.domains + [DomainPattern(line).value]
    ensures line != DomainListEnd && DomainPattern(line).Success? ==>
      o == Outcome(c.(domains := c.domains + [DomainPattern(line).value]), DomainList, None)
    ensures line != DomainListEnd && DomainPattern(line).Failure? ==> o == Outcome(c, DomainList, Some(EmptyRegex))
  {
    if line == DomainListEnd then Outcome(c, Normal, None)
    else
      match DomainPattern(line)
      case Failure(e) => Outcome(c, DomainList, Some(e))
      case Success(regexp) => Outcome(c.(domains := c.domains + [regexp]), DomainList, None)
  }

  /** The loop body for one line read from the file; a failure stops everything. */
  function Feed1(o: Outcome, raw: string): (r: Outcome)
    ensures o.failure.Some? ==> r == o
    ensures Ignored(Trim(raw)) ==> r == o
    ensures o.config.domains <= r.config.domains && o.config.servers <= r.config.servers
    ensures o.failure.None? && r.failure.None? && WellFormed(o.config) ==> WellFormed(r.config)
    ensures o.failure != Some(AuthMissing) ==> r.failure != Some(AuthMissing)
    ensures o.failure.None? && o.mode != Normal && r.failure.Some? ==> EntryError(r.failure.value)
  {
    if o.failure.Some? then o
    else
      var line := Trim(raw);
      if Ignored(line) then o else Dispatch(o.config, o.mode, line)
  }

  /**
   A line that is read, handed to the step it arrives in. The step changes
   only at the list markers, and each marker only from its own step.
   */
  function Dispatch(c: Config, mode: Mode, line: string): (r: Outcome)
    ensures c.domains <= r.config.domains && c.servers <= r.config.servers
    ensures r.failure.None? && WellFormed(c) ==> WellFormed(r.config)
    ensures r.failure != Some(AuthMissing)
    ensures mode != Normal && r.failure.Some? ==> EntryError(r.failure.value)
    ensures r.mode != mode <==>
      || (mode == Normal && (line == ServerListStart || line == DomainListStart))
      || (mode == ServerList && line == ServerListEnd)
      || (mode == DomainList && line == DomainListEnd)
  {
    match mode
    case Normal => NormalLine(c, line)
    case ServerList => ServerLine(c, line)
    case DomainList => DomainLine(c, line)
  }

  /** The lines read so far, in order. */
  function Feed(o: Outcome, lines: seq<string>): (r: Outcome)
    ensures o.config.domains <= r.config.domains && o.config.servers <= r.config.servers
    ensures o.failure != Some(AuthMissing) ==> r.failure != Some(AuthMissing)
    decreases |lines|
  {
    if lines == [] then o else Feed1(Feed(o, lines[..|lines| - 1]), lines[|lines| - 1])
  }

  /** parse(): every line from a start in normal mode, then the credentials check. */
  function ParseConfig(c: Config, lines: seq<string>): (r: Outcome)
    ensures r.failure == Some(AuthMissing) <==>
      Feed(Outcome(c, Normal, None), lines).failure.None? && (r.config.user.None? || r.config.pass.None?)
    ensures r.config == Feed(Outcome(c, Normal, None), lines).config
    // the step the file ends in plays no part: an unfinished list is accepted
    ensures r.failure.None? <==>
      Feed(Outcome(c, Normal, None), lines).failure.None? && r.config.user.Some? && r.config.pass.Some?
  {
    var o := Feed(Outcome(c, Normal, None), lines);
    if o.failure.None? && (o.config.user.None? || o.config.pass.None?) then o.(failure := Some(AuthMissing)) else o
  }

  // ----- properties of the parser -----

  /** After an exception nothing more is read. */
  lemma {:induction false} FeedSticks(o: Outcome, lines: seq<string>)
    requires o.failure.Some?
    ensures Feed(o, lines) == o
    decreases |lines|
  {
    if lines != [] {
      FeedSticks(o, lines[..|lines| - 1]);
    }
  }

  /** Reading a file in two parts is reading it whole. */
  lemma {:induction false} FeedAppend(o: Outcome, a: seq<string>, b: seq<string>)
    ensures Feed(o, a + b) == Feed(Feed(o, a), b)
    decreases |b|
  {
    if b == [] {
      assert a + b == a;
    } else {
      assert (a + b)[..|a + b| - 1] == a + b[..|b| - 1];
      FeedAppend(o, a, b[..|b| - 1]);
    }
  }

  /** Blank and comment lines can be added anywhere without changing anything. */
  lemma IgnoredLineNoEffect(o: Outcome, a: seq<string>, raw: string, b: seq<string>)
    requires Ignored(Trim(raw))
    ensures Feed(o, a + [raw] + b) == Feed(o, a + b)
  {
    FeedAppend(o, a + [raw], b);
    FeedAppend(o, a, b);
    assert (a + [raw])[..|a + [raw]| - 1] == a;
  }

  /** A run of lines that raised nothing keeps the fields well formed. */
  lemma {:induction false} FeedWellFormed(o: Outcome, lines: seq<string>)
    requires o.failure.None? && WellFormed(o.config) && Feed(o, lines).failure.None?
    ensures WellFormed(Feed(o, lines).config)
    decreases |lines|
  {
    if lines != [] {
      FeedWellFormed(o, lines[..|lines| - 1]);
    }
  }

  lemma DefaultsWellFormed()
    ensures WellFormed(Defaults)
  {
  }

  /**
   A parse that returns normally leaves credentials that are set, non-empty
   and colon-free, a listen port in range, a pool size that is not negative,
   and only well-formed servers in the group. An unfinished list at the end
   of the file is accepted: nothing here asks for normal mode.
   */
  lemma ParseConfigSuccess(c: Config, lines: seq<string>)
    requires WellFormed(c) && ParseConfig(c, lines).failure.None?
    ensures var r := ParseConfig(c, lines).config;
      WellFormed(r) && r.user.Some? && r.pass.Some?
  {
    FeedWellFormed(Outcome(c, Normal, None), lines);
  }

  /** After a keyword ending in a space, a line not ending in blank always has a non-empty argument. */
  lemma ArgumentNotEmpty(line: string, key: string)
    requires key != [] && key[|key| - 1] == ' ' && key <= line && !IsBlank(line[|line| - 1])
    ensures Argument(line, key) != []
  {
    assert line[|key| - 1] == ' ';
    var rest := line[|key|..];
    assert rest[|rest| - 1] == line[|line| - 1];
  }

  /** The cacerts keywords on a line that does not end in blank always store their value. */
  lemma CacertsStored(c: Config, line: string)
    requires line != [] && !IsBlank(line[|line| - 1])
    ensures NormalLine(c, line).failure != Some(CacertsPathMissing)
    ensures NormalLine(c, line).failure != Some(CacertsPswdMissing)
  {
    if PathKey <= line {
      ArgumentNotEmpty(line, PathKey);
    }
    if PswdKey <= line {
      ArgumentNotEmpty(line, PswdKey);
    }
  }

  /**
   The emptiness checks on agent.cacerts.path and agent.cacerts.pswd never
   fire: the line was trimmed, so whatever follows the keyword's trailing
   space is non-empty and does not end in blank.
   */
  lemma CacertsChecksUnreachable(c: Config, raw: string)
    requires !Ignored(Trim(raw))
    ensures NormalLine(c, Trim(raw)).failure != Some(CacertsPathMissing)
    ensures NormalLine(c, Trim(raw)).failure != Some(CacertsPswdMissing)
  {
    var line := Trim(raw);
    assert line != [] && !IsBlank(line[|line| - 1]);
    CacertsStored(c, line);
  }

  /** "agent.listen" with nothing after it is not the keyword (whose spelling ends in a space). */
  lemma BareListenIsUnknown(c: Config)
    ensures NormalLine(c, "agent.listen").failure == Some(UnknownLine("agent.listen"))
  {
    assert !IsSetting("agent.listen") by {
      assert !(ListenKey <= "agent.listen");
      assert "agent.listen"[6] != AuthKey[6];
      assert "agent.listen"[6] != PathKey[6];
      assert "agent.listen"[6] != PswdKey[6];
      assert "agent.listen"[6] != StrictKey[6];
      assert "agent.listen"[6] != PoolKey[6];
    }
  }

  /** Integer.toString never starts or ends in blank. */
  lemma DecimalTrimmed(n: int)
    ensures Decimal(n) != [] && Trim(Decimal(n)) == Decimal(n)
  {
    if n < 0 {
      DigitsValueOfDigits(-n);
      assert Decimal(n)[|Decimal(n)| - 1] == Digits(-n)[|Digits(-n)| - 1];
    } else {
      DigitsValueOfDigits(n);
    }
  }

  /**
   "agent.listen n" stores n whatever int it is; the parse goes on exactly
   when n is a port number, and an out-of-range n stays in the field.
   */
  lemma ListenStoresPort(c: Config, n: int)
    requires MinInt <= n <= MaxInt
    ensures var o := NormalLine(c, ListenKey + Decimal(n));
      o.config == c.(listenPort := n) && o.mode == Normal
      && (o.failure.None? <==> IsPort(n))
      && (o.failure.Some? ==> o.failure == Some(ListenOutOfRange))
  {
    var line := ListenKey + Decimal(n);
    assert ListenKey <= line;
    assert line[|ListenKey|..] == Decimal(n);
    DecimalTrimmed(n);
    assert Argument(line, ListenKey) == Decimal(n);
    assert NormalLine(c, line) == Listen(c, Decimal(n));
    ParseIntDecimal(n);
  }

  /** A line starting with the auth keyword goes to Auth with its trimmed argument. */
  lemma AuthDispatch(c: Config, auth: string)
    ensures NormalLine(c, AuthKey + auth) == Auth(c, Trim(auth))
  {
    var line := AuthKey + auth;
    assert line[|AuthKey|..] == auth;
    assert !(ListenKey <= line) by { assert line[0] != ListenKey[0]; }
  }

  /**
   split(":") drops trailing empty parts, so "proxy.server.auth u:p:" is
   accepted as user u and password p.
   */
  lemma AuthTrailingColonAccepted(c: Config, u: string, p: string)
    requires u != [] && p != [] && ':' !in u && ':' !in p && Trim(u) == u && Trim(p) == p
    ensures NormalLine(c, AuthKey + (u + ":" + p + ":")) == Outcome(c.(user := Some(u), pass := Some(p)), Normal, None)
  {
    var auth := u + ":" + p + ":";
    assert !IsBlank(u[0]);
    assert Trim(auth) == auth by { assert auth[0] == u[0] && auth[|auth| - 1] == ':'; }
    SplitDropsTrailingEmpty(u, p);
    AuthDispatch(c, auth);
    var o := Auth(c, auth);
    assert o.failure.None?;
  }

  /** "proxy.server.auth u:" has a single part and is refused. */
  lemma AuthSinglePartRefused(c: Config, u: string)
    requires u != [] && ':' !in u && Trim(u) == u
    ensures NormalLine(c, AuthKey + (u + ":")).failure == Some(AuthMalformed(u + ":"))
  {
    assert !IsBlank(u[0]);
    assert Trim(u + ":") == u + ":" by { assert (u + ":")[0] == u[0] && (u + ":")[|u|] == ':'; }
    SplitSingleTrailingColon(u);
    AuthDispatch(c, u + ":");
  }

  /** A rendered server entry is its own trimmed form and is not a marker or a comment. */
  lemma RenderTrimmed(s: Server)
    ensures Trim(Render(s)) == Render(s) && !Ignored(Render(s)) && Render(s) != ServerListEnd
  {
    var line := Render(s);
    DecimalTrimmed(s.port);
    assert line[0] == 'w';
    assert line[|line| - 1] == Decimal(s.port)[|Decimal(s.port)| - 1];
    assert line[0] != ServerListEnd[0];
  }

  /** Inside the server list, a rendered entry is added to the group as it was written. */
  lemma ServerEntryAdded(o: Outcome, s: Server)
    requires o.failure.None? && o.mode == ServerList && s.host != [] && IsPort(s.port)
    ensures Feed1(o, Render(s)) == o.(config := o.config.(servers := o.config.servers + [s]))
  {
    RenderTrimmed(s);
    ParseServerRender(s);
    assert Feed1(o, Render(s)) == ServerLine(o.config, Render(s));
  }

  /** Inside the domain list, an entry whose pattern builds is appended to the domains as that pattern. */
  lemma DomainEntryAdded(o: Outcome, line: string)
    requires o.failure.None? && o.mode == DomainList
    requires Trim(line) == line && !Ignored(line) && line != DomainListEnd && DomainPattern(line).Success?
    ensures Feed1(o, line) == o.(config := o.config.(domains := o.config.domains + [DomainPattern(line).value]))
  {
    assert Feed1(o, line) == DomainLine(o.config, line);
  }

  /** Inside the domain list, "/re/" adds re itself as the regular expression. */
  lemma DomainRegexAdded(o: Outcome, re: string)
    requires o.failure.None? && o.mode == DomainList
    ensures Feed1(o, "/" + re + "/") == o.(config := o.config.(domains := o.config.domains + [re]))
  {
    SlashedPattern(re);
    SlashedEntry(re);
    DomainEntryAdded(o, "/" + re + "/");
  }

  lemma SlashedPattern(re: string)
    ensures DomainPattern("/" + re + "/") == Success(re)
  {
    var line := "/" + re + "/";
    assert "/" <= line && line[|line| - 1] == '/';
    assert line[1..|line| - 1] == re;
  }

  /** "/re/" survives trimming and is neither a comment nor the end marker. */
  lemma SlashedEntry(re: string)
    ensures var line := "/" + re + "/"; Trim(line) == line && !Ignored(line) && line != DomainListEnd
  {
    var line := "/" + re + "/";
    assert line[0] == '/' && line[|line| - 1] == '/';
    assert !("#" <= line);
    assert Trim(line) == line;
    assert line[0] != DomainListEnd[0];
  }

  /**
   Inside the domain list, any other entry d adds ".*" + d + "$" with
   every dot of d escaped: a pattern matching host names that end in d.
   */
  lemma DomainSuffixAdded(o: Outcome, d: string)
    requires o.failure.None? && o.mode == DomainList
    requires d != [] && Trim(d) == d && d[0] != '#' && d[0] != '/' && d != DomainListEnd
    ensures Feed1(o, d) == o.(config := o.config.(domains := o.config.domains + [".*" + EscapeDots(d) + "$"]))
  {
    SuffixPattern(d);
    DomainEntryAdded(o, d);
  }

  lemma SuffixPattern(d: string)
    requires d != [] && d[0] != '#' && d[0] != '/'
    ensures !Ignored(d) && DomainPattern(d) == Success(".*" + EscapeDots(d) + "$")
  {
    assert !("#" <= d);
  }

  /** The step changes only at the list markers, and each marker only from its own step. */
  lemma ModeChanges(o: Outcome, raw: string)
    requires o.failure.None?
    ensures var line := Trim(raw); var r := Feed1(o, raw);
      r.mode != o.mode <==>
        || (o.mode == Normal && (line == ServerListStart || line == DomainListStart))
        || (o.mode == ServerList && line == ServerListEnd)
        || (o.mode == DomainList && line == DomainListEnd)
  {
    var line := Trim(raw);
    if Ignored(line) {
      assert line != ServerListStart && line != DomainListStart && line != ServerListEnd && line != DomainListEnd by {
        assert line == [] || line[0] == '#';
      }
    } else {
      assert Feed1(o, raw) == Dispatch(o.config, o.mode, line);
    }
  }

  // ----- the processor object -----

  class ConfigProcessor {
    const fileName: string
    var listenPort: int
    var domains: seq<string>
    var user: Option<string>
    var pass: Option<string>
    var cacertsPath: Option<string>
    var cacertsPswd: Option<string>
    var strictMode: bool
    var poolSize: int
    /** The servers added to the group so far, in order. */
    var servers: seq<Server>

    function Fields(): Config
      reads this
    {
      Config(listenPort, domains, user, pass, cacertsPath, cacertsPswd, strictMode, poolSize, servers)
    }

    constructor (fileName: string)
      ensures this.fileName == fileName && Fields() == Defaults
    {
      this.fileName := fileName;
      listenPort := 1080;
      domains := [];
      user := None;
      pass := None;
      cacertsPath := None;
      cacertsPswd := None;
      strictMode := false;
      poolSize := 10;
      servers := [];
    }

    method SetListen(port: string) returns (failure: Option<ConfigError>)
      modifies this
      ensures Outcome(Fields(), Normal, failure) == Listen(old(Fields()), port)
    {
      var parsed := ParseInt(port);
      if parsed.None? {
        return Some(ListenNotInteger);
      }
      listenPort := parsed.value;
      if listenPort < 1 || listenPort > 65535 {
        return Some(ListenOutOfRange);
      }
      return None;
    }

    method SetAuth(auth: string) returns (failure: Option<ConfigError>)
      modifies this
      ensures Outcome(Fields(), Normal, failure) == Auth(old(Fields()), auth)
    {
      ghost var c := Fields();
      var userpass := Split(auth);
      if |userpass| != 2 {
        assert Auth(c, auth) == Outcome(c, Normal, Some(AuthMalformed(auth)));
        return Some(AuthMalformed(auth));
      }
      user := Some(Trim(userpass[0]));
      if user.value == [] {
        assert Auth(c, auth) == Outcome(c.(user := user), Normal, Some(AuthUserEmpty));
        return Some(AuthUserEmpty);
      }
      pass := Some(Trim(userpass[1]));
      assert Auth(c, auth) == Outcome(c.(user := user, pass := pass), Normal, if pass.value == [] then Some(AuthPassEmpty) else None);
      if pass.value == [] {
        return Some(AuthPassEmpty);
      }
      return None;
    }

    method SetCacertsPath(path: string) returns (failure: Option<ConfigError>)
      modifies this
      ensures Outcome(Fields(), Normal, failure) == CacertsPath(old(Fields()), path)
    {
      if path == [] {
        return Some(CacertsPathMissing);
      }
      cacertsPath := Some(path);
      return None;
    }

    method SetCacertsPswd(pswd: string) returns (failure: Option<ConfigError>)
      modifies this
      ensures Outcome(Fields(), Normal, failure) == CacertsPswd(old(Fields()), pswd)
    {
      if pswd == [] {
        return Some(CacertsPswdMissing);
      }
      cacertsPswd := Some(pswd);
      return None;
    }

    method SetStrict(value: string) returns (failure: Option<ConfigError>)
      modifies this
      ensures Outcome(Fields(), Normal, failure) == Strict(old(Fields()), value)
    {
      if value == "on" {
        strictMode := true;
      } else if value == "off" {
        strictMode := false;
      } else {
        return Some(StrictInvalid(value));
      }
      return None;
    }

    method SetPool(size: string) returns (failure: Option<ConfigError>)
      modifies this
      ensures Outcome(Fields(), Normal, failure) == Pool(old(Fields()), size)
    {
      var parsed := ParseInt(size);
      if parsed.None? {
        return Some(PoolNotInteger);
      }
      if parsed.value < 0 {
        return Some(PoolNegative);
      }
      poolSize := parsed.value;
      return None;
    }

    /** A line in normal mode. */
    method NormalStep(line: string) returns (mode: Mode, failure: Option<ConfigError>)
      modifies this
      ensures Outcome(Fields(), mode, failure) == NormalLine(old(Fields()), line)
    {
      mode := Normal;
      if ListenKey <= line {
        failure := SetListen(Argument(line, ListenKey));
      } else if AuthKey <= line {
        failure := SetAuth(Argument(line, AuthKey));
      } else if PathKey <= line {
        failure := SetCacertsPath(Argument(line, PathKey));
      } else if PswdKey <= line {
        failure := SetCacertsPswd(Argument(line, PswdKey));
      } else if StrictKey <= line {
        failure := SetStrict(Argument(line, StrictKey));
      } else if PoolKey <= line {
        failure := SetPool(Argument(line, PoolKey));
      } else if line == ServerListStart {
        mode, failure := ServerList, None;
      } else if line == DomainListStart {
        mode, failure := DomainList, None;
      } else {
        failure := Some(UnknownLine(line));
      }
    }

    /** A line inside the server list. */
    method ServerStep(line: string) returns (mode: Mode, failure: Option<ConfigError>)
      modifies this
      ensures Outcome(Fields(), mode, failure) == ServerLine(old(Fields()), line)
    {
      if line == ServerListEnd {
        return Normal, None;
      }
      mode := ServerList;
      match ParseServer(line)
      case Failure(e) =>
        failure := Some(e);
      case Success(server) =>
        servers := servers + [server];
        failure := None;
    }

    /** A line inside the domain list. */
    method DomainStep(line: string) returns (mode: Mode, failure: Option<ConfigError>)
      modifies this
      ensures Outcome(Fields(), mode, failure) == DomainLine(old(Fields()), line)
    {
      if line == DomainListEnd {
        return Normal, None;
      }
      mode := DomainList;
      match DomainPattern(line)
      case Failure(e) =>
        failure := Some(e);
      case Success(regexp) =>
        domains := domains + [regexp];
        failure := None;
    }

    /** The loop body: trim, skip blanks and comments, else dispatch on the step. */
    method ReadLine(raw: string, step: Mode) returns (next: Mode, failure: Option<ConfigError>)
      modifies this
      ensures Outcome(Fields(), next, failure) == Feed1(Outcome(old(Fields()), step, None), raw)
    {
      ghost var o := Outcome(Fields(), step, None);
      var line := Trim(raw);
      if Ignored(line) {
        return step, None;
      }
      assert Feed1(o, raw) == Dispatch(o.config, step, line);
      match step
      case Normal =>
        next, failure := NormalStep(line);
      case ServerList =>
        next, failure := ServerStep(line);
      case DomainList =>
        next, failure := DomainStep(line);
    }

    /**
     parse(): the lines of the file, in order, until the first exception;
     the fields keep what the lines before it (and the failing line
     itself) stored. Returns the exception raised, if any.
     */
    method Parse(lines: seq<string>) returns (failure: Option<ConfigError>)
      modifies this
      ensures Fields() == ParseConfig(old(Fields()), lines).config
      ensures failure == ParseConfig(old(Fields()), lines).failure
    {
      ghost var start := Outcome(Fields(), Normal, None);
      var step := Normal;
      failure := None;
      var i := 0;
      while i < |lines| && failure.None?
        invariant 0 <= i <= |lines|
        invariant Feed(start, lines[..i]) == Outcome(Fields(), step, failure)
        decreases |lines| - i
      {
        assert lines[..i + 1][..i] == lines[..i];
        step, failure := ReadLine(lines[i], step);
        i := i + 1;
      }
      SplitAt(lines, i);
      FeedRest(start, lines[..i], lines[i..]);
      if failure.None? && (user.None? || pass.None?) {
        failure := Some(AuthMissing);
      }
    }
  }

  /**
   Once the loop stops, early on an exception or at the last line, the
   lines it did not read change nothing.
   */
  lemma FeedRest(start: Outcome, done: seq<string>, unread: seq<string>)
    requires unread == [] || Feed(start, done).failure.Some?
    ensures Feed(start, done + unread) == Feed(start, done)
  {
    if unread == [] {
      assert done + unread == done;
    } else {
      FeedAppend(start, done, unread);
      FeedSticks(Feed(start, done), unread);
    }
  }

  lemma SplitAt(lines: seq<string>, i: nat)
    requires i <= |lines|
    ensures lines[..i] + lines[i..] == lines
  {
  }
}

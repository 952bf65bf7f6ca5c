/** The wg-quick INI printer and parser of internal/wireguard/wgconf.go. */
module Ini {
  import opened Wrappers
  import opened Text

  datatype Peer = Peer(publicKey: string, endpoint: string, allowedIPs: seq<string>, keepalive: int64)

  datatype Config = Config(privateKey: string, listenPort: int64, addresses: seq<string>,
                           dns: seq<string>, peers: seq<Peer>, mtu: int64)

  datatype IniError = BadListenPort(text: string) | BadMtu(text: string)
                    | BadKeepalive(text: string) | MissingPrivateKey

  const NoPeer := Peer("", "", [], 0)
  const NoConfig := Config("", 0, [], [], [], 0)

  /** The keys both directions know, with the text each is printed as. */
  datatype Key = PrivateKey | Address | Dns | ListenPort | Mtu | PublicKey | Endpoint | AllowedIPs | Keepalive

  function KeyText(k: Key): string {
    match k
    case PrivateKey => "PrivateKey"
    case Address => "Address"
    case Dns => "DNS"
    case ListenPort => "ListenPort"
    case Mtu => "MTU"
    case PublicKey => "PublicKey"
    case Endpoint => "Endpoint"
    case AllowedIPs => "AllowedIPs"
    case Keepalive => "PersistentKeepalive"
  }

  // ---------------------------------------------------------------- printing

  function Line(k: Key, v: string): string {
    KeyText(k) + " = " + v
  }

  function ListLine(k: Key, xs: seq<string>): seq<string> {
    if |xs| > 0 then [Line(k, Join(xs, ", "))] else []
  }

  function NumberLine(k: Key, n: int): seq<string> {
    if n > 0 then [Line(k, Itoa(n))] else []
  }

  function EndpointLine(p: Peer): seq<string> {
    if Trim(p.endpoint) != "" then [Line(Endpoint, Trim(p.endpoint))] else []
  }

  function InterfaceLines(cfg: Config): seq<string> {
    ["[Interface]"] + [Line(PrivateKey, Trim(cfg.privateKey))]
    + ListLine(Address, cfg.addresses) + ListLine(Dns, cfg.dns)
    + NumberLine(ListenPort, cfg.listenPort) + NumberLine(Mtu, cfg.mtu)
  }

  function PeerLines(p: Peer): seq<string> {
    ["", "[Peer]"] + [Line(PublicKey, Trim(p.publicKey))]
    + EndpointLine(p) + ListLine(AllowedIPs, p.allowedIPs) + NumberLine(Keepalive, p.keepalive)
  }

  function PeersLines(ps: seq<Peer>): seq<string> {
    if ps == [] then [] else PeersLines(ps[..|ps| - 1]) + PeerLines(ps[|ps| - 1])
  }

  /** The text a configuration prints to: one line per set field, in a fixed order. */
  function IniText(cfg: Config): string {
    Unlines(InterfaceLines(cfg) + PeersLines(cfg.peers))
  }

  /** Writes one line to the builder. */
  method WriteLine(b: string, ghost lines: seq<string>, line: string)
    returns (b': string, ghost lines': seq<string>)
    requires b == Unlines(lines)
    ensures lines' == lines + [line] && b' == Unlines(lines')
  {
    b', lines' := b + line + "\n", lines + [line];
    UnlinesConcat(lines, [line]);
    assert Unlines([line]) == line + "\n" + Unlines([]);
    assert b' == b + (line + "\n");
  }

  method WriteList(b: string, ghost lines: seq<string>, k: Key, xs: seq<string>)
    returns (b': string, ghost lines': seq<string>)
    requires b == Unlines(lines)
    ensures lines' == lines + ListLine(k, xs) && b' == Unlines(lines')
  {
    b', lines' := b, lines;
    if |xs| > 0 {
      b', lines' := WriteLine(b, lines, Line(k, Join(xs, ", ")));
    }
  }

  method WriteNumber(b: string, ghost lines: seq<string>, k: Key, n: int)
    returns (b': string, ghost lines': seq<string>)
    requires b == Unlines(lines)
    ensures lines' == lines + NumberLine(k, n) && b' == Unlines(lines')
  {
    b', lines' := b, lines;
    if n > 0 {
      b', lines' := WriteLine(b, lines, Line(k, Itoa(n)));
    }
  }

  method WriteInterface(cfg: Config) returns (b: string)
    ensures b == Unlines(InterfaceLines(cfg))
  {
    ghost var lines := [];
    b := "";
    b, lines := WriteLine(b, lines, "[Interface]");
    assert lines == ["[Interface]"];
    b, lines := WriteLine(b, lines, Line(PrivateKey, Trim(cfg.privateKey)));
    b, lines := WriteList(b, lines, Address, cfg.addresses);
    b, lines := WriteList(b, lines, Dns, cfg.dns);
    b, lines := WriteNumber(b, lines, ListenPort, cfg.listenPort);
    b, lines := WriteNumber(b, lines, Mtu, cfg.mtu);
  }

  method WritePeer(p: Peer) returns (b: string)
    ensures b == Unlines(PeerLines(p))
  {
    ghost var lines := [];
    b := "";
    b, lines := WriteLine(b, lines, "");
    b, lines := WriteLine(b, lines, "[Peer]");
    assert lines == ["", "[Peer]"];
    b, lines := WriteLine(b, lines, Line(PublicKey, Trim(p.publicKey)));
    ghost var before := lines;
    if Trim(p.endpoint) != "" {
      b, lines := WriteLine(b, lines, Line(Endpoint, Trim(p.endpoint)));
    }
    assert lines == before + EndpointLine(p);
    b, lines := WriteList(b, lines, AllowedIPs, p.allowedIPs);
    b, lines := WriteNumber(b, lines, Keepalive, p.keepalive);
  }

  lemma {:induction false} UnlinesThree(a: seq<string>, b: seq<string>, c: seq<string>)
    ensures Unlines(a + (b + c)) == Unlines(a + b) + Unlines(c)
  {
    UnlinesConcat(a + b, c);
    assert a + (b + c) == a + b + c;
  }

  lemma {:induction false} PeersLinesSnoc(lines: seq<string>, ps: seq<Peer>, i: nat)
    requires i < |ps|
    ensures Unlines(lines + PeersLines(ps[..i + 1]))
         == Unlines(lines + PeersLines(ps[..i])) + Unlines(PeerLines(ps[i]))
  {
    assert ps[..i + 1][..i] == ps[..i];
    UnlinesThree(lines, PeersLines(ps[..i]), PeerLines(ps[i]));
  }

  method GenerateINI(cfg: Config) returns (b: string)
    ensures b == IniText(cfg)
  {
    b := WriteInterface(cfg);
    ghost var head := InterfaceLines(cfg);
    assert head + PeersLines(cfg.peers[..0]) == head;
    for i := 0 to |cfg.peers|
      invariant b == Unlines(head + PeersLines(cfg.peers[..i]))
    {
      var peer := WritePeer(cfg.peers[i]);
      PeersLinesSnoc(head, cfg.peers, i);
      b := b + peer;
    }
    assert cfg.peers[..|cfg.peers|] == cfg.peers;
  }

  // ---------------------------------------------------------------- parsing

  /** What the parser has read so far: the configuration, and whether the
      current section is the last peer or the interface. */
  datatype IniState = IniState(cfg: Config, inPeer: bool) {
    predicate Valid() {
      inPeer ==> |cfg.peers| > 0
    }
  }

  function KeepItems(xs: seq<string>): seq<string> {
    if xs == [] then []
    else (if Trim(xs[0]) == "" then [] else [Trim(xs[0])]) + KeepItems(xs[1..])
  }

  /** The non-empty trimmed items of a comma-separated list. */
  function ListItems(v: string): seq<string> {
    KeepItems(Split(v, ','))
  }

  /** The key a lower-cased name stands for. */
  function KeyOf(name: string): Option<Key> {
    if name == "privatekey" then Some(PrivateKey)
    else if name == "address" then Some(Address)
    else if name == "dns" then Some(Dns)
    else if name == "listenport" then Some(ListenPort)
    else if name == "mtu" then Some(Mtu)
    else if name == "publickey" then Some(PublicKey)
    else if name == "endpoint" then Some(Endpoint)
    else if name == "allowedips" then Some(AllowedIPs)
    else if name == "persistentkeepalive" then Some(Keepalive)
    else None
  }

  function AssignInterface(cfg: Config, k: Key, v: string): Result<Config, IniError> {
    match k
    case PrivateKey => Ok(cfg.(privateKey := v))
    case Address => Ok(cfg.(addresses := cfg.addresses + ListItems(v)))
    case Dns => Ok(cfg.(dns := cfg.dns + ListItems(v)))
    case ListenPort =>
      (match Atoi(v) case None => Err(BadListenPort(v)) case Some(n) => Ok(cfg.(listenPort := n)))
    case Mtu => (match Atoi(v) case None => Err(BadMtu(v)) case Some(n) => Ok(cfg.(mtu := n)))
    case _ => Ok(cfg)
  }

  function AssignPeer(p: Peer, k: Key, v: string): Result<Peer, IniError> {
    match k
    case PublicKey => Ok(p.(publicKey := v))
    case Endpoint => Ok(p.(endpoint := v))
    case AllowedIPs => Ok(p.(allowedIPs := p.allowedIPs + ListItems(v)))
    case Keepalive =>
      (match Atoi(v) case None => Err(BadKeepalive(v)) case Some(n) => Ok(p.(keepalive := n)))
    case _ => Ok(p)
  }

  /** Assigns to the current section; a key of the other section is ignored. */
  function Assign(st: IniState, k: Key, v: string): (r: Result<IniState, IniError>)
    requires st.Valid()
    ensures r.Ok? ==> r.value.Valid() && r.value.inPeer == st.inPeer
  {
    if !st.inPeer then
      match AssignInterface(st.cfg, k, v)
      case Err(e) => Err(e)
      case Ok(cfg) => Ok(IniState(cfg, false))
    else
      var last := |st.cfg.peers| - 1;
      match AssignPeer(st.cfg.peers[last], k, v)
      case Err(e) => Err(e)
      case Ok(p) => Ok(st.(cfg := st.cfg.(peers := st.cfg.peers[last := p])))
  }

  predicate Comment(line: string) {
    line == "" || line[0] == '#' || line[0] == ';'
  }

  predicate Header(line: string) {
    |line| >= 2 && line[0] == '[' && line[|line| - 1] == ']'
  }

  function Section(st: IniState, name: string): IniState {
    if name == "peer" then IniState(st.cfg.(peers := st.cfg.peers + [NoPeer]), true)
    else st.(inPeer := false)
  }

  /** The effect of one line. */
  function ReadLine(st: IniState, raw: string): (r: Result<IniState, IniError>)
    requires st.Valid()
    ensures r.Ok? ==> r.value.Valid()
  {
    var line := Trim(raw);
    if Comment(line) then Ok(st)
    else if Header(line) then Ok(Section(st, Lower(Trim(line[1..|line| - 1]))))
    else match KeyValue(raw)
      case None => Ok(st)
      case Some((k, v)) =>
        match KeyOf(Lower(k))
        case None => Ok(st)
        case Some(key) => Assign(st, key, v)
  }

  function ReadLines(st: IniState, lines: seq<string>): (r: Result<IniState, IniError>)
    requires st.Valid()
    ensures r.Ok? ==> r.value.Valid()
    decreases |lines|
  {
    if lines == [] then Ok(st)
    else match ReadLine(st, lines[0])
      case Err(e) => Err(e)
      case Ok(next) => ReadLines(next, lines[1..])
  }

  function Finish(st: IniState): Result<Config, IniError> {
    if Trim(st.cfg.privateKey) == "" then Err(MissingPrivateKey) else Ok(st.cfg)
  }

  /** The configuration a text parses to: its lines in order, then the check
      that a private key was seen. */
  function IniParse(s: string): Result<Config, IniError> {
    match ReadLines(IniState(NoConfig, false), Split(s, '\n'))
    case Err(e) => Err(e)
    case Ok(st) => Finish(st)
  }

  method SplitList(v: string) returns (out: seq<string>)
    ensures out == ListItems(v)
  {
    var fields := Split(v, ',');
    out := [];
    for i := 0 to |fields|
      invariant out + KeepItems(fields[i..]) == ListItems(v)
    {
      var f := Trim(fields[i]);
      assert fields[i..][1..] == fields[i + 1..];
      if f != "" {
        out := out + [f];
      }
    }
  }

  method AssignField(cfg: Config, inPeer: bool, k: Key, v: string) returns (r: Result<Config, IniError>)
    requires inPeer ==> |cfg.peers| > 0
    ensures var spec := Assign(IniState(cfg, inPeer), k, v);
            match r case Err(e) => spec == Err(e) case Ok(c) => spec == Ok(IniState(c, inPeer))
  {
    r := Ok(cfg);
    if !inPeer {
      match k {
        case PrivateKey =>
          r := Ok(cfg.(privateKey := v));
        case Address =>
          var items := SplitList(v);
          r := Ok(cfg.(addresses := cfg.addresses + items));
        case Dns =>
          var items := SplitList(v);
          r := Ok(cfg.(dns := cfg.dns + items));
        case ListenPort =>
          var n := Atoi(v);
          r := if n.None? then Err(BadListenPort(v)) else Ok(cfg.(listenPort := n.value));
        case Mtu =>
          var n := Atoi(v);
          r := if n.None? then Err(BadMtu(v)) else Ok(cfg.(mtu := n.value));
        case _ =>
      }
      return;
    }
    var last := |cfg.peers| - 1;
    var p := cfg.peers[last];
    match k {
      case PublicKey =>
        p := p.(publicKey := v);
      case Endpoint =>
        p := p.(endpoint := v);
      case AllowedIPs =>
        var items := SplitList(v);
        p := p.(allowedIPs := p.allowedIPs + items);
      case Keepalive =>
        var n := Atoi(v);
        if n.None? {
          return Err(BadKeepalive(v));
        }
        p := p.(keepalive := n.value);
      case _ =>
    }
    r := Ok(cfg.(peers := cfg.peers[last := p]));
  }

  method ParseINI(s: string) returns (r: Result<Config, IniError>)
    ensures r == IniParse(s)
  {
    var cfg := NoConfig;
    var inPeer := false;
    var lines := Split(s, '\n');
    for i := 0 to |lines|
      invariant IniState(cfg, inPeer).Valid()
      invariant ReadLines(IniState(NoConfig, false), lines) == ReadLines(IniState(cfg, inPeer), lines[i..])
    {
      assert lines[i..][0] == lines[i] && lines[i..][1..] == lines[i + 1..];
      var line := Trim(lines[i]);
      if Comment(line) {
        continue;
      }
      if Header(line) {
        if Lower(Trim(line[1..|line| - 1])) == "peer" {
          cfg, inPeer := cfg.(peers := cfg.peers + [NoPeer]), true;
        } else {
          inPeer := false;
        }
        continue;
      }
      var kv := Cut(line, '=');
      if kv.None? {
        continue;
      }
      var key := KeyOf(Lower(Trim(kv.value.0)));
      if key.None? {
        continue;
      }
      var next := AssignField(cfg, inPeer, key.value, Trim(kv.value.1));
      if next.Err? {
        return Err(next.error);
      }
      cfg := next.value;
    }
    if Trim(cfg.privateKey) == "" {
      return Err(MissingPrivateKey);
    }
    return Ok(cfg);
  }
}

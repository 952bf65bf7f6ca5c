/** Validation, the device IPC printer and the dump parser of
    internal/wireguard/wgconf.go. */
module Ipc {
  import opened Wrappers
  import opened Text
  import opened Sorting
  import Ini

  type Peer = Ini.Peer
  type Config = Ini.Config

  const KeyLen := 32

  /** Base64 decoding and address syntax, left to the Go library. */
  datatype Syntax = Syntax(decode: string -> Option<seq<byte>>, prefixOk: string -> bool, ipOk: string -> bool)

  function KeyHex(syn: Syntax, key: string): Option<string> {
    match syn.decode(Trim(key))
    case None => None
    case Some(raw) => if |raw| == KeyLen then Some(Hex(raw)) else None
  }

  function HexOf(syn: Syntax, key: string): string {
    if KeyHex(syn, key).Some? then KeyHex(syn, key).value else ""
  }

  // ---------------------------------------------------------------- validation

  predicate ValidEndpoint(ep: string) {
    ep == "" ||
    match SplitHostPort(ep)
    case None => false
    case Some((host, port)) => host != "" && Atoi(port).Some? && 0 < Atoi(port).value <= 65535
  }

  predicate ValidPeer(syn: Syntax, p: Peer) {
    && KeyHex(syn, p.publicKey).Some?
    && ValidEndpoint(Trim(p.endpoint))
    && (forall a :: a in p.allowedIPs ==> syn.prefixOk(a))
    && p.keepalive >= 0
  }

  /** What Validate accepts. */
  predicate ValidConfig(syn: Syntax, cfg: Config) {
    && KeyHex(syn, cfg.privateKey).Some?
    && 0 <= cfg.listenPort <= 65535
    && (forall a :: a in cfg.addresses ==> syn.prefixOk(a))
    && (forall d :: d in cfg.dns ==> syn.ipOk(d))
    && |cfg.peers| > 0
    && (forall p :: p in cfg.peers ==> ValidPeer(syn, p))
  }

  datatype PeerProblem = BadPublicKey | BadEndpoint | BadPort | BadAllowed(text: string) | NegativeKeepalive

  datatype Problem = BadPrivateKey | BadListenPort | BadAddress(text: string) | BadDns(text: string) | NoPeers
                   | AtPeer(index: nat, problem: PeerProblem)

  /** The text is the first that fails the test. */
  ghost predicate FirstBad(ok: string -> bool, xs: seq<string>, text: string) {
    exists i :: 0 <= i < |xs| && xs[i] == text && !ok(text) && forall j :: 0 <= j < i ==> ok(xs[j])
  }

  predicate HostOk(ep: string) {
    ep == "" || (SplitHostPort(ep).Some? && SplitHostPort(ep).value.0 != "")
  }

  /** The problem is there, and no test before it fails. */
  ghost predicate FirstInPeer(syn: Syntax, p: Peer, e: PeerProblem) {
    if e.BadPublicKey? then KeyHex(syn, p.publicKey).None?
    else
      KeyHex(syn, p.publicKey).Some? &&
      match e
      case BadEndpoint => !HostOk(Trim(p.endpoint))
      case BadPort => HostOk(Trim(p.endpoint)) && !ValidEndpoint(Trim(p.endpoint))
      case BadAllowed(a) => ValidEndpoint(Trim(p.endpoint)) && FirstBad(syn.prefixOk, p.allowedIPs, a)
      case _ =>
        ValidEndpoint(Trim(p.endpoint)) && (forall a :: a in p.allowedIPs ==> syn.prefixOk(a)) && p.keepalive < 0
  }

  ghost predicate FirstInConfig(syn: Syntax, cfg: Config, e: Problem) {
    if e.BadPrivateKey? then KeyHex(syn, cfg.privateKey).None?
    else if e.BadListenPort? then KeyHex(syn, cfg.privateKey).Some? && !(0 <= cfg.listenPort <= 65535)
    else
      KeyHex(syn, cfg.privateKey).Some? && 0 <= cfg.listenPort <= 65535 &&
      if e.BadAddress? then FirstBad(syn.prefixOk, cfg.addresses, e.text)
      else
        (forall a :: a in cfg.addresses ==> syn.prefixOk(a)) &&
        if e.BadDns? then FirstBad(syn.ipOk, cfg.dns, e.text)
        else
          (forall d :: d in cfg.dns ==> syn.ipOk(d)) &&
          match e
          case AtPeer(i, problem) =>
            && i < |cfg.peers| && FirstInPeer(syn, cfg.peers[i], problem)
            && forall j :: 0 <= j < i ==> ValidPeer(syn, cfg.peers[j])
          case _ => cfg.peers == []
  }

  /** The first text that fails the test, if any does. */
  method FindBad(ok: string -> bool, xs: seq<string>) returns (r: Option<string>)
    ensures r.None? <==> forall x :: x in xs ==> ok(x)
    ensures r.Some? ==> FirstBad(ok, xs, r.value)
  {
    for i := 0 to |xs|
      invariant forall j :: 0 <= j < i ==> ok(xs[j])
    {
      if !ok(xs[i]) {
        return Some(xs[i]);
      }
    }
    return None;
  }

  method ValidatePeer(syn: Syntax, p: Peer) returns (r: Option<PeerProblem>)
    ensures r.None? <==> ValidPeer(syn, p)
    ensures r.Some? ==> FirstInPeer(syn, p, r.value)
  {
    hide SplitHostPort, Atoi;
    if KeyHex(syn, p.publicKey).None? {
      return Some(BadPublicKey);
    }
    var ep := Trim(p.endpoint);
    if ep != "" {
      var hp := SplitHostPort(ep);
      if hp.None? || hp.value.0 == "" {
        return Some(BadEndpoint);
      }
      var n := Atoi(hp.value.1);
      if n.None? || n.value <= 0 || n.value > 65535 {
        return Some(BadPort);
      }
    }
    var bad := FindBad(syn.prefixOk, p.allowedIPs);
    if bad.Some? {
      return Some(BadAllowed(bad.value));
    }
    if p.keepalive < 0 {
      return Some(NegativeKeepalive);
    }
    return None;
  }

  method Validate(syn: Syntax, cfg: Config) returns (r: Option<Problem>)
    ensures r.None? <==> ValidConfig(syn, cfg)
    ensures r.Some? ==> FirstInConfig(syn, cfg, r.value)
  {
    hide KeyHex, ValidPeer, FirstInPeer, FirstBad;
    if KeyHex(syn, cfg.privateKey).None? {
      return Some(BadPrivateKey);
    }
    if cfg.listenPort < 0 || cfg.listenPort > 65535 {
      return Some(BadListenPort);
    }
    var address := FindBad(syn.prefixOk, cfg.addresses);
    if address.Some? {
      return Some(BadAddress(address.value));
    }
    var dns := FindBad(syn.ipOk, cfg.dns);
    if dns.Some? {
      return Some(BadDns(dns.value));
    }
    if |cfg.peers| == 0 {
      return Some(NoPeers);
    }
    for i := 0 to |cfg.peers|
      invariant forall j :: 0 <= j < i ==> ValidPeer(syn, cfg.peers[j])
    {
      var bad := ValidatePeer(syn, cfg.peers[i]);
      if bad.Some? {
        return Some(AtPeer(i, bad.value));
      }
    }
    return None;
  }

  // ---------------------------------------------------------------- printing

  datatype Key = PrivateKey | ListenPort | PublicKey | RxBytes | TxBytes | Handshake | Endpoint | AllowedIp | Keepalive

  function KeyText(k: Key): string {
    match k
    case PrivateKey => "private_key"
    case ListenPort => "listen_port"
    case PublicKey => "public_key"
    case RxBytes => "rx_bytes"
    case TxBytes => "tx_bytes"
    case Handshake => "last_handshake_time_sec"
    case Endpoint => "endpoint"
    case AllowedIp => "allowed_ip"
    case Keepalive => "persistent_keepalive_interval"
  }

  function Line(k: Key, v: string): string {
    KeyText(k) + ['='] + v
  }

  function NumberLine(k: Key, n: int): seq<string> {
    if n > 0 then [Line(k, Itoa(n))] else []
  }

  function InterfaceLines(sk: string, port: int): seq<string> {
    [Line(PrivateKey, sk)] + NumberLine(ListenPort, port)
  }

  function EndpointLine(ep: string): seq<string> {
    if ep != "" then [Line(Endpoint, ep)] else []
  }

  function AllowedLines(ips: seq<string>): seq<string> {
    if ips == [] then [] else AllowedLines(ips[..|ips| - 1]) + [Line(AllowedIp, Trim(ips[|ips| - 1]))]
  }

  function PeerLines(pk: string, p: Peer): seq<string> {
    [Line(PublicKey, pk)] + EndpointLine(Trim(p.endpoint)) + AllowedLines(SortStrings(p.allowedIPs))
    + NumberLine(Keepalive, p.keepalive)
  }

  function PeersLines(syn: Syntax, ps: seq<Peer>): seq<string> {
    if ps == [] then []
    else PeersLines(syn, ps[..|ps| - 1]) + PeerLines(HexOf(syn, ps[|ps| - 1].publicKey), ps[|ps| - 1])
  }

  /** The text a valid configuration prints to. */
  function IpcText(syn: Syntax, cfg: Config): string {
    Unlines(InterfaceLines(HexOf(syn, cfg.privateKey), cfg.listenPort) + PeersLines(syn, cfg.peers))
  }

  method WriteAllowed(ips: seq<string>) returns (b: string)
    ensures b == Unlines(AllowedLines(ips))
  {
    ghost var lines := [];
    b := "";
    for i := 0 to |ips|
      invariant lines == AllowedLines(ips[..i]) && b == Unlines(lines)
    {
      b, lines := Ini.WriteLine(b, lines, Line(AllowedIp, Trim(ips[i])));
      assert ips[..i + 1][..i] == ips[..i];
    }
    assert ips[..|ips|] == ips;
  }

  method WritePeer(pk: string, p: Peer) returns (b: string)
    ensures b == Unlines(PeerLines(pk, p))
  {
    ghost var lines := [];
    b := "";
    b, lines := Ini.WriteLine(b, lines, Line(PublicKey, pk));
    ghost var l0 := [Line(PublicKey, pk)];
    assert lines == l0;
    if Trim(p.endpoint) != "" {
      b, lines := Ini.WriteLine(b, lines, Line(Endpoint, Trim(p.endpoint)));
    }
    assert lines == l0 + EndpointLine(Trim(p.endpoint));
    var ips := SortStrings(p.allowedIPs);
    var allowed := WriteAllowed(ips);
    UnlinesConcat(lines, AllowedLines(ips));
    b, lines := b + allowed, lines + AllowedLines(ips);
    ghost var l1 := lines;
    if p.keepalive > 0 {
      b, lines := Ini.WriteLine(b, lines, Line(Keepalive, Itoa(p.keepalive)));
    }
    assert lines == l1 + NumberLine(Keepalive, p.keepalive);
  }

  lemma {:induction false} PeersLinesSnoc(syn: Syntax, lines: seq<string>, ps: seq<Peer>, i: nat)
    requires i < |ps|
    ensures Unlines(lines + PeersLines(syn, ps[..i + 1]))
         == Unlines(lines + PeersLines(syn, ps[..i])) + Unlines(PeerLines(HexOf(syn, ps[i].publicKey), ps[i]))
  {
    assert ps[..i + 1][..i] == ps[..i];
    Ini.UnlinesThree(lines, PeersLines(syn, ps[..i]), PeerLines(HexOf(syn, ps[i].publicKey), ps[i]));
  }

  method WriteInterface(sk: string, port: int) returns (b: string)
    ensures b == Unlines(InterfaceLines(sk, port))
  {
    ghost var lines := [];
    b := "";
    b, lines := Ini.WriteLine(b, lines, Line(PrivateKey, sk));
    if port > 0 {
      b, lines := Ini.WriteLine(b, lines, Line(ListenPort, Itoa(port)));
    }
    assert lines == InterfaceLines(sk, port);
  }

  method ToIPC(syn: Syntax, cfg: Config) returns (r: Result<string, Problem>)
    ensures r.Ok? <==> ValidConfig(syn, cfg)
    ensures r.Ok? ==> r.value == IpcText(syn, cfg)
    ensures r.Ok? ==> 0 <= cfg.listenPort <= 65535 && cfg.peers != []
    ensures r.Ok? ==> (forall a :: a in cfg.addresses ==> syn.prefixOk(a)) && forall d :: d in cfg.dns ==> syn.ipOk(d)
    ensures r.Err? ==> FirstInConfig(syn, cfg, r.error)
  {
    var problem := Validate(syn, cfg);
    if problem.Some? {
      return Err(problem.value);
    }
    var b := WriteInterface(HexOf(syn, cfg.privateKey), cfg.listenPort);
    b := WritePeers(syn, b, InterfaceLines(HexOf(syn, cfg.privateKey), cfg.listenPort), cfg.peers);
    return Ok(b);
  }

  method WritePeers(syn: Syntax, start: string, ghost head: seq<string>, ps: seq<Peer>) returns (b: string)
    requires start == Unlines(head)
    ensures b == Unlines(head + PeersLines(syn, ps))
  {
    b := start;
    assert head + PeersLines(syn, ps[..0]) == head;
    for i := 0 to |ps|
      invariant b == Unlines(head + PeersLines(syn, ps[..i]))
    {
      var peer := WritePeer(HexOf(syn, ps[i].publicKey), ps[i]);
      PeersLinesSnoc(syn, head, ps, i);
      b := b + peer;
    }
    assert ps[..|ps|] == ps;
  }

  // ---------------------------------------------------------------- parsing

  /** One peer of a device dump; a handshake of zero means none was seen. */
  datatype PeerStats = PeerStats(publicKeyHex: string, rxBytes: nat, txBytes: nat, lastHandshake: nat,
                                 endpoint: string, allowedIPs: seq<string>, keepaliveSecs: int)

  datatype DumpState = DumpState(out: seq<PeerStats>, cur: Option<PeerStats>) {
    function Flushed(): seq<PeerStats> {
      if cur.Some? then out + [cur.value] else out
    }
  }

  function KeyOf(name: string): Option<Key> {
    if name == "public_key" then Some(PublicKey)
    else if name == "rx_bytes" then Some(RxBytes)
    else if name == "tx_bytes" then Some(TxBytes)
    else if name == "last_handshake_time_sec" then Some(Handshake)
    else if name == "endpoint" then Some(Endpoint)
    else if name == "allowed_ip" then Some(AllowedIp)
    else if name == "persistent_keepalive_interval" then Some(Keepalive)
    else None
  }

  function NewPeer(pk: string): PeerStats {
    PeerStats(pk, 0, 0, 0, "", [], 0)
  }

  function Assign(p: PeerStats, k: Key, v: string): PeerStats {
    match k
    case RxBytes => p.(rxBytes := if ParseUint(v).Some? then ParseUint(v).value else 0)
    case TxBytes => p.(txBytes := if ParseUint(v).Some? then ParseUint(v).value else 0)
    case Handshake => if Atoi(v).Some? && Atoi(v).value > 0 then p.(lastHandshake := Atoi(v).value) else p
    case Endpoint => p.(endpoint := v)
    case AllowedIp => p.(allowedIPs := p.allowedIPs + [v])
    case Keepalive => if Atoi(v).Some? then p.(keepaliveSecs := Atoi(v).value) else p
    case _ => p
  }

  /** A public key starts a new peer; other keys need one to be open. */
  function Step(st: DumpState, k: Key, v: string): DumpState {
    if k.PublicKey? then DumpState(st.Flushed(), Some(NewPeer(v)))
    else if st.cur.None? then st
    else st.(cur := Some(Assign(st.cur.value, k, v)))
  }

  function ReadLine(st: DumpState, raw: string): DumpState {
    match KeyValue(raw)
    case None => st
    case Some((name, v)) =>
      match KeyOf(Lower(name))
      case None => st
      case Some(k) => Step(st, k, v)
  }

  function ReadLines(st: DumpState, lines: seq<string>): DumpState
    decreases |lines|
  {
    if lines == [] then st else ReadLines(ReadLine(st, lines[0]), lines[1..])
  }

  /** The records a dump parses to. */
  function DumpParse(s: string): seq<PeerStats> {
    ReadLines(DumpState([], None), Split(s, '\n')).Flushed()
  }

  method ParseIPCDump(dump: string) returns (out: seq<PeerStats>)
    ensures out == DumpParse(dump)
  {
    out := [];
    var cur: Option<PeerStats> := None;
    var lines := Split(dump, '\n');
    for i := 0 to |lines|
      invariant ReadLines(DumpState([], None), lines) == ReadLines(DumpState(out, cur), lines[i..])
    {
      assert lines[i..][0] == lines[i] && lines[i..][1..] == lines[i + 1..];
      var line := Trim(lines[i]);
      var kv := Cut(line, '=');
      if kv.None? {
        continue;
      }
      var key := KeyOf(Lower(Trim(kv.value.0)));
      var v := Trim(kv.value.1);
      if key == Some(PublicKey) {
        if cur.Some? {
          out := out + [cur.value];
        }
        cur := Some(NewPeer(v));
      } else if key.Some? && cur.Some? {
        cur := Some(Assign(cur.value, key.value, v));
      }
    }
    if cur.Some? {
      out := out + [cur.value];
    }
  }
}

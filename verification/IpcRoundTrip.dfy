/** Printing a configuration for the device and parsing the text as a dump:
    one record per peer, in order, exactly when no printed value holds a
    newline. */
module IpcRoundTrip {
  import opened Wrappers
  import opened Text
  import opened Sorting
  import opened Ipc
  import Ini

  function TrimAll(xs: seq<string>): (r: seq<string>)
    ensures |r| == |xs| && forall i :: 0 <= i < |xs| ==> r[i] == Trim(xs[i])
  {
    seq(|xs|, i requires 0 <= i < |xs| => Trim(xs[i]))
  }

  /** The record a peer should come back as. */
  function Record(syn: Syntax, p: Peer): PeerStats {
    PeerStats(HexOf(syn, p.publicKey), 0, 0, 0, Trim(p.endpoint), TrimAll(SortStrings(p.allowedIPs)),
              if p.keepalive > 0 then p.keepalive else 0)
  }

  function Records(syn: Syntax, ps: seq<Peer>): (r: seq<PeerStats>)
    ensures |r| == |ps| && forall i :: 0 <= i < |ps| ==> r[i] == Record(syn, ps[i])
  {
    seq(|ps|, i requires 0 <= i < |ps| => Record(syn, ps[i]))
  }

  predicate SafePeer(p: Peer) {
    '\n' !in Trim(p.endpoint) && forall a :: a in p.allowedIPs ==> '\n' !in Trim(a)
  }

  /** No value printed for a peer holds a newline: checkable before printing. */
  predicate LineSafe(cfg: Config) {
    forall p :: p in cfg.peers ==> SafePeer(p)
  }

  // ---------------------------------------------------------------- single lines

  lemma LowerKeyOfDevice(k: Key)
    requires k.PrivateKey? || k.ListenPort? || k.PublicKey?
    ensures Lower(KeyText(k)) == KeyText(k)
  {
    hide Lower;
  }

  lemma LowerKeyOfTraffic(k: Key)
    requires k.RxBytes? || k.TxBytes? || k.Handshake?
    ensures Lower(KeyText(k)) == KeyText(k)
  {
    hide Lower;
  }

  lemma LowerKeyOfPeer(k: Key)
    requires k.Endpoint? || k.AllowedIp? || k.Keepalive?
    ensures Lower(KeyText(k)) == KeyText(k)
  {
    hide Lower;
  }

  lemma {:induction false} KeyTextIsLower(k: Key)
    ensures Lower(KeyText(k)) == KeyText(k)
  {
    hide Lower, KeyText;
    if k.PrivateKey? || k.ListenPort? || k.PublicKey? { LowerKeyOfDevice(k); }
    else if k.RxBytes? || k.TxBytes? || k.Handshake? { LowerKeyOfTraffic(k); }
    else { LowerKeyOfPeer(k); }
  }

  lemma KeyTextTrimmed(k: Key)
    ensures Trimmed(KeyText(k))
  {
  }

  lemma KeyTextNoEquals(k: Key)
    ensures '=' !in KeyText(k)
  {
  }

  lemma KeyTextNoNewline(k: Key)
    ensures '\n' !in KeyText(k)
  {
  }

  lemma KeyOfText(k: Key)
    ensures KeyOf(KeyText(k)) == if k.PrivateKey? || k.ListenPort? then None else Some(k)
  {
  }

  lemma {:induction false} LineKeyValue(k: Key, v: string)
    requires Trimmed(v)
    ensures KeyValue(Line(k, v)) == Some((KeyText(k), v)) && Lower(KeyText(k)) == KeyText(k)
    ensures KeyOf(KeyText(k)) == if k.PrivateKey? || k.ListenPort? then None else Some(k)
    ensures '\n' !in v ==> '\n' !in Line(k, v)
  {
    hide KeyText, KeyOf;
    KeyTextIsLower(k);
    KeyTextTrimmed(k);
    KeyTextNoEquals(k);
    KeyTextNoNewline(k);
    KeyOfText(k);
    KeyValueOf(KeyText(k), v);
    TrimOfTrimmed(KeyText(k));
    TrimOfTrimmed(v);
  }

  lemma {:induction false} TrimTwice(s: string)
    ensures Trim(Trim(s)) == Trim(s) && Trimmed(Trim(s))
  {
    TrimIsTrimmed(s);
    TrimOfTrimmed(Trim(s));
  }

  lemma {:induction false} ReadLinesConcat(st: DumpState, a: seq<string>, b: seq<string>)
    ensures ReadLines(st, a + b) == ReadLines(ReadLines(st, a), b)
    decreases |a|
  {
    if a == [] {
      assert a + b == b;
    } else {
      assert (a + b)[1..] == a[1..] + b;
      ReadLinesConcat(ReadLine(st, a[0]), a[1..], b);
    }
  }

  predicate Leads(st: DumpState, lines: seq<string>, end: DumpState) {
    ReadLines(st, lines) == end && AllFree(lines, '\n')
  }

  lemma {:induction false} Then(st: DumpState, a: seq<string>, mid: DumpState, b: seq<string>, end: DumpState)
    requires Leads(st, a, mid) && Leads(mid, b, end)
    ensures Leads(st, a + b, end)
  {
    ReadLinesConcat(st, a, b);
  }

  lemma {:induction false} LeadsOne(st: DumpState, line: string)
    requires '\n' !in line
    ensures Leads(st, [line], ReadLine(st, line))
  {
    assert [line][1..] == [];
    assert ReadLines(st, [line]) == ReadLines(ReadLine(st, line), []);
  }

  lemma {:induction false} ReadField(st: DumpState, k: Key, v: string)
    requires Trimmed(v) && '\n' !in v
    ensures Leads(st, [Line(k, v)], if k.PrivateKey? || k.ListenPort? then st else Step(st, k, v))
  {
    LineKeyValue(k, v);
    LeadsOne(st, Line(k, v));
  }

  // ---------------------------------------------------------------- sections

  lemma {:induction false} ReadInterface(sk: string, port: int64)
    requires Trimmed(sk) && '\n' !in sk
    ensures Leads(DumpState([], None), InterfaceLines(sk, port), DumpState([], None))
  {
    var s0 := DumpState([], None);
    ReadField(s0, PrivateKey, sk);
    if port > 0 {
      AtoiOfItoa(port);
      ReadField(s0, ListenPort, Itoa(port));
    }
    Then(s0, [Line(PrivateKey, sk)], s0, NumberLine(ListenPort, port), s0);
  }

  lemma {:induction false} ReadEndpoint(out: seq<PeerStats>, p: PeerStats, ep: string)
    requires Trimmed(ep) && '\n' !in ep && p.endpoint == ""
    ensures Leads(DumpState(out, Some(p)), EndpointLine(ep), DumpState(out, Some(p.(endpoint := ep))))
  {
    if ep != "" {
      ReadField(DumpState(out, Some(p)), Endpoint, ep);
    }
  }

  function Listing(out: seq<PeerStats>, p: PeerStats, ips: seq<string>): DumpState {
    DumpState(out, Some(p.(allowedIPs := ips)))
  }

  lemma {:induction false} ReadOneAllowed(out: seq<PeerStats>, p: PeerStats, xs: seq<string>, a: string)
    requires Trimmed(a) && '\n' !in a
    ensures Leads(Listing(out, p, xs), [Line(AllowedIp, a)], Listing(out, p, xs + [a]))
  {
    ReadField(Listing(out, p, xs), AllowedIp, a);
  }

  lemma {:induction false} ReadAllowed(out: seq<PeerStats>, p: PeerStats, ips: seq<string>)
    requires forall i :: 0 <= i < |ips| ==> '\n' !in Trim(ips[i])
    ensures Leads(Listing(out, p, []), AllowedLines(ips), Listing(out, p, TrimAll(ips)))
    decreases |ips|
  {
    hide Trim, Line, Listing, Leads;
    if ips == [] {
      assert TrimAll(ips) == [];
      LeadsNowhere(Listing(out, p, []));
    } else {
      var init, a := ips[..|ips| - 1], Trim(ips[|ips| - 1]);
      ReadAllowed(out, p, init);
      TrimTwice(ips[|ips| - 1]);
      ReadOneAllowed(out, p, TrimAll(init), a);
      assert TrimAll(ips) == TrimAll(init) + [a];
      Then(Listing(out, p, []), AllowedLines(init), Listing(out, p, TrimAll(init)), [Line(AllowedIp, a)],
           Listing(out, p, TrimAll(ips)));
    }
  }

  lemma LeadsNowhere(st: DumpState)
    ensures Leads(st, [], st)
  {
  }

  lemma {:induction false} ReadKeepalive(out: seq<PeerStats>, p: PeerStats, n: int64)
    requires p.keepaliveSecs == 0
    ensures Leads(DumpState(out, Some(p)), NumberLine(Keepalive, n),
                  DumpState(out, Some(p.(keepaliveSecs := if n > 0 then n else 0))))
  {
    if n > 0 {
      AtoiOfItoa(n);
      ReadField(DumpState(out, Some(p)), Keepalive, Itoa(n));
    }
  }

  lemma {:induction false} Chain(s0: DumpState, l1: seq<string>, s1: DumpState, l2: seq<string>, s2: DumpState,
                                 l3: seq<string>, s3: DumpState, l4: seq<string>, s4: DumpState)
    requires Leads(s0, l1, s1) && Leads(s1, l2, s2) && Leads(s2, l3, s3) && Leads(s3, l4, s4)
    ensures Leads(s0, l1 + l2 + l3 + l4, s4)
  {
    Then(s0, l1, s1, l2, s2);
    Then(s0, l1 + l2, s2, l3, s3);
    Then(s0, l1 + l2 + l3, s3, l4, s4);
  }

  lemma HexPlain(syn: Syntax, key: string)
    ensures Trimmed(HexOf(syn, key)) && '\n' !in HexOf(syn, key)
  {
  }

  lemma {:induction false} ReadPeer(syn: Syntax, st: DumpState, p: Peer)
    requires SafePeer(p)
    ensures Leads(st, PeerLines(HexOf(syn, p.publicKey), p), DumpState(st.Flushed(), Some(Record(syn, p))))
  {
    var pk, ips, out := HexOf(syn, p.publicKey), SortStrings(p.allowedIPs), st.Flushed();
    HexPlain(syn, p.publicKey);
    TrimTwice(p.endpoint);
    SortKeepsMembers(p.allowedIPs);
    var r1 := NewPeer(pk);
    var r2 := r1.(endpoint := Trim(p.endpoint));
    var r3 := r2.(allowedIPs := TrimAll(ips));
    ReadField(st, PublicKey, pk);
    ReadEndpoint(out, r1, Trim(p.endpoint));
    ReadAllowed(out, r2, ips);
    ReadKeepalive(out, r3, p.keepalive);
    Chain(st, [Line(PublicKey, pk)], DumpState(out, Some(r1)), EndpointLine(Trim(p.endpoint)),
          DumpState(out, Some(r2)), AllowedLines(ips), DumpState(out, Some(r3)),
          NumberLine(Keepalive, p.keepalive), DumpState(out, Some(Record(syn, p))));
  }

  /** The parser state after the lines of ps: all but the last record are out. */
  function After(syn: Syntax, ps: seq<Peer>): (st: DumpState)
    ensures st.Flushed() == Records(syn, ps)
  {
    if ps == [] then DumpState([], None)
    else
      var init, p := ps[..|ps| - 1], ps[|ps| - 1];
      assert Records(syn, ps) == Records(syn, init) + [Record(syn, p)];
      DumpState(Records(syn, init), Some(Record(syn, p)))
  }

  lemma {:induction false} ReadPeers(syn: Syntax, ps: seq<Peer>)
    requires forall p :: p in ps ==> SafePeer(p)
    ensures Leads(DumpState([], None), PeersLines(syn, ps), After(syn, ps))
    decreases |ps|
  {
    if ps != [] {
      var init, p := ps[..|ps| - 1], ps[|ps| - 1];
      ReadPeers(syn, init);
      ReadPeer(syn, After(syn, init), p);
      Then(DumpState([], None), PeersLines(syn, init), After(syn, init), PeerLines(HexOf(syn, p.publicKey), p),
           After(syn, ps));
    }
  }

  // ---------------------------------------------------------------- main results

  /** A line-safe configuration is read back as one record per peer, in order. */
  lemma {:induction false} PrintThenParse(syn: Syntax, cfg: Config)
    requires LineSafe(cfg)
    ensures DumpParse(IpcText(syn, cfg)) == Records(syn, cfg.peers)
  {
    var s0 := DumpState([], None);
    var head, tail := InterfaceLines(HexOf(syn, cfg.privateKey), cfg.listenPort), PeersLines(syn, cfg.peers);
    var end := After(syn, cfg.peers);
    HexPlain(syn, cfg.privateKey);
    ReadInterface(HexOf(syn, cfg.privateKey), cfg.listenPort);
    ReadPeers(syn, cfg.peers);
    Then(s0, head, s0, tail, end);
    SplitUnlines(head + tail);
    LeadsOne(end, "");
    Then(s0, head + tail, end, [""], end);
  }

  predicate NewlineFree(r: PeerStats) {
    '\n' !in r.endpoint && AllFree(r.allowedIPs, '\n')
  }

  predicate StateFree(st: DumpState) {
    (forall r :: r in st.out ==> NewlineFree(r)) && (st.cur.Some? ==> NewlineFree(st.cur.value))
  }

  lemma {:induction false} StepFree(st: DumpState, k: Key, v: string)
    requires StateFree(st) && '\n' !in v
    ensures StateFree(Step(st, k, v))
  {
  }

  lemma {:induction false} ValueFree(raw: string)
    requires '\n' !in raw && KeyValue(raw).Some?
    ensures '\n' !in KeyValue(raw).value.1
  {
    TrimIsTrimmed(raw);
    CutParts(Trim(raw), '=');
    var v := Cut(Trim(raw), '=').value.1;
    assert forall c :: c in v ==> c in Trim(raw);
    TrimIsTrimmed(v);
  }

  lemma {:induction false} ReadLineFree(st: DumpState, raw: string)
    requires StateFree(st) && '\n' !in raw
    ensures StateFree(ReadLine(st, raw))
  {
    match KeyValue(raw)
    case None =>
    case Some((name, v)) =>
      ValueFree(raw);
      match KeyOf(Lower(name))
      case None =>
      case Some(k) => StepFree(st, k, v);
  }

  lemma {:induction false} ReadLinesFree(st: DumpState, lines: seq<string>)
    requires StateFree(st) && AllFree(lines, '\n')
    ensures StateFree(ReadLines(st, lines))
    decreases |lines|
  {
    if lines != [] {
      ReadLineFree(st, lines[0]);
      ReadLinesFree(ReadLine(st, lines[0]), lines[1..]);
    }
  }

  /** No record parsed from any dump holds a newline. */
  lemma {:induction false} ParsedIsFree(s: string)
    ensures forall r :: r in DumpParse(s) ==> NewlineFree(r)
  {
    SplitPieces(s, '\n');
    ReadLinesFree(DumpState([], None), Split(s, '\n'));
  }

  /** The dump of a printed configuration is one record per peer exactly when no printed value holds a newline. */
  lemma {:induction false} RoundTripIff(syn: Syntax, cfg: Config)
    ensures DumpParse(IpcText(syn, cfg)) == Records(syn, cfg.peers) <==> LineSafe(cfg)
  {
    if LineSafe(cfg) {
      PrintThenParse(syn, cfg);
    }
    if DumpParse(IpcText(syn, cfg)) == Records(syn, cfg.peers) {
      ParsedIsFree(IpcText(syn, cfg));
      forall p | p in cfg.peers ensures SafePeer(p) {
        RecordFree(syn, cfg, p);
      }
    }
  }

  lemma {:induction false} RecordFree(syn: Syntax, cfg: Config, p: Peer)
    requires p in cfg.peers && forall r :: r in Records(syn, cfg.peers) ==> NewlineFree(r)
    ensures SafePeer(p)
  {
    var i :| 0 <= i < |cfg.peers| && cfg.peers[i] == p;
    var r := Records(syn, cfg.peers)[i];
    assert r in Records(syn, cfg.peers);
    var ips := SortStrings(p.allowedIPs);
    SortKeepsMembers(p.allowedIPs);
    forall a | a in p.allowedIPs ensures '\n' !in Trim(a) {
      var j :| 0 <= j < |ips| && ips[j] == a;
      assert r.allowedIPs[j] == Trim(a);
    }
  }

  // ---------------------------------------------------------------- the device's own lines

  lemma LiteralInterface(v: string)
    ensures Line(PrivateKey, v) == "private_key=" + v
    ensures Line(ListenPort, v) == "listen_port=" + v
  {
    assert "private_key" + ['='] == "private_key=";
    assert "listen_port" + ['='] == "listen_port=";
  }

  /** The line does not configure the device itself. */
  predicate OfPeer(line: string) {
    KeyValue(line).Some? ==> KeyValue(line).value.0 != "private_key" && KeyValue(line).value.0 != "listen_port"
  }

  lemma {:induction false} FieldOfPeer(k: Key, v: string)
    requires Trimmed(v) && !k.PrivateKey? && !k.ListenPort?
    ensures OfPeer(Line(k, v))
  {
    LineKeyValue(k, v);
    OtherKeyText(k);
    hide KeyText, KeyValue, Lower;
  }

  lemma OtherKeyText(k: Key)
    requires !k.PrivateKey? && !k.ListenPort?
    ensures KeyText(k) != "private_key" && KeyText(k) != "listen_port"
  {
    assert "public_key"[1] == 'u' && "private_key"[1] == 'r' && "listen_port"[1] == 'i';
  }

  predicate AllOfPeer(lines: seq<string>) {
    forall i :: 0 <= i < |lines| ==> OfPeer(lines[i])
  }

  lemma {:induction false} OfPeerConcat(a: seq<string>, b: seq<string>)
    requires AllOfPeer(a) && AllOfPeer(b)
    ensures AllOfPeer(a + b)
  {
    hide OfPeer;
  }

  lemma {:induction false} OneOfPeer(k: Key, v: string)
    requires Trimmed(v) && !k.PrivateKey? && !k.ListenPort?
    ensures AllOfPeer([Line(k, v)])
  {
    hide OfPeer, Line;
    FieldOfPeer(k, v);
  }

  lemma {:induction false} AllowedOfPeer(ips: seq<string>)
    ensures AllOfPeer(AllowedLines(ips))
    decreases |ips|
  {
    hide OfPeer, Line, Trim, Trimmed;
    if ips != [] {
      AllowedOfPeer(ips[..|ips| - 1]);
      TrimTwice(ips[|ips| - 1]);
      OneOfPeer(AllowedIp, Trim(ips[|ips| - 1]));
      OfPeerConcat(AllowedLines(ips[..|ips| - 1]), [Line(AllowedIp, Trim(ips[|ips| - 1]))]);
    }
  }

  lemma {:induction false} EndpointOfPeer(ep: string)
    requires Trimmed(ep)
    ensures AllOfPeer(EndpointLine(ep))
  {
    hide OfPeer, Line;
    OneOfPeer(Endpoint, ep);
  }

  lemma {:induction false} KeepaliveOfPeer(n: int64)
    ensures AllOfPeer(NumberLine(Keepalive, n))
  {
    hide OfPeer, Line, Itoa;
    if n > 0 {
      AtoiOfItoa(n);
      OneOfPeer(Keepalive, Itoa(n));
    }
  }

  lemma {:induction false} LinesOfPeer(syn: Syntax, p: Peer)
    ensures AllOfPeer(PeerLines(HexOf(syn, p.publicKey), p))
  {
    hide AllOfPeer, EndpointLine, NumberLine, AllowedLines, Line, Trim, Trimmed, SortStrings, HexOf;
    var pk := HexOf(syn, p.publicKey);
    var l1, l2, l3, l4 := [Line(PublicKey, pk)], EndpointLine(Trim(p.endpoint)),
                          AllowedLines(SortStrings(p.allowedIPs)), NumberLine(Keepalive, p.keepalive);
    HexPlain(syn, p.publicKey);
    OneOfPeer(PublicKey, pk);
    TrimTwice(p.endpoint);
    EndpointOfPeer(Trim(p.endpoint));
    AllowedOfPeer(SortStrings(p.allowedIPs));
    KeepaliveOfPeer(p.keepalive);
    OfPeerConcat(l1, l2);
    OfPeerConcat(l1 + l2, l3);
    OfPeerConcat(l1 + l2 + l3, l4);
  }

  lemma {:induction false} LinesOfPeers(syn: Syntax, ps: seq<Peer>)
    ensures AllOfPeer(PeersLines(syn, ps))
    decreases |ps|
  {
    hide OfPeer, PeerLines, HexOf;
    if ps != [] {
      var init, p := ps[..|ps| - 1], ps[|ps| - 1];
      LinesOfPeers(syn, init);
      LinesOfPeer(syn, p);
      OfPeerConcat(PeersLines(syn, init), PeerLines(HexOf(syn, p.publicKey), p));
    }
  }

  lemma {:induction false} TextLines(syn: Syntax, cfg: Config)
    requires LineSafe(cfg)
    ensures Split(IpcText(syn, cfg), '\n')
         == InterfaceLines(HexOf(syn, cfg.privateKey), cfg.listenPort) + PeersLines(syn, cfg.peers) + [""]
  {
    var sk, port := HexOf(syn, cfg.privateKey), cfg.listenPort;
    HexPlain(syn, cfg.privateKey);
    hide ReadLines, HexOf, Trimmed, InterfaceLines, PeersLines, Split, Unlines;
    ReadInterface(sk, port);
    ReadPeers(syn, cfg.peers);
    SplitUnlines(InterfaceLines(sk, port) + PeersLines(syn, cfg.peers));
  }

  lemma BlankOfPeer()
    ensures AllOfPeer([""])
  {
  }

  /** A line-safe configuration prints exactly one private key line, the first,
      and one port line, the second, exactly when the port is positive. */
  lemma {:induction false} DeviceLines(syn: Syntax, cfg: Config)
    requires LineSafe(cfg)
    ensures var lines := Split(IpcText(syn, cfg), '\n');
            && lines[0] == "private_key=" + HexOf(syn, cfg.privateKey)
            && (cfg.listenPort > 0 ==> |lines| > 1 && lines[1] == "listen_port=" + Itoa(cfg.listenPort))
            && AllOfPeer(lines[if cfg.listenPort > 0 then 2 else 1..])
  {
    var sk, port, tail := HexOf(syn, cfg.privateKey), cfg.listenPort, PeersLines(syn, cfg.peers) + [""];
    TextLines(syn, cfg);
    LinesOfPeers(syn, cfg.peers);
    BlankOfPeer();
    OfPeerConcat(PeersLines(syn, cfg.peers), [""]);
    LiteralInterface(sk);
    if port > 0 { LiteralInterface(Itoa(port)); }
    hide AllOfPeer, IpcText, Split, Line, PeersLines, HexOf, Itoa;
    var lines := Split(IpcText(syn, cfg), '\n');
    assert lines == InterfaceLines(sk, port) + tail;
    assert port > 0 ==> lines[2..] == tail;
    assert port <= 0 ==> lines[1..] == tail;
  }

  // ---------------------------------------------------------------- what validation is worth

  /** An endpoint of a plain host and a number is valid exactly when the host
      is there and the number is a port. */
  lemma {:induction false} EndpointIff(host: string, port: nat)
    requires PlainHost(host) && port <= MaxInt64
    ensures ValidEndpoint(host + ":" + Itoa(port)) <==> host != "" && 1 <= port <= 65535
  {
    AtoiOfItoa(port);
    hide Atoi, SplitHostPort;
    SplitHostPortOf(host, Itoa(port));
    assert host + ":" + Itoa(port) != "";
  }

  lemma {:induction false} HexOfValid(syn: Syntax, key: string)
    requires KeyHex(syn, key).Some?
    ensures |HexOf(syn, key)| == 64
  {
    HexDigits(syn.decode(Trim(key)).value, 0);
  }

  /** A valid, line-safe configuration reaches the device as it is: a 64-digit
      key per peer and the keepalive of each. */
  lemma {:induction false} ValidReachesDevice(syn: Syntax, cfg: Config, i: nat)
    requires ValidConfig(syn, cfg) && LineSafe(cfg) && i < |cfg.peers|
    ensures |DumpParse(IpcText(syn, cfg))| == |cfg.peers|
    ensures var r, p := DumpParse(IpcText(syn, cfg))[i], cfg.peers[i];
            && |r.publicKeyHex| == 64 && r.keepaliveSecs == p.keepalive && r.endpoint == Trim(p.endpoint)
            && ValidEndpoint(r.endpoint)
  {
    PrintThenParse(syn, cfg);
    hide KeyHex, HexOf, ValidEndpoint, IpcText, DumpParse;
    assert cfg.peers[i] in cfg.peers && ValidPeer(syn, cfg.peers[i]);
    HexOfValid(syn, cfg.peers[i].publicKey);
  }

  /** With addresses that carry no outer blanks, each record lists the sorted permutation of its peer's addresses. */
  lemma {:induction false} AllowedSorted(syn: Syntax, p: Peer)
    requires forall a :: a in p.allowedIPs ==> Trimmed(a)
    ensures Record(syn, p).allowedIPs == SortStrings(p.allowedIPs)
    ensures Sorted(Record(syn, p).allowedIPs) && multiset(Record(syn, p).allowedIPs) == multiset(p.allowedIPs)
  {
    var ips := SortStrings(p.allowedIPs);
    SortKeepsMembers(p.allowedIPs);
    forall i | 0 <= i < |ips| ensures Trim(ips[i]) == ips[i] {
      assert ips[i] in p.allowedIPs;
      TrimOfTrimmed(ips[i]);
    }
    assert TrimAll(ips) == ips;
  }

  /** An endpoint may hold a newline and still be host:port. */
  lemma {:induction false} NewlineEndpoint()
    ensures Trim("a\nb:1") == "a\nb:1" && ValidEndpoint("a\nb:1") && '\n' in "a\nb:1"
  {
    var ep := "a\nb:1";
    TrimOfTrimmed(ep);
    assert ep[1] == '\n';
    assert LastIndexOf(ep, ':') == 3 by { assert ep[..4][3] == ':'; }
    assert ep[..3] == "a\nb" && ep[4..] == "1";
    assert SplitHostPort(ep) == Some(("a\nb", "1"));
    AtoiOfItoa(1);
    assert Itoa(1) == "1";
  }

  lemma {:induction false} UnsafeEndpoint(syn: Syntax, key: string, ep: string, cfg: Config)
    requires KeyHex(syn, key).Some? && Trim(ep) == ep && ValidEndpoint(ep) && '\n' in ep
    requires cfg == Ini.Config(key, 0, [], [], [Ini.Peer(key, ep, [], 0)], 0)
    ensures ValidConfig(syn, cfg) && !LineSafe(cfg) && DumpParse(IpcText(syn, cfg)) != Records(syn, cfg.peers)
  {
    var p := Ini.Peer(key, ep, [], 0);
    assert p in cfg.peers && !SafePeer(p);
    RoundTripIff(syn, cfg);
  }

  /** Validation does not imply line safety. */
  lemma {:induction false} ValidButUnsafe(syn: Syntax, key: string, cfg: Config)
    requires KeyHex(syn, key).Some?
    requires cfg == Ini.Config(key, 0, [], [], [Ini.Peer(key, "a\nb:1", [], 0)], 0)
    ensures ValidConfig(syn, cfg) && !LineSafe(cfg) && DumpParse(IpcText(syn, cfg)) != Records(syn, cfg.peers)
  {
    NewlineEndpoint();
    UnsafeEndpoint(syn, key, "a\nb:1", cfg);
  }
}

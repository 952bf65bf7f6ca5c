/** Printing then parsing a WireGuard configuration: it gives the same
    configuration back for exactly the printable ones. */
module IniRoundTrip {
  import opened Wrappers
  import opened Text
  import opened Ini

  predicate CleanText(s: string) {
    Trimmed(s) && '\n' !in s
  }

  predicate CleanItem(s: string) {
    CleanText(s) && s != "" && ',' !in s
  }

  predicate CleanList(xs: seq<string>) {
    forall i :: 0 <= i < |xs| ==> CleanItem(xs[i])
  }

  predicate CleanPeer(p: Peer) {
    CleanText(p.publicKey) && CleanText(p.endpoint) && CleanList(p.allowedIPs)
  }

  predicate CleanPeers(ps: seq<Peer>) {
    forall i :: 0 <= i < |ps| ==> CleanPeer(ps[i])
  }

  predicate CleanConfig(cfg: Config) {
    && CleanText(cfg.privateKey) && CleanList(cfg.addresses) && CleanList(cfg.dns)
    && CleanPeers(cfg.peers)
  }

  /** Numbers below zero are printed like zero: not at all. */
  function Floor(n: int64): int64 {
    if n > 0 then n else 0
  }

  function FloorPeer(p: Peer): Peer {
    p.(keepalive := Floor(p.keepalive))
  }

  function FloorPeers(ps: seq<Peer>): (r: seq<Peer>)
    ensures |r| == |ps| && forall i :: 0 <= i < |ps| ==> r[i] == FloorPeer(ps[i])
  {
    seq(|ps|, i requires 0 <= i < |ps| => FloorPeer(ps[i]))
  }

  function FloorConfig(cfg: Config): Config {
    cfg.(listenPort := Floor(cfg.listenPort), mtu := Floor(cfg.mtu), peers := FloorPeers(cfg.peers))
  }

  predicate NonNegative(cfg: Config) {
    cfg.listenPort >= 0 && cfg.mtu >= 0 && forall i :: 0 <= i < |cfg.peers| ==> cfg.peers[i].keepalive >= 0
  }

  /** The configurations that survive: checkable before printing. */
  predicate Printable(cfg: Config) {
    CleanConfig(cfg) && cfg.privateKey != "" && NonNegative(cfg)
  }

  // ---------------------------------------------------------------- lists

  lemma {:induction false} TrimPadded(s: string)
    requires Trimmed(s)
    ensures Trim(" " + s) == s && Trim(s + " ") == s
  {
    TrimOfTrimmed(s);
    assert (" " + s)[1..] == s;
    var t := s + " ";
    assert t[..|t| - 1] == s;
    if s == [] {
      assert t == " " + s;
    } else {
      assert TrimLeft(t) == t;
    }
  }

  lemma {:induction false} KeepCons(x: string, xs: seq<string>)
    ensures KeepItems([x] + xs) == (if Trim(x) == "" then [] else [Trim(x)]) + KeepItems(xs)
  {
    assert ([x] + xs)[1..] == xs;
  }

  /** A printed list reads back item by item. */
  lemma {:induction false} ListRoundTrip(lead: string, xs: seq<string>)
    requires CleanList(xs) && |xs| > 0 && (lead == "" || lead == " ")
    ensures ListItems(lead + Join(xs, ", ")) == xs
    decreases |xs|
  {
    var x := lead + xs[0];
    assert Trim(x) == xs[0] by {
      TrimPadded(xs[0]);
      TrimOfTrimmed(xs[0]);
      assert lead == "" ==> x == xs[0];
    }
    if |xs| == 1 {
      SplitPlain(x, ',');
      KeepCons(x, []);
      assert [x] + [] == [x];
    } else {
      var rest := " " + Join(xs[1..], ", ");
      assert lead + Join(xs, ", ") == x + [','] + rest;
      SplitCons(x, ',', rest);
      ListRoundTrip(" ", xs[1..]);
      KeepCons(x, Split(rest, ','));
    }
  }

  lemma {:induction false} JoinClean(xs: seq<string>)
    requires CleanList(xs) && |xs| > 0
    ensures CleanText(Join(xs, ", ")) && Join(xs, ", ") != ""
  {
    if |xs| > 1 {
      JoinClean(xs[1..]);
    }
  }

  lemma {:induction false} ItemsAreClean(v: string)
    requires '\n' !in v
    ensures CleanList(ListItems(v))
  {
    SplitPieces(v, ',');
    KeptAreClean(Split(v, ','));
  }

  lemma {:induction false} KeptAreClean(xs: seq<string>)
    requires AllFree(xs, ',') && AllFree(xs, '\n')
    ensures CleanList(KeepItems(xs))
  {
    if xs != [] {
      TrimIsTrimmed(xs[0]);
      KeptAreClean(xs[1..]);
    }
  }

  // ---------------------------------------------------------------- single lines

  predicate KeyName(key: string) {
    && key != "" && Trimmed(key) && '=' !in key && '\n' !in key
    && key[0] != '#' && key[0] != ';' && key[0] != '['
  }

  function LowerName(k: Key): string {
    match k
    case PrivateKey => "privatekey"
    case Address => "address"
    case Dns => "dns"
    case ListenPort => "listenport"
    case Mtu => "mtu"
    case PublicKey => "publickey"
    case Endpoint => "endpoint"
    case AllowedIPs => "allowedips"
    case Keepalive => "persistentkeepalive"
  }

  lemma KeyOfLowerName(k: Key)
    ensures KeyOf(LowerName(k)) == Some(k)
  {
  }

  lemma LowerKeyOfInterface(k: Key)
    requires k.PrivateKey? || k.ListenPort? || k.Address?
    ensures Lower(KeyText(k)) == LowerName(k)
  {
    hide Lower;
  }

  lemma LowerKeyOfPeer(k: Key)
    requires k.PublicKey? || k.Endpoint? || k.AllowedIPs?
    ensures Lower(KeyText(k)) == LowerName(k)
  {
    hide Lower;
  }

  lemma LowerKeyOfRest(k: Key)
    requires k.Dns? || k.Mtu? || k.Keepalive?
    ensures Lower(KeyText(k)) == LowerName(k)
  {
    hide Lower;
  }

  lemma {:induction false} LowerKeyText(k: Key)
    ensures Lower(KeyText(k)) == LowerName(k)
  {
    hide Lower, KeyText, LowerName;
    if k.PrivateKey? || k.ListenPort? || k.Address? { LowerKeyOfInterface(k); }
    else if k.PublicKey? || k.Endpoint? || k.AllowedIPs? { LowerKeyOfPeer(k); }
    else { LowerKeyOfRest(k); }
  }

  lemma KeyTextPlain(k: Key)
    ensures Trimmed(KeyText(k)) && KeyText(k) != ""
    ensures KeyText(k)[0] != '#' && KeyText(k)[0] != ';' && KeyText(k)[0] != '['
  {
  }

  lemma KeyTextNoEquals(k: Key)
    ensures '=' !in KeyText(k)
  {
  }

  lemma KeyTextNoNewline(k: Key)
    ensures '\n' !in KeyText(k)
  {
  }

  lemma {:induction false} KeyNames(k: Key)
    ensures KeyName(KeyText(k))
    ensures KeyOf(Lower(KeyText(k))) == Some(k)
  {
    hide KeyText, KeyOf, Lower;
    KeyTextPlain(k);
    KeyTextNoEquals(k);
    KeyTextNoNewline(k);
    LowerKeyText(k);
    KeyOfLowerName(k);
  }

  lemma {:induction false} KeyLine(key: string, v: string)
    requires KeyName(key)
    ensures KeyValue(key + " = " + v) == Some((key, Trim(v)))
    ensures !Comment(Trim(key + " = " + v)) && !Header(Trim(key + " = " + v))
  {
    var raw := key + " = " + v;
    assert raw == (key + " ") + ['='] + (" " + v);
    KeyValueOf(key + " ", " " + v);
    TrimPadded(key);
    assert (" " + v)[1..] == v;
    assert Trim(" " + v) == Trim(v);
    assert TrimLeft(raw) == raw;
    TrimRightAfter(key + " ", '=', " " + v);
    assert Trim(raw)[0] == key[0];
  }

  lemma {:induction false} ReadOne(st: IniState, line: string)
    requires st.Valid()
    ensures ReadLines(st, [line]) == ReadLine(st, line)
  {
    assert [line][1..] == [];
  }

  /** A printed field is assigned to the current section. */
  lemma {:induction false} ReadField(st: IniState, k: Key, v: string)
    requires st.Valid() && CleanText(v)
    ensures ReadLines(st, [Line(k, v)]) == Assign(st, k, v)
    ensures '\n' !in Line(k, v)
  {
    KeyNames(k);
    KeyLine(KeyText(k), v);
    TrimOfTrimmed(v);
    ReadOne(st, Line(k, v));
  }

  lemma {:induction false} ReadList(st: IniState, k: Key, xs: seq<string>)
    requires st.Valid() && CleanList(xs)
    ensures ReadLines(st, ListLine(k, xs)) == if xs == [] then Ok(st) else Assign(st, k, Join(xs, ", "))
    ensures xs != [] ==> ListItems(Join(xs, ", ")) == xs
    ensures AllFree(ListLine(k, xs), '\n')
  {
    if xs != [] {
      JoinClean(xs);
      ReadField(st, k, Join(xs, ", "));
      ListRoundTrip("", xs);
      assert "" + Join(xs, ", ") == Join(xs, ", ");
    }
  }

  lemma {:induction false} ReadNumber(st: IniState, k: Key, n: int64)
    requires st.Valid()
    ensures ReadLines(st, NumberLine(k, n)) == if n <= 0 then Ok(st) else Assign(st, k, Itoa(n))
    ensures n > 0 ==> Atoi(Itoa(n)) == Some(n)
    ensures AllFree(NumberLine(k, n), '\n')
  {
    if n > 0 {
      AtoiOfItoa(n);
      ReadField(st, k, Itoa(n));
    }
  }

  lemma {:induction false} ReadInterfaceHeader(st: IniState)
    requires st.Valid()
    ensures ReadLines(st, ["[Interface]"]) == Ok(st.(inPeer := false))
  {
    ReadOne(st, "[Interface]");
    TrimOfTrimmed("[Interface]");
    assert "[Interface]"[1..10] == "Interface";
    TrimOfTrimmed("Interface");
    assert Lower("Interface") == "interface";
  }

  lemma {:induction false} ReadPeerHeader(st: IniState)
    requires st.Valid()
    ensures ReadLines(st, ["", "[Peer]"]) == Ok(InPeer(st.cfg, st.cfg.peers, NoPeer))
  {
    ReadOne(st, "[Peer]");
    assert ["", "[Peer]"][1..] == ["[Peer]"];
    TrimOfTrimmed("[Peer]");
    assert "[Peer]"[1..5] == "Peer";
    TrimOfTrimmed("Peer");
    assert Lower("Peer") == "peer";
  }

  // ---------------------------------------------------------------- sections

  lemma {:induction false} ReadLinesConcat(st: IniState, a: seq<string>, b: seq<string>)
    requires st.Valid()
    ensures ReadLines(st, a + b) == match ReadLines(st, a) case Err(e) => Err(e) case Ok(mid) => ReadLines(mid, b)
    decreases |a|
  {
    if a == [] {
      assert a + b == b;
    } else {
      assert (a + b)[1..] == a[1..] + b;
      match ReadLine(st, a[0])
      case Err(_) =>
      case Ok(next) => ReadLinesConcat(next, a[1..], b);
    }
  }

  /** The lines lead from one parser state to another, and none holds a newline. */
  predicate Leads(st: IniState, lines: seq<string>, end: IniState) {
    st.Valid() && end.Valid() && ReadLines(st, lines) == Ok(end) && AllFree(lines, '\n')
  }

  lemma {:induction false} Then(st: IniState, a: seq<string>, mid: IniState, b: seq<string>, end: IniState)
    requires Leads(st, a, mid) && Leads(mid, b, end)
    ensures Leads(st, a + b, end)
  {
    ReadLinesConcat(st, a, b);
  }

  lemma {:induction false} InterfaceLists(cfg: Config, xs: seq<string>)
    requires CleanList(xs)
    ensures cfg.addresses == [] ==>
      Leads(IniState(cfg, false), ListLine(Address, xs), IniState(cfg.(addresses := xs), false))
    ensures cfg.dns == [] ==> Leads(IniState(cfg, false), ListLine(Dns, xs), IniState(cfg.(dns := xs), false))
  {
    ReadList(IniState(cfg, false), Address, xs);
    ReadList(IniState(cfg, false), Dns, xs);
    assert [] + xs == xs;
  }

  lemma {:induction false} InterfacePort(cfg: Config, n: int64)
    requires cfg.listenPort == 0
    ensures Leads(IniState(cfg, false), NumberLine(ListenPort, n), IniState(cfg.(listenPort := Floor(n)), false))
  {
    ReadNumber(IniState(cfg, false), ListenPort, n);
  }

  lemma {:induction false} InterfaceMtu(cfg: Config, n: int64)
    requires cfg.mtu == 0
    ensures Leads(IniState(cfg, false), NumberLine(Mtu, n), IniState(cfg.(mtu := Floor(n)), false))
  {
    ReadNumber(IniState(cfg, false), Mtu, n);
  }

  lemma {:induction false} InterfaceHead(cfg: Config)
    requires CleanConfig(cfg)
    ensures Leads(IniState(NoConfig, false), ["[Interface]"] + [Line(PrivateKey, Trim(cfg.privateKey))],
                  IniState(NoConfig.(privateKey := cfg.privateKey), false))
  {
    var s0 := IniState(NoConfig, false);
    ReadInterfaceHeader(s0);
    TrimOfTrimmed(cfg.privateKey);
    ReadField(s0, PrivateKey, cfg.privateKey);
    Then(s0, ["[Interface]"], s0, [Line(PrivateKey, cfg.privateKey)],
         s0.(cfg := NoConfig.(privateKey := cfg.privateKey)));
  }

  lemma {:induction false} ReadInterface(cfg: Config)
    requires CleanConfig(cfg)
    ensures Leads(IniState(NoConfig, false), InterfaceLines(cfg), IniState(FloorConfig(cfg).(peers := []), false))
  {
    var c1 := NoConfig.(privateKey := cfg.privateKey);
    var c2 := c1.(addresses := cfg.addresses);
    var c3 := c2.(dns := cfg.dns);
    var c4 := c3.(listenPort := Floor(cfg.listenPort));
    var c5 := c4.(mtu := Floor(cfg.mtu));
    InterfaceHead(cfg);
    InterfaceLists(c1, cfg.addresses);
    InterfaceLists(c2, cfg.dns);
    InterfacePort(c3, cfg.listenPort);
    InterfaceMtu(c4, cfg.mtu);
    var head := ["[Interface]"] + [Line(PrivateKey, Trim(cfg.privateKey))];
    ChainFive(IniState(NoConfig, false), head, IniState(c1, false), ListLine(Address, cfg.addresses),
      IniState(c2, false), ListLine(Dns, cfg.dns), IniState(c3, false), NumberLine(ListenPort, cfg.listenPort),
      IniState(c4, false), NumberLine(Mtu, cfg.mtu), IniState(c5, false));
  }

  /** The state whose current section is peer p, after the peers in before. */
  function InPeer(cfg: Config, before: seq<Peer>, p: Peer): (st: IniState)
    ensures st.Valid()
  {
    IniState(cfg.(peers := before + [p]), true)
  }

  lemma {:induction false} AssignInPeer(cfg: Config, before: seq<Peer>, p: Peer, k: Key, v: string)
    ensures Assign(InPeer(cfg, before, p), k, v)
         == match AssignPeer(p, k, v) case Err(e) => Err(e) case Ok(q) => Ok(InPeer(cfg, before, q))
  {
    match AssignPeer(p, k, v)
    case Err(_) =>
    case Ok(q) => assert (before + [p])[|before| := q] == before + [q];
  }

  lemma {:induction false} ReadEndpoint(cfg: Config, before: seq<Peer>, p: Peer, q: Peer)
    requires CleanText(q.endpoint) && p.endpoint == ""
    ensures Leads(InPeer(cfg, before, p), EndpointLine(q), InPeer(cfg, before, p.(endpoint := q.endpoint)))
  {
    TrimOfTrimmed(q.endpoint);
    if q.endpoint != "" {
      ReadField(InPeer(cfg, before, p), Endpoint, q.endpoint);
      AssignInPeer(cfg, before, p, Endpoint, q.endpoint);
    }
  }

  lemma {:induction false} ReadAllowedIPs(cfg: Config, before: seq<Peer>, p: Peer, xs: seq<string>)
    requires CleanList(xs) && p.allowedIPs == []
    ensures Leads(InPeer(cfg, before, p), ListLine(AllowedIPs, xs), InPeer(cfg, before, p.(allowedIPs := xs)))
  {
    ReadList(InPeer(cfg, before, p), AllowedIPs, xs);
    assert [] + xs == xs;
    AssignInPeer(cfg, before, p, AllowedIPs, Join(xs, ", "));
  }

  lemma {:induction false} ReadKeepalive(cfg: Config, before: seq<Peer>, p: Peer, n: int64)
    requires p.keepalive == 0
    ensures Leads(InPeer(cfg, before, p), NumberLine(Keepalive, n), InPeer(cfg, before, p.(keepalive := Floor(n))))
  {
    ReadNumber(InPeer(cfg, before, p), Keepalive, n);
    if n > 0 { AssignInPeer(cfg, before, p, Keepalive, Itoa(n)); }
  }

  lemma {:induction false} ReadPeer(st: IniState, p: Peer)
    requires st.Valid() && CleanPeer(p)
    ensures Leads(st, PeerLines(p), InPeer(st.cfg, st.cfg.peers, FloorPeer(p)))
  {
    var cfg, before := st.cfg, st.cfg.peers;
    var p1 := NoPeer.(publicKey := p.publicKey);
    var p2 := p1.(endpoint := p.endpoint);
    var p3 := p2.(allowedIPs := p.allowedIPs);
    ReadPeerHeader(st);
    TrimOfTrimmed(p.publicKey);
    ReadField(InPeer(cfg, before, NoPeer), PublicKey, p.publicKey);
    AssignInPeer(cfg, before, NoPeer, PublicKey, p.publicKey);
    ReadEndpoint(cfg, before, p1, p);
    ReadAllowedIPs(cfg, before, p2, p.allowedIPs);
    ReadKeepalive(cfg, before, p3, p.keepalive);
    ChainFive(st, ["", "[Peer]"], InPeer(cfg, before, NoPeer), [Line(PublicKey, Trim(p.publicKey))],
      InPeer(cfg, before, p1), EndpointLine(p), InPeer(cfg, before, p2), ListLine(AllowedIPs, p.allowedIPs),
      InPeer(cfg, before, p3), NumberLine(Keepalive, p.keepalive), InPeer(cfg, before, FloorPeer(p)));
  }

  lemma {:induction false} ChainFive(s0: IniState, l1: seq<string>, s1: IniState, l2: seq<string>, s2: IniState,
                                     l3: seq<string>, s3: IniState, l4: seq<string>, s4: IniState,
                                     l5: seq<string>, s5: IniState)
    requires Leads(s0, l1, s1) && Leads(s1, l2, s2) && Leads(s2, l3, s3) && Leads(s3, l4, s4) && Leads(s4, l5, s5)
    ensures Leads(s0, l1 + l2 + l3 + l4 + l5, s5)
  {
    Then(s0, l1, s1, l2, s2);
    Then(s0, l1 + l2, s2, l3, s3);
    Then(s0, l1 + l2 + l3, s3, l4, s4);
    Then(s0, l1 + l2 + l3 + l4, s4, l5, s5);
  }

  /** The parser state after the given peers. */
  function AfterPeers(st: IniState, ps: seq<Peer>): (end: IniState)
    requires st.Valid()
    ensures end.Valid()
  {
    IniState(st.cfg.(peers := FloorPeers(ps)), ps != [])
  }

  lemma {:induction false} ReadPeersSnoc(st: IniState, ps: seq<Peer>)
    requires st.Valid() && ps != [] && CleanPeer(ps[|ps| - 1])
    ensures var mid := AfterPeers(st, ps[..|ps| - 1]);
            Leads(mid, PeerLines(ps[|ps| - 1]), AfterPeers(st, ps))
  {
    hide Leads, PeerLines, CleanPeer;
    var init, p := ps[..|ps| - 1], ps[|ps| - 1];
    ReadPeer(AfterPeers(st, init), p);
    assert FloorPeers(ps) == FloorPeers(init) + [FloorPeer(p)];
  }

  lemma {:induction false} ReadPeers(st: IniState, ps: seq<Peer>)
    requires st.Valid() && CleanPeers(ps) && st.cfg.peers == []
    ensures Leads(st, PeersLines(ps), AfterPeers(st, ps))
  {
    hide Leads, PeerLines, CleanPeer;
    if ps == [] {
      assert FloorPeers(ps) == [];
      assert AfterPeers(st, ps) == st;
      LeadsNowhere(st);
    } else {
      var init := ps[..|ps| - 1];
      hide AfterPeers;
      ReadPeers(st, init);
      ReadPeersSnoc(st, ps);
      Then(st, PeersLines(init), AfterPeers(st, init), PeerLines(ps[|ps| - 1]), AfterPeers(st, ps));
    }
  }

  lemma LeadsNowhere(st: IniState)
    requires st.Valid()
    ensures Leads(st, [], st)
  {
  }

  // ---------------------------------------------------------------- main results

  /** A clean configuration is read back field by field, with negative numbers read as zero. */
  lemma {:induction false} PrintThenParse(cfg: Config)
    requires CleanConfig(cfg)
    ensures IniParse(IniText(cfg)) == if cfg.privateKey == "" then Err(MissingPrivateKey) else Ok(FloorConfig(cfg))
  {
    var s0 := IniState(NoConfig, false);
    var head, tail := InterfaceLines(cfg), PeersLines(cfg.peers);
    var s1 := IniState(FloorConfig(cfg).(peers := []), false);
    var s2 := IniState(FloorConfig(cfg), cfg.peers != []);
    ReadInterface(cfg);
    ReadPeers(s1, cfg.peers);
    Then(s0, head, s1, tail, s2);
    SplitUnlines(head + tail);
    ReadOne(s2, "");
    Then(s0, head + tail, s2, [""], s2);
    TrimOfTrimmed(cfg.privateKey);
  }

  lemma {:induction false} AssignClean(st: IniState, k: Key, v: string)
    requires st.Valid() && CleanConfig(st.cfg) && CleanText(v)
    ensures Assign(st, k, v).Ok? ==> CleanConfig(Assign(st, k, v).value.cfg)
  {
    ItemsAreClean(v);
  }

  lemma {:induction false} ValueClean(raw: string)
    requires '\n' !in raw && KeyValue(raw).Some?
    ensures CleanText(KeyValue(raw).value.1)
  {
    TrimIsTrimmed(raw);
    CutParts(Trim(raw), '=');
    var v := Cut(Trim(raw), '=').value.1;
    assert forall c :: c in v ==> c in Trim(raw);
    TrimIsTrimmed(v);
  }

  lemma {:induction false} ReadLineClean(st: IniState, raw: string)
    requires st.Valid() && CleanConfig(st.cfg) && '\n' !in raw
    ensures ReadLine(st, raw).Ok? ==> CleanConfig(ReadLine(st, raw).value.cfg)
  {
    match KeyValue(raw)
    case None =>
    case Some((k, v)) =>
      ValueClean(raw);
      match KeyOf(Lower(k))
      case None =>
      case Some(key) => AssignClean(st, key, v);
  }

  lemma {:induction false} ReadLinesClean(st: IniState, lines: seq<string>)
    requires st.Valid() && CleanConfig(st.cfg) && AllFree(lines, '\n')
    ensures ReadLines(st, lines).Ok? ==> CleanConfig(ReadLines(st, lines).value.cfg)
    decreases |lines|
  {
    if lines != [] {
      ReadLineClean(st, lines[0]);
      match ReadLine(st, lines[0])
      case Err(_) =>
      case Ok(next) => ReadLinesClean(next, lines[1..]);
    }
  }

  /** Whatever text is parsed, the configuration that comes out is clean. */
  lemma {:induction false} ParsedIsClean(s: string)
    ensures IniParse(s).Ok? ==> CleanConfig(IniParse(s).value) && IniParse(s).value.privateKey != ""
  {
    SplitPieces(s, '\n');
    ReadLinesClean(IniState(NoConfig, false), Split(s, '\n'));
  }

  lemma {:induction false} FloorFixed(cfg: Config)
    ensures FloorConfig(cfg) == cfg <==> NonNegative(cfg)
  {
    assert NonNegative(cfg) ==> FloorPeers(cfg.peers) == cfg.peers;
    if FloorConfig(cfg) == cfg {
      assert forall i :: 0 <= i < |cfg.peers| ==> cfg.peers[i] == FloorPeers(cfg.peers)[i];
    }
  }

  /** Printing then parsing gives the same configuration back for exactly the printable ones. */
  lemma {:induction false} RoundTripIff(cfg: Config)
    ensures IniParse(IniText(cfg)) == Ok(cfg) <==> Printable(cfg)
  {
    var text := IniText(cfg);
    ParsedIsClean(text);
    FloorFixed(cfg);
    if CleanConfig(cfg) { PrintThenParse(cfg); }
  }

  /** Parsing is stable: what was parsed and is not negative prints to a text that parses the same. */
  lemma {:induction false} ParsePrintParse(s: string)
    ensures IniParse(s).Ok? && NonNegative(IniParse(s).value) ==> IniParse(IniText(IniParse(s).value)) == IniParse(s)
  {
    if IniParse(s).Ok? {
      ParsedIsClean(s);
      RoundTripIff(IniParse(s).value);
    }
  }
}

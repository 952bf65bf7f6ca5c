/** What single lines do to any configuration text of
    internal/wireguard/wgconf.go, keys by their literal names: list keys add up,
    other keys replace, and a key of the other section does nothing. */
module IniLines {
  import opened Wrappers
  import opened Text
  import opened Ini
  import opened IniRoundTrip

  const Start := IniState(NoConfig, false)

  function StateOf(s: string): (r: Result<IniState, IniError>)
    ensures r.Ok? ==> r.value.Valid()
  {
    ReadLines(Start, Split(s, '\n'))
  }

  /** The text with lines put below it. */
  function Below(s: string, lines: seq<string>): string
    decreases |lines|
  {
    if lines == [] then s else Below(s + "\n" + lines[0], lines[1..])
  }

  lemma {:induction false} ReadBelow(s: string, lines: seq<string>)
    requires StateOf(s).Ok? && AllFree(lines, '\n')
    ensures StateOf(Below(s, lines)) == ReadLines(StateOf(s).value, lines)
    decreases |lines|
  {
    hide Split, ReadLine;
    if lines != [] {
      var t, line := s + "\n" + lines[0], lines[0];
      SplitConcat(s, '\n', line);
      SplitPlain(line, '\n');
      ReadLinesConcat(Start, Split(s, '\n'), [line]);
      ReadOne(StateOf(s).value, line);
      if StateOf(t).Ok? {
        ReadBelow(t, lines[1..]);
      } else {
        FailsBelow(t, lines[1..]);
      }
    }
  }

  lemma {:induction false} FailsBelow(s: string, lines: seq<string>)
    requires StateOf(s).Err? && AllFree(lines, '\n')
    ensures StateOf(Below(s, lines)) == StateOf(s)
    decreases |lines|
  {
    hide Split, ReadLine;
    if lines != [] {
      SplitConcat(s, '\n', lines[0]);
      ReadLinesConcat(Start, Split(s, '\n'), Split(lines[0], '\n'));
      FailsBelow(s + "\n" + lines[0], lines[1..]);
    }
  }

  lemma {:induction false} ReadRaw(st: IniState, k: Key, v: string)
    requires st.Valid() && '\n' !in v
    ensures ReadLine(st, Line(k, v)) == Assign(st, k, Trim(v)) && '\n' !in Line(k, v)
  {
    KeyNames(k);
    KeyLine(KeyText(k), v);
    hide KeyText, KeyOf, Lower, KeyValue, Assign, Comment, Header;
  }

  // ---------------------------------------------------------------- literals

  lemma LiteralInterface(v: string)
    ensures Line(PrivateKey, v) == "PrivateKey = " + v
    ensures Line(ListenPort, v) == "ListenPort = " + v
    ensures Line(Mtu, v) == "MTU = " + v
  {
    assert "PrivateKey" + " = " == "PrivateKey = ";
    assert "ListenPort" + " = " == "ListenPort = ";
    assert "MTU" + " = " == "MTU = ";
  }

  lemma LiteralLists(v: string)
    ensures Line(Address, v) == "Address = " + v
    ensures Line(Dns, v) == "DNS = " + v
    ensures Line(AllowedIPs, v) == "AllowedIPs = " + v
  {
    assert "Address" + " = " == "Address = ";
    assert "DNS" + " = " == "DNS = ";
    assert "AllowedIPs" + " = " == "AllowedIPs = ";
  }

  lemma LiteralPeer(v: string)
    ensures Line(PublicKey, v) == "PublicKey = " + v
    ensures Line(Endpoint, v) == "Endpoint = " + v
  {
    assert "PublicKey" + " = " == "PublicKey = ";
    assert "Endpoint" + " = " == "Endpoint = ";
  }

  lemma LiteralKeepalive(v: string)
    ensures Line(Keepalive, v) == "PersistentKeepalive = " + v
  {
    assert "PersistentKeepalive" + " = " == "PersistentKeepalive = ";
  }

  // ---------------------------------------------------------------- one and two lines of a section

  lemma {:induction false} ReadTwo(st: IniState, a: string, b: string)
    requires st.Valid() && ReadLine(st, a).Ok?
    ensures ReadLines(st, [a, b]) == ReadLine(ReadLine(st, a).value, b)
  {
    hide ReadLine;
    ReadOne(ReadLine(st, a).value, b);
    assert [a, b][1..] == [b];
  }

  /** The state a header line leaves. */
  function Headed(st: IniState, peer: bool): (r: IniState)
    ensures r.Valid()
  {
    if peer then IniState(st.cfg.(peers := st.cfg.peers + [Peer("", "", [], 0)]), true) else IniState(st.cfg, false)
  }

  function HeaderText(peer: bool): string {
    if peer then "[Peer]" else "[Interface]"
  }

  lemma {:induction false} ReadHeader(st: IniState, peer: bool)
    requires st.Valid()
    ensures ReadLine(st, HeaderText(peer)) == Ok(Headed(st, peer)) && '\n' !in HeaderText(peer)
  {
    if peer {
      ReadPeerHeader(st);
      var both := ["", "[Peer]"];
      assert both[0] == "" && both[1..] == ["[Peer]"];
      BlankLine(st);
      assert ReadLines(st, both) == ReadLines(st, ["[Peer]"]);
      ReadOne(st, "[Peer]");
    } else {
      ReadInterfaceHeader(st);
      ReadOne(st, "[Interface]");
    }
  }

  lemma BlankLine(st: IniState)
    requires st.Valid()
    ensures ReadLine(st, "") == Ok(st)
  {
  }

  /** A section with one key, at the end of any text. */
  lemma {:induction false} SectionOne(s: string, peer: bool, k: Key, v: string)
    requires StateOf(s).Ok? && '\n' !in v
    ensures StateOf(Below(s, [HeaderText(peer), Line(k, v)])) == Assign(Headed(StateOf(s).value, peer), k, Trim(v))
  {
    hide ReadLine, Assign, Headed, HeaderText, Line;
    var st := StateOf(s).value;
    ReadHeader(st, peer);
    ReadRaw(Headed(st, peer), k, v);
    ReadBelow(s, [HeaderText(peer), Line(k, v)]);
    ReadTwo(st, HeaderText(peer), Line(k, v));
  }

  lemma {:induction false} SectionTwo(s: string, peer: bool, k: Key, v: string, w: string)
    requires StateOf(s).Ok? && '\n' !in v && '\n' !in w
    requires Assign(Headed(StateOf(s).value, peer), k, Trim(v)).Ok?
    ensures StateOf(Below(s, [HeaderText(peer), Line(k, v), Line(k, w)])) ==
              Assign(Assign(Headed(StateOf(s).value, peer), k, Trim(v)).value, k, Trim(w))
  {
    hide ReadLine, Assign, Headed, HeaderText, Line;
    var st := StateOf(s).value;
    var next := Assign(Headed(st, peer), k, Trim(v)).value;
    ReadHeader(st, peer);
    ReadRaw(Headed(st, peer), k, v);
    ReadRaw(next, k, w);
    var lines := [HeaderText(peer), Line(k, v), Line(k, w)];
    ReadBelow(s, lines);
    assert lines[1..] == [Line(k, v), Line(k, w)];
    ReadTwo(Headed(st, peer), Line(k, v), Line(k, w));
  }

  // ---------------------------------------------------------------- main results

  /** Repeated list keys add up, in the order of their lines. */
  lemma {:induction false} ListsAddUp(s: string, v: string, w: string, cfg: Config)
    requires IniParse(s) == Ok(cfg) && '\n' !in v && '\n' !in w
    ensures IniParse(Below(s, ["[Interface]", "Address = " + v, "Address = " + w])) ==
              Ok(cfg.(addresses := cfg.addresses + ListItems(Trim(v)) + ListItems(Trim(w))))
    ensures IniParse(Below(s, ["[Interface]", "DNS = " + v, "DNS = " + w])) ==
              Ok(cfg.(dns := cfg.dns + ListItems(Trim(v)) + ListItems(Trim(w))))
    ensures IniParse(Below(s, ["[Peer]", "AllowedIPs = " + v, "AllowedIPs = " + w])) ==
              Ok(cfg.(peers := cfg.peers + [Peer("", "", ListItems(Trim(v)) + ListItems(Trim(w)), 0)]))
  {
    hide ReadLines, Split, Below, Line, Trim, ListItems;
    LiteralLists(v);
    LiteralLists(w);
    SectionTwo(s, false, Address, v, w);
    SectionTwo(s, false, Dns, v, w);
    SectionTwo(s, true, AllowedIPs, v, w);
    AllowedTwice(StateOf(s).value, Trim(v), Trim(w));
  }

  lemma {:induction false} AllowedTwice(st: IniState, v: string, w: string)
    ensures var one := Assign(Headed(st, true), AllowedIPs, v);
            one.Ok? && Assign(one.value, AllowedIPs, w) ==
              Ok(IniState(st.cfg.(peers := st.cfg.peers + [Peer("", "", ListItems(v) + ListItems(w), 0)]), true))
  {
    hide ListItems;
    var a, b := ListItems(v), ListItems(w);
    var ps := st.cfg.peers + [Peer("", "", [], 0)];
    var last := |ps| - 1;
    assert [] + a == a;
    var ps1 := ps[last := Peer("", "", a, 0)];
    assert ps1 == st.cfg.peers + [Peer("", "", a, 0)];
    assert ps1[last := Peer("", "", a + b, 0)] == st.cfg.peers + [Peer("", "", a + b, 0)];
  }

  /** Text keys replace what was there; a key of the other section does nothing. */
  lemma {:induction false} TextsReplace(s: string, v: string, cfg: Config)
    requires IniParse(s) == Ok(cfg) && '\n' !in v
    ensures IniParse(Below(s, ["[Interface]", "PrivateKey = " + v])) ==
              if Trim(Trim(v)) == "" then Err(MissingPrivateKey) else Ok(cfg.(privateKey := Trim(v)))
    ensures IniParse(Below(s, ["[Peer]", "PublicKey = " + v])) ==
              Ok(cfg.(peers := cfg.peers + [Peer(Trim(v), "", [], 0)]))
    ensures IniParse(Below(s, ["[Peer]", "Endpoint = " + v])) ==
              Ok(cfg.(peers := cfg.peers + [Peer("", Trim(v), [], 0)]))
    ensures IniParse(Below(s, ["[Interface]", "Endpoint = " + v])) == Ok(cfg)
    ensures IniParse(Below(s, ["[Peer]", "PrivateKey = " + v])) ==
              Ok(cfg.(peers := cfg.peers + [Peer("", "", [], 0)]))
  {
    hide ReadLines, Split, Below, Line, Trim;
    LiteralInterface(v);
    LiteralPeer(v);
    SectionOne(s, false, PrivateKey, v);
    SectionOne(s, true, PublicKey, v);
    SectionOne(s, true, Endpoint, v);
    SectionOne(s, false, Endpoint, v);
    SectionOne(s, true, PrivateKey, v);
    var ps := cfg.peers + [Peer("", "", [], 0)];
    assert ps[|ps| - 1 := Peer(Trim(v), "", [], 0)] == cfg.peers + [Peer(Trim(v), "", [], 0)];
    assert ps[|ps| - 1 := Peer("", Trim(v), [], 0)] == cfg.peers + [Peer("", Trim(v), [], 0)];
    assert ps[|ps| - 1 := Peer("", "", [], 0)] == ps;
  }

  /** Number keys replace what was there, or refuse the text naming the key and the value. */
  lemma {:induction false} NumbersReplace(s: string, v: string, cfg: Config)
    requires IniParse(s) == Ok(cfg) && '\n' !in v
    ensures var n := Atoi(Trim(v));
            && IniParse(Below(s, ["[Interface]", "ListenPort = " + v])) ==
                 (if n.None? then Err(BadListenPort(Trim(v))) else Ok(cfg.(listenPort := n.value)))
            && IniParse(Below(s, ["[Interface]", "MTU = " + v])) ==
                 (if n.None? then Err(BadMtu(Trim(v))) else Ok(cfg.(mtu := n.value)))
            && IniParse(Below(s, ["[Peer]", "PersistentKeepalive = " + v])) ==
                 (if n.None? then Err(BadKeepalive(Trim(v)))
                  else Ok(cfg.(peers := cfg.peers + [Peer("", "", [], n.value)])))
  {
    hide ReadLines, Split, Below, Line, Trim, Atoi;
    LiteralInterface(v);
    LiteralKeepalive(v);
    SectionOne(s, false, ListenPort, v);
    SectionOne(s, false, Mtu, v);
    SectionOne(s, true, Keepalive, v);
    var n := Atoi(Trim(v));
    if n.Some? {
      var ps := cfg.peers + [Peer("", "", [], 0)];
      assert ps[|ps| - 1 := Peer("", "", [], n.value)] == cfg.peers + [Peer("", "", [], n.value)];
    }
  }

  /** Blank lines, comments and lines without an equals sign change nothing. */
  lemma {:induction false} NoiseIgnored(s: string, raw: string)
    requires '\n' !in raw && StateOf(s).Ok?
    requires || Trim(raw) == "" || Trim(raw)[0] == '#' || Trim(raw)[0] == ';'
             || ('=' !in Trim(raw) && Trim(raw)[0] != '[')
    ensures IniParse(Below(s, [raw])) == IniParse(s)
  {
    CutParts(Trim(raw), '=');
    hide Trim, Cut, Split;
    ReadBelow(s, [raw]);
    ReadOne(StateOf(s).value, raw);
  }

  /** A bracket that is not closed at the end of its line opens no section. */
  lemma {:induction false} OpenBracketIgnored(s: string, raw: string)
    requires '\n' !in raw && StateOf(s).Ok? && Trim(raw) != "" && Trim(raw)[0] == '['
    requires |Trim(raw)| == 1 || Trim(raw)[|Trim(raw)| - 1] != ']'
    ensures IniParse(Below(s, [raw])) == IniParse(s)
  {
    var line := Trim(raw);
    CutParts(line, '=');
    if Cut(line, '=').Some? {
      var k := Cut(line, '=').value.0;
      assert k != [] && k[0] == '[';
      BracketKey(k);
    }
    hide Trim, Cut, Split, KeyOf, Lower;
    ReadBelow(s, [raw]);
    ReadOne(StateOf(s).value, raw);
  }

  lemma {:induction false} BracketKey(k: string)
    requires k != [] && k[0] == '['
    ensures KeyOf(Lower(Trim(k))).None?
  {
    BracketStays(k);
    hide Trim;
    assert Lower(Trim(k))[0] == '[';
  }

  lemma {:induction false} BracketStays(k: string)
    requires k != [] && k[0] == '['
    ensures Trim(k) != [] && Trim(k)[0] == '['
  {
    assert TrimLeft(k) == k;
    TrimRightShape(k);
    FirstStays(k);
  }

  lemma {:induction false} FirstStays(k: string)
    requires k != [] && !IsSpace(k[0])
    ensures TrimRight(k) != [] && TrimRight(k)[0] == k[0]
    decreases |k|
  {
    if |k| > 1 && IsSpace(k[|k| - 1]) { FirstStays(k[..|k| - 1]); }
  }

  /** Any other header leads back to the interface. */
  lemma {:induction false} OtherHeader(s: string, name: string, v: string, cfg: Config)
    requires IniParse(s) == Ok(cfg) && '\n' !in name && '\n' !in v && Lower(Trim(name)) != "peer"
    ensures IniParse(Below(s, ["[" + name + "]", "Address = " + v])) ==
              Ok(cfg.(addresses := cfg.addresses + ListItems(Trim(v))))
  {
    hide ReadLines, Split, Below, Trim, ListItems, Lower;
    BelowOtherHeader(s, name, v);
  }

  lemma {:induction false} BelowOtherHeader(s: string, name: string, v: string)
    requires StateOf(s).Ok? && '\n' !in name && '\n' !in v && Lower(Trim(name)) != "peer"
    ensures StateOf(Below(s, ["[" + name + "]", "Address = " + v])) ==
              Assign(IniState(StateOf(s).value.cfg, false), Address, Trim(v))
  {
    hide ReadLine, ReadLines, Assign, Below, Split, Trim, Line, Lower;
    var header, line, st := "[" + name + "]", "Address = " + v, StateOf(s).value;
    OtherHeaderRead(st, name);
    LiteralLists(v);
    ReadRaw(IniState(st.cfg, false), Address, v);
    ReadBelow(s, [header, line]);
    ReadTwo(st, header, line);
  }

  lemma {:induction false} OtherHeaderRead(st: IniState, name: string)
    requires st.Valid() && Lower(Trim(name)) != "peer"
    ensures ReadLine(st, "[" + name + "]") == Ok(IniState(st.cfg, false))
  {
    var header := "[" + name + "]";
    TrimOfTrimmed(header);
    assert header[0] == '[' && header[|header| - 1] == ']' && header[1..|header| - 1] == name;
    hide Trim, Lower;
  }
}

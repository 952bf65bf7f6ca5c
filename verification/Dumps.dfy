/** Device dumps of internal/wireguard/wgconf.go: what each line of any dump
    does, and the round trip of a full dump, counters and handshake included. */
module Dumps {
  import opened Wrappers
  import opened Text
  import opened Ipc
  import opened IpcRoundTrip

  const Start := DumpState([], None)

  // ---------------------------------------------------------------- the text of a full dump

  /** fmt's %d on any integer. */
  function Signed(n: int): string {
    if n < 0 then "-" + Itoa(-n) else Itoa(n)
  }

  function AllowedDump(ips: seq<string>): seq<string> {
    if ips == [] then [] else AllowedDump(ips[..|ips| - 1]) + ["allowed_ip=" + ips[|ips| - 1]]
  }

  function CounterDump(r: PeerStats): seq<string> {
    ["public_key=" + r.publicKeyHex, "rx_bytes=" + Itoa(r.rxBytes), "tx_bytes=" + Itoa(r.txBytes),
     "last_handshake_time_sec=" + Itoa(r.lastHandshake)]
  }

  function DumpLines(r: PeerStats): seq<string> {
    CounterDump(r) + ["endpoint=" + r.endpoint] + AllowedDump(r.allowedIPs)
    + ["persistent_keepalive_interval=" + Signed(r.keepaliveSecs)]
  }

  function AllDumpLines(rs: seq<PeerStats>): seq<string> {
    if rs == [] then [] else AllDumpLines(rs[..|rs| - 1]) + DumpLines(rs[|rs| - 1])
  }

  /** Every field of every record, a line each. */
  function DumpText(rs: seq<PeerStats>): string {
    Unlines(AllDumpLines(rs))
  }

  predicate Plain(v: string) {
    Trimmed(v) && '\n' !in v
  }

  /** Plain texts, and numbers of the source's widths. */
  predicate Reportable(r: PeerStats) {
    && Plain(r.publicKeyHex) && Plain(r.endpoint) && (forall i :: 0 <= i < |r.allowedIPs| ==> Plain(r.allowedIPs[i]))
    && r.rxBytes <= MaxUint64 && r.txBytes <= MaxUint64 && r.lastHandshake <= MaxInt64
    && MinInt64 <= r.keepaliveSecs <= MaxInt64
  }

  // ---------------------------------------------------------------- literals

  lemma LiteralCounters(v: string)
    ensures Line(PublicKey, v) == "public_key=" + v
    ensures Line(RxBytes, v) == "rx_bytes=" + v
    ensures Line(TxBytes, v) == "tx_bytes=" + v
  {
    assert "public_key" + ['='] == "public_key=";
    assert "rx_bytes" + ['='] == "rx_bytes=";
    assert "tx_bytes" + ['='] == "tx_bytes=";
  }

  lemma LiteralTexts(v: string)
    ensures Line(Endpoint, v) == "endpoint=" + v
    ensures Line(AllowedIp, v) == "allowed_ip=" + v
  {
    assert "endpoint" + ['='] == "endpoint=";
    assert "allowed_ip" + ['='] == "allowed_ip=";
  }

  lemma LiteralHandshake(v: string)
    ensures Line(Handshake, v) == "last_handshake_time_sec=" + v
  {
    assert "last_handshake_time_sec" + ['='] == "last_handshake_time_sec=";
  }

  lemma LiteralKeepalive(v: string)
    ensures Line(Keepalive, v) == "persistent_keepalive_interval=" + v
  {
    assert "persistent_keepalive_interval" + ['='] == "persistent_keepalive_interval=";
  }

  // ---------------------------------------------------------------- one more line

  function StateOf(s: string): DumpState {
    ReadLines(Start, Split(s, '\n'))
  }

  /** The records with the last one replaced. */
  function Amended(rs: seq<PeerStats>, p: PeerStats): seq<PeerStats> {
    if rs == [] then [] else rs[..|rs| - 1] + [p]
  }

  lemma {:induction false} AppendedLine(s: string, raw: string)
    requires '\n' !in raw
    ensures StateOf(s + "\n" + raw) == ReadLine(StateOf(s), raw)
  {
    hide Split, ReadLine;
    SplitConcat(s, '\n', raw);
    SplitPlain(raw, '\n');
    ReadLinesConcat(Start, Split(s, '\n'), [raw]);
    LeadsOne(StateOf(s), raw);
  }

  lemma {:induction false} ReadKey(st: DumpState, k: Key, v: string)
    requires !k.PrivateKey? && !k.ListenPort?
    ensures ReadLine(st, Line(k, v)) == Step(st, k, Trim(v))
  {
    hide KeyText, KeyOf, Step;
    KeyTextIsLower(k);
    KeyTextTrimmed(k);
    KeyTextNoEquals(k);
    KeyOfText(k);
    KeyValueOf(KeyText(k), v);
    TrimOfTrimmed(KeyText(k));
  }

  lemma {:induction false} LineNoNewline(k: Key, v: string)
    requires '\n' !in v
    ensures '\n' !in Line(k, v)
  {
    hide KeyText;
    KeyTextNoNewline(k);
  }

  /** The records grow only by public keys, so an open record is the last one. */
  lemma {:induction false} StepFlushed(st: DumpState, k: Key, v: string)
    requires st.cur.None? ==> st.out == []
    ensures var rs, next := st.Flushed(), Step(st, k, v);
            && (next.cur.None? ==> next.out == [])
            && next.Flushed() == if k.PublicKey? then rs + [NewPeer(v)]
                                 else if rs == [] then [] else Amended(rs, Assign(rs[|rs| - 1], k, v))
  {
  }

  lemma {:induction false} OpenUnlessEmpty(st: DumpState, lines: seq<string>)
    requires st.cur.None? ==> st.out == []
    ensures var end := ReadLines(st, lines); end.cur.None? ==> end.out == []
    decreases |lines|
  {
    hide KeyValue, KeyOf, Lower;
    if lines != [] { OpenUnlessEmpty(ReadLine(st, lines[0]), lines[1..]); }
  }

  lemma {:induction false} Appended(s: string, k: Key, v: string)
    requires '\n' !in v && !k.PrivateKey? && !k.ListenPort?
    ensures var rs := DumpParse(s);
            DumpParse(s + "\n" + Line(k, v)) ==
              if k.PublicKey? then rs + [NewPeer(Trim(v))]
              else if rs == [] then [] else Amended(rs, Assign(rs[|rs| - 1], k, Trim(v)))
  {
    LineNoNewline(k, v);
    AppendedLine(s, Line(k, v));
    ReadKey(StateOf(s), k, v);
    OpenUnlessEmpty(Start, Split(s, '\n'));
    hide Step, Assign, NewPeer, ReadLine, ReadLines;
    StepFlushed(StateOf(s), k, Trim(v));
  }

  /** A counter line sets its own counter of the last record, to zero when
      the number cannot be read; before the first public key it does nothing. */
  lemma {:induction false} CounterLine(s: string, v: string)
    requires '\n' !in v
    ensures var rs, n := DumpParse(s), ParseUint(Trim(v));
            var shown := if n.Some? then n.value else 0;
            && DumpParse(s + "\n" + ("rx_bytes=" + v)) ==
                 (if rs == [] then [] else Amended(rs, rs[|rs| - 1].(rxBytes := shown)))
            && DumpParse(s + "\n" + ("tx_bytes=" + v)) ==
                 (if rs == [] then [] else Amended(rs, rs[|rs| - 1].(txBytes := shown)))
  {
    hide DumpParse, ParseUint, Trim;
    LiteralCounters(v);
    Appended(s, RxBytes, v);
    Appended(s, TxBytes, v);
  }

  /** A handshake line sets the handshake of the last record when it reads a
      positive number, and changes nothing otherwise. */
  lemma {:induction false} HandshakeLine(s: string, v: string)
    requires '\n' !in v
    ensures var rs, n := DumpParse(s), Atoi(Trim(v));
            DumpParse(s + "\n" + ("last_handshake_time_sec=" + v)) ==
              if rs != [] && n.Some? && n.value > 0 then Amended(rs, rs[|rs| - 1].(lastHandshake := n.value)) else rs
  {
    hide DumpParse, Atoi, Trim;
    LiteralHandshake(v);
    Appended(s, Handshake, v);
  }

  /** A keepalive line sets the keepalive of the last record when it reads a
      number, of any sign, and changes nothing otherwise. */
  lemma {:induction false} KeepaliveLine(s: string, v: string)
    requires '\n' !in v
    ensures var rs, n := DumpParse(s), Atoi(Trim(v));
            DumpParse(s + "\n" + ("persistent_keepalive_interval=" + v)) ==
              if rs != [] && n.Some? then Amended(rs, rs[|rs| - 1].(keepaliveSecs := n.value)) else rs
  {
    hide DumpParse, Atoi, Trim;
    LiteralKeepalive(v);
    Appended(s, Keepalive, v);
  }

  /** An endpoint line replaces the endpoint, an address line adds an address
      and a public key line starts an empty record. */
  lemma {:induction false} TextLine(s: string, v: string)
    requires '\n' !in v
    ensures var rs, t := DumpParse(s), Trim(v);
            && DumpParse(s + "\n" + ("endpoint=" + v)) ==
                 (if rs == [] then [] else Amended(rs, rs[|rs| - 1].(endpoint := t)))
            && DumpParse(s + "\n" + ("allowed_ip=" + v)) ==
                 (if rs == [] then [] else Amended(rs, rs[|rs| - 1].(allowedIPs := rs[|rs| - 1].allowedIPs + [t])))
            && DumpParse(s + "\n" + ("public_key=" + v)) == rs + [PeerStats(t, 0, 0, 0, "", [], 0)]
  {
    hide DumpParse, Trim;
    LiteralCounters(v);
    LiteralTexts(v);
    Appended(s, Endpoint, v);
    Appended(s, AllowedIp, v);
    Appended(s, PublicKey, v);
  }

  /** The key names the parser knows. */
  const KnownKeys := {"public_key", "rx_bytes", "tx_bytes", "last_handshake_time_sec", "endpoint", "allowed_ip",
                      "persistent_keepalive_interval"}

  /** Any other line changes nothing. */
  lemma {:induction false} OtherLine(s: string, raw: string)
    requires '\n' !in raw && (KeyValue(raw).Some? ==> Lower(KeyValue(raw).value.0) !in KnownKeys)
    ensures DumpParse(s + "\n" + raw) == DumpParse(s)
  {
    AppendedLine(s, raw);
    if KeyValue(raw).Some? { UnknownKey(Lower(KeyValue(raw).value.0)); }
    hide KeyValue, KeyOf, Lower, ReadLines;
  }

  lemma UnknownKey(name: string)
    requires name !in KnownKeys
    ensures KeyOf(name).None?
  {
  }

  // ---------------------------------------------------------------- one record per public key

  predicate IsKeyLine(raw: string) {
    KeyValue(raw).Some? && Lower(KeyValue(raw).value.0) == "public_key"
  }

  function KeyLines(lines: seq<string>): nat {
    if lines == [] then 0 else (if IsKeyLine(lines[0]) then 1 else 0) + KeyLines(lines[1..])
  }

  lemma {:induction false} ReadLineRecords(st: DumpState, raw: string)
    ensures |ReadLine(st, raw).Flushed()| == |st.Flushed()| + if IsKeyLine(raw) then 1 else 0
    ensures st.cur.None? && !IsKeyLine(raw) ==> ReadLine(st, raw) == st
  {
    hide KeyValue, Lower;
  }

  lemma {:induction false} ReadLinesRecords(st: DumpState, lines: seq<string>)
    ensures |ReadLines(st, lines).Flushed()| == |st.Flushed()| + KeyLines(lines)
    ensures st.cur.None? && KeyLines(lines) == 0 ==> ReadLines(st, lines) == st
    decreases |lines|
  {
    hide ReadLine, IsKeyLine;
    if lines != [] {
      ReadLineRecords(st, lines[0]);
      ReadLinesRecords(ReadLine(st, lines[0]), lines[1..]);
    }
  }

  /** Every dump yields exactly one record per public key line, and what comes before the first is ignored. */
  lemma {:induction false} OneRecordPerKey(s: string)
    ensures |DumpParse(s)| == KeyLines(Split(s, '\n'))
    ensures forall pre: string {:trigger pre + ['\n'] + s} ::
              KeyLines(Split(pre, '\n')) == 0 ==> DumpParse(pre + ['\n'] + s) == DumpParse(s)
  {
    hide Split, ReadLine, KeyLines;
    ReadLinesRecords(Start, Split(s, '\n'));
    forall pre: string {:trigger pre + ['\n'] + s} | KeyLines(Split(pre, '\n')) == 0
      ensures DumpParse(pre + ['\n'] + s) == DumpParse(s)
    {
      SplitConcat(pre, '\n', s);
      ReadLinesRecords(Start, Split(pre, '\n'));
      ReadLinesConcat(Start, Split(pre, '\n'), Split(s, '\n'));
    }
  }

  // ---------------------------------------------------------------- the round trip

  lemma {:induction false} UintOfItoa(n: nat)
    requires n <= MaxUint64
    ensures ParseUint(Itoa(n)) == Some(n) && Plain(Itoa(n))
  {
    DigitsOfItoa(n);
  }

  lemma {:induction false} AtoiOfSigned(n: int)
    requires MinInt64 <= n <= MaxInt64
    ensures Atoi(Signed(n)) == Some(n) && Plain(Signed(n))
  {
    hide Atoi, Trimmed, Itoa, DigitsValue;
    if n < 0 {
      DigitsOfItoa(-n);
      AtoiOfMinus(Itoa(-n));
    } else {
      AtoiOfItoa(n);
    }
  }

  lemma {:induction false} AtoiOfMinus(body: string)
    requires Digits(body) && DigitsValue(body) <= -MinInt64
    ensures var n: int := DigitsValue(body); Atoi("-" + body) == Some(-n) && Plain("-" + body)
  {
    hide DigitsValue;
    var s := "-" + body;
    assert s[0] == '-' && s[1..] == body;
    assert s[|s| - 1] == body[|body| - 1];
  }

  lemma {:induction false} ReadCounters(st: DumpState, r: PeerStats)
    requires Reportable(r)
    ensures Leads(st, CounterDump(r),
                  DumpState(st.Flushed(),
                            Some(PeerStats(r.publicKeyHex, r.rxBytes, r.txBytes, r.lastHandshake, "", [], 0))))
  {
    hide Plain, Leads, Itoa, ParseUint, Atoi, Trimmed, Line;
    var out := st.Flushed();
    var r1 := NewPeer(r.publicKeyHex);
    var r2 := r1.(rxBytes := r.rxBytes);
    var r3 := r2.(txBytes := r.txBytes);
    var r4 := r3.(lastHandshake := r.lastHandshake);
    var s1, s2, s3, s4 := DumpState(out, Some(r1)), DumpState(out, Some(r2)), DumpState(out, Some(r3)),
                          DumpState(out, Some(r4));
    ReadPlain(st, PublicKey, r.publicKeyHex);
    UintOfItoa(r.rxBytes);
    ReadPlain(s1, RxBytes, Itoa(r.rxBytes));
    UintOfItoa(r.txBytes);
    ReadPlain(s2, TxBytes, Itoa(r.txBytes));
    ReadHandshake(out, r3, r.lastHandshake);
    LiteralCounters(r.publicKeyHex);
    LiteralCounters(Itoa(r.rxBytes));
    LiteralCounters(Itoa(r.txBytes));
    LiteralHandshake(Itoa(r.lastHandshake));
    var l1, l2, l3, l4 := ["public_key=" + r.publicKeyHex], ["rx_bytes=" + Itoa(r.rxBytes)],
                          ["tx_bytes=" + Itoa(r.txBytes)], ["last_handshake_time_sec=" + Itoa(r.lastHandshake)];
    Chain(st, l1, s1, l2, s2, l3, s3, l4, s4);
    assert CounterDump(r) == l1 + l2 + l3 + l4;
  }

  lemma {:induction false} ReadPlain(st: DumpState, k: Key, v: string)
    requires Plain(v) && !k.PrivateKey? && !k.ListenPort?
    ensures Leads(st, [Line(k, v)], Step(st, k, v))
  {
    ReadField(st, k, v);
  }

  lemma {:induction false} ReadHandshake(out: seq<PeerStats>, p: PeerStats, n: nat)
    requires n <= MaxInt64 && p.lastHandshake == 0
    ensures Leads(DumpState(out, Some(p)), [Line(Handshake, Itoa(n))],
                  DumpState(out, Some(p.(lastHandshake := n))))
  {
    AtoiOfItoa(n);
    ReadPlain(DumpState(out, Some(p)), Handshake, Itoa(n));
  }

  lemma {:induction false} ReadEndpointDump(out: seq<PeerStats>, p: PeerStats, ep: string)
    requires Plain(ep)
    ensures Leads(DumpState(out, Some(p)), ["endpoint=" + ep], DumpState(out, Some(p.(endpoint := ep))))
  {
    hide Leads;
    ReadPlain(DumpState(out, Some(p)), Endpoint, ep);
    LiteralTexts(ep);
  }

  lemma {:induction false} ReadKeepaliveDump(out: seq<PeerStats>, p: PeerStats, n: int)
    requires MinInt64 <= n <= MaxInt64
    ensures Leads(DumpState(out, Some(p)), ["persistent_keepalive_interval=" + Signed(n)],
                  DumpState(out, Some(p.(keepaliveSecs := n))))
  {
    hide Leads, Signed, Atoi;
    AtoiOfSigned(n);
    ReadPlain(DumpState(out, Some(p)), Keepalive, Signed(n));
    LiteralKeepalive(Signed(n));
  }

  lemma {:induction false} ReadAllowedDump(out: seq<PeerStats>, p: PeerStats, ips: seq<string>)
    requires forall i :: 0 <= i < |ips| ==> Plain(ips[i])
    ensures Leads(Listing(out, p, []), AllowedDump(ips), Listing(out, p, ips))
    decreases |ips|
  {
    hide Listing, Leads, Trimmed, Line;
    if ips == [] {
      LeadsNowhere(Listing(out, p, []));
    } else {
      var init, a := ips[..|ips| - 1], ips[|ips| - 1];
      ReadAllowedDump(out, p, init);
      ReadOneAllowed(out, p, init, a);
      assert init + [a] == ips;
      LiteralTexts(a);
      Then(Listing(out, p, []), AllowedDump(init), Listing(out, p, init), ["allowed_ip=" + a], Listing(out, p, ips));
    }
  }

  lemma {:induction false} ReadRecord(st: DumpState, r: PeerStats)
    requires Reportable(r)
    ensures Leads(st, DumpLines(r), DumpState(st.Flushed(), Some(r)))
  {
    var out := st.Flushed();
    var r1 := PeerStats(r.publicKeyHex, r.rxBytes, r.txBytes, r.lastHandshake, "", [], 0);
    var r2 := r1.(endpoint := r.endpoint);
    var r3 := r2.(allowedIPs := r.allowedIPs);
    var keep := Signed(r.keepaliveSecs);
    hide Plain, Leads, Signed, CounterDump, AllowedDump;
    ReadCounters(st, r);
    ReadEndpointDump(out, r1, r.endpoint);
    ReadAllowedDump(out, r2, r.allowedIPs);
    ReadKeepaliveDump(out, r3, r.keepaliveSecs);
    Chain(st, CounterDump(r), DumpState(out, Some(r1)), ["endpoint=" + r.endpoint], DumpState(out, Some(r2)),
          AllowedDump(r.allowedIPs), DumpState(out, Some(r3)),
          ["persistent_keepalive_interval=" + keep], DumpState(out, Some(r)));
  }

  /** The parser state after a full dump: all but the last record are out. */
  function Parsed(rs: seq<PeerStats>): (st: DumpState)
    ensures st.Flushed() == rs
  {
    if rs == [] then Start else DumpState(rs[..|rs| - 1], Some(rs[|rs| - 1]))
  }

  lemma {:induction false} ReadRecords(rs: seq<PeerStats>)
    requires forall i :: 0 <= i < |rs| ==> Reportable(rs[i])
    ensures Leads(Start, AllDumpLines(rs), Parsed(rs))
    decreases |rs|
  {
    hide Reportable, Leads, DumpLines;
    if rs == [] {
      LeadsNowhere(Start);
    } else {
      var init, r := rs[..|rs| - 1], rs[|rs| - 1];
      ReadRecords(init);
      ReadRecord(Parsed(init), r);
      Then(Start, AllDumpLines(init), Parsed(init), DumpLines(r), Parsed(rs));
    }
  }

  lemma {:induction false} DumpThenParse(rs: seq<PeerStats>)
    requires forall i :: 0 <= i < |rs| ==> Reportable(rs[i])
    ensures DumpParse(DumpText(rs)) == rs
  {
    var lines := AllDumpLines(rs);
    ReadRecords(rs);
    SplitUnlines(lines);
    LeadsOne(Parsed(rs), "");
    Then(Start, lines, Parsed(rs), [""], Parsed(rs));
  }

  predicate AllReportable(st: DumpState) {
    (forall i :: 0 <= i < |st.out| ==> Reportable(st.out[i])) && (st.cur.Some? ==> Reportable(st.cur.value))
  }

  lemma {:induction false} AssignReportable(p: PeerStats, k: Key, v: string)
    requires Reportable(p) && Plain(v)
    ensures Reportable(Assign(p, k, v))
  {
    hide Plain;
  }

  lemma {:induction false} ReadLineReportable(st: DumpState, raw: string)
    requires AllReportable(st) && '\n' !in raw
    ensures AllReportable(ReadLine(st, raw))
  {
    match KeyValue(raw)
    case None =>
    case Some((name, v)) =>
      ValueFree(raw);
      TrimTwice(Cut(Trim(raw), '=').value.1);
      assert Plain(v);
      assert Plain("");
      hide Plain, Assign, KeyValue, Lower;
      match KeyOf(Lower(name))
      case None =>
      case Some(k) =>
        if st.cur.Some? { AssignReportable(st.cur.value, k, v); }
  }

  lemma {:induction false} ReadLinesReportable(st: DumpState, lines: seq<string>)
    requires AllReportable(st) && AllFree(lines, '\n')
    ensures AllReportable(ReadLines(st, lines))
    decreases |lines|
  {
    hide AllReportable, ReadLine;
    if lines != [] {
      ReadLineReportable(st, lines[0]);
      ReadLinesReportable(ReadLine(st, lines[0]), lines[1..]);
    }
  }

  /** Every record parsed from any dump can be reported. */
  lemma {:induction false} ParsedIsReportable(s: string)
    ensures forall i :: 0 <= i < |DumpParse(s)| ==> Reportable(DumpParse(s)[i])
  {
    hide Reportable;
    SplitPieces(s, '\n');
    ReadLinesReportable(Start, Split(s, '\n'));
  }

  /** A full dump is read back field by field exactly when every record holds
      plain texts and numbers of the source's widths. */
  lemma {:induction false} DumpRoundTripIff(rs: seq<PeerStats>)
    ensures DumpParse(DumpText(rs)) == rs <==> forall i :: 0 <= i < |rs| ==> Reportable(rs[i])
  {
    hide DumpParse, DumpText, Reportable;
    ParsedIsReportable(DumpText(rs));
    if forall i :: 0 <= i < |rs| ==> Reportable(rs[i]) { DumpThenParse(rs); }
  }

  /** Whatever a dump parses to is what its own full dump parses to. */
  lemma {:induction false} ParseDumpParse(s: string)
    ensures DumpParse(DumpText(DumpParse(s))) == DumpParse(s)
  {
    ParsedIsReportable(s);
    DumpThenParse(DumpParse(s));
  }
}

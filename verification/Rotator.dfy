/** Circuits of internal/multihop/circuit.go and the rotator of rotator.go,
    which swaps hops of the active circuit and logs each entry change. */
module Rotator {
  import opened Wrappers
  import opened Text
  import opened Routes

  datatype Circuit = Circuit(id: string, hops: int, entry: NodeInfo, middle: NodeInfo, exit: NodeInfo)

  const NoNode := NodeInfo("", "", "", "", 0.0, 0.0, 0.0, 0.0, 0.0)

  function Nodes(c: Circuit): seq<NodeInfo> {
    if c.hops == 3 then [c.entry, c.middle, c.exit]
    else if c.hops == 1 then [c.exit]
    else [c.entry, c.exit]
  }

  function BuildSingleHop(n: NodeInfo, id: string): Option<Circuit> {
    if n.Valid() then Some(Circuit(id, 1, n, NoNode, n)) else None
  }

  function BuildTwoHop(entry: NodeInfo, exit: NodeInfo, id: string): Option<Circuit> {
    if entry.Valid() && exit.Valid() && Separated([entry, exit])
    then Some(Circuit(id, 2, entry, NoNode, exit)) else None
  }

  function BuildThreeHop(entry: NodeInfo, middle: NodeInfo, exit: NodeInfo, id: string): Option<Circuit> {
    if entry.Valid() && middle.Valid() && exit.Valid() && Separated([entry, middle, exit])
    then Some(Circuit(id, 3, entry, middle, exit)) else None
  }

  /** What Verify accepts. */
  predicate VerifiedCircuit(c: Circuit) {
    && c.id != ""
    && match c.hops
       case 1 => c.entry.nodeID != "" && c.exit.nodeID != "" && c.exit.Valid()
       case 2 => c.entry.Valid() && c.exit.Valid() && Separated([c.entry, c.exit])
       case 3 => c.entry.Valid() && c.middle.Valid() && c.exit.Valid() && Separated([c.entry, c.middle, c.exit])
       case _ => false
  }

  /** A verified circuit is exactly one whose nodes make a route, with an entry named. */
  lemma {:induction false} VerifiedIsBuildable(c: Circuit)
    requires c.id != "" && 1 <= c.hops <= 3
    ensures VerifiedCircuit(c) <==> Buildable(Nodes(c), DefaultOptions) && c.entry.nodeID != ""
  {
    hide EndpointHost;
    var ns := Nodes(c);
    assert (forall i :: 0 <= i < |ns| ==> ns[i].Valid()) <==>
           c.exit.Valid() && (c.hops > 1 ==> c.entry.Valid()) && (c.hops == 3 ==> c.middle.Valid()) by {
      assert ns[|ns| - 1] == c.exit && (c.hops > 1 ==> ns[0] == c.entry) && (c.hops == 3 ==> ns[1] == c.middle);
    }
  }

  /** One line of the rotation log. */
  datatype Record = Record(oldEntry: string, newEntry: string, exitKept: string, reason: string)

  function EntrySwap(c: Circuit, n: NodeInfo, id: string): Option<Circuit> {
    if !n.Valid() then None
    else match c.hops
      case 1 => BuildSingleHop(n, id)
      case 3 => BuildThreeHop(n, c.middle, c.exit, id)
      case _ => if n.nodeID == c.exit.nodeID then None else BuildTwoHop(n, c.exit, id)
  }

  function ExitSwap(c: Circuit, n: NodeInfo, id: string): Option<Circuit> {
    if !n.Valid() then None
    else match c.hops
      case 1 => BuildSingleHop(n, id)
      case 3 => BuildThreeHop(c.entry, c.middle, n, id)
      case _ => BuildTwoHop(c.entry, n, id)
  }

  function DownstreamSwap(c: Circuit, mid: NodeInfo, exit: NodeInfo, id: string): Option<Circuit> {
    if c.hops != 3 then None else BuildThreeHop(c.entry, mid, exit, id)
  }

  datatype Log = Log(current: Circuit, history: seq<Record>)

  /** Installs a circuit rebuilt from an old one and logs the change from it,
      or leaves everything as it was. */
  function InstallFrom(l: Log, was: Circuit, next: Option<Circuit>, keepsExit: bool, reason: string): Log {
    if next.None? || !VerifiedCircuit(next.value) then l
    else Log(next.value, l.history + [Record(was.entry.nodeID, next.value.entry.nodeID,
                                             if keepsExit then next.value.exit.nodeID else "", reason)])
  }

  function Install(l: Log, next: Option<Circuit>, keepsExit: bool, reason: string): Log {
    InstallFrom(l, l.current, next, keepsExit, reason)
  }

  class CircuitRotator {
    var current: Circuit
    var history: seq<Record>

    ghost function View(): Log
      reads this
    {
      Log(current, history)
    }

    ghost predicate Valid()
      reads this
    {
      VerifiedCircuit(current)
    }

    constructor (initial: Circuit)
      requires VerifiedCircuit(initial)
      ensures Valid() && View() == Log(initial, [])
    {
      current, history := initial, [];
    }

    method RotateEntry(newEntry: NodeInfo, reason: string, id: string) returns (next: Option<Circuit>)
      requires Valid()
      modifies this
      ensures Valid() && View() == Install(old(View()), EntrySwap(old(current), newEntry, id), true, reason)
      ensures next == if View() == old(View()) then None else Some(current)
    {
      if !newEntry.Valid() {
        return None;
      }
      if current.hops == 1 {
        next := BuildSingleHop(newEntry, id);
      } else if current.hops == 3 {
        next := BuildThreeHop(newEntry, current.middle, current.exit, id);
      } else {
        if newEntry.nodeID == current.exit.nodeID {
          return None;
        }
        next := BuildTwoHop(newEntry, current.exit, id);
      }
      if next.None? || !VerifiedCircuit(next.value) {
        return None;
      }
      Commit(current, next.value, next.value.exit.nodeID, reason);
    }

    method RotateExit(newExit: NodeInfo, reason: string, id: string) returns (next: Option<Circuit>)
      requires Valid()
      modifies this
      ensures Valid() && View() == Install(old(View()), ExitSwap(old(current), newExit, id), false, reason)
      ensures next == if View() == old(View()) then None else Some(current)
    {
      if !newExit.Valid() {
        return None;
      }
      if current.hops == 1 {
        next := BuildSingleHop(newExit, id);
      } else if current.hops == 3 {
        next := BuildThreeHop(current.entry, current.middle, newExit, id);
      } else {
        next := BuildTwoHop(current.entry, newExit, id);
      }
      if next.None? || !VerifiedCircuit(next.value) {
        return None;
      }
      Commit(current, next.value, "", reason);
    }

    method RotateDownstream(newMiddle: NodeInfo, newExit: NodeInfo, reason: string, id: string)
      returns (next: Option<Circuit>)
      requires Valid()
      modifies this
      ensures Valid()
      ensures View() == Install(old(View()), DownstreamSwap(old(current), newMiddle, newExit, id), false, reason)
      ensures next == if View() == old(View()) then None else Some(current)
    {
      var was := CaptureDownstream();
      if was.None? {
        return None;
      }
      next := CommitDownstream(was.value, newMiddle, newExit, reason, id);
    }

    /** The part under the first lock: what the new circuit will be built from. */
    method CaptureDownstream() returns (was: Option<Circuit>)
      ensures was == if current.hops == 3 then Some(current) else None
    {
      if current.hops != 3 {
        return None;
      }
      return Some(current);
    }

    /** The rest, built from the captured circuit and installed under the second
        lock, whatever the current circuit is by then. */
    method CommitDownstream(was: Circuit, newMiddle: NodeInfo, newExit: NodeInfo, reason: string, id: string)
      returns (next: Option<Circuit>)
      requires Valid() && was.hops == 3
      modifies this
      ensures Valid()
      ensures View() == InstallFrom(old(View()), was, DownstreamSwap(was, newMiddle, newExit, id), false, reason)
      ensures next == if View() == old(View()) then None else Some(current)
    {
      next := BuildThreeHop(was.entry, newMiddle, newExit, id);
      if next.None? || !VerifiedCircuit(next.value) {
        return None;
      }
      Commit(was, next.value, "", reason);
    }

    method Commit(was: Circuit, next: Circuit, exitKept: string, reason: string)
      modifies this
      ensures current == next
      ensures history == old(history) + [Record(was.entry.nodeID, next.entry.nodeID, exitKept, reason)]
    {
      history := history + [Record(was.entry.nodeID, next.entry.nodeID, exitKept, reason)];
      current := next;
    }
  }

  /** A rotator over a circuit that verifies; none otherwise. */
  method NewRotator(initial: Circuit) returns (r: CircuitRotator?)
    ensures r != null <==> VerifiedCircuit(initial)
    ensures r != null ==> fresh(r) && r.Valid() && r.View() == Log(initial, [])
  {
    if !VerifiedCircuit(initial) {
      return null;
    }
    r := new CircuitRotator(initial);
  }

  // ---------------------------------------------------------------- runs

  datatype Event =
    | SwapEntry(n: NodeInfo, reason: string, id: string)
    | SwapExit(n: NodeInfo, reason: string, id: string)
    | SwapDownstream(mid: NodeInfo, exit: NodeInfo, reason: string, id: string)

  function Step(l: Log, e: Event): Log {
    match e
    case SwapEntry(n, reason, id) => Install(l, EntrySwap(l.current, n, id), true, reason)
    case SwapExit(n, reason, id) => Install(l, ExitSwap(l.current, n, id), false, reason)
    case SwapDownstream(mid, exit, reason, id) => Install(l, DownstreamSwap(l.current, mid, exit, id), false, reason)
  }

  function Middle(c: Circuit): seq<NodeInfo> {
    if c.hops == 3 then [c.middle] else []
  }

  /** What one rotation keeps: the hop count, verification, and on circuits of
      several hops everything on the side it does not swap. */
  lemma {:induction false} StepKeeps(l: Log, e: Event)
    requires VerifiedCircuit(l.current)
    ensures var l' := Step(l, e);
            && VerifiedCircuit(l'.current) && l'.current.hops == l.current.hops
            && (l.current.hops > 1 && e.SwapEntry? ==>
                  l'.current.exit == l.current.exit && Middle(l'.current) == Middle(l.current))
            && (l.current.hops > 1 && !e.SwapEntry? ==> l'.current.entry == l.current.entry)
            && (l.current.hops > 1 && e.SwapExit? ==> Middle(l'.current) == Middle(l.current))
  {
    hide Separated;
  }

  /** The log after a rotation to these nodes: they become the circuit, under
      the new id, and the change is logged, exactly when they make a route. */
  ghost predicate RotatesTo(l: Log, next: Log, nodes: seq<NodeInfo>, id: string, exitKept: string, reason: string) {
    if id != "" && Buildable(nodes, DefaultOptions) then
      && next.current.id == id && next.current.hops == l.current.hops && Nodes(next.current) == nodes
      && next.current.entry == nodes[0]
      && next.history == l.history + [Record(l.current.entry.nodeID, nodes[0].nodeID, exitKept, reason)]
    else next == l
  }

  lemma {:induction false} BuildsAre(c: Circuit)
    requires 1 <= c.hops <= 3 && c.entry.nodeID != "" && (c.hops == 1 ==> c.entry == c.exit)
    requires c.hops < 3 ==> c.middle == NoNode
    ensures var built := if c.hops == 1 then BuildSingleHop(c.exit, c.id)
                         else if c.hops == 2 then BuildTwoHop(c.entry, c.exit, c.id)
                         else BuildThreeHop(c.entry, c.middle, c.exit, c.id);
            && (built.Some? ==> built.value == c)
            && ((built.Some? && VerifiedCircuit(c)) <==> c.id != "" && Buildable(Nodes(c), DefaultOptions))
  {
    if c.id != "" { VerifiedIsBuildable(c); }
    hide Separated, Buildable;
  }

  lemma {:induction false} BuildableIds(nodes: seq<NodeInfo>)
    requires Buildable(nodes, DefaultOptions)
    ensures forall i :: 0 <= i < |nodes| ==> nodes[i].Valid()
    ensures |nodes| == 2 ==> nodes[0].nodeID != nodes[1].nodeID
  {
    hide EndpointHost;
    assert |nodes| == 2 ==> !Clash(nodes[0], nodes[1]);
  }

  /** The entry of a circuit of one, two or three hops is replaced exactly when
      the new node with the rest of the path makes a route. */
  lemma {:induction false} EntrySwapIff(l: Log, n: NodeInfo, reason: string, id: string)
    requires VerifiedCircuit(l.current)
    ensures var nodes := [n] + Nodes(l.current)[1..];
            RotatesTo(l, Step(l, SwapEntry(n, reason, id)), nodes, id, nodes[|nodes| - 1].nodeID, reason)
  {
    var c := l.current;
    var nodes := [n] + Nodes(c)[1..];
    if n.nodeID != "" {
      var next := if c.hops == 1 then Circuit(id, 1, n, NoNode, n)
                  else if c.hops == 2 then Circuit(id, 2, n, NoNode, c.exit)
                  else Circuit(id, 3, n, c.middle, c.exit);
      assert Nodes(next) == nodes;
      BuildsAre(next);
    }
    if Buildable(nodes, DefaultOptions) { BuildableIds(nodes); assert nodes[0] == n; }
    hide Separated, Buildable;
  }

  /** The exit likewise. */
  lemma {:induction false} ExitSwapIff(l: Log, n: NodeInfo, reason: string, id: string)
    requires VerifiedCircuit(l.current)
    ensures var was := Nodes(l.current);
            RotatesTo(l, Step(l, SwapExit(n, reason, id)), was[..|was| - 1] + [n], id, "", reason)
  {
    var c := l.current;
    var nodes := Nodes(c)[..|Nodes(c)| - 1] + [n];
    if n.nodeID != "" {
      var next := if c.hops == 1 then Circuit(id, 1, n, NoNode, n)
                  else if c.hops == 2 then Circuit(id, 2, c.entry, NoNode, n)
                  else Circuit(id, 3, c.entry, c.middle, n);
      assert Nodes(next) == nodes;
      BuildsAre(next);
    }
    if Buildable(nodes, DefaultOptions) { BuildableIds(nodes); assert nodes[|nodes| - 1] == n; }
    hide Separated, Buildable;
  }

  /** Middle and exit are replaced exactly on three hops whose entry makes a route with them. */
  lemma {:induction false} DownstreamSwapIff(l: Log, mid: NodeInfo, exit: NodeInfo, reason: string, id: string)
    requires VerifiedCircuit(l.current)
    ensures var next := Step(l, SwapDownstream(mid, exit, reason, id));
            if l.current.hops == 3 then RotatesTo(l, next, [Nodes(l.current)[0], mid, exit], id, "", reason)
            else next == l
  {
    var c := l.current;
    if c.hops == 3 { BuildsAre(Circuit(id, 3, c.entry, mid, exit)); }
    hide Separated, Buildable;
  }

  /** On success the swapped-in node sits where it was asked for. */
  lemma {:induction false} StepInstalls(l: Log, e: Event)
    requires VerifiedCircuit(l.current) && Step(l, e) != l
    ensures var c := Step(l, e).current;
            && (e.SwapEntry? ==> c.entry == e.n) && (e.SwapExit? ==> c.exit == e.n)
            && (e.SwapDownstream? ==> c.middle == e.mid && c.exit == e.exit)
  {
    hide Separated;
  }

  /** The log chains from the first entry to the current one. */
  predicate Chained(first: string, l: Log) {
    && (l.history == [] ==> l.current.entry.nodeID == first)
    && (l.history != [] ==>
          && l.history[0].oldEntry == first
          && l.history[|l.history| - 1].newEntry == l.current.entry.nodeID)
    && (forall i :: 0 <= i < |l.history| - 1 ==> l.history[i].newEntry == l.history[i + 1].oldEntry)
  }

  lemma {:induction false} StepChained(first: string, l: Log, e: Event)
    requires Chained(first, l)
    ensures Chained(first, Step(l, e)) && l.history <= Step(l, e).history && |Step(l, e).history| <= |l.history| + 1
  {
    hide VerifiedCircuit, EntrySwap, ExitSwap, DownstreamSwap;
  }

  predicate RunOf(ls: seq<Log>, es: seq<Event>) {
    |ls| == |es| + 1 && ls[0].history == [] && forall i :: 0 <= i < |es| ==> ls[i + 1] == Step(ls[i], es[i])
  }

  /** Over every serial run the circuit verifies and keeps its hop count, and
      the log chains from the first entry to the current one. */
  lemma {:induction false} RunKeeps(ls: seq<Log>, es: seq<Event>, n: nat)
    requires RunOf(ls, es) && n <= |es| && VerifiedCircuit(ls[0].current)
    ensures VerifiedCircuit(ls[n].current) && ls[n].current.hops == ls[0].current.hops
    ensures Chained(ls[0].current.entry.nodeID, ls[n])
  {
    hide VerifiedCircuit, Step;
    if n > 0 {
      RunKeeps(ls, es, n - 1);
      StepKeeps(ls[n - 1], es[n - 1]);
      StepChained(ls[0].current.entry.nodeID, ls[n - 1], es[n - 1]);
    }
  }

  /** Over every run that never swaps the entry, a circuit of several hops
      keeps the entry it started with. */
  lemma {:induction false} GuardedRunKeepsEntry(ls: seq<Log>, es: seq<Event>, n: nat)
    requires RunOf(ls, es) && n <= |es| && VerifiedCircuit(ls[0].current) && ls[0].current.hops > 1
    requires forall i :: 0 <= i < n ==> !es[i].SwapEntry?
    ensures ls[n].current.entry == ls[0].current.entry
  {
    hide VerifiedCircuit, Step;
    if n > 0 {
      GuardedRunKeepsEntry(ls, es, n - 1);
      RunKeeps(ls, es, n - 1);
      StepKeeps(ls[n - 1], es[n - 1]);
    }
  }

  // ---------------------------------------------------------------- overlapping rotations

  /** The log and the downstream rotations between their two locks. */
  datatype Shared = Shared(log: Log, captured: map<nat, Circuit>)

  datatype Move =
    | Whole(e: Event)
    | CaptureDown(t: nat)
    | CommitDown(t: nat, mid: NodeInfo, exit: NodeInfo, reason: string, id: string)

  predicate CanMove(s: Shared, m: Move) {
    match m
    case Whole(_) => true
    case CaptureDown(t) => t !in s.captured && s.log.current.hops == 3
    case CommitDown(t, _, _, _, _) => t in s.captured
  }

  function Advance(s: Shared, m: Move): Shared
    requires CanMove(s, m)
  {
    match m
    case Whole(e) => s.(log := Step(s.log, e))
    case CaptureDown(t) => s.(captured := s.captured[t := s.log.current])
    case CommitDown(t, mid, exit, reason, id) =>
      var was := s.captured[t];
      Shared(InstallFrom(s.log, was, DownstreamSwap(was, mid, exit, id), false, reason), s.captured - {t})
  }

  predicate SharedRun(ss: seq<Shared>, ms: seq<Move>) {
    && |ss| == |ms| + 1 && ss[0].log.history == [] && ss[0].captured == map[]
    && forall i :: 0 <= i < |ms| ==> CanMove(ss[i], ms[i]) && ss[i + 1] == Advance(ss[i], ms[i])
  }

  /** The move installs a circuit built from one with another entry than the current one. */
  predicate Stale(s: Shared, m: Move)
    requires CanMove(s, m)
  {
    m.CommitDown? && s.captured[m.t].entry.nodeID != s.log.current.entry.nodeID &&
    var next := DownstreamSwap(s.captured[m.t], m.mid, m.exit, m.id); next.Some? && VerifiedCircuit(next.value)
  }

  /** A capture and its commit with nothing between are a whole downstream rotation. */
  lemma {:induction false} CaptureThenCommit(s: Shared, t: nat, mid: NodeInfo, exit: NodeInfo, reason: string,
                                             id: string)
    requires t !in s.captured && s.log.current.hops == 3
    ensures Advance(Advance(s, CaptureDown(t)), CommitDown(t, mid, exit, reason, id))
         == Advance(s, Whole(SwapDownstream(mid, exit, reason, id)))
  {
    assert s.captured[t := s.log.current] - {t} == s.captured;
  }

  /** A captured circuit verifies and has three hops, like the current one. */
  predicate Steady(hops: int, s: Shared) {
    && VerifiedCircuit(s.log.current) && s.log.current.hops == hops
    && forall t :: t in s.captured ==> hops == 3 && VerifiedCircuit(s.captured[t]) && s.captured[t].hops == 3
  }

  lemma {:induction false} MoveSteady(hops: int, s: Shared, m: Move)
    requires Steady(hops, s) && CanMove(s, m)
    ensures Steady(hops, Advance(s, m))
  {
    hide Separated;
    if m.Whole? {
      StepKeeps(s.log, m.e);
      hide Step, VerifiedCircuit;
    }
  }

  /** A move keeps the log chained exactly when it is not stale; a stale one
      puts the captured entry back, undoing the rotation of the entry. */
  lemma {:induction false} MoveChainedIff(first: string, s: Shared, m: Move)
    requires Chained(first, s.log) && CanMove(s, m)
    ensures Chained(first, Advance(s, m).log) <==> !Stale(s, m)
    ensures Stale(s, m) ==> Advance(s, m).log.current.entry == s.captured[m.t].entry
  {
    hide VerifiedCircuit, EntrySwap, ExitSwap;
    if m.Whole? {
      StepChained(first, s.log, m.e);
      hide Step;
    } else if m.CommitDown? {
      ChainSnoc(first, s.log, s.captured[m.t], DownstreamSwap(s.captured[m.t], m.mid, m.exit, m.id), m.reason);
    }
  }

  lemma {:induction false} ChainSnoc(first: string, l: Log, was: Circuit, next: Option<Circuit>, reason: string)
    requires Chained(first, l)
    ensures Chained(first, InstallFrom(l, was, next, false, reason)) <==>
              next.None? || !VerifiedCircuit(next.value) || was.entry.nodeID == l.current.entry.nodeID
  {
    hide VerifiedCircuit;
    if next.Some? && VerifiedCircuit(next.value) {
      var h, r := l.history, Record(was.entry.nodeID, next.value.entry.nodeID, "", reason);
      var all := h + [r];
      assert all[|h|] == r;
      if h != [] {
        assert all[0] == h[0] && all[|h| - 1] == h[|h| - 1];
        assert forall i :: 0 <= i < |h| ==> all[i] == h[i];
      }
    }
  }

  /** Over every run with overlapping downstream rotations the circuit still
      verifies and keeps its hop count, and the log stays chained all the way
      exactly when no commit is stale. */
  lemma {:induction false} SharedRunIff(ss: seq<Shared>, ms: seq<Move>, n: nat)
    requires SharedRun(ss, ms) && n <= |ms| && VerifiedCircuit(ss[0].log.current)
    ensures Steady(ss[0].log.current.hops, ss[n])
    ensures var first := ss[0].log.current.entry.nodeID;
            (forall k :: 0 <= k <= n ==> Chained(first, ss[k].log)) <==>
            (forall k :: 0 <= k < n ==> !Stale(ss[k], ms[k]))
  {
    hide VerifiedCircuit, Advance, Chained, Stale;
    var first := ss[0].log.current.entry.nodeID;
    if n == 0 {
      assert Chained(first, ss[0].log) by { ChainedAtStart(ss[0].log); }
    } else {
      SharedRunIff(ss, ms, n - 1);
      assert ss[n] == Advance(ss[n - 1], ms[n - 1]);
      MoveSteady(ss[0].log.current.hops, ss[n - 1], ms[n - 1]);
      if Chained(first, ss[n - 1].log) { MoveChainedIff(first, ss[n - 1], ms[n - 1]); }
    }
  }

  lemma ChainedAtStart(l: Log)
    requires l.history == []
    ensures Chained(l.current.entry.nodeID, l)
  {
  }

  /** Every entry rotation that falls inside a downstream rotation is undone and breaks the log. */
  lemma {:induction false} EntrySwapInside(c: Circuit, n: NodeInfo, mid: NodeInfo, exit: NodeInfo, a: string, b: string)
    returns (ss: seq<Shared>, ms: seq<Move>)
    requires VerifiedCircuit(c) && c.hops == 3 && n.nodeID != c.entry.nodeID && a != "" && b != ""
    requires EntrySwap(c, n, a).Some? && DownstreamSwap(c, mid, exit, b).Some?
    ensures SharedRun(ss, ms) && ss[0].log.current == c && |ms| == 3 && Stale(ss[2], ms[2])
    ensures ss[2].log.current.entry == n && ss[3].log.current.entry == c.entry
    ensures !Chained(c.entry.nodeID, ss[3].log)
  {
    hide Separated;
    ms := [CaptureDown(0), Whole(SwapEntry(n, "", a)), CommitDown(0, mid, exit, "", b)];
    var s0 := Shared(Log(c, []), map[]);
    var s1 := Advance(s0, ms[0]);
    var s2 := Advance(s1, ms[1]);
    ss := [s0, s1, s2, Advance(s2, ms[2])];
    StepChained(c.entry.nodeID, s1.log, ms[1].e);
    assert Chained(c.entry.nodeID, s2.log);
    MoveChainedIff(c.entry.nodeID, s2, ms[2]);
  }

  /** A node on a host of its own. */
  function Named(ch: char): NodeInfo {
    NodeInfo([ch], [ch], [ch], "", 0.0, 0.0, 0.0, 1.0, 1.0)
  }

  lemma {:induction false} NamedHost(ch: char)
    requires 'a' <= ch <= 'z'
    ensures EndpointHost([ch]) == [ch] && Named(ch).Valid()
  {
    assert [ch][..0] == [] && LastIndexOf([], ':') == -1;
    TrimOfTrimmed([ch]);
  }

  lemma {:induction false} NamedApart(a: char, b: char)
    requires 'a' <= a <= 'z' && 'a' <= b <= 'z' && a != b
    ensures !Clash(Named(a), Named(b))
  {
    NamedHost(a);
    NamedHost(b);
    assert [a][0] != [b][0];
  }

  lemma {:induction false} NamedTriple(a: char, b: char, c: char)
    requires 'a' <= a <= 'z' && 'a' <= b <= 'z' && 'a' <= c <= 'z' && a != b && a != c && b != c
    ensures Separated([Named(a), Named(b), Named(c)])
    ensures Named(a).Valid() && Named(b).Valid() && Named(c).Valid()
  {
    hide Clash;
    NamedApart(a, b);
    NamedApart(a, c);
    NamedApart(b, c);
  }

  /** Such a run exists. */
  lemma {:induction false} SomeEntrySwapInside() returns (ss: seq<Shared>, ms: seq<Move>)
    ensures SharedRun(ss, ms) && |ms| == 3 && VerifiedCircuit(ss[0].log.current) && Stale(ss[2], ms[2])
    ensures !Chained(ss[0].log.current.entry.nodeID, ss[3].log)
  {
    hide Separated;
    var c := Circuit("c", 3, Named('a'), Named('b'), Named('d'));
    NamedTriple('a', 'b', 'd');
    NamedTriple('e', 'b', 'd');
    NamedTriple('a', 'f', 'g');
    assert Named('e').nodeID[0] != Named('a').nodeID[0];
    ss, ms := EntrySwapInside(c, Named('e'), Named('f'), Named('g'), "x", "y");
  }
}

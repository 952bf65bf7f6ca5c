/** The tunnel engine of internal/tunnel (engine.go, monitor.go) as a timed
    state machine: lifecycle calls and watchdog polls with arbitrary probe
    results. */
module Watchdog {
  import opened Wrappers
  import opened Powers

  type Time = int

  datatype Phase = DOWN | CONNECTING | UP | FAILED

  /** One poll of the device; no handshake means none was ever seen. */
  datatype Probe = ProbeError | Sample(rx: nat, tx: nat, handshake: Option<Time>)

  /** Times in nanoseconds. A backend is either live or absent. The peers are
      the endpoints of the configured peers. */
  datatype Engine = Engine(phase: Phase, since: Time, lastHandshake: Option<Time>, rx: nat, tx: nat,
                           retries: nat, live: bool, peers: seq<string>, endpoint: string)

  datatype Limits = Limits(staleAfter: int, maxRetries: int)

  function New(now: Time): Engine {
    Engine(DOWN, now, None, 0, 0, 0, false, [], "")
  }

  function Set(e: Engine, p: Phase, at: Time): Engine {
    e.(phase := p, since := at)
  }

  function Max(a: nat, b: nat): nat {
    if b > a then b else a
  }

  // ---------------------------------------------------------------- polling

  /** Counts a failure: beyond the retries the tunnel fails, before that it
      drops from UP to CONNECTING. */
  function NoteFailure(l: Limits, e: Engine, now: Time): Engine {
    var f := e.(retries := e.retries + 1);
    if f.retries > l.maxRetries then (if f.phase != FAILED then Set(f, FAILED, now) else f)
    else if f.phase == UP then Set(f, CONNECTING, now)
    else f
  }

  predicate Fresh(l: Limits, now: Time, hs: Option<Time>) {
    hs.Some? && now - hs.value <= l.staleAfter
  }

  predicate Newer(hs: Time, last: Option<Time>) {
    last.None? || hs > last.value
  }

  /** What a poll does with its sample; it does not look at the device again. */
  function Observe(l: Limits, e: Engine, now: Time, p: Probe): Engine {
    match p
    case ProbeError => NoteFailure(l, e, now)
    case Sample(rx, tx, hs) =>
      var f := e.(rx := Max(e.rx, rx), tx := Max(e.tx, tx));
      if Fresh(l, now, hs) then
        if !Newer(hs.value, f.lastHandshake) && f.phase == UP then f
        else f.(lastHandshake := hs, retries := 0, phase := UP)
      else if hs.Some? then NoteFailure(l, f.(lastHandshake := hs), now)
      else if now - f.since > l.staleAfter then NoteFailure(l, f, now)
      else if f.phase != CONNECTING && f.phase != UP then Set(f, CONNECTING, now)
      else f
  }

  function Poll(l: Limits, e: Engine, now: Time, p: Probe): Engine {
    if e.live then Observe(l, e, now, p) else e
  }

  // ---------------------------------------------------------------- lifecycle

  /** Start, under its first lock. */
  function StartBegun(e: Engine, valid: bool, peers: seq<string>, now: Time): Engine {
    if !valid || e.live then e
    else
      var endpoint := if |peers| > 0 then peers[0] else e.endpoint;
      Set(e, CONNECTING, now).(peers := peers, endpoint := endpoint, retries := 0)
  }

  /** The device is attached, or the start fails when none could be made. */
  function StartAttached(e: Engine, created: bool, now: Time): Engine {
    if created then e.(live := true) else Set(e, FAILED, now)
  }

  /** Start, under its last lock: what its own probe saw, without looking at the device again. */
  function StartFinished(e: Engine, p: Probe): Engine {
    match p
    case ProbeError => e
    case Sample(rx, tx, hs) =>
      var f := e.(rx := Max(e.rx, rx), tx := Max(e.tx, tx));
      if hs.Some? then f.(lastHandshake := hs, phase := UP) else f
  }

  /** The whole start: created says that a backend could be made. */
  function Start(e: Engine, valid: bool, peers: seq<string>, created: bool, now: Time, later: Time, p: Probe): Engine {
    if !valid || e.live then e
    else
      var f := StartAttached(StartBegun(e, valid, peers, now), created, later);
      if created then StartFinished(f, p) else f
  }

  function Stop(e: Engine, now: Time): Engine {
    Set(e.(live := false), DOWN, now)
  }

  function Apply(e: Engine, valid: bool, peers: seq<string>, applied: bool): Engine {
    if !valid || !e.live || !applied then e
    else e.(peers := peers, endpoint := if |peers| > 0 then peers[0] else e.endpoint, retries := 0)
  }

  /** The first peer's endpoint is written through the shared peer list before
      the device accepts it, so it stays written when the device refuses. */
  function Rotate(e: Engine, endpoint: string, applied: bool, rebound: bool, now: Time): Engine {
    if endpoint == "" || !e.live || |e.peers| == 0 then e
    else
      var f := e.(peers := e.peers[0 := endpoint]);
      if !applied || !rebound then f
      else
        var g := f.(endpoint := endpoint, retries := 0);
        if g.phase == FAILED then Set(g, CONNECTING, now) else g
  }

  function Wake(e: Engine): Engine {
    if e.live then e.(retries := 0) else e
  }

  class TunnelEngine {
    const limits: Limits
    var phase: Phase
    var since: Time
    var lastHandshake: Option<Time>
    var rx: nat
    var tx: nat
    var retries: nat
    var live: bool
    var peers: seq<string>
    var endpoint: string

    ghost function View(): Engine
      reads this
    {
      Engine(phase, since, lastHandshake, rx, tx, retries, live, peers, endpoint)
    }

    constructor (limits: Limits, now: Time)
      ensures this.limits == limits && View() == New(now)
    {
      this.limits := limits;
      phase, since, lastHandshake := DOWN, now, None;
      rx, tx, retries, live, peers, endpoint := 0, 0, 0, false, [], "";
    }

    method SetLocked(p: Phase, at: Time)
      modifies this`phase, this`since
      ensures phase == p && since == at
    {
      phase, since := p, at;
    }

    method NoteFailureLocked(now: Time)
      modifies this
      ensures View() == NoteFailure(limits, old(View()), now)
    {
      retries := retries + 1;
      if retries > limits.maxRetries {
        if phase != FAILED {
          SetLocked(FAILED, now);
        }
        return;
      }
      if phase == UP {
        SetLocked(CONNECTING, now);
      }
    }

    /** One poll and state transition. */
    method StepPoll(now: Time, p: Probe)
      modifies this
      ensures View() == Poll(limits, old(View()), now, p)
    {
      if !live {
        return;
      }
      CommitPoll(now, p);
    }

    /** The part after the probe: it does not look at the device again. */
    method CommitPoll(now: Time, p: Probe)
      modifies this
      ensures View() == Observe(limits, old(View()), now, p)
    {
      if p.ProbeError? {
        NoteFailureLocked(now);
        return;
      }
      NoteTraffic(p.rx, p.tx);
      var hs := p.handshake;
      if hs.Some? && now - hs.value <= limits.staleAfter {
        if !(lastHandshake.None? || hs.value > lastHandshake.value) && phase == UP {
          return;
        }
        lastHandshake, retries := hs, 0;
        SetLocked(UP, since);
      } else if hs.Some? {
        lastHandshake := hs;
        NoteFailureLocked(now);
      } else if now - since > limits.staleAfter {
        NoteFailureLocked(now);
      } else if phase != CONNECTING && phase != UP {
        SetLocked(CONNECTING, now);
      }
    }

    /** The counters never go back. */
    method NoteTraffic(r: nat, t: nat)
      modifies this`rx, this`tx
      ensures rx == Max(old(rx), r) && tx == Max(old(tx), t)
    {
      if r > rx {
        rx := r;
      }
      if t > tx {
        tx := t;
      }
    }

    method StartTunnel(valid: bool, cfg: seq<string>, created: bool, now: Time, later: Time, p: Probe)
      returns (ok: bool)
      modifies this
      ensures View() == Start(old(View()), valid, cfg, created, now, later, p)
      ensures ok <==> valid && !old(live) && created
    {
      hide StartAttached, StartFinished;
      var begun := BeginStart(valid, cfg, now);
      if !begun {
        return false;
      }
      AttachDevice(created, later);
      if !created {
        return false;
      }
      FinishStart(p);
      return true;
    }

    /** The part under the first lock. */
    method BeginStart(valid: bool, cfg: seq<string>, now: Time) returns (ok: bool)
      modifies this
      ensures View() == StartBegun(old(View()), valid, cfg, now)
      ensures ok <==> valid && !old(live)
    {
      if !valid || live {
        return false;
      }
      peers := cfg;
      if |cfg| > 0 {
        endpoint := cfg[0];
      }
      SetLocked(CONNECTING, now);
      retries := 0;
      return true;
    }

    method AttachDevice(created: bool, now: Time)
      modifies this
      ensures View() == StartAttached(old(View()), created, now)
    {
      if !created {
        SetLocked(FAILED, now);
        return;
      }
      live := true;
    }

    /** The part after the probe: it does not look at the device again. */
    method FinishStart(p: Probe)
      modifies this
      ensures View() == StartFinished(old(View()), p)
    {
      if p.Sample? {
        NoteTraffic(p.rx, p.tx);
        if p.handshake.Some? {
          lastHandshake := p.handshake;
          SetLocked(UP, since);
        }
      }
    }

    method StopTunnel(now: Time)
      modifies this
      ensures View() == Stop(old(View()), now)
    {
      live := false;
      SetLocked(DOWN, now);
    }

    method ApplyConfiguration(valid: bool, cfg: seq<string>, applied: bool) returns (ok: bool)
      modifies this
      ensures View() == Apply(old(View()), valid, cfg, applied)
      ensures ok <==> valid && live && applied
    {
      if !valid || !live || !applied {
        return false;
      }
      peers := cfg;
      if |cfg| > 0 {
        endpoint := cfg[0];
      }
      retries := 0;
      return true;
    }

    method RotateEndpoint(ep: string, applied: bool, rebound: bool, now: Time) returns (ok: bool)
      modifies this
      ensures View() == Rotate(old(View()), ep, applied, rebound, now)
      ensures ok <==> ep != "" && live && |old(peers)| > 0 && applied && rebound
    {
      if ep == "" || !live || |peers| == 0 {
        return false;
      }
      peers := peers[0 := ep];
      if !applied || !rebound {
        return false;
      }
      endpoint, retries := ep, 0;
      if phase == FAILED {
        SetLocked(CONNECTING, now);
      }
      return true;
    }

    method WakeUp()
      modifies this
      ensures View() == Wake(old(View()))
    {
      if live {
        retries := 0;
      }
    }
  }

  // ---------------------------------------------------------------- runs

  datatype Event =
    | Starting(valid: bool, cfg: seq<string>, created: bool, at: Time, later: Time, first: Probe)
    | Stopping(at: Time)
    | Applying(valid: bool, cfg: seq<string>, applied: bool)
    | Rotating(ep: string, applied: bool, rebound: bool, at: Time)
    | Waking
    | Polling(now: Time, probe: Probe)

  function Step(l: Limits, e: Engine, ev: Event): Engine {
    match ev
    case Starting(valid, cfg, created, at, later, first) => Start(e, valid, cfg, created, at, later, first)
    case Stopping(at) => Stop(e, at)
    case Applying(valid, cfg, applied) => Apply(e, valid, cfg, applied)
    case Rotating(ep, applied, rebound, at) => Rotate(e, ep, applied, rebound, at)
    case Waking => Wake(e)
    case Polling(now, probe) => Poll(l, e, now, probe)
  }

  predicate RunOf(l: Limits, es: seq<Engine>, evs: seq<Event>) {
    && |es| == |evs| + 1 && es[0] == New(es[0].since)
    && forall i :: 0 <= i < |evs| ==> es[i + 1] == Step(l, es[i], evs[i])
  }

  /** UP only over a live device and with no failure counted. */
  predicate UpIsLive(e: Engine) {
    e.phase == UP ==> e.live && e.retries == 0
  }

  lemma {:induction false} StepKeeps(l: Limits, e: Engine, ev: Event)
    requires UpIsLive(e)
    ensures UpIsLive(Step(l, e, ev)) && e.rx <= Step(l, e, ev).rx && e.tx <= Step(l, e, ev).tx
  {
    match ev
    case Polling(_, _) =>
    case _ =>
  }

  /** Over every run, UP means a live device and zero retries. */
  lemma {:induction false} UpIsAlwaysLive(l: Limits, es: seq<Engine>, evs: seq<Event>, n: nat)
    requires RunOf(l, es, evs) && n <= |evs|
    ensures UpIsLive(es[n])
  {
    hide Step;
    if n > 0 {
      UpIsAlwaysLive(l, es, evs, n - 1);
      StepKeeps(l, es[n - 1], evs[n - 1]);
    }
  }

  /** Over every run the traffic counters never decrease. */
  lemma {:induction false} CountersNeverDecrease(l: Limits, es: seq<Engine>, evs: seq<Event>, m: nat, n: nat)
    requires RunOf(l, es, evs) && m <= n <= |evs|
    ensures es[m].rx <= es[n].rx && es[m].tx <= es[n].tx
    decreases n
  {
    hide Step;
    if m < n {
      CountersNeverDecrease(l, es, evs, m, n - 1);
      UpIsAlwaysLive(l, es, evs, n - 1);
      StepKeeps(l, es[n - 1], evs[n - 1]);
    }
  }

  /** The event sampled the device: a poll of a live one, or a start that brought one up. */
  predicate Sampled(e: Engine, ev: Event) {
    match ev
    case Polling(_, probe) => e.live && probe.Sample?
    case Starting(valid, _, created, _, _, first) => valid && !e.live && created && first.Sample?
    case _ => false
  }

  function SampleOf(ev: Event): Probe
    requires ev.Polling? || ev.Starting?
  {
    if ev.Polling? then ev.probe else ev.first
  }

  lemma {:induction false} StepCounters(l: Limits, e: Engine, ev: Event)
    ensures var f := Step(l, e, ev);
            if Sampled(e, ev) then f.rx == Max(e.rx, SampleOf(ev).rx) && f.tx == Max(e.tx, SampleOf(ev).tx)
            else f.rx == e.rx && f.tx == e.tx
  {
    match ev
    case Polling(_, _) =>
    case _ =>
  }

  /** The value is the largest of the samples so far, or zero before the first. */
  ghost predicate Largest(es: seq<Engine>, evs: seq<Event>, n: nat, v: nat, of: Probe -> nat)
    requires n <= |evs| < |es|
  {
    && (forall i :: 0 <= i < n && Sampled(es[i], evs[i]) ==> of(SampleOf(evs[i])) <= v)
    && (v == 0 || exists i :: 0 <= i < n && Sampled(es[i], evs[i]) && of(SampleOf(evs[i])) == v)
  }

  /** Over every run each counter is the largest sample of it so far. */
  lemma {:induction false} CountersAreLargest(l: Limits, es: seq<Engine>, evs: seq<Event>, n: nat)
    requires RunOf(l, es, evs) && n <= |evs|
    ensures Largest(es, evs, n, es[n].rx, (p: Probe) => if p.Sample? then p.rx else 0)
    ensures Largest(es, evs, n, es[n].tx, (p: Probe) => if p.Sample? then p.tx else 0)
  {
    hide Step, Sampled, Largest;
    if n == 0 {
      LargestAtStart(es, evs, (p: Probe) => if p.Sample? then p.rx else 0);
      LargestAtStart(es, evs, (p: Probe) => if p.Sample? then p.tx else 0);
    } else {
      CountersAreLargest(l, es, evs, n - 1);
      StepCounters(l, es[n - 1], evs[n - 1]);
      SampledIsSample(es[n - 1], evs[n - 1]);
      assert es[n] == Step(l, es[n - 1], evs[n - 1]);
      LargestStep(es, evs, n, es[n - 1].rx, es[n].rx, (p: Probe) => if p.Sample? then p.rx else 0);
      LargestStep(es, evs, n, es[n - 1].tx, es[n].tx, (p: Probe) => if p.Sample? then p.tx else 0);
    }
  }

  lemma SampledIsSample(e: Engine, ev: Event)
    ensures Sampled(e, ev) ==> (ev.Polling? || ev.Starting?) && SampleOf(ev).Sample?
  {
  }

  lemma LargestAtStart(es: seq<Engine>, evs: seq<Event>, of: Probe -> nat)
    requires |evs| < |es|
    ensures Largest(es, evs, 0, 0, of)
  {
  }

  lemma {:induction false} LargestStep(es: seq<Engine>, evs: seq<Event>, n: nat, v: nat, w: nat, of: Probe -> nat)
    requires 0 < n <= |evs| < |es| && Largest(es, evs, n - 1, v, of)
    requires if Sampled(es[n - 1], evs[n - 1]) then w == Max(v, of(SampleOf(evs[n - 1]))) else w == v
    ensures Largest(es, evs, n, w, of)
  {
  }

  /** The phase a poll of a live device ends in, exactly, and when the time of
      the last change moves: a fresh handshake always ends UP and keeps it. */
  lemma {:induction false} PollPhase(l: Limits, e: Engine, now: Time, p: Probe)
    requires e.live
    ensures var f, fails := Poll(l, e, now, p), Fails(l, e, Polling(now, p));
            var recent := p.Sample? && p.handshake.Some? && now - p.handshake.value <= l.staleAfter;
            && (f.phase == UP <==> recent || (e.phase == UP && !fails))
            && (f.phase == FAILED <==> fails && (e.retries + 1 > l.maxRetries || e.phase == FAILED))
            && (f.phase == DOWN <==> fails && e.phase == DOWN && e.retries + 1 <= l.maxRetries)
            && f.since == (if f.phase == e.phase || f.phase == UP then e.since else now)
            && f.live && f.peers == e.peers && f.endpoint == e.endpoint
  {
  }

  /** The handshake kept: a stale one and one that brings the tunnel up as
      sampled, in steady state the newer. */
  lemma {:induction false} PollHandshake(l: Limits, e: Engine, now: Time, rx: nat, tx: nat, hs: Time)
    requires e.live
    ensures Poll(l, e, now, Sample(rx, tx, Some(hs))).lastHandshake ==
              if now - hs <= l.staleAfter && e.phase == UP && e.lastHandshake.Some? && hs <= e.lastHandshake.value
              then e.lastHandshake else Some(hs)
  {
  }

  /** The start gets past its first test. */
  predicate Brings(e: Engine, ev: Event) {
    ev.Starting? && ev.valid && !e.live
  }

  lemma {:induction false} StepDown(l: Limits, e: Engine, ev: Event)
    requires e.phase == DOWN ==> !e.live
    ensures var f := Step(l, e, ev);
            && (f.phase == DOWN ==> !f.live)
            && (f.phase == DOWN <==> ev.Stopping? || (e.phase == DOWN && !Brings(e, ev)))
  {
    match ev
    case Polling(now, p) => if e.live { PollPhase(l, e, now, p); }
    case _ =>
  }

  /** Every start so far that got past its first test was stopped later. */
  ghost predicate AllStopped(es: seq<Engine>, evs: seq<Event>, n: nat)
    requires n <= |evs| < |es|
  {
    forall i :: 0 <= i < n && Brings(es[i], evs[i]) ==> exists j :: i < j < n && evs[j].Stopping?
  }

  /** Over every run the tunnel is DOWN exactly when every start was followed by a stop. */
  lemma {:induction false} DownIff(l: Limits, es: seq<Engine>, evs: seq<Event>, n: nat)
    requires RunOf(l, es, evs) && n <= |evs|
    ensures es[n].phase == DOWN <==> AllStopped(es, evs, n)
    ensures es[n].phase == DOWN ==> !es[n].live
  {
    hide Step, Brings;
    if n > 0 {
      DownIff(l, es, evs, n - 1);
      StepDown(l, es[n - 1], evs[n - 1]);
      StoppingBringsNothing(es[n - 1], evs[n - 1]);
      assert es[n] == Step(l, es[n - 1], evs[n - 1]);
      if AllStopped(es, evs, n) && !evs[n - 1].Stopping? {
        forall i | 0 <= i < n - 1 && Brings(es[i], evs[i]) ensures exists j :: i < j < n - 1 && evs[j].Stopping? {
          var j :| i < j < n && evs[j].Stopping?;
        }
      }
    }
  }

  lemma StoppingBringsNothing(e: Engine, ev: Event)
    ensures ev.Stopping? ==> !Brings(e, ev)
  {
  }

  /** The phase after a lifecycle call, exactly, and the time of its last
      change; only a start, a stop and leaving FAILED by a rotation set it. */
  lemma {:induction false} CallPhase(l: Limits, e: Engine, ev: Event)
    requires !ev.Polling?
    ensures var f := Step(l, e, ev);
            var revived := ev.Rotating? && ev.ep != "" && e.live && |e.peers| > 0 && ev.applied && ev.rebound
                           && e.phase == FAILED;
            && (Brings(e, ev) ==>
                  && f.phase == (if !ev.created then FAILED
                                 else if ev.first.Sample? && ev.first.handshake.Some? then UP else CONNECTING)
                  && f.since == (if ev.created then ev.at else ev.later) && f.live == ev.created)
            && (ev.Stopping? ==> f.phase == DOWN && f.since == ev.at && !f.live)
            && (revived ==> f.phase == CONNECTING && f.since == ev.at && f.live)
            && (!Brings(e, ev) && !ev.Stopping? && !revived ==>
                  f.phase == e.phase && f.since == e.since && f.live == e.live)
  {
    match ev
    case Starting(_, _, _, _, _, _) =>
    case _ =>
  }

  /** The configuration the tunnel holds after one event. */
  lemma {:induction false} StepConfigures(l: Limits, e: Engine, ev: Event)
    ensures var f := Step(l, e, ev);
            var taken := Brings(e, ev) || (ev.Applying? && ev.valid && e.live && ev.applied);
            var swapped := ev.Rotating? && ev.ep != "" && e.live && |e.peers| > 0;
            && f.peers == (if taken then ev.cfg else if swapped then e.peers[0 := ev.ep] else e.peers)
            && f.endpoint == (if taken && |ev.cfg| > 0 then ev.cfg[0]
                              else if swapped && ev.applied && ev.rebound then ev.ep else e.endpoint)
  {
    match ev
    case Polling(_, _) =>
    case _ =>
  }

  /** The event that last looked at the device, and when: a poll, or a start that brought it up. */
  function Looked(e: Engine, ev: Event): Option<Time> {
    match ev
    case Polling(now, _) => Some(now)
    case Starting(valid, _, created, at, _, _) => if valid && !e.live && created then Some(at) else None
    case _ => None
  }

  /** After every poll and every start of a run, UP means a handshake or a
      state change no older than the stale limit. */
  lemma {:induction false} UpIsRecent(l: Limits, es: seq<Engine>, evs: seq<Event>, n: nat)
    requires RunOf(l, es, evs) && n < |evs| && Looked(es[n], evs[n]).Some? && es[n + 1].phase == UP
    requires evs[n].Starting? ==> l.staleAfter >= 0
    ensures var e, now := es[n + 1], Looked(es[n], evs[n]).value;
            Fresh(l, now, e.lastHandshake) || now - e.since <= l.staleAfter
  {
    UpIsAlwaysLive(l, es, evs, n);
  }

  /** A start goes UP on any handshake, so UP alone does not mean a fresh one:
      after a start it does exactly when the sampled handshake was fresh, and
      otherwise the next poll that finds no newer handshake counts a failure. */
  lemma {:induction false} StartFreshIff(l: Limits, e: Engine, cfg: seq<string>, at: Time, later: Time, rx: nat,
                                         tx: nat, hs: Time)
    requires !e.live
    ensures var f := Start(e, true, cfg, true, at, later, Sample(rx, tx, Some(hs)));
            && f.phase == UP && f.live && f.since == at
            && (Fresh(l, at, f.lastHandshake) <==> at - hs <= l.staleAfter)
            && (at - hs > l.staleAfter ==>
                  forall now, rx', tx' :: now >= at ==>
                    var g := Poll(l, f, now, Sample(rx', tx', Some(hs))); g.phase != UP && g.retries == 1)
  {
  }

  /** An input that fails: a handshake one tick too old. */
  lemma {:induction false} StartOnOldHandshake(l: Limits, at: Time)
    ensures var f := Start(New(at), true, ["peer"], true, at, at, Sample(0, 0, Some(at - l.staleAfter - 1)));
            f.phase == UP && !Fresh(l, at, f.lastHandshake)
  {
    StartFreshIff(l, New(at), ["peer"], at, at, 0, 0, at - l.staleAfter - 1);
  }

  // ---------------------------------------------------------------- operations cut in parts

  /** A poll captures the device, probes it without the lock, and commits what
      it saw; a start begins, attaches the device, and finishes with a probe of
      its own. Neither looks at the device again, and other operations may fall
      between: the counts are of polls and starts between their parts. */
  datatype Loose = Loose(engine: Engine, pending: nat, starting: nat, attached: nat)

  datatype Beat =
    | Whole(ev: Event)
    | Capture
    | Commit(now: Time, probe: Probe)
    | StartBegin(valid: bool, cfg: seq<string>, at: Time)
    | StartAttach(created: bool, at: Time)
    | StartFinish(first: Probe)

  predicate CanBeat(s: Loose, b: Beat) {
    && (b.Commit? ==> s.pending > 0)
    && (b.StartAttach? ==> s.starting > 0)
    && (b.StartFinish? ==> s.attached > 0)
  }

  function Advance(l: Limits, s: Loose, b: Beat): Loose
    requires CanBeat(s, b)
  {
    match b
    case Whole(ev) => s.(engine := Step(l, s.engine, ev))
    case Capture => if s.engine.live then s.(pending := s.pending + 1) else s
    case Commit(now, probe) => s.(engine := Observe(l, s.engine, now, probe), pending := s.pending - 1)
    case StartBegin(valid, cfg, at) =>
      s.(engine := StartBegun(s.engine, valid, cfg, at), starting := s.starting + if Begins(s, b) then 1 else 0)
    case StartAttach(created, at) =>
      s.(engine := StartAttached(s.engine, created, at), starting := s.starting - 1,
         attached := s.attached + if created then 1 else 0)
    case StartFinish(first) => s.(engine := StartFinished(s.engine, first), attached := s.attached - 1)
  }

  /** The start gets past its first test. */
  predicate Begins(s: Loose, b: Beat) {
    b.StartBegin? && b.valid && !s.engine.live
  }

  predicate LooseRun(l: Limits, ss: seq<Loose>, bs: seq<Beat>) {
    && |ss| == |bs| + 1 && ss[0] == Loose(New(ss[0].engine.since), 0, 0, 0)
    && forall i :: 0 <= i < |bs| ==> CanBeat(ss[i], bs[i]) && ss[i + 1] == Advance(l, ss[i], bs[i])
  }

  /** A capture and its commit with nothing between are a whole poll. */
  lemma {:induction false} CaptureThenCommit(l: Limits, s: Loose, now: Time, p: Probe)
    requires s.engine.live
    ensures Advance(l, Advance(l, s, Capture), Commit(now, p)) == Advance(l, s, Whole(Polling(now, p)))
  {
  }

  /** The parts of a start with nothing between are a whole start. */
  lemma {:induction false} StartInParts(l: Limits, s: Loose, cfg: seq<string>, at: Time, later: Time, p: Probe)
    requires !s.engine.live
    ensures var begun := Advance(l, s, StartBegin(true, cfg, at));
            && Advance(l, Advance(l, begun, StartAttach(true, later)), StartFinish(p))
                 == Advance(l, s, Whole(Starting(true, cfg, true, at, later, p)))
            && Advance(l, begun, StartAttach(false, later))
                 == Advance(l, s, Whole(Starting(true, cfg, false, at, later, p)))
  {
    hide StartBegun, StartAttached, StartFinished;
  }

  /** The commit of a poll reports a fresh handshake of a device that is gone by
      now, or the end of a start reports any handshake while the device is gone
      or a failure was counted. */
  predicate Late(l: Limits, s: Loose, b: Beat) {
    || (b.Commit? && !s.engine.live && b.probe.Sample? && Fresh(l, b.now, b.probe.handshake))
    || (b.StartFinish? && (!s.engine.live || s.engine.retries > 0) && b.first.Sample? && b.first.handshake.Some?)
  }

  lemma {:induction false} BeatIff(l: Limits, s: Loose, b: Beat)
    requires UpIsLive(s.engine) && CanBeat(s, b)
    ensures UpIsLive(Advance(l, s, b).engine) <==> !Late(l, s, b)
  {
    if b.Whole? { StepKeeps(l, s.engine, b.ev); }
    hide Step;
  }

  /** Over every run with polls and starts cut in parts, UP means a live device
      with no counted failure all the way exactly when nothing is late. */
  lemma {:induction false} UpIsLiveIff(l: Limits, ss: seq<Loose>, bs: seq<Beat>, n: nat)
    requires LooseRun(l, ss, bs) && n <= |bs|
    ensures (forall k :: 0 <= k <= n ==> UpIsLive(ss[k].engine)) <==>
            (forall k :: 0 <= k < n ==> !Late(l, ss[k], bs[k]))
  {
    hide Advance, UpIsLive, Late;
    if n == 0 {
      assert UpIsLive(ss[0].engine) by { UpAtStart(ss[0].engine.since); }
    } else {
      UpIsLiveIff(l, ss, bs, n - 1);
      assert ss[n] == Advance(l, ss[n - 1], bs[n - 1]);
      if UpIsLive(ss[n - 1].engine) { BeatIff(l, ss[n - 1], bs[n - 1]); }
    }
  }

  lemma UpAtStart(since: Time)
    ensures UpIsLive(New(since))
  {
  }

  // ---------------------------------------------------------------- what makes a part late

  predicate Stops(b: Beat) {
    b.Whole? && b.ev.Stopping?
  }

  /** The beat may bring a device. */
  predicate Starts(b: Beat) {
    (b.Whole? && b.ev.Starting?) || b.StartAttach?
  }

  /** The beat ends a poll. */
  predicate Polls(b: Beat) {
    (b.Whole? && b.ev.Polling?) || b.Commit?
  }

  lemma {:induction false} BeatFacts(l: Limits, s: Loose, b: Beat)
    requires CanBeat(s, b)
    ensures var t := Advance(l, s, b);
            && (s.engine.live && !t.engine.live ==> Stops(b)) && (Stops(b) ==> !t.engine.live)
            && (!s.engine.live && t.engine.live ==> Starts(b))
            && (t.pending > s.pending ==> b.Capture? && s.engine.live)
            && (t.starting > s.starting ==> b.StartBegin? && t.engine.retries == 0)
            && (t.attached > s.attached ==> b.StartAttach? && t.engine.live && s.starting > 0)
            && (t.engine.retries > s.engine.retries ==> Polls(b))
  {
  }

  /** A device that was live at step i and is gone at step k was stopped between. */
  lemma {:induction false} GoneWasStopped(l: Limits, ss: seq<Loose>, bs: seq<Beat>, i: nat, k: nat) returns (j: nat)
    requires LooseRun(l, ss, bs) && i <= k <= |bs| && ss[i].engine.live && !ss[k].engine.live
    ensures i <= j < k && Stops(bs[j])
    decreases k
  {
    hide Advance, Stops;
    BeatFacts(l, ss[k - 1], bs[k - 1]);
    if ss[k - 1].engine.live { j := k - 1; } else { j := GoneWasStopped(l, ss, bs, i, k - 1); }
  }

  /** A count that was zero at step i and is not at step k was raised by a poll between. */
  lemma {:induction false} CountedWasPolled(l: Limits, ss: seq<Loose>, bs: seq<Beat>, i: nat, k: nat) returns (j: nat)
    requires LooseRun(l, ss, bs) && i <= k <= |bs| && ss[i].engine.retries == 0 && ss[k].engine.retries > 0
    ensures i <= j < k && Polls(bs[j]) && ss[j + 1].engine.retries > ss[j].engine.retries
    decreases k
  {
    hide Advance, Polls;
    BeatFacts(l, ss[k - 1], bs[k - 1]);
    if ss[k - 1].engine.retries == 0 { j := k - 1; } else { j := CountedWasPolled(l, ss, bs, i, k - 1); }
  }

  /** Whatever is pending was captured from a live device. */
  lemma {:induction false} PendingWasCaptured(l: Limits, ss: seq<Loose>, bs: seq<Beat>, k: nat) returns (i: nat)
    requires LooseRun(l, ss, bs) && k <= |bs| && ss[k].pending > 0
    ensures i < k && bs[i].Capture? && ss[i].engine.live
    decreases k
  {
    hide Advance;
    BeatFacts(l, ss[k - 1], bs[k - 1]);
    if ss[k - 1].pending > 0 { i := PendingWasCaptured(l, ss, bs, k - 1); } else { i := k - 1; }
  }

  /** A start that is not attached yet was begun, and its failures were cleared. */
  lemma {:induction false} StartingWasBegun(l: Limits, ss: seq<Loose>, bs: seq<Beat>, k: nat) returns (i: nat)
    requires LooseRun(l, ss, bs) && k <= |bs| && ss[k].starting > 0
    ensures i < k && bs[i].StartBegin? && ss[i + 1].engine.retries == 0
    decreases k
  {
    hide Advance;
    BeatFacts(l, ss[k - 1], bs[k - 1]);
    if ss[k - 1].starting > 0 { i := StartingWasBegun(l, ss, bs, k - 1); } else { i := k - 1; }
  }

  /** A start that is not finished yet attached a live device. */
  lemma {:induction false} AttachedWasStarted(l: Limits, ss: seq<Loose>, bs: seq<Beat>, k: nat) returns (i: nat)
    requires LooseRun(l, ss, bs) && k <= |bs| && ss[k].attached > 0
    ensures i < k && bs[i].StartAttach? && ss[i + 1].engine.live && ss[i].starting > 0
    decreases k
  {
    hide Advance;
    BeatFacts(l, ss[k - 1], bs[k - 1]);
    if ss[k - 1].attached > 0 { i := AttachedWasStarted(l, ss, bs, k - 1); } else { i := k - 1; }
  }

  /** After a stop with no device brought since, the device is gone. */
  lemma {:induction false} StoppedStaysGone(l: Limits, ss: seq<Loose>, bs: seq<Beat>, j: nat, k: nat)
    requires LooseRun(l, ss, bs) && j < k <= |bs| && Stops(bs[j]) && forall i :: j < i < k ==> !Starts(bs[i])
    ensures !ss[k].engine.live
    decreases k
  {
    hide Advance, Stops, Starts;
    BeatFacts(l, ss[k - 1], bs[k - 1]);
    if j < k - 1 { StoppedStaysGone(l, ss, bs, j, k - 1); }
  }

  /** Nothing is late without an interruption: a stop since the poll captured
      the device or the start attached it, or a failing poll since the start began. */
  lemma {:induction false} LateWasInterrupted(l: Limits, ss: seq<Loose>, bs: seq<Beat>, k: nat) returns (i: nat, j: nat)
    requires LooseRun(l, ss, bs) && k < |bs| && Late(l, ss[k], bs[k])
    ensures i < j < k
    ensures ss[k].engine.live ==>
              bs[i].StartBegin? && Polls(bs[j]) && ss[j + 1].engine.retries > ss[j].engine.retries
    ensures !ss[k].engine.live ==> (bs[i].Capture? || bs[i].StartAttach?) && Stops(bs[j])
  {
    hide Advance, Stops, Polls;
    if bs[k].Commit? {
      i := PendingWasCaptured(l, ss, bs, k);
      j := GoneWasStopped(l, ss, bs, i, k);
      assert i != j by { PartsDoNotStop(bs[i]); }
    } else {
      var a := AttachedWasStarted(l, ss, bs, k);
      if !ss[k].engine.live {
        i := a;
        j := GoneWasStopped(l, ss, bs, a + 1, k);
      } else {
        i := StartingWasBegun(l, ss, bs, a);
        j := CountedWasPolled(l, ss, bs, i + 1, k);
      }
    }
  }

  lemma PartsDoNotStop(b: Beat)
    ensures b.Capture? ==> !Stops(b)
  {
  }

  // ---------------------------------------------------------------- interrupted runs

  /** A stop inside a poll: UP without a device. */
  lemma {:induction false} StopInsidePoll(l: Limits, at: Time, now: Time) returns (ss: seq<Loose>, bs: seq<Beat>)
    requires l.staleAfter >= 0
    ensures LooseRun(l, ss, bs) && |bs| == 4 && Late(l, ss[3], bs[3]) && ss[4].engine.phase == UP && !ss[4].engine.live
  {
    bs := [Whole(Starting(true, ["peer"], true, at, at, ProbeError)), Capture, Whole(Stopping(now)),
           Commit(now, Sample(0, 0, Some(now)))];
    ss := RunFour(l, at, bs);
  }

  /** A stop inside a start: UP without a device. */
  lemma {:induction false} StopInsideStart(l: Limits, at: Time) returns (ss: seq<Loose>, bs: seq<Beat>)
    ensures LooseRun(l, ss, bs) && |bs| == 4 && Late(l, ss[3], bs[3]) && ss[4].engine.phase == UP && !ss[4].engine.live
  {
    bs := [StartBegin(true, ["peer"], at), StartAttach(true, at), Whole(Stopping(at)),
           StartFinish(Sample(0, 0, Some(at)))];
    ss := RunFour(l, at, bs);
  }

  /** A failing poll inside a start: UP with a failure counted. */
  lemma {:induction false} FailureInsideStart(l: Limits, at: Time) returns (ss: seq<Loose>, bs: seq<Beat>)
    ensures LooseRun(l, ss, bs) && |bs| == 4 && Late(l, ss[3], bs[3])
    ensures ss[4].engine.phase == UP && ss[4].engine.live && ss[4].engine.retries == 1
  {
    bs := [StartBegin(true, ["peer"], at), StartAttach(true, at), Whole(Polling(at, ProbeError)),
           StartFinish(Sample(0, 0, Some(at)))];
    ss := RunFour(l, at, bs);
  }

  /** The states of a run of four beats. */
  ghost function RunFour(l: Limits, at: Time, bs: seq<Beat>): (ss: seq<Loose>)
    requires |bs| == 4 && CanBeat(Loose(New(at), 0, 0, 0), bs[0])
    requires var s1 := Advance(l, Loose(New(at), 0, 0, 0), bs[0]);
             CanBeat(s1, bs[1]) && var s2 := Advance(l, s1, bs[1]);
             CanBeat(s2, bs[2]) && CanBeat(Advance(l, s2, bs[2]), bs[3])
    ensures LooseRun(l, ss, bs)
  {
    var s0 := Loose(New(at), 0, 0, 0);
    var s1 := Advance(l, s0, bs[0]);
    var s2 := Advance(l, s1, bs[1]);
    var s3 := Advance(l, s2, bs[2]);
    [s0, s1, s2, s3, Advance(l, s3, bs[3])]
  }

  // ---------------------------------------------------------------- failures

  /** The poll counts as a failure in this state. */
  predicate Fails(l: Limits, e: Engine, ev: Event) {
    ev.Polling? && e.live &&
    match ev.probe
    case ProbeError => true
    case Sample(_, _, hs) => if hs.Some? then !Fresh(l, ev.now, hs) else ev.now - e.since > l.staleAfter
  }

  /** The event clears the failure count. */
  predicate Resets(l: Limits, e: Engine, ev: Event) {
    match ev
    case Starting(valid, _, _, _, _, _) => valid && !e.live
    case Stopping(_) => false
    case Applying(valid, _, applied) => valid && e.live && applied
    case Rotating(ep, applied, rebound, _) => ep != "" && e.live && |e.peers| > 0 && applied && rebound
    case Waking => e.live
    case Polling(now, probe) => e.live && probe.Sample? && Fresh(l, now, probe.handshake)
  }

  /** Failing polls since the last reset. */
  function Failures(l: Limits, es: seq<Engine>, evs: seq<Event>, n: nat): nat
    requires n <= |evs| < |es|
  {
    if n == 0 || Resets(l, es[n - 1], evs[n - 1]) then 0
    else Failures(l, es, evs, n - 1) + if Fails(l, es[n - 1], evs[n - 1]) then 1 else 0
  }

  lemma {:induction false} StepCounts(l: Limits, e: Engine, ev: Event)
    requires UpIsLive(e)
    ensures var f := Step(l, e, ev);
            f.retries == if Resets(l, e, ev) then 0 else e.retries + if Fails(l, e, ev) then 1 else 0
  {
    match ev
    case Polling(_, _) =>
    case _ =>
  }

  /** The retry count is exactly the failing polls since the last reset. */
  lemma {:induction false} RetriesCountFailures(l: Limits, es: seq<Engine>, evs: seq<Event>, n: nat)
    requires RunOf(l, es, evs) && n <= |evs|
    ensures es[n].retries == Failures(l, es, evs, n)
  {
    hide Step, Resets, Fails;
    if n > 0 {
      RetriesCountFailures(l, es, evs, n - 1);
      UpIsAlwaysLive(l, es, evs, n - 1);
      StepCounts(l, es[n - 1], evs[n - 1]);
    }
  }

  lemma {:induction false} PollFails(l: Limits, e: Engine, ev: Event)
    requires ev.Polling?
    ensures var f := Step(l, e, ev);
            && (Fails(l, e, ev) && f.retries > l.maxRetries ==> f.phase == FAILED)
            && (e.phase != FAILED && f.phase == FAILED ==> f.retries > l.maxRetries)
            && (Fails(l, e, ev) ==> f.retries == e.retries + 1 && f.phase != UP)
  {
  }

  /** No poll enters FAILED with fewer failures than the retries allow. */
  lemma {:induction false} FailedNeedsFailures(l: Limits, es: seq<Engine>, evs: seq<Event>, n: nat)
    requires RunOf(l, es, evs) && n < |evs| && evs[n].Polling?
    requires es[n].phase != FAILED && es[n + 1].phase == FAILED
    ensures Failures(l, es, evs, n + 1) > l.maxRetries
  {
    hide Step, Failures;
    PollFails(l, es[n], evs[n]);
    RetriesCountFailures(l, es, evs, n + 1);
  }

  lemma {:induction false} FailingPollsAddUp(l: Limits, es: seq<Engine>, evs: seq<Event>, i: nat, m: nat)
    requires RunOf(l, es, evs) && i + m <= |evs|
    requires forall j :: i <= j < i + m ==> Fails(l, es[j], evs[j])
    ensures es[i + m].retries == es[i].retries + m
    decreases m
  {
    hide Step, Fails;
    if m > 0 {
      FailingPollsAddUp(l, es, evs, i, m - 1);
      assert Fails(l, es[i + m - 1], evs[i + m - 1]);
      FailingIsPoll(l, es[i + m - 1], evs[i + m - 1]);
      PollFails(l, es[i + m - 1], evs[i + m - 1]);
    }
  }

  lemma FailingIsPoll(l: Limits, e: Engine, ev: Event)
    requires Fails(l, e, ev)
    ensures ev.Polling?
  {
  }

  /** One more failing poll in a row than the retries allow always ends in FAILED. */
  lemma {:induction false} FailuresEndInFailed(l: Limits, es: seq<Engine>, evs: seq<Event>, i: nat)
    requires RunOf(l, es, evs) && l.maxRetries >= 0 && i + l.maxRetries + 1 <= |evs|
    requires forall j :: i <= j <= i + l.maxRetries ==> Fails(l, es[j], evs[j])
    ensures es[i + l.maxRetries + 1].phase == FAILED
  {
    hide Step, Fails;
    var last := i + l.maxRetries;
    FailingPollsAddUp(l, es, evs, i, l.maxRetries + 1);
    assert Fails(l, es[last], evs[last]);
    FailingIsPoll(l, es[last], evs[last]);
    PollFails(l, es[last], evs[last]);
  }

  /** FAILED is not sticky: a poll that finds no handshake returns to
      CONNECTING exactly inside the grace window, with the failures kept, and
      the next failing poll fails the tunnel again at once. */
  lemma {:induction false} FailedIsNotSticky(l: Limits, e: Engine, now: Time, rx: nat, tx: nat)
    requires e.live && e.phase == FAILED
    ensures var f := Poll(l, e, now, Sample(rx, tx, None));
            && (f.phase == CONNECTING <==> now - e.since <= l.staleAfter)
            && (f.phase == CONNECTING ==> f.retries == e.retries)
            && (f.phase == CONNECTING && e.retries > l.maxRetries ==>
                  forall later :: Poll(l, f, later, ProbeError).phase == FAILED)
  {
  }

  // ---------------------------------------------------------------- endpoint

  /** The reported endpoint is that of the first configured peer. */
  predicate InSync(e: Engine) {
    |e.peers| > 0 ==> e.peers[0] == e.endpoint
  }

  /** A rotation request leaves the reported endpoint and the configuration in
      agreement exactly when the device accepts it or nothing was to change. */
  lemma {:induction false} RotateInSyncIff(e: Engine, ep: string, applied: bool, rebound: bool, now: Time)
    requires InSync(e) && ep != "" && e.live && |e.peers| > 0
    ensures InSync(Rotate(e, ep, applied, rebound, now)) <==> (applied && rebound) || ep == e.endpoint
  {
  }

  /** A rotation to another endpoint that the device refuses. */
  predicate Drifts(e: Engine, ev: Event) {
    && ev.Rotating? && ev.ep != "" && e.live && |e.peers| > 0 && !(ev.applied && ev.rebound)
    && ev.ep != e.endpoint
  }

  lemma {:induction false} StepInSyncIff(l: Limits, e: Engine, ev: Event)
    requires InSync(e)
    ensures InSync(Step(l, e, ev)) <==> !Drifts(e, ev)
  {
    StepConfigures(l, e, ev);
    hide Step;
  }

  /** Over every run the reported endpoint is that of the first configured
      peer all the way exactly when no rotation to another endpoint was refused. */
  lemma {:induction false} InSyncIff(l: Limits, es: seq<Engine>, evs: seq<Event>, n: nat)
    requires RunOf(l, es, evs) && n <= |evs|
    ensures (forall k :: 0 <= k <= n ==> InSync(es[k])) <==> (forall k :: 0 <= k < n ==> !Drifts(es[k], evs[k]))
  {
    hide Step, Drifts;
    if n > 0 {
      InSyncIff(l, es, evs, n - 1);
      assert es[n] == Step(l, es[n - 1], evs[n - 1]);
      if InSync(es[n - 1]) { StepInSyncIff(l, es[n - 1], evs[n - 1]); }
    }
  }

  /** An input that fails: a started tunnel, and another endpoint that the device refuses. */
  lemma {:induction false} RefusedRotationDrifts(at: Time, a: string, b: string)
    requires a != b && b != ""
    ensures var e := Start(New(at), true, [a], true, at, at, ProbeError);
            InSync(e) && !InSync(Rotate(e, b, false, false, at))
  {
    RotateInSyncIff(Start(New(at), true, [a], true, at, at, ProbeError), b, false, false, at);
  }

  // ---------------------------------------------------------------- backoff

  const Second: int := 1_000_000_000
  const MinBackoff := Second
  const MaxBackoff := 60 * Second

  /** The reconnect delay: doubling from one second, capped at a minute. */
  method BackoffFor(failures: int) returns (d: int)
    ensures MinBackoff <= d <= MaxBackoff
    ensures failures <= 1 ==> d == MinBackoff
    ensures failures >= 1 ==>
              d == if Pow2(failures - 1) * Second > MaxBackoff then MaxBackoff else Pow2(failures - 1) * Second
  {
    d := MinBackoff;
    var i := 1;
    while i < failures && d < MaxBackoff
      invariant i >= 1 && (i <= failures || i == 1) && d == Pow2(i - 1) * Second && d >= MinBackoff
      invariant i > 1 ==> Pow2(i - 2) * Second < MaxBackoff
      decreases failures - i
    {
      d := d * 2;
      i := i + 1;
    }
    if i < failures {
      Pow2Grows(i - 1, failures - 1);
    }
    if d > MaxBackoff {
      d := MaxBackoff;
    }
  }
}

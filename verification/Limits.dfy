/** The client limit over whole admissions: the gate of the controller is the
    check of the capacity model, and so live clients stay within the limit. */
module Limits {
  import opened Wrappers
  import opened Ipam
  import opened Sessions
  import opened Admission
  import opened AdmissionRuns
  import Capacity

  type Floor = Capacity.Floor

  /** The time after the first k events. */
  ghost function At(start: Startup, es: seq<NodeEvent>, k: nat): Time
    requires k <= |es|
  {
    if k == 0 then start.at
    else match es[k - 1]
      case Admitting(_, req) => req.now
      case Expiring(now, _) => now
      case Removing(_, _) => At(start, es, k - 1)
  }

  /** The clock does not go back between events, nor inside an admission. */
  ghost predicate Ordered(start: Startup, es: seq<NodeEvent>) {
    forall i :: 0 <= i < |es| ==>
      match es[i]
      case Admitting(_, req) => At(start, es, i) <= req.checked <= req.now
      case Expiring(now, _) => At(start, es, i) <= now
      case Removing(_, _) => true
  }

  /** A session opened past the gate is a check and a commit of the capacity model. */
  lemma {:induction false} OpensIsCheckAndCommit(n: Node, cap: int, e: NodeEvent, now: Time)
    requires Sound(n) && e.Admitting? && Opens(n, e) && now <= e.req.checked <= e.req.now
    ensures var f, max := Capacity.Floor(n.ses, 0, now), e.pol.maxClients;
            var check := Capacity.Check(e.req.checked);
            && Capacity.Allowed(max, 1, f, check)
            && var g := Capacity.Act(cap, f, check);
               var q := e.req;
               var commit := Capacity.CommitSession(q.tok, q.key, Ipam.Allocate(n.pool).0, q.endpoint, q.now);
               && Capacity.Allowed(max, 1, g, commit)
               && Capacity.Act(cap, g, commit)
                    == Capacity.Floor(Open(n.ses, NewSession(n, cap, e)), 0, e.req.now)
  {
  }

  lemma {:induction false} AdmitWithin(n: Node, cap: int, e: NodeEvent, max: int, now: Time)
    requires Sound(n) && e.Admitting? && e.pol.maxClients <= max && now <= e.req.checked <= e.req.now
    requires |n.ses.Live(now)| <= max
    ensures |Next(n, cap, e).ses.Live(e.req.now)| <= max
  {
    hide Next, Ipam.Allocate;
    AdmitCases(n, cap, e);
    Capacity.TimeOnlyEnds(n.ses, now, e.req.now);
    Capacity.TimeOnlyEnds(n.ses, e.req.checked, e.req.now);
    if Opens(n, e) {
      var s := NewSession(n, cap, e);
      Capacity.OpenAddsOne(n.ses, s, e.req.now);
      assert |n.ses.Live(e.req.checked)| < e.pol.maxClients;
      if Undone(e) { Capacity.RemovalShrinks(Open(n.ses, s), Revoke(Open(n.ses, s), s.tokenID), e.req.now); }
    }
  }

  /** Over every run of whole operations, with limits up to max, no more than
      max clients are ever live. */
  lemma {:induction false} ClientsWithinLimit(start: Startup, cap: int, ns: seq<Node>, es: seq<NodeEvent>, max: nat,
                                              k: nat)
    requires NodeRun(start, cap, ns, es) && Ordered(start, es) && k <= |es|
    requires forall i :: 0 <= i < |es| && es[i].Admitting? ==> es[i].pol.maxClients <= max
    ensures |ns[k].ses.Live(At(start, es, k))| <= max
  {
    hide Next, ReserveRows;
    if k == 0 {
      assert ns[0].ses.Live(start.at) == {};
    } else {
      var n, e, now := ns[k - 1], es[k - 1], At(start, es, k - 1);
      ClientsWithinLimit(start, cap, ns, es, max, k - 1);
      RunSound(start, cap, ns, es, k - 1);
      assert Leads(n, cap, e, ns[k]);
      match e
      case Admitting(_, _) => AdmitWithin(n, cap, e, max, now);
      case Removing(id, stuck) => RemovalWithin(n, cap, e, now);
      case Expiring(at, _) =>
        Capacity.TimeOnlyEnds(n.ses, now, at);
        RemovalWithin(n, cap, e, at);
    }
  }

  lemma {:induction false} RemovalWithin(n: Node, cap: int, e: NodeEvent, now: Time)
    requires Sound(n) && !e.Admitting?
    ensures |Next(n, cap, e).ses.Live(now)| <= |n.ses.Live(now)|
  {
    Capacity.RemovalShrinks(n.ses, Next(n, cap, e).ses, now);
  }
}

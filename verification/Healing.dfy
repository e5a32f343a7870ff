/** How the election recovers from departures, from beginning to end. */
module Healing {
  import opened Wire
  import opened Bus
  import opened Election
  import opened Convergence
  import opened Drain
  import opened Provenance
  import opened Coverage
  import Promises

  /** In these steps messages are delivered and timers fire, and nothing else happens. */
  ghost predicate Calm(steps: seq<Step>)
  {
    forall n :: 0 <= n < |steps| ==> IsDelivery(steps[n]) || IsTimeout(steps[n])
  }

  predicate IsTimeout(step: Step)
  {
    step.At? && step.action.Timeout?
  }

  lemma CalmKeepsNodes(s: System, step: Step, i: Id)
    requires WellFormed(s) && Enabled(s, step) && (IsDelivery(step) || IsTimeout(step)) && i < |s.nodes|
    ensures |Apply(s, step).nodes| == |s.nodes|
    ensures var (a, b) := (s.nodes[i], Apply(s, step).nodes[i]);
            b.connected == a.connected && b.alive == a.alive && SameIdentity(a.role, b.role)
  {
    ActKeepsIdentity(step.i, s.nodes[step.i], step.action);
  }

  lemma {:induction false} CalmRuns(s: System, steps: seq<Step>)
    requires WellFormed(s) && AllConnected(s) && Feasible(s, steps) && Calm(steps)
    ensures Staying(s, steps) && NeverHarmful(s, steps) && AllConnected(After(s, steps))
    ensures |After(s, steps).nodes| == |s.nodes|
    decreases |steps|
  {
    if steps != [] {
      var t := Apply(s, steps[0]);
      forall i: Id | i < |t.nodes|
        ensures Runs(t, i) ==> Runs(s, i) && t.nodes[i].connected
      {
        CalmKeepsNodes(s, steps[0], i);
      }
      CalmRuns(t, steps[1..]);
    }
  }

  /** What is known of a state that a run has reached. */
  ghost predicate Known(s: System)
  {
    WellFormed(s) && Accounted(s) && LeftQuietly(s)
  }

  lemma KnownAfter(s: System, steps: seq<Step>, t: System)
    requires Known(s) && Leads(s, steps, t)
    ensures Known(t)
  {
    Promises.AccountedAfter(s, steps);
    LeftQuietlyAfter(s, steps);
  }

  /** Where nobody running is marked as robbed, excusing the robbed makes no difference. */
  lemma SteadyIsCovered(s: System)
    requires Corrected(s) && Steady(s)
    ensures Covered(s)
  {
    var t := Forget(s);
    forall i: Id, j: Id | Outranks(t, j, i) && Active(t.nodes[i])
      ensures Asks(t.nodes[i], i) || Answers(t.nodes[j], j)
    {
      assert Outranks(s, j, i);
      assert t.nodes[i] == s.nodes[i] && t.nodes[j] == s.nodes[j];
    }
  }

  lemma CoveredAfterCalm(s: System, steps: seq<Step>, t: System)
    requires AllConnected(s) && Covered(s) && Leads(s, steps, t) && Calm(steps)
    ensures AllConnected(t) && Covered(t)
  {
    CalmRuns(s, steps);
    CoveredExactly(s, steps);
  }

  /** Timers fire where they are needed, and everything is delivered: who ends topmost is active. */
  lemma TopmostComeBack(s: System, timeouts: seq<Step>, t: System, deliveries: seq<Step>, u: System, i: Id)
    requires Known(s) && Fresh(s) && AllConnected(s)
    requires Leads(s, timeouts, t) && Calm(timeouts) && Leads(t, deliveries, u) && Calm(deliveries)
    requires forall j: Id :: Runs(s, j) && !Active(s.nodes[j]) ==> At(j, Timeout) in timeouts
    requires Topmost(u, i)
    ensures Active(u.nodes[i])
  {
    CalmRuns(s, timeouts);
    CalmRuns(t, deliveries);
    KnownAfter(s, timeouts, t);
    FreshAfter(s, timeouts);
    TopmostAtStart(t, deliveries, i);
    TopmostAtStart(s, timeouts, i);
    TopmostEndsActive(s, timeouts, i);
    TopmostEndsActive(t, deliveries, i);
  }

  /** From beginning to end.  After any run, departures and all, with everybody who is left
      connected: deliver everything that is under way, let the timer of every inactive introducer
      fire, in any order, and deliver everything again, in any order.  Then exactly the topmost of
      the introducers that are left are active, if no theft was harmful, or none is unmended. */
  lemma DeparturesHeal(before: seq<Step>, s: System, clearing: seq<Step>, t: System,
                       timeouts: seq<Step>, u: System, settling: seq<Step>, v: System)
    requires Leads(EMPTY, before, s) && AllConnected(s) && (NeverHarmful(EMPTY, before) || Steady(s))
    requires Leads(s, clearing, t) && AllDelivery(clearing) && Drained(t)
    requires Leads(t, timeouts, u) && forall n :: 0 <= n < |timeouts| ==> IsTimeout(timeouts[n])
    requires forall i: Id :: Runs(t, i) && !Active(t.nodes[i]) ==> At(i, Timeout) in timeouts
    requires Leads(u, settling, v) && AllDelivery(settling) && Drained(v)
    ensures Elected(v)
  {
    CoveredExactly(EMPTY, before);
    AlwaysCorrected(before);
    if Steady(s) {
      SteadyIsCovered(s);
    }
    CoveredAfterCalm(s, clearing, t);
    CoveredAfterCalm(t, timeouts, u);
    CoveredAfterCalm(u, settling, v);
    KnownAfter(EMPTY, before, s);
    KnownAfter(s, clearing, t);
    DrainedIsFresh(t);
    DrainedIsSilent(v);
    SettledExactly(v);
    forall i: Id | Runs(v, i) && Topmost(v, i)
      ensures Active(v.nodes[i])
    {
      TopmostComeBack(t, timeouts, u, settling, v, i);
    }
  }

  /** The same with anything but departures and harmful thefts in between, where no Present of the
      departed is under way and things have settled in the end. */
  lemma TimeoutsHealWithoutHarm(before: seq<Step>, s: System, after: seq<Step>, t: System)
    requires Leads(EMPTY, before, s) && NeverHarmful(EMPTY, before) && Fresh(s)
    requires Leads(s, after, t) && Staying(s, after) && NeverHarmful(s, after)
    requires forall i: Id :: Runs(s, i) && !Active(s.nodes[i]) ==> At(i, Timeout) in after
    requires AllConnected(t) && Silent(t)
    ensures Elected(t)
  {
    CoveredExactly(EMPTY, before);
    CoveredExactly(s, after);
    SettledExactly(t);
    Promises.AccountedAfter(EMPTY, before);
    forall i: Id | Runs(t, i) && Topmost(t, i)
      ensures Active(t.nodes[i])
    {
      if i < |s.nodes| {
        TopmostAtStart(s, after, i);
      }
      TopmostEndsActive(s, after, i);
    }
  }
}

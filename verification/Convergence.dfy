/** When the election ends with exactly the topmost introducers active. */
module Convergence {
  import opened Wire
  import opened Bus
  import opened Provenance
  import opened Election
  import Promises

  predicate FromTheLiving(s: System, body: Body)
  {
    body.packet.content.Present? && body.packet.sender < |s.nodes| ==> s.nodes[body.packet.sender].alive
  }

  /** No Present in flight speaks for an introducer that has left. */
  ghost predicate Fresh(s: System)
  {
    && (forall i: Id, level :: i < |s.nodes| && Present(level) in s.nodes[i].outbox ==> s.nodes[i].alive)
    && (forall i: Id, body :: Runs(s, i) && FromWire(body) in s.nodes[i].inbox ==> FromTheLiving(s, body))
  }

  predicate Departs(s: System, step: Step)
  {
    step.At? && step.action.Leave? && step.i < |s.nodes| && s.nodes[step.i].role.Intro?
  }

  /** A run in which no introducer leaves.  Joins, outages, timeouts, other programs: anything else may happen. */
  ghost predicate Staying(s: System, steps: seq<Step>)
    requires WellFormed(s)
    decreases |steps|
  {
    steps == [] || (Enabled(s, steps[0]) && !Departs(s, steps[0]) && Staying(Apply(s, steps[0]), steps[1..]))
  }

  lemma {:induction false} StayingIsFeasible(s: System, steps: seq<Step>)
    requires WellFormed(s) && Staying(s, steps)
    ensures Feasible(s, steps)
    decreases |steps|
  {
    if steps != [] {
      StayingIsFeasible(Apply(s, steps[0]), steps[1..]);
    }
  }

  lemma OutboxGrowth(i: Id, node: Node, action: Action, level: real)
    requires RoleFits(node.role) && CanAct(i, node, action)
    requires Present(level) in Act(i, node, action).node.outbox
    ensures Present(level) in node.outbox || node.alive
    ensures action.Leave? ==> Present(level) in node.outbox
  {
  }

  /** Bodies come from the head of the sender's own outbox. */
  lemma RelayedFromOutbox(i: Id, node: Node, action: Action, body: Body)
    requires RoleFits(node.role) && CanAct(i, node, action) && body in Act(i, node, action).bodies
    ensures body.packet.sender == i && body.packet.content in node.outbox
  {
  }

  lemma ApplyKeepsFresh(s: System, step: Step)
    requires WellFormed(s) && Accounted(s) && Fresh(s) && Enabled(s, step) && !Departs(s, step)
    ensures Fresh(Apply(s, step))
  {
    var t := Apply(s, step);
    forall i: Id, level | i < |t.nodes| && Present(level) in t.nodes[i].outbox
      ensures t.nodes[i].alive
    {
      if step.At? && i == step.i {
        FreshOutbox(s, i, step.action, level);
      }
    }
    forall i: Id, body | Runs(t, i) && FromWire(body) in t.nodes[i].inbox
      ensures FromTheLiving(t, body)
    {
      if step.At? {
        RunnersRanBefore(s, step.i, step.action, i);
        FreshInbox(s, step.i, step.action, i, body);
      }
    }
  }

  lemma FreshOutbox(s: System, i: Id, action: Action, level: real)
    requires WellFormed(s) && Accounted(s) && Fresh(s) && Enabled(s, At(i, action)) && !Departs(s, At(i, action))
    requires Present(level) in Act(i, s.nodes[i], action).node.outbox
    ensures Act(i, s.nodes[i], action).node.alive
  {
    OutboxGrowth(i, s.nodes[i], action, level);
    assert NodeBacked(s, i, s.nodes[i]);
    assert Present(level) in s.nodes[i].outbox ==> Backed(s, i, Present(level));
  }

  lemma LivingStay(s: System, i: Id, action: Action, body: Body)
    requires WellFormed(s) && Enabled(s, At(i, action)) && !Departs(s, At(i, action))
    requires BodyBacked(s, body) && FromTheLiving(s, body)
    ensures FromTheLiving(Apply(s, At(i, action)), body)
  {
  }

  /** What was just relayed came out of the outbox of a program that is still there. */
  lemma FreshRelay(s: System, k: Id, action: Action, body: Body)
    requires WellFormed(s) && Accounted(s) && Fresh(s) && Enabled(s, At(k, action)) && !Departs(s, At(k, action))
    requires body in Act(k, s.nodes[k], action).bodies
    ensures FromTheLiving(Apply(s, At(k, action)), body)
  {
    RelayedFromOutbox(k, s.nodes[k], action, body);
    if body.packet.content.Present? {
      assert s.nodes[k].alive;
      RelayersStay(k, s.nodes[k], action);
    }
  }

  lemma RelayersStay(k: Id, node: Node, action: Action)
    requires RoleFits(node.role) && CanAct(k, node, action) && Act(k, node, action).bodies != []
    ensures Act(k, node, action).node.alive == node.alive
  {
  }

  lemma DeliveredFrom(node: Node, bodies: seq<Body>, body: Body)
    requires FromWire(body) in Deliver(node, bodies).inbox
    ensures FromWire(body) in node.inbox || body in bodies
  {
    if FromWire(body) !in node.inbox {
      var n: nat :| n < |bodies| && Items(bodies)[n] == FromWire(body);
      assert bodies[n] == body;
    }
  }

  /** Everything in an inbox was there before or has just been relayed. */
  lemma InboxFrom(s: System, k: Id, action: Action, i: Id, body: Body)
    requires WellFormed(s) && Enabled(s, At(k, action)) && i < |s.nodes|
    requires FromWire(body) in Apply(s, At(k, action)).nodes[i].inbox
    ensures FromWire(body) in s.nodes[i].inbox || body in Act(k, s.nodes[k], action).bodies
  {
    var e := Act(k, s.nodes[k], action);
    DeliveredFrom(if i == k then e.node else s.nodes[i], e.bodies, body);
    if i == k && FromWire(body) in e.node.inbox {
      InboxShrinks(k, s.nodes[k], action, FromWire(body));
    }
  }

  lemma InboxShrinks(k: Id, node: Node, action: Action, item: Item)
    requires RoleFits(node.role) && CanAct(k, node, action) && item.FromWire? && item in Act(k, node, action).node.inbox
    ensures item in node.inbox
  {
  }

  lemma FreshInbox(s: System, k: Id, action: Action, i: Id, body: Body)
    requires WellFormed(s) && Accounted(s) && Fresh(s) && Enabled(s, At(k, action)) && !Departs(s, At(k, action))
    requires i < |s.nodes| && Runs(s, i) && FromWire(body) in Apply(s, At(k, action)).nodes[i].inbox
    ensures FromTheLiving(Apply(s, At(k, action)), body)
  {
    InboxFrom(s, k, action, i, body);
    if FromWire(body) in s.nodes[i].inbox {
      assert NodeBacked(s, i, s.nodes[i]);
      LivingStay(s, k, action, body);
    } else {
      FreshRelay(s, k, action, body);
    }
  }

  lemma RunnersRanBefore(s: System, k: Id, action: Action, i: Id)
    requires WellFormed(s) && Enabled(s, At(k, action)) && Runs(Apply(s, At(k, action)), i)
    ensures Runs(s, i)
  {
    ActKeepsIdentity(k, s.nodes[k], action);
  }

  /** A higher Present in an inbox comes from an introducer that is still there. */
  lemma HigherComesFromAbove(s: System, i: Id) returns (j: Id)
    requires Accounted(s) && Fresh(s) && Runs(s, i) && HasHigher(s.nodes[i], i)
    ensures Outranks(s, j, i)
  {
    var node := s.nodes[i];
    var item, level :| item in node.inbox && level > node.role.level && ActsOn(item, node.keys, i, Present(level));
    var body := item.body;
    assert item == FromWire(body) && NodeBacked(s, i, node);
    assert BodyBacked(s, body);
    j := body.packet.sender;
  }

  /** So a topmost introducer has no reason to step down in its inbox. */
  lemma TopmostHearsNothing(s: System, i: Id)
    requires Accounted(s) && Fresh(s) && Topmost(s, i)
    ensures !HasHigher(s.nodes[i], i)
  {
    if HasHigher(s.nodes[i], i) {
      var j := HigherComesFromAbove(s, i);
    }
  }

  lemma HeadIsHigher(i: Id, node: Node, level: real)
    requires node.role.Intro? && node.inbox != [] && level > node.role.level
    requires ActsOn(node.inbox[0], node.keys, i, Present(level))
    ensures HasHigher(node, i)
  {
    assert node.inbox[0] in node.inbox;
  }

  /** Only a higher Present, or leaving, makes an introducer inactive. */
  lemma ActiveUnlessOutranked(i: Id, node: Node, action: Action)
    requires RoleFits(node.role) && CanAct(i, node, action) && Active(node) && !action.Leave? && !HasHigher(node, i)
    ensures Active(Act(i, node, action).node)
  {
    if action.Receive? && node.inbox[0].FromWire? {
      var packet := Open(node.inbox[0].body, node.keys, i);
      if packet.Some? && packet.value.content.Present? && packet.value.content.level > node.role.level {
        HeadIsHigher(i, node, packet.value.content.level);
      }
    }
  }

  /** A topmost introducer never hears a reason to step down. */
  lemma TopmostStaysActive(s: System, step: Step, i: Id)
    requires WellFormed(s) && Accounted(s) && Fresh(s) && Enabled(s, step) && !Departs(s, step)
    requires Topmost(s, i) && Active(s.nodes[i])
    ensures Active(Apply(s, step).nodes[i])
  {
    TopmostHearsNothing(s, i);
    if step.At? && step.i == i {
      ActiveUnlessOutranked(i, s.nodes[i], step.action);
    }
  }

  lemma StillRuns(s: System, step: Step, j: Id)
    requires WellFormed(s) && Enabled(s, step) && !Departs(s, step) && Runs(s, j)
    ensures Runs(Apply(s, step), j)
    ensures var (a, b) := (s.nodes[j], Apply(s, step).nodes[j]); b.role.level == a.role.level && b.keys == a.keys
  {
    if step.At? {
      ActKeepsIdentity(step.i, s.nodes[step.i], step.action);
    }
  }

  lemma RanBefore(s: System, step: Step, i: Id)
    requires WellFormed(s) && Enabled(s, step) && i < |s.nodes| && Runs(Apply(s, step), i)
    ensures Runs(s, i)
  {
    if step.At? {
      RunnersRanBefore(s, step.i, step.action, i);
    }
  }

  lemma OutranksStays(s: System, step: Step, i: Id, j: Id)
    requires WellFormed(s) && Enabled(s, step) && !Departs(s, step) && Outranks(s, j, i)
    ensures Outranks(Apply(s, step), j, i)
  {
    StillRuns(s, step, i);
    StillRuns(s, step, j);
  }

  lemma TopmostBefore(s: System, step: Step, i: Id)
    requires WellFormed(s) && Enabled(s, step) && !Departs(s, step) && i < |s.nodes| && Topmost(Apply(s, step), i)
    ensures Topmost(s, i)
  {
    RanBefore(s, step, i);
    forall j: Id
      ensures !Outranks(s, j, i)
    {
      if Outranks(s, j, i) {
        OutranksStays(s, step, i, j);
      }
    }
  }

  lemma {:induction false} TopmostAtStart(s: System, steps: seq<Step>, i: Id)
    requires WellFormed(s) && Staying(s, steps) && Feasible(s, steps) && i < |s.nodes| && Topmost(After(s, steps), i)
    ensures Topmost(s, i)
    decreases |steps|
  {
    if steps != [] {
      ApplyExtends(s, steps[0]);
      TopmostAtStart(Apply(s, steps[0]), steps[1..], i);
      TopmostBefore(s, steps[0], i);
    }
  }

  lemma TopmostAfterStep(s: System, step: Step, i: Id)
    requires WellFormed(s) && Accounted(s) && Fresh(s) && Enabled(s, step) && !Departs(s, step)
    requires i < |Apply(s, step).nodes| && Topmost(Apply(s, step), i)
    requires i < |s.nodes| ==> Active(s.nodes[i]) || step == At(i, Timeout)
    ensures Active(Apply(s, step).nodes[i])
  {
    if i < |s.nodes| {
      TopmostBefore(s, step, i);
      if Active(s.nodes[i]) {
        TopmostStaysActive(s, step, i);
      }
    }
  }

  /** Who ends topmost ends active, if it was active, joined on the way, or its timer fired once. */
  lemma {:induction false} TopmostEndsActive(s: System, steps: seq<Step>, i: Id)
    requires WellFormed(s) && Accounted(s) && Fresh(s) && Staying(s, steps) && Feasible(s, steps)
    requires Topmost(After(s, steps), i)
    requires i < |s.nodes| ==> Active(s.nodes[i]) || At(i, Timeout) in steps
    ensures Active(After(s, steps).nodes[i])
    decreases |steps|
  {
    if steps != [] {
      var t := Apply(s, steps[0]);
      ApplyExtends(s, steps[0]);
      ApplyKeepsAccounted(s, steps[0]);
      ApplyKeepsFresh(s, steps[0]);
      if i < |t.nodes| {
        TopmostAtStart(t, steps[1..], i);
        if i >= |s.nodes| || Active(s.nodes[i]) || steps[0] == At(i, Timeout) {
          TopmostAfterStep(s, steps[0], i);
        }
      }
      TopmostEndsActive(t, steps[1..], i);
    }
  }

  /** In any run without departures, every topmost introducer is active in every state. */
  lemma TopmostAlwaysActive(steps: seq<Step>, i: Id)
    requires Staying(EMPTY, steps) && Feasible(EMPTY, steps) && Topmost(After(EMPTY, steps), i)
    ensures Active(After(EMPTY, steps).nodes[i])
  {
    TopmostEndsActive(EMPTY, steps, i);
  }

  lemma {:induction false} FreshAfter(s: System, steps: seq<Step>)
    requires WellFormed(s) && Accounted(s) && Fresh(s) && Staying(s, steps) && Feasible(s, steps)
    ensures Fresh(After(s, steps))
    decreases |steps|
  {
    if steps != [] {
      ApplyKeepsAccounted(s, steps[0]);
      ApplyKeepsFresh(s, steps[0]);
      FreshAfter(Apply(s, steps[0]), steps[1..]);
    }
  }

  /** A program that has left has nothing more to say once it is disconnected. */
  ghost predicate LeftQuietly(s: System)
  {
    forall i: Id :: i < |s.nodes| && !s.nodes[i].alive && !s.nodes[i].connected ==> s.nodes[i].outbox == []
  }

  lemma {:induction false} LeftQuietlyAfter(s: System, steps: seq<Step>)
    requires WellFormed(s) && Feasible(s, steps) && LeftQuietly(s)
    ensures LeftQuietly(After(s, steps))
    decreases |steps|
  {
    if steps != [] {
      LeftQuietlyAfter(Apply(s, steps[0]), steps[1..]);
    }
  }

  /** After departures: from a state without stale Presents, if the timer of every running
      inactive introducer fires at least once and things settle, the topmost survivors are elected. */
  lemma TimeoutsHealDepartures(before: seq<Step>, after: seq<Step>)
    requires Feasible(EMPTY, before)
    requires var s := After(EMPTY, before);
             && Fresh(s) && Staying(s, after) && Feasible(s, after)
             && (forall i: Id :: Runs(s, i) && !Active(s.nodes[i]) ==> At(i, Timeout) in after)
    requires var t := After(After(EMPTY, before), after); Steady(t) && Silent(t)
    ensures Elected(After(After(EMPTY, before), after))
  {
    var s := After(EMPTY, before);
    var t := After(s, after);
    Promises.AccountedAfter(EMPTY, before);
    CorrectedAfter(EMPTY, before);
    CorrectedAfter(s, after);
    forall i: Id | Runs(t, i)
      ensures Active(t.nodes[i]) <==> Topmost(t, i)
    {
      if Active(t.nodes[i]) {
        SettledIsCorrect(t, i);
      } else if Topmost(t, i) {
        if i < |s.nodes| {
          TopmostAtStart(s, after, i);
        }
        TopmostEndsActive(s, after, i);
      }
    }
  }
}

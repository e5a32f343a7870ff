/** Delivery always ends: a weighted measure that every publish and every receive lowers.
    A roll call spawns a broadcast of Presents, a reconnection spawns both. */
module Drain {
  import opened Wrappers
  import opened Wire
  import opened Introducer
  import opened Clients
  import opened Bus
  import opened Provenance
  import opened Election
  import opened Convergence
  import Promises

  predicate IsDelivery(step: Step)
  {
    step.At? && (step.action.Publish? || step.action.Receive?)
  }

  ghost predicate AllDelivery(steps: seq<Step>)
  {
    forall n :: 0 <= n < |steps| ==> IsDelivery(steps[n])
  }

  /** Whether acting on the content can make a program send something in reply. */
  function Rank(content: Content): nat
  {
    match content
    case RollCall => 1
    case TestAuth => 1
    case CopyData(_) => 1
    case OpenURL(_, _) => 1
    case Notification(_, _, _) => 1
    case _ => 0
  }

  // `k` exceeds the number of bodies that one publish can put into inboxes.

  function InWeight(rank: nat, k: nat): nat { if rank == 0 then 1 else 1 + k }

  function OutWeight(rank: nat, k: nat): nat { k * InWeight(rank, k) }

  function ItemWeight(item: Item, k: nat): nat
  {
    match item
    case FromWire(body) => InWeight(Rank(body.packet.content), k)
    case ReconnectedNotice => 1 + OutWeight(0, k) + OutWeight(1, k)
  }

  function OutboxWeight(outbox: seq<Content>, k: nat): nat
  {
    if outbox == [] then 0 else OutWeight(Rank(outbox[0]), k) + OutboxWeight(outbox[1..], k)
  }

  function InboxWeight(inbox: seq<Item>, k: nat): nat
  {
    if inbox == [] then 0 else ItemWeight(inbox[0], k) + InboxWeight(inbox[1..], k)
  }

  /** How many more messages of its own a client can still send. */
  function Fuel(role: Role): nat
  {
    if !role.Client? then 0 else
    match role.phase
    case Authing => 6
    case Waiting => 5
    case TriggerNote(_) => 4
    case Running => 3
    case DoneNote(_) => 2
    case SendNote(_) => 1
    case Copying => 1
    case _ => 0
  }

  function NodeWeight(node: Node, k: nat): nat
  {
    OutboxWeight(node.outbox, k) + InboxWeight(node.inbox, k) + Fuel(node.role) * (1 + OutWeight(1, k))
  }

  function Total(nodes: seq<Node>, k: nat): nat
  {
    if nodes == [] then 0 else NodeWeight(nodes[0], k) + Total(nodes[1..], k)
  }

  lemma {:induction false} OutboxAppend(a: seq<Content>, b: seq<Content>, k: nat)
    ensures OutboxWeight(a + b, k) == OutboxWeight(a, k) + OutboxWeight(b, k)
  {
    if a == [] {
      assert a + b == b;
    } else {
      OutboxAppend(a[1..], b, k);
      assert (a + b)[1..] == a[1..] + b;
    }
  }

  lemma {:induction false} InboxAppend(a: seq<Item>, b: seq<Item>, k: nat)
    ensures InboxWeight(a + b, k) == InboxWeight(a, k) + InboxWeight(b, k)
  {
    if a == [] {
      assert a + b == b;
    } else {
      InboxAppend(a[1..], b, k);
      assert (a + b)[1..] == a[1..] + b;
    }
  }

  lemma {:induction false} TotalUpdate(nodes: seq<Node>, i: nat, node: Node, k: nat)
    requires i < |nodes|
    ensures Total(nodes[i := node], k) == Total(nodes, k) - NodeWeight(nodes[i], k) + NodeWeight(node, k)
  {
    if i == 0 {
      assert nodes[i := node][1..] == nodes[1..];
    } else {
      assert nodes[i := node][1..] == nodes[1..][i-1 := node];
      TotalUpdate(nodes[1..], i-1, node, k);
    }
  }

  lemma {:induction false} TotalBroadcast(nodes: seq<Node>, bodies: seq<Body>, k: nat)
    ensures Total(Broadcast(nodes, bodies), k) <= Total(nodes, k) + |nodes| * InboxWeight(Items(bodies), k)
  {
    var w := InboxWeight(Items(bodies), k);
    if nodes != [] {
      InboxAppend(nodes[0].inbox, Items(bodies), k);
      TotalBroadcast(nodes[1..], bodies, k);
      assert Broadcast(nodes, bodies)[1..] == Broadcast(nodes[1..], bodies);
      assert |nodes| * w == w + (|nodes| - 1) * w;
    }
  }

  lemma {:induction false} SameContentWeight(bodies: seq<Body>, content: Content, k: nat)
    requires forall n :: 0 <= n < |bodies| ==> bodies[n].packet.content == content
    ensures InboxWeight(Items(bodies), k) == |bodies| * InWeight(Rank(content), k)
  {
    if bodies != [] {
      SameContentWeight(bodies[1..], content, k);
      assert Items(bodies)[1..] == Items(bodies[1..]);
    } else {
      assert Items(bodies) == [];
    }
  }

  lemma NothingToDeliver(nodes: seq<Node>)
    ensures Broadcast(nodes, []) == nodes
  {
    assert Items([]) == [];
    assert forall node: Node :: node.inbox + [] == node.inbox;
  }

  /** Every publish puts fewer than `k` bodies into inboxes. */
  ghost predicate Roomy(nodes: seq<Node>, k: nat)
  {
    forall i :: 0 <= i < |nodes| ==> |nodes| * Bodies(nodes[i].keys) < k
  }

  function Bodies(keys: seq<Key>): nat { if keys == [] then 1 else |keys| }

  lemma IntroReplyWeight(level: real, keys: seq<Key>, active: bool, input: Input, k: nat)
    requires !input.TimerFires?
    ensures OutboxWeight(IntroTurn(level, keys, active, input).outs, k)
            <= (if input.Reconnected? then OutWeight(0, k) + OutWeight(1, k)
                else if Rank(input.packet.content) == 1 then OutWeight(0, k) else 0)
  {
    var outs := IntroTurn(level, keys, active, input).outs;
    assert |outs| <= 2;
    if input.Reconnected? {
      OutboxAppend([Present(level)], [RollCall], k);
      assert outs == [Present(level)] + [RollCall];
    } else if |outs| == 1 {
      assert outs[1..] == [];
    }
  }

  /** A client that moves on uses up fuel, and sends at most one message. */
  lemma ClientReplyWeight(me: Id, task: Task, phase: Phase, input: Input, k: nat)
    requires Fits(task, phase) && !input.TimerFires?
    ensures var m := ClientTurn(me, task, phase, input);
            && (m.phase == phase ==> m.outs == [])
            && (m.phase != phase ==> Fuel(Client(task, true, m.phase)) < Fuel(Client(task, true, phase)))
            && OutboxWeight(m.outs, k) <= OutWeight(1, k)
  {
    var outs := ClientTurn(me, task, phase, input).outs;
    assert |outs| <= 1;
    if |outs| == 1 {
      assert outs[1..] == [];
    }
  }

  lemma ReactWeight(i: Id, keys: seq<Key>, role: Role, input: Input, k: nat)
    requires RoleFits(role) && !input.TimerFires?
    ensures var r := React(i, keys, role, input);
            var u := 1 + OutWeight(1, k);
            OutboxWeight(r.outs, k) + Fuel(r.role) * u
            <= Fuel(role) * u + (if input.Reconnected? then OutWeight(0, k) + OutWeight(1, k)
                                 else if Rank(input.packet.content) == 1 then OutWeight(0, k) else 0)
  {
    match role
    case Intro(level, active) => IntroReplyWeight(level, keys, active, input, k);
    case Bystander =>
    case Client(task, trust, phase) =>
      var m := ClientTurn(i, task, phase, input);
      var u := 1 + OutWeight(1, k);
      ClientReplyWeight(i, task, phase, input, k);
      if m.phase != phase {
        var (f, f') := (Fuel(role), Fuel(Client(task, trust, m.phase)));
        assert f' + 1 <= f;
        assert (f' + 1) * u <= f * u;
      }
  }

  lemma ReceiveLowers(i: Id, node: Node, env: Env, k: nat)
    requires RoleFits(node.role) && CanAct(i, node, Receive(env))
    ensures var e := Act(i, node, Receive(env));
            e.bodies == [] && NodeWeight(e.node, k) < NodeWeight(node, k)
  {
    var item := node.inbox[0];
    if item.ReconnectedNotice? {
      ReactWeight(i, node.keys, node.role, Input.Reconnected, k);
      OutboxAppend(node.outbox, React(i, node.keys, node.role, Input.Reconnected).outs, k);
    } else if Open(item.body, node.keys, i).Some? {
      var input := Arrived(item.body.packet, env);
      ReactWeight(i, node.keys, node.role, input, k);
      OutboxAppend(node.outbox, React(i, node.keys, node.role, input).outs, k);
    }
  }

  lemma PublishLowers(nodes: seq<Node>, i: Id, k: nat)
    requires i < |nodes| && nodes[i].outbox != [] && Roomy(nodes, k)
    ensures var node := nodes[i];
            Total(Broadcast(nodes[i := node.(outbox := node.outbox[1..])], Prepare(node.outbox[0], node.keys, i)), k)
            < Total(nodes, k)
  {
    var node := nodes[i];
    var rank := Rank(node.outbox[0]);
    var bodies := Prepare(node.outbox[0], node.keys, i);
    var popped := nodes[i := node.(outbox := node.outbox[1..])];
    TotalUpdate(nodes, i, popped[i], k);
    TotalBroadcast(popped, bodies, k);
    SameContentWeight(bodies, node.outbox[0], k);
    SpreadFits(|nodes|, |bodies|, InWeight(rank, k), k);
  }

  lemma SpreadFits(n: nat, b: nat, w: nat, k: nat)
    requires n * b < k && 0 < w
    ensures n * (b * w) < k * w
  {
    assert n * (b * w) == (n * b) * w;
    assert (n * b) * w < k * w;
  }

  /** Every delivery step lowers the measure, and keeps the bound it is taken with. */
  lemma DeliveryLowers(s: System, step: Step, k: nat)
    requires WellFormed(s) && Enabled(s, step) && IsDelivery(step) && Roomy(s.nodes, k)
    ensures var t := Apply(s, step); Total(t.nodes, k) < Total(s.nodes, k) && Roomy(t.nodes, k)
  {
    var i := step.i;
    ActKeepsIdentity(i, s.nodes[i], step.action);
    match step.action
    case Publish => PublishLowers(s.nodes, i, k);
    case Receive(env) =>
      var e := Act(i, s.nodes[i], step.action);
      ReceiveLowers(i, s.nodes[i], env, k);
      TotalUpdate(s.nodes, i, e.node, k);
      NothingToDeliver(s.nodes[i := e.node]);
  }

  lemma {:induction false} DeliveriesBounded(s: System, steps: seq<Step>, k: nat)
    requires WellFormed(s) && Feasible(s, steps) && AllDelivery(steps) && Roomy(s.nodes, k)
    ensures |steps| <= Total(s.nodes, k)
    decreases |steps|
  {
    if steps != [] {
      DeliveryLowers(s, steps[0], k);
      DeliveriesBounded(Apply(s, steps[0]), steps[1..], k);
    }
  }

  /** A bound that always fits. */
  function MostBodies(nodes: seq<Node>): (m: nat)
    ensures forall i :: 0 <= i < |nodes| ==> Bodies(nodes[i].keys) <= m
  {
    if nodes == [] then 0
    else
      var rest := MostBodies(nodes[1..]);
      assert forall i :: 0 < i < |nodes| ==> nodes[i] == nodes[1..][i-1];
      if Bodies(nodes[0].keys) > rest then Bodies(nodes[0].keys) else rest
  }

  function Fanout(nodes: seq<Node>): nat { 1 + |nodes| * MostBodies(nodes) }

  lemma FanoutIsRoomy(nodes: seq<Node>)
    ensures Roomy(nodes, Fanout(nodes))
  {
    var most := MostBodies(nodes);
    forall i: nat | i < |nodes|
      ensures |nodes| * Bodies(nodes[i].keys) < Fanout(nodes)
    {
      TimesMonotone(|nodes|, Bodies(nodes[i].keys), most);
    }
  }

  lemma TimesMonotone(n: nat, a: nat, b: nat)
    requires a <= b
    ensures n * a <= n * b
  {
  }

  /** Every delivery order terminates, from every state. */
  lemma EveryDeliveryOrderEnds(s: System, steps: seq<Step>)
    requires WellFormed(s) && Feasible(s, steps) && AllDelivery(steps)
    ensures |steps| <= Total(s.nodes, Fanout(s.nodes))
  {
    FanoutIsRoomy(s.nodes);
    DeliveriesBounded(s, steps, Fanout(s.nodes));
  }

  /** No delivery step is possible any more. */
  ghost predicate Drained(s: System)
  {
    forall step :: IsDelivery(step) ==> !Enabled(s, step)
  }

  lemma DrainedIsSilent(s: System)
    requires Drained(s) && AllConnected(s)
    ensures Silent(s)
  {
    forall i: Id | Runs(s, i)
      ensures s.nodes[i].outbox == [] && s.nodes[i].inbox == []
    {
      assert IsDelivery(At(i, Publish)) && !Enabled(s, At(i, Publish));
      var receive := At(i, Receive(Env(None, true, 0.0)));
      assert IsDelivery(receive) && !Enabled(s, receive);
    }
  }

  lemma {:induction false} DeliveryKeepsSteady(s: System, steps: seq<Step>)
    requires WellFormed(s) && Feasible(s, steps) && AllDelivery(steps) && Steady(s)
    ensures Steady(After(s, steps)) && Staying(s, steps)
    decreases |steps|
  {
    if steps != [] {
      var t := Apply(s, steps[0]);
      forall i: Id | Runs(t, i)
        ensures t.nodes[i].connected && !t.nodes[i].robbed
      {
        ActKeepsIdentity(steps[0].i, s.nodes[steps[0].i], steps[0].action);
      }
      DeliveryKeepsSteady(t, steps[1..]);
    }
  }

  lemma TopmostAfterDeliveries(before: seq<Step>, deliveries: seq<Step>, i: Id)
    requires Staying(EMPTY, before) && Feasible(EMPTY, before)
    requires var s := After(EMPTY, before); Feasible(s, deliveries) && Staying(s, deliveries)
    requires Topmost(After(After(EMPTY, before), deliveries), i)
    ensures Active(After(After(EMPTY, before), deliveries).nodes[i])
  {
    var s := After(EMPTY, before);
    Promises.AccountedAfter(EMPTY, before);
    FreshAfter(EMPTY, before);
    if i < |s.nodes| {
      TopmostAtStart(s, deliveries, i);
      TopmostAlwaysActive(before, i);
    }
    TopmostEndsActive(s, deliveries, i);
  }

  /** If nobody has ever left, every delivery order ends with exactly the topmost introducers active. */
  lemma DeliveryElects(before: seq<Step>, deliveries: seq<Step>)
    requires Staying(EMPTY, before) && Feasible(EMPTY, before)
    requires var s := After(EMPTY, before);
             Steady(s) && Feasible(s, deliveries) && AllDelivery(deliveries) && Drained(After(s, deliveries))
    ensures Elected(After(After(EMPTY, before), deliveries))
  {
    var s := After(EMPTY, before);
    var t := After(s, deliveries);
    DeliveryKeepsSteady(s, deliveries);
    DrainedIsSilent(t);
    CorrectedAfter(EMPTY, before);
    CorrectedAfter(s, deliveries);
    forall i: Id | Runs(t, i)
      ensures Active(t.nodes[i]) <==> Topmost(t, i)
    {
      if Active(t.nodes[i]) {
        SettledIsCorrect(t, i);
      } else if Topmost(t, i) {
        TopmostAfterDeliveries(before, deliveries, i);
      }
    }
  }

  /** Delivering until nothing is left also clears every stale Present. */
  lemma DrainedAfterIsFresh(steps: seq<Step>)
    requires Feasible(EMPTY, steps)
    requires var s := After(EMPTY, steps); Drained(s) && AllConnected(s)
    ensures Fresh(After(EMPTY, steps))
  {
    Promises.AccountedAfter(EMPTY, steps);
    LeftQuietlyAfter(EMPTY, steps);
    DrainedIsFresh(After(EMPTY, steps));
  }

  lemma DrainedIsFresh(s: System)
    requires Accounted(s) && LeftQuietly(s) && Drained(s) && AllConnected(s)
    ensures Fresh(s)
  {
    DrainedIsSilent(s);
    forall i: Id | i < |s.nodes|
      ensures s.nodes[i].connected ==> s.nodes[i].outbox == []
    {
      assert IsDelivery(At(i, Publish)) && !Enabled(s, At(i, Publish));
    }
    forall i: Id, content | i < |s.nodes| && content in s.nodes[i].outbox
      ensures Backed(s, i, content)
    {
      assert NodeBacked(s, i, s.nodes[i]);
    }
  }

  /** From every state some delivery order leads to the end. */
  lemma {:induction false} DrainFrom(s: System, k: nat) returns (steps: seq<Step>)
    requires WellFormed(s) && Roomy(s.nodes, k)
    ensures Feasible(s, steps) && AllDelivery(steps) && Drained(After(s, steps))
    decreases Total(s.nodes, k)
  {
    if Drained(s) {
      steps := [];
    } else {
      var step :| IsDelivery(step) && Enabled(s, step);
      DeliveryLowers(s, step, k);
      var rest := DrainFrom(Apply(s, step), k);
      steps := [step] + rest;
      assert steps[1..] == rest;
    }
  }
}

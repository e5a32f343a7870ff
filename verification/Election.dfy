/** The introducer election, over every run of the bus.  Introducers are paired by the keys
    they share: one that shares no key with another cannot hear it at all. */
module Election {
  import opened Wire
  import opened Introducer
  import opened Bus

  /** Program `i` is a running introducer. */
  predicate Runs(s: System, i: Id)
  {
    i < |s.nodes| && s.nodes[i].alive && s.nodes[i].role.Intro?
  }

  /** `j` outranks `i`: both are running introducers that can hear each other, and `j` is higher. */
  ghost predicate Outranks(s: System, j: Id, i: Id)
  {
    && Runs(s, i) && Runs(s, j)
    && ShareKey(s.nodes[i].keys, s.nodes[j].keys)
    && s.nodes[j].role.level > s.nodes[i].role.level
  }

  predicate Active(node: Node)
  {
    node.alive && node.role.Intro? && node.role.active
  }

  /** An item the introducer will act on as this content. */
  predicate ActsOn(item: Item, keys: seq<Key>, me: Id, content: Content)
  {
    item.FromWire? && Open(item.body, keys, me).Some? && Open(item.body, keys, me).value.content == content
  }

  ghost predicate HasRollCall(node: Node, me: Id)
  {
    exists item :: item in node.inbox && ActsOn(item, node.keys, me, RollCall)
  }

  ghost predicate HasHigher(node: Node, me: Id)
    requires node.role.Intro?
  {
    exists item, level :: item in node.inbox && level > node.role.level && ActsOn(item, node.keys, me, Present(level))
  }

  /** Nothing has been heard or said reliably since the last reconnection was handled. */
  predicate CutOff(node: Node)
  {
    !node.connected || ReconnectedNotice in node.inbox || node.robbed
  }

  /** Whether this node's own boxes keep its question, or its answer, on the way. */
  ghost predicate Asks(node: Node, me: Id) requires node.role.Intro?
  {
    RollCall in node.outbox || HasHigher(node, me) || CutOff(node)
  }

  ghost predicate Answers(node: Node, me: Id) requires node.role.Intro?
  {
    Present(node.role.level) in node.outbox || HasRollCall(node, me) || CutOff(node)
  }

  /** Every introducer that is wrongly active has the correction on its way, or an outage to recover from. */
  ghost predicate Corrected(s: System)
  {
    forall i: Id, j: Id :: Outranks(s, j, i) && Active(s.nodes[i]) ==> Asks(s.nodes[i], i) || Answers(s.nodes[j], j)
  }

  lemma DeliverKeeps(node: Node, me: Id, bodies: seq<Body>)
    requires node.role.Intro?
    ensures Asks(node, me) ==> Asks(Deliver(node, bodies), me)
    ensures Answers(node, me) ==> Answers(Deliver(node, bodies), me)
  {
    var after := Deliver(node, bodies);
    assert forall item :: item in node.inbox ==> item in after.inbox;
    if HasHigher(node, me) {
      var item, level :| item in node.inbox && level > node.role.level && ActsOn(item, node.keys, me, Present(level));
      assert item in after.inbox && ActsOn(item, after.keys, me, Present(level));
    }
  }

  /** A higher Present that waits is taken, or cut off, or waits on. */
  lemma HigherWaits(i: Id, node: Node, action: Action)
    requires RoleFits(node.role) && CanAct(i, node, action) && node.role.Intro? && HasHigher(node, i)
    ensures var e := Act(i, node, action).node;
            e.role.Intro? && (Active(e) ==> Asks(e, i))
  {
    ActKeepsIdentity(i, node, action);
    if action.Receive? {
      HigherIsTaken(i, node, action.env);
    } else {
      var e := Act(i, node, action).node;
      var item, level :| item in node.inbox && level > node.role.level && ActsOn(item, node.keys, i, Present(level));
      assert item in e.inbox || CutOff(e) || !e.alive;
    }
  }

  lemma TakesHigher(i: Id, node: Node, env: Env, level: real)
    requires node.role.Intro? && CanAct(i, node, Receive(env)) && level > node.role.level
    requires ActsOn(node.inbox[0], node.keys, i, Present(level))
    ensures !Active(Act(i, node, Receive(env)).node)
  {
  }

  lemma TakesTheHead(i: Id, node: Node, env: Env)
    requires RoleFits(node.role) && CanAct(i, node, Receive(env))
    ensures Act(i, node, Receive(env)).node.inbox == node.inbox[1..]
    ensures forall item :: item in node.inbox ==> item == node.inbox[0] || item in Act(i, node, Receive(env)).node.inbox
  {
  }

  lemma HigherIsTaken(i: Id, node: Node, env: Env)
    requires RoleFits(node.role) && CanAct(i, node, Receive(env)) && node.role.Intro? && HasHigher(node, i)
    ensures var e := Act(i, node, Receive(env)).node;
            e.role.Intro? && (Active(e) ==> HasHigher(e, i))
  {
    var e := Act(i, node, Receive(env)).node;
    TakeItemKeepsIdentity(i, node, env);
    TakesTheHead(i, node, env);
    var item, level :| item in node.inbox && level > node.role.level && ActsOn(item, node.keys, i, Present(level));
    if item == node.inbox[0] {
      TakesHigher(i, node, env, level);
    } else {
      assert item in e.inbox && ActsOn(item, e.keys, i, Present(level));
    }
  }

  /** Acting as an asker: the question stays on its way, or has just been published. */
  lemma AskerActs(i: Id, node: Node, action: Action)
    requires RoleFits(node.role) && CanAct(i, node, action) && node.role.Intro?
    ensures var e := Act(i, node, action);
            e.node.role.Intro? && e.node.role.level == node.role.level && e.node.keys == node.keys
    ensures var e := Act(i, node, action);
            Active(e.node) && !Asks(e.node, i) ==>
              Active(node) && (Asks(node, i) ==> action.Publish? && e.bodies == Prepare(RollCall, node.keys, i))
  {
    ActKeepsIdentity(i, node, action);
    if HasHigher(node, i) {
      HigherWaits(i, node, action);
    }
  }

  /** An answerer that takes an item still has its answer to give, or has just put it into its outbox. */
  lemma AnswererTakes(j: Id, node: Node, env: Env)
    requires RoleFits(node.role) && CanAct(j, node, Receive(env)) && node.role.Intro? && Answers(node, j)
    ensures var e := Act(j, node, Receive(env)).node;
            e.role.Intro? && Answers(e, j)
  {
    var e := Act(j, node, Receive(env)).node;
    TakeItemKeepsIdentity(j, node, env);
    assert e.inbox == node.inbox[1..];
    assert forall item :: item in node.inbox ==> item == node.inbox[0] || item in e.inbox;
  }

  /** Acting as an answerer: the answer stays on its way, or has just been published. */
  lemma AnswererActs(j: Id, node: Node, action: Action)
    requires RoleFits(node.role) && CanAct(j, node, action) && node.role.Intro?
    ensures var e := Act(j, node, action);
            e.node.role.Intro? && e.node.role.level == node.role.level && e.node.keys == node.keys
    ensures var e := Act(j, node, action);
            e.node.alive && !Answers(e.node, j) ==>
              && node.alive
              && (Answers(node, j) ==>
                    action.Publish? && e.bodies == Prepare(Present(node.role.level), node.keys, j))
  {
    ActKeepsIdentity(j, node, action);
    if action.Receive? && Answers(node, j) {
      AnswererTakes(j, node, action.env);
    }
  }

  /** A published question or answer reaches every connected introducer that can hear it. */
  lemma PublishedIsHeard(from: Id, keys: seq<Key>, content: Content, node: Node, me: Id)
    requires node.role.Intro? && node.alive && node.connected && ShareKey(keys, node.keys) && from != me
    ensures exists item ::
              item in Deliver(node, Prepare(content, keys, from)).inbox && ActsOn(item, node.keys, me, content)
  {
    var bodies := Prepare(content, keys, from);
    var n := SharedKeyIsHeard(content, keys, from, node.keys, me);
    assert Items(bodies)[n] == FromWire(bodies[n]);
    assert Items(bodies)[n] in Deliver(node, bodies).inbox;
  }

  /** The pair property of one lower node `i` and one higher node `j`. */
  ghost predicate Pair(i: Id, low: Node, j: Id, high: Node)
    requires low.role.Intro? && high.role.Intro?
  {
    Active(low) && high.alive ==> Asks(low, i) || Answers(high, j)
  }

  lemma PairWhenLowActs(i: Id, low: Node, action: Action, j: Id, high: Node)
    requires low.role.Intro? && high.role.Intro? && i != j && ShareKey(low.keys, high.keys)
    requires RoleFits(low.role) && CanAct(i, low, action) && Pair(i, low, j, high)
    ensures var e := Act(i, low, action);
            e.node.role.Intro? && Pair(i, Deliver(e.node, e.bodies), j, Deliver(high, e.bodies))
  {
    var e := Act(i, low, action);
    AskerActs(i, low, action);
    DeliverKeeps(e.node, i, e.bodies);
    DeliverKeeps(high, j, e.bodies);
    if Active(e.node) && high.alive && !Asks(e.node, i) && Asks(low, i) && high.connected {
      PublishedIsHeard(i, low.keys, RollCall, high, j);
    }
  }

  lemma PairWhenHighActs(i: Id, low: Node, j: Id, high: Node, action: Action)
    requires low.role.Intro? && high.role.Intro? && i != j && ShareKey(high.keys, low.keys)
    requires high.role.level > low.role.level
    requires RoleFits(high.role) && CanAct(j, high, action) && Pair(i, low, j, high)
    ensures var e := Act(j, high, action);
            e.node.role.Intro? && Pair(i, Deliver(low, e.bodies), j, Deliver(e.node, e.bodies))
  {
    var e := Act(j, high, action);
    AnswererActs(j, high, action);
    DeliverKeeps(e.node, j, e.bodies);
    DeliverKeeps(low, i, e.bodies);
    if Active(low) && e.node.alive && !Answers(e.node, j) && Answers(high, j) && low.connected {
      PublishedIsHeard(j, high.keys, Present(high.role.level), low, i);
    }
  }

  lemma ApplyKeepsPair(s: System, k: Id, action: Action, i: Id, j: Id)
    requires WellFormed(s) && Enabled(s, At(k, action)) && Corrected(s)
    requires Outranks(Apply(s, At(k, action)), j, i)
    ensures var s' := Apply(s, At(k, action)); Pair(i, s'.nodes[i], j, s'.nodes[j])
  {
    var e := Act(k, s.nodes[k], action);
    ActKeepsIdentity(k, s.nodes[k], action);
    assert Outranks(s, j, i);
    if k == i {
      PairWhenLowActs(i, s.nodes[i], action, j, s.nodes[j]);
    } else if k == j {
      PairWhenHighActs(i, s.nodes[i], j, s.nodes[j], action);
    } else {
      DeliverKeeps(s.nodes[i], i, e.bodies);
      DeliverKeeps(s.nodes[j], j, e.bodies);
    }
  }

  lemma JoinKeepsPair(s: System, newcomer: Newcomer, keys: seq<Key>, i: Id, j: Id)
    requires WellFormed(s) && Enabled(s, Join(newcomer, keys)) && Corrected(s)
    requires Outranks(Apply(s, Join(newcomer, keys)), j, i)
    ensures var s' := Apply(s, Join(newcomer, keys)); Pair(i, s'.nodes[i], j, s'.nodes[j])
  {
    if i < |s.nodes| && j < |s.nodes| {
      assert Outranks(s, j, i);
    }
  }

  lemma ApplyKeepsCorrected(s: System, step: Step)
    requires WellFormed(s) && Enabled(s, step) && Corrected(s)
    ensures Corrected(Apply(s, step))
  {
    var s' := Apply(s, step);
    forall i: Id, j: Id | Outranks(s', j, i) && Active(s'.nodes[i])
      ensures Asks(s'.nodes[i], i) || Answers(s'.nodes[j], j)
    {
      match step
      case At(k, action) => ApplyKeepsPair(s, k, action, i, j);
      case Join(newcomer, keys) => JoinKeepsPair(s, newcomer, keys, i, j);
    }
  }

  lemma {:induction false} CorrectedAfter(s: System, steps: seq<Step>)
    requires WellFormed(s) && Corrected(s) && Feasible(s, steps)
    ensures Corrected(After(s, steps))
    decreases |steps|
  {
    if steps != [] {
      ApplyKeepsCorrected(s, steps[0]);
      CorrectedAfter(Apply(s, steps[0]), steps[1..]);
    }
  }

  /** In every reachable state, outages and old writers included. */
  lemma AlwaysCorrected(steps: seq<Step>)
    requires Feasible(EMPTY, steps)
    ensures Corrected(After(EMPTY, steps))
  {
    CorrectedAfter(EMPTY, steps);
  }

  /** An introducer that nobody running and within hearing outranks. */
  ghost predicate Topmost(s: System, i: Id)
  {
    && Runs(s, i)
    && forall j: Id :: !Outranks(s, j, i)
  }

  /** Exactly the topmost introducers are active. */
  ghost predicate Elected(s: System)
  {
    forall i: Id :: Runs(s, i) ==> (Active(s.nodes[i]) <==> Topmost(s, i))
  }

  ghost predicate AllConnected(s: System)
  {
    forall i: Id :: Runs(s, i) ==> s.nodes[i].connected
  }

  /** Every running introducer is connected and has not been robbed by an old writer. */
  ghost predicate Steady(s: System)
  {
    forall i: Id :: Runs(s, i) ==> s.nodes[i].connected && !s.nodes[i].robbed
  }

  /** Nothing is waiting in or out at a running introducer. */
  ghost predicate Silent(s: System)
  {
    forall i: Id :: Runs(s, i) ==> s.nodes[i].outbox == [] && s.nodes[i].inbox == []
  }

  /** With everyone connected and nothing in flight, only topmost introducers are active. */
  lemma OnlyTopmostActive(steps: seq<Step>, i: Id)
    requires Feasible(EMPTY, steps)
    requires var s := After(EMPTY, steps); Steady(s) && Silent(s) && i < |s.nodes| && Active(s.nodes[i])
    ensures Topmost(After(EMPTY, steps), i)
  {
    AlwaysCorrected(steps);
    SettledIsCorrect(After(EMPTY, steps), i);
  }

  lemma SettledIsCorrect(s: System, i: Id)
    requires Corrected(s) && Steady(s) && Silent(s) && i < |s.nodes| && Active(s.nodes[i])
    ensures Topmost(s, i)
  {
  }
}

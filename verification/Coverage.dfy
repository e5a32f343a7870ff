/** Exactly what an old writer can spoil.  Election.dfy excuses every introducer that such a writer
    has robbed; here nobody is excused, and the one harmful kind of theft is singled out. */
module Coverage {
  import opened Wire
  import opened Introducer
  import opened Bus
  import opened Election
  import opened Convergence
  import opened Drain
  import Robbery

  function Trusted(node: Node): Node
  {
    node.(robbed := false)
  }

  /** The same system, with all robberies forgotten. */
  function Forget(s: System): System
  {
    s.(nodes := seq(|s.nodes|, i requires 0 <= i < |s.nodes| => Trusted(s.nodes[i])))
  }

  /** Every introducer that is wrongly active has its roll call on the way to the higher one, or the
      higher one's Present on the way to it, or one of the two is disconnected or has a
      reconnection to handle. */
  ghost predicate Covered(s: System)
  {
    Corrected(Forget(s))
  }

  /** An old writer takes a message after the reconnection. */
  predicate Steals(s: System, step: Step)
    requires Enabled(s, step)
  {
    step.At? && step.action.Lose? && s.nodes[step.i].connected
  }

  function Popped(node: Node): Node
    requires node.outbox != []
  {
    node.(robbed := false, outbox := node.outbox[1..])
  }

  /** One of the bodies can be opened with these keys. */
  ghost predicate Reaches(bodies: seq<Body>, keys: seq<Key>, me: Id)
  {
    exists n :: 0 <= n < |bodies| && Open(bodies[n], keys, me).Some?
  }

  /** The stolen message was the last thing that would have corrected `i` about `j`, and what the
      thief got written does not do it. */
  ghost predicate LastCorrection(s: System, k: Id, written: nat, i: Id, j: Id)
    requires k < |s.nodes| && CanAct(k, s.nodes[k], Lose(written)) && Outranks(s, j, i)
  {
    var (thief, low, high) := (s.nodes[k], s.nodes[i], s.nodes[j]);
    var content := thief.outbox[0];
    var bodies := Prepare(content, thief.keys, k)[..written];
    if k == i then
      && !Asks(Popped(low), i) && !Answers(Trusted(high), j)
      && !(content == RollCall && Reaches(bodies, high.keys, j))
    else
      && k == j && !Asks(Trusted(low), i) && !Answers(Popped(high), j)
      && !(content.Present? && content.level > low.role.level && Reaches(bodies, low.keys, i))
  }

  ghost predicate Harmful(s: System, step: Step)
    requires Enabled(s, step)
  {
    Steals(s, step) && exists i: Id, j: Id ::
      Outranks(s, j, i) && Active(s.nodes[i]) && LastCorrection(s, step.i, step.action.written, i, j)
  }

  lemma ForgettingJoins(s: System, newcomer: Newcomer, keys: seq<Key>)
    requires WellFormed(s) && Enabled(s, Join(newcomer, keys))
    ensures WellFormed(Forget(s)) && Enabled(Forget(s), Join(newcomer, keys))
    ensures Forget(Apply(s, Join(newcomer, keys))) == Apply(Forget(s), Join(newcomer, keys))
  {
    var (a, b) := (Forget(Apply(s, Join(newcomer, keys))), Apply(Forget(s), Join(newcomer, keys)));
    assert |a.nodes| == |b.nodes| && forall k :: 0 <= k < |a.nodes| ==> a.nodes[k] == b.nodes[k];
  }

  lemma ForgettingDelivers(node: Node, bodies: seq<Body>)
    ensures Trusted(Deliver(node, bodies)) == Deliver(Trusted(node), bodies)
  {
  }

  lemma ForgettingNode(s: System, i: Id, action: Action, k: Id)
    requires WellFormed(s) && Enabled(s, At(i, action)) && !Steals(s, At(i, action)) && k < |s.nodes|
    requires WellFormed(Forget(s)) && Enabled(Forget(s), At(i, action))
    ensures Trusted(Apply(s, At(i, action)).nodes[k]) == Apply(Forget(s), At(i, action)).nodes[k]
  {
    var e := Act(i, s.nodes[i], action);
    ForgettingActs(i, s.nodes[i], action);
    ForgettingDelivers(if k == i then e.node else s.nodes[k], e.bodies);
  }

  /** Steps other than thefts do the same whether or not robberies are remembered. */
  lemma ForgettingCommutes(s: System, step: Step)
    requires WellFormed(s) && Enabled(s, step) && !Steals(s, step)
    ensures WellFormed(Forget(s)) && Enabled(Forget(s), step)
    ensures Forget(Apply(s, step)) == Apply(Forget(s), step)
  {
    match step
    case Join(newcomer, keys) => ForgettingJoins(s, newcomer, keys);
    case At(i, action) =>
      ForgettingActs(i, s.nodes[i], action);
      var (a, b) := (Forget(Apply(s, step)), Apply(Forget(s), step));
      forall k: Id | k < |s.nodes|
        ensures a.nodes[k] == b.nodes[k]
      {
        ForgettingNode(s, i, action, k);
      }
  }

  lemma ForgettingResponds(i: Id, node: Node, input: Input)
    requires RoleFits(node.role)
    ensures var (e, f) := (Respond(i, node, input), Respond(i, Trusted(node), input));
            f.node == Trusted(e.node) && f.bodies == e.bodies && f.deeds == e.deeds
  {
  }

  lemma ForgettingTakes(i: Id, node: Node, env: Env)
    requires RoleFits(node.role) && node.inbox != []
    ensures var (e, f) := (TakeItem(i, node, env), TakeItem(i, Trusted(node), env));
            f.node == Trusted(e.node) && f.bodies == e.bodies && f.deeds == e.deeds
  {
    var rest := node.(inbox := node.inbox[1..]);
    match node.inbox[0]
    case ReconnectedNotice => ForgettingResponds(i, rest.(robbed := false), Input.Reconnected);
    case FromWire(body) =>
      if Open(body, node.keys, i).Some? {
        ForgettingResponds(i, rest, Arrived(Open(body, node.keys, i).value, env));
      }
  }

  lemma ForgettingActs(i: Id, node: Node, action: Action)
    requires RoleFits(node.role) && CanAct(i, node, action) && !(action.Lose? && node.connected)
    ensures var (e, f) := (Act(i, node, action), Act(i, Trusted(node), action));
            f.node == Trusted(e.node) && f.bodies == e.bodies && f.deeds == e.deeds
  {
    match action
    case Receive(env) => ForgettingTakes(i, node, env);
    case Timeout => ForgettingResponds(i, node, TimerFires);
    case _ =>
  }

  /** A program does not open what it sent itself. */
  lemma DeafToItself(node: Node, me: Id, bodies: seq<Body>)
    requires node.role.Intro? && forall n :: 0 <= n < |bodies| ==> bodies[n].packet.sender == me
    ensures Asks(Deliver(node, bodies), me) <==> Asks(node, me)
    ensures Answers(Deliver(node, bodies), me) <==> Answers(node, me)
  {
    DeliverKeeps(node, me, bodies);
  }

  /** What bodies with this content change for someone else. */
  lemma HeardFrom(node: Node, me: Id, bodies: seq<Body>, from: Id, content: Content)
    requires node.role.Intro? && node.alive && from != me
    requires forall n :: 0 <= n < |bodies| ==> bodies[n].packet == Packet(from, content)
    ensures Asks(Deliver(node, bodies), me)
            <==> || Asks(node, me)
                 || (content.Present? && content.level > node.role.level && Reaches(bodies, node.keys, me))
    ensures Answers(Deliver(node, bodies), me)
            <==> Answers(node, me) || (content == RollCall && Reaches(bodies, node.keys, me))
  {
    DeliverKeeps(node, me, bodies);
    var after := Deliver(node, bodies);
    if node.connected && Reaches(bodies, node.keys, me) {
      var n :| 0 <= n < |bodies| && Open(bodies[n], node.keys, me).Some?;
      assert Items(bodies)[n] == FromWire(bodies[n]);
      assert FromWire(bodies[n]) in after.inbox && ActsOn(FromWire(bodies[n]), node.keys, me, content);
    }
  }

  /** A theft leaves a pair uncovered exactly when it takes the pair's last correction. */
  lemma TheftAndPair(s: System, k: Id, written: nat, i: Id, j: Id)
    requires WellFormed(s) && Enabled(s, At(k, Lose(written))) && s.nodes[k].connected
    requires Covered(s) && Outranks(s, j, i) && Active(s.nodes[i])
    ensures var t := Forget(Apply(s, At(k, Lose(written))));
            Asks(t.nodes[i], i) || Answers(t.nodes[j], j) <==> !LastCorrection(s, k, written, i, j)
  {
    var t := Forget(Apply(s, At(k, Lose(written))));
    var content := s.nodes[k].outbox[0];
    var bodies := Prepare(content, s.nodes[k].keys, k)[..written];
    var (low, high) := (Trusted(s.nodes[i]), Trusted(s.nodes[j]));
    assert Outranks(Forget(s), j, i);
    if k == i {
      DeafToItself(Popped(low), i, bodies);
      HeardFrom(high, j, bodies, i, content);
    } else if k == j {
      DeafToItself(Popped(high), j, bodies);
      HeardFrom(low, i, bodies, j, content);
    } else {
      DeliverKeeps(low, i, bodies);
      DeliverKeeps(high, j, bodies);
    }
  }

  lemma TheftKeepsRanks(s: System, step: Step, i: Id, j: Id)
    requires WellFormed(s) && Enabled(s, step) && Steals(s, step)
    ensures var t := Forget(Apply(s, step));
            && (Outranks(t, j, i) <==> Outranks(s, j, i))
            && (i < |s.nodes| ==> (Active(t.nodes[i]) <==> Active(s.nodes[i])))
  {
  }

  /** One step keeps every pair covered exactly when it is not a harmful theft. */
  lemma CoveredUnlessHarmful(s: System, step: Step)
    requires WellFormed(s) && Enabled(s, step) && Covered(s)
    ensures Covered(Apply(s, step)) <==> !Harmful(s, step)
  {
    if !Steals(s, step) {
      ForgettingCommutes(s, step);
      ApplyKeepsCorrected(Forget(s), step);
    } else {
      var t := Forget(Apply(s, step));
      forall i: Id, j: Id
        ensures Outranks(t, j, i) <==> Outranks(s, j, i)
        ensures Outranks(s, j, i) && Active(s.nodes[i]) ==>
                  Active(t.nodes[i])
                  && (Asks(t.nodes[i], i) || Answers(t.nodes[j], j)
                      <==> !LastCorrection(s, step.i, step.action.written, i, j))
        ensures Outranks(t, j, i) && Active(t.nodes[i]) ==> Active(s.nodes[i])
      {
        TheftKeepsRanks(s, step, i, j);
        if Outranks(s, j, i) && Active(s.nodes[i]) {
          TheftAndPair(s, step.i, step.action.written, i, j);
        }
      }
    }
  }

  ghost predicate CoveredThroughout(s: System, steps: seq<Step>)
    requires WellFormed(s) && Feasible(s, steps)
    decreases |steps|
  {
    Covered(s) && (steps != [] ==> CoveredThroughout(Apply(s, steps[0]), steps[1..]))
  }

  ghost predicate NeverHarmful(s: System, steps: seq<Step>)
    requires WellFormed(s) && Feasible(s, steps)
    decreases |steps|
  {
    steps != [] ==> !Harmful(s, steps[0]) && NeverHarmful(Apply(s, steps[0]), steps[1..])
  }

  lemma {:induction false} CoveredExactly(s: System, steps: seq<Step>)
    requires WellFormed(s) && Feasible(s, steps) && Covered(s)
    ensures CoveredThroughout(s, steps) <==> NeverHarmful(s, steps)
    ensures NeverHarmful(s, steps) ==> Covered(After(s, steps))
    decreases |steps|
  {
    if steps != [] {
      CoveredUnlessHarmful(s, steps[0]);
      if !Harmful(s, steps[0]) {
        CoveredExactly(Apply(s, steps[0]), steps[1..]);
      }
    }
  }

  /** Over whole runs: the election's safety property holds in every state on the way exactly when
      no theft on the way was harmful. */
  lemma CoveredExactlyWhenNeverHarmful(steps: seq<Step>)
    requires Feasible(EMPTY, steps)
    ensures CoveredThroughout(EMPTY, steps) <==> NeverHarmful(EMPTY, steps)
  {
    CoveredExactly(EMPTY, steps);
  }

  /** With everyone connected and nothing in flight, covered means that only topmost introducers are active. */
  lemma SettledExactly(s: System)
    requires AllConnected(s) && Silent(s)
    ensures Covered(s) <==> forall i: Id :: Runs(s, i) && Active(s.nodes[i]) ==> Topmost(s, i)
  {
    var t := Forget(s);
    forall i: Id, j: Id
      ensures Outranks(t, j, i) <==> Outranks(s, j, i)
      ensures Outranks(s, j, i) ==>
                && !Asks(t.nodes[i], i) && !Answers(t.nodes[j], j)
                && (Active(t.nodes[i]) <==> Active(s.nodes[i]))
    {
    }
  }

  /** After a run without harmful thefts, once settled, only topmost introducers are active. */
  lemma SettlesWithoutHarm(steps: seq<Step>, i: Id)
    requires Feasible(EMPTY, steps) && NeverHarmful(EMPTY, steps)
    requires var s := After(EMPTY, steps); AllConnected(s) && Silent(s) && i < |s.nodes| && Active(s.nodes[i])
    ensures Topmost(After(EMPTY, steps), i)
  {
    CoveredExactly(EMPTY, steps);
    SettledExactly(After(EMPTY, steps));
  }

  lemma {:induction false} DeliveryKeepsConnected(s: System, steps: seq<Step>)
    requires WellFormed(s) && Feasible(s, steps) && AllDelivery(steps) && AllConnected(s)
    ensures AllConnected(After(s, steps)) && Staying(s, steps)
    decreases |steps|
  {
    if steps != [] {
      var t := Apply(s, steps[0]);
      forall i: Id | Runs(t, i)
        ensures t.nodes[i].connected
      {
        ActKeepsIdentity(steps[0].i, s.nodes[steps[0].i], steps[0].action);
      }
      DeliveryKeepsConnected(t, steps[1..]);
    }
  }

  /** A run that settles wrongly has had a harmful theft. */
  lemma WrongEndWasHarmful(steps: seq<Step>, i: Id, j: Id)
    requires Feasible(EMPTY, steps)
    requires var s := After(EMPTY, steps); AllConnected(s) && Silent(s) && Outranks(s, j, i) && Active(s.nodes[i])
    ensures !NeverHarmful(EMPTY, steps)
  {
    if NeverHarmful(EMPTY, steps) {
      SettlesWithoutHarm(steps, i);
    }
  }

  /** Harmful thefts do happen. */
  lemma HarmfulTheftsHappen() returns (steps: seq<Step>)
    ensures Feasible(EMPTY, steps) && !NeverHarmful(EMPTY, steps)
  {
    steps := Robbery.RobberyDefeatsTheElection();
    WrongEndWasHarmful(steps, 0, 1);
  }
}

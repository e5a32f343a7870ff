/** What the messages under way already decide.  From any state without departures one can read
    off which introducers will be active when everything has been delivered, in whatever order. */
module Fate {
  import opened Wire
  import opened Introducer
  import opened Clients
  import opened Bus
  import opened Election
  import opened Convergence
  import opened Drain
  import Coverage

  /** Program `m` has a roll call to publish, or will have one once it handles its reconnection. */
  predicate WillCall(s: System, m: Id)
  {
    && m < |s.nodes| && s.nodes[m].connected
    && (RollCall in s.nodes[m].outbox || (Runs(s, m) && ReconnectedNotice in s.nodes[m].inbox))
  }

  ghost predicate CalledBy(s: System, k: Id, m: Id)
    requires k < |s.nodes|
  {
    WillCall(s, m) && m != k && ShareKey(s.nodes[m].keys, s.nodes[k].keys)
  }

  /** Introducer `k` has yet to announce itself to everyone that hears it. */
  ghost predicate WillAnswer(s: System, k: Id)
    requires k < |s.nodes|
  {
    || HasRollCall(s.nodes[k], k)
    || ReconnectedNotice in s.nodes[k].inbox
    || exists m :: CalledBy(s, k, m)
  }

  /** Program `k` is about to publish a Present that outranks introducer `i`. */
  ghost predicate ToldBy(s: System, i: Id, k: Id)
    requires Runs(s, i)
  {
    && k < |s.nodes| && k != i && s.nodes[k].connected && ShareKey(s.nodes[k].keys, s.nodes[i].keys)
    && exists level :: level > s.nodes[i].role.level && Present(level) in s.nodes[k].outbox
  }

  /** Something that is under way will make introducer `i` step down. */
  ghost predicate Hope(s: System, i: Id)
    requires Runs(s, i)
  {
    || HasHigher(s.nodes[i], i)
    || (exists k :: ToldBy(s, i, k))
    || (exists k :: Outranks(s, k, i) && WillAnswer(s, k))
  }

  /** Introducer `i` is wrongly active, and nothing under way will correct it. */
  ghost predicate Doomed(s: System, i: Id)
  {
    Runs(s, i) && Active(s.nodes[i]) && !Topmost(s, i) && !Hope(s, i)
  }

  // ----- one receive -----

  /** The head of the inbox, as the introducer takes it. */
  lemma HeadIsHeard(i: Id, node: Node, content: Content)
    requires node.role.Intro? && node.inbox != [] && ActsOn(node.inbox[0], node.keys, i, content)
    ensures content == RollCall ==> HasRollCall(node, i)
    ensures content.Present? && content.level > node.role.level ==> HasHigher(node, i)
  {
    assert node.inbox[0] in node.inbox;
  }

  /** What an introducer has to handle still waits, or has been handled as it should. */
  lemma RollCallAnswered(i: Id, node: Node, env: Env)
    requires node.role.Intro? && CanAct(i, node, Receive(env)) && HasRollCall(node, i)
    ensures var e := Act(i, node, Receive(env)).node; HasRollCall(e, i) || Present(node.role.level) in e.outbox
  {
    TakesTheHead(i, node, env);
  }

  lemma ReconnectionHandled(i: Id, node: Node, env: Env)
    requires node.role.Intro? && CanAct(i, node, Receive(env)) && ReconnectedNotice in node.inbox
    ensures var e := Act(i, node, Receive(env)).node;
            ReconnectedNotice in e.inbox || (Present(node.role.level) in e.outbox && RollCall in e.outbox)
  {
    TakesTheHead(i, node, env);
  }

  /** An introducer comes back only by asking. */
  lemma ComesBackAsking(i: Id, node: Node, env: Env)
    requires node.role.Intro? && CanAct(i, node, Receive(env)) && !node.role.active
    ensures var e := Act(i, node, Receive(env)).node; e.role.Intro? && (e.role.active ==> RollCall in e.outbox)
  {
  }

  /** An introducer steps down only when it takes a higher Present. */
  lemma StepsDownOnHigher(i: Id, node: Node, env: Env)
    requires node.role.Intro? && CanAct(i, node, Receive(env)) && node.role.active
    ensures Act(i, node, Receive(env)).node.role.active || HasHigher(node, i)
  {
    if node.inbox[0].FromWire? && Open(node.inbox[0].body, node.keys, i).Some? {
      HeadIsHeard(i, node, Open(node.inbox[0].body, node.keys, i).value.content);
    }
  }

  lemma ReceiveKeepsBoxes(i: Id, node: Node, env: Env)
    requires RoleFits(node.role) && CanAct(i, node, Receive(env))
    ensures var e := Act(i, node, Receive(env)).node;
            && (forall item :: item in e.inbox ==> item in node.inbox)
            && (forall content :: content in node.outbox ==> content in e.outbox)
  {
  }

  /** A client announces nothing. */
  lemma ClientsAnnounceNothing(me: Id, task: Task, phase: Phase, input: Input)
    requires Fits(task, phase)
    ensures forall content :: content in ClientTurn(me, task, phase, input).outs ==>
              !content.Present? && content != RollCall
  {
  }

  lemma IntroducerAnnounces(level: real, keys: seq<Key>, active: bool, input: Input, content: Content)
    requires content in IntroTurn(level, keys, active, input).outs && (content == RollCall || content.Present?)
    requires !input.TimerFires?
    ensures content.Present? ==> content.level == level
    ensures input.Reconnected? || (content.Present? && input.packet.content == RollCall)
  {
  }

  /** Where a program's announcements come from when it takes an item. */
  lemma NewAnnouncement(i: Id, node: Node, env: Env, content: Content)
    requires RoleFits(node.role) && CanAct(i, node, Receive(env)) && (content == RollCall || content.Present?)
    requires content in Act(i, node, Receive(env)).node.outbox && content !in node.outbox
    ensures node.role.Intro? && (content.Present? ==> content.level == node.role.level)
    ensures ReconnectedNotice in node.inbox || (content.Present? && HasRollCall(node, i))
  {
    var head := node.inbox[0];
    assert head in node.inbox;
    var input := if head.ReconnectedNotice? then Input.Reconnected else Arrived(head.body.packet, env);
    match node.role
    case Intro(level, active) =>
      IntroducerAnnounces(level, node.keys, active, input, content);
      if head.FromWire? {
        HeadIsHeard(i, node, RollCall);
      }
    case Client(task, _, phase) => ClientsAnnounceNothing(i, task, phase, input);
    case Bystander =>
  }

  /** The state after a receive differs at the receiver only. */
  lemma ReceiveIsLocal(s: System, p: Id, env: Env)
    requires WellFormed(s) && Enabled(s, At(p, Receive(env)))
    ensures Apply(s, At(p, Receive(env))).nodes == s.nodes[p := Act(p, s.nodes[p], Receive(env)).node]
    ensures Act(p, s.nodes[p], Receive(env)).bodies == []
  {
    NothingToDeliver(s.nodes[p := Act(p, s.nodes[p], Receive(env)).node]);
  }

  // ----- one delivery step of either kind -----

  lemma DeliveryKeepsNode(i: Id, node: Node, action: Action)
    requires RoleFits(node.role) && CanAct(i, node, action) && (action.Publish? || action.Receive?)
    ensures var e := Act(i, node, action).node;
            && SameIdentity(node.role, e.role) && e.keys == node.keys
            && e.connected == node.connected && e.alive == node.alive
  {
    ActKeepsIdentity(i, node, action);
  }

  lemma SameNode(s: System, step: Step, i: Id)
    requires WellFormed(s) && Enabled(s, step) && IsDelivery(step) && i < |s.nodes|
    ensures |Apply(s, step).nodes| == |s.nodes|
    ensures var (a, b) := (s.nodes[i], Apply(s, step).nodes[i]);
            SameIdentity(a.role, b.role) && b.keys == a.keys && b.connected == a.connected && b.alive == a.alive
  {
    DeliveryKeepsNode(step.i, s.nodes[step.i], step.action);
  }

  lemma SameRanks(s: System, step: Step, i: Id, j: Id)
    requires WellFormed(s) && Enabled(s, step) && IsDelivery(step)
    ensures |Apply(s, step).nodes| == |s.nodes|
    ensures Runs(Apply(s, step), i) <==> Runs(s, i)
    ensures Outranks(Apply(s, step), j, i) <==> Outranks(s, j, i)
    ensures i < |s.nodes| ==> var (a, b) := (s.nodes[i], Apply(s, step).nodes[i]);
            SameIdentity(a.role, b.role) && b.keys == a.keys && b.connected == a.connected && b.alive == a.alive
  {
    var t := Apply(s, step);
    SameNode(s, step, step.i);
    if i < |s.nodes| {
      SameNode(s, step, i);
    }
    if j < |s.nodes| {
      SameNode(s, step, j);
    }
  }

  lemma InboxesGrow(s: System, p: Id, x: Id)
    requires WellFormed(s) && Enabled(s, At(p, Publish)) && x < |s.nodes|
    ensures var (a, b) := (s.nodes[x], Apply(s, At(p, Publish)).nodes[x]);
            && b.role == a.role && b.keys == a.keys && b.connected == a.connected && b.alive == a.alive
            && (forall item :: item in a.inbox ==> item in b.inbox)
            && (forall content :: content in b.outbox ==> content in a.outbox)
            && (forall content :: content in a.outbox && content !in b.outbox ==>
                  x == p && content == s.nodes[p].outbox[0])
            && (ReconnectedNotice in b.inbox ==> ReconnectedNotice in a.inbox)
  {
  }

  /** A content that an introducer will act on after a publish was there before, or has been published to it. */
  lemma NewlyHeard(s: System, p: Id, x: Id, item: Item, content: Content)
    requires WellFormed(s) && Enabled(s, At(p, Publish)) && x < |s.nodes| && content != RequestAuth
    requires var b := Apply(s, At(p, Publish)).nodes[x]; item in b.inbox && ActsOn(item, b.keys, x, content)
    ensures item in s.nodes[x].inbox
            || (content == s.nodes[p].outbox[0] && p != x && ShareKey(s.nodes[p].keys, s.nodes[x].keys))
  {
    var bodies := Prepare(s.nodes[p].outbox[0], s.nodes[p].keys, p);
    if item !in s.nodes[x].inbox {
      var n: nat :| n < |bodies| && Items(bodies)[n] == item;
      assert item.body == bodies[n];
    }
  }

  // ----- hope is not lost -----

  lemma CallIsKept(s: System, step: Step, k: Id, m: Id)
    requires WellFormed(s) && AllConnected(s) && Enabled(s, step) && IsDelivery(step)
    requires Runs(s, k) && CalledBy(s, k, m)
    ensures var t := Apply(s, step); HasRollCall(t.nodes[k], k) || CalledBy(t, k, m)
  {
    var t := Apply(s, step);
    SameRanks(s, step, m, k);
    SameRanks(s, step, k, m);
    match step.action
    case Publish =>
      InboxesGrow(s, step.i, m);
      if m == step.i && s.nodes[m].outbox[0] == RollCall {
        PublishedIsHeard(m, s.nodes[m].keys, RollCall, s.nodes[k], k);
      }
    case Receive(env) =>
      ReceiveIsLocal(s, step.i, env);
      ReceiveKeepsBoxes(step.i, s.nodes[step.i], env);
      if m == step.i && Runs(s, m) && ReconnectedNotice in s.nodes[m].inbox {
        ReconnectionHandled(m, s.nodes[m], env);
      }
  }

  lemma AnswerIsKept(s: System, step: Step, i: Id, k: Id)
    requires WellFormed(s) && AllConnected(s) && Enabled(s, step) && IsDelivery(step)
    requires Outranks(s, k, i) && WillAnswer(s, k)
    ensures var t := Apply(s, step); Runs(t, i) && Outranks(t, k, i) && (WillAnswer(t, k) || ToldBy(t, i, k))
  {
    var t := Apply(s, step);
    SameRanks(s, step, i, k);
    SameRanks(s, step, k, i);
    if m :| CalledBy(s, k, m) {
      CallIsKept(s, step, k, m);
    }
    match step.action
    case Publish => InboxesGrow(s, step.i, k);
    case Receive(env) =>
      ReceiveIsLocal(s, step.i, env);
      if k == step.i {
        if HasRollCall(s.nodes[k], k) {
          RollCallAnswered(k, s.nodes[k], env);
        }
        if ReconnectedNotice in s.nodes[k].inbox {
          ReconnectionHandled(k, s.nodes[k], env);
        }
      }
  }

  lemma TellingIsKept(s: System, step: Step, i: Id, k: Id)
    requires WellFormed(s) && AllConnected(s) && Enabled(s, step) && IsDelivery(step)
    requires Runs(s, i) && ToldBy(s, i, k)
    ensures var t := Apply(s, step); Runs(t, i) && (HasHigher(t.nodes[i], i) || ToldBy(t, i, k))
  {
    var t := Apply(s, step);
    SameRanks(s, step, i, k);
    SameRanks(s, step, k, i);
    var level :| level > s.nodes[i].role.level && Present(level) in s.nodes[k].outbox;
    match step.action
    case Publish =>
      InboxesGrow(s, step.i, k);
      if k == step.i && s.nodes[k].outbox[0] == Present(level) {
        PublishedIsHeard(k, s.nodes[k].keys, Present(level), s.nodes[i], i);
      }
    case Receive(env) =>
      ReceiveIsLocal(s, step.i, env);
      ReceiveKeepsBoxes(step.i, s.nodes[step.i], env);
  }

  /** An introducer that is still active has still to hear what it had to hear. */
  lemma HearingIsKept(s: System, step: Step, i: Id)
    requires WellFormed(s) && Enabled(s, step) && IsDelivery(step) && Runs(s, i) && HasHigher(s.nodes[i], i)
    ensures var t := Apply(s, step); Runs(t, i) && (Active(t.nodes[i]) ==> HasHigher(t.nodes[i], i))
  {
    var t := Apply(s, step);
    SameRanks(s, step, i, i);
    match step.action
    case Publish => InboxesGrow(s, step.i, i);
    case Receive(env) =>
      ReceiveIsLocal(s, step.i, env);
      if i == step.i {
        HigherIsTaken(i, s.nodes[i], env);
      }
  }

  lemma HopeIsKept(s: System, step: Step, i: Id)
    requires WellFormed(s) && AllConnected(s) && Enabled(s, step) && IsDelivery(step)
    requires Runs(s, i) && Hope(s, i)
    ensures var t := Apply(s, step); Runs(t, i) && (Active(t.nodes[i]) ==> Hope(t, i))
  {
    SameRanks(s, step, i, i);
    if HasHigher(s.nodes[i], i) {
      HearingIsKept(s, step, i);
    } else if k :| ToldBy(s, i, k) {
      TellingIsKept(s, step, i, k);
    } else {
      var k :| Outranks(s, k, i) && WillAnswer(s, k);
      AnswerIsKept(s, step, i, k);
    }
  }

  /** An introducer that becomes active asks. */
  lemma WakingAsks(s: System, step: Step, i: Id, k: Id)
    requires WellFormed(s) && AllConnected(s) && Enabled(s, step) && IsDelivery(step)
    requires Outranks(s, k, i) && !Active(s.nodes[i]) && Active(Apply(s, step).nodes[i])
    ensures Hope(Apply(s, step), i)
  {
    var t := Apply(s, step);
    SameRanks(s, step, i, k);
    SameRanks(s, step, k, i);
    match step.action
    case Publish => InboxesGrow(s, step.i, i);
    case Receive(env) =>
      ReceiveIsLocal(s, step.i, env);
      if i == step.i {
        ComesBackAsking(i, s.nodes[i], env);
      }
      assert CalledBy(t, k, i);
  }

  // ----- no hope comes of nothing -----

  lemma CallIsOld(s: System, step: Step, k: Id, m: Id)
    requires WellFormed(s) && Enabled(s, step) && IsDelivery(step)
    requires k < |s.nodes| && CalledBy(Apply(s, step), k, m)
    ensures CalledBy(s, k, m)
  {
    SameRanks(s, step, m, k);
    SameRanks(s, step, k, m);
    match step.action
    case Publish => InboxesGrow(s, step.i, m);
    case Receive(env) =>
      ReceiveIsLocal(s, step.i, env);
      ReceiveKeepsBoxes(step.i, s.nodes[step.i], env);
      if m == step.i && RollCall in Apply(s, step).nodes[m].outbox && RollCall !in s.nodes[m].outbox {
        NewAnnouncement(m, s.nodes[m], env, RollCall);
      }
  }

  lemma AnswerIsOld(s: System, step: Step, k: Id)
    requires WellFormed(s) && Enabled(s, step) && IsDelivery(step)
    requires k < |s.nodes| && WillAnswer(Apply(s, step), k)
    ensures WillAnswer(s, k)
  {
    var t := Apply(s, step);
    SameRanks(s, step, k, k);
    if m :| CalledBy(t, k, m) {
      CallIsOld(s, step, k, m);
    }
    match step.action
    case Publish =>
      InboxesGrow(s, step.i, k);
      if HasRollCall(t.nodes[k], k) {
        var item :| item in t.nodes[k].inbox && ActsOn(item, t.nodes[k].keys, k, RollCall);
        NewlyHeard(s, step.i, k, item, RollCall);
        assert item !in s.nodes[k].inbox ==> CalledBy(s, k, step.i);
      }
    case Receive(env) =>
      ReceiveIsLocal(s, step.i, env);
      ReceiveKeepsBoxes(step.i, s.nodes[step.i], env);
  }

  lemma TellingIsOld(s: System, step: Step, i: Id, k: Id)
    requires WellFormed(s) && Enabled(s, step) && IsDelivery(step)
    requires Runs(s, i) && Runs(Apply(s, step), i) && ToldBy(Apply(s, step), i, k)
    requires AllConnected(s)
    ensures Hope(s, i)
  {
    var t := Apply(s, step);
    SameRanks(s, step, i, k);
    SameRanks(s, step, k, i);
    var level :| level > s.nodes[i].role.level && Present(level) in t.nodes[k].outbox;
    match step.action
    case Publish =>
      InboxesGrow(s, step.i, k);
      assert ToldBy(s, i, k);
    case Receive(env) =>
      ReceiveIsLocal(s, step.i, env);
      ReceiveKeepsBoxes(step.i, s.nodes[step.i], env);
      if Present(level) in s.nodes[k].outbox {
        assert ToldBy(s, i, k);
      } else {
        NewAnnouncement(k, s.nodes[k], env, Present(level));
        assert Outranks(s, k, i) && WillAnswer(s, k);
      }
  }

  lemma HearingIsOld(s: System, step: Step, i: Id)
    requires WellFormed(s) && Enabled(s, step) && IsDelivery(step)
    requires Runs(s, i) && Apply(s, step).nodes[i].role.Intro? && HasHigher(Apply(s, step).nodes[i], i)
    ensures Hope(s, i)
  {
    var t := Apply(s, step);
    SameRanks(s, step, i, i);
    var node := t.nodes[i];
    var item, level :| item in node.inbox && level > node.role.level && ActsOn(item, node.keys, i, Present(level));
    match step.action
    case Publish =>
      NewlyHeard(s, step.i, i, item, Present(level));
      assert item !in s.nodes[i].inbox ==> ToldBy(s, i, step.i);
    case Receive(env) =>
      ReceiveIsLocal(s, step.i, env);
      ReceiveKeepsBoxes(step.i, s.nodes[step.i], env);
  }

  lemma HopeIsOld(s: System, step: Step, i: Id)
    requires WellFormed(s) && AllConnected(s) && Enabled(s, step) && IsDelivery(step)
    requires Runs(s, i) && Runs(Apply(s, step), i) && Hope(Apply(s, step), i)
    ensures Hope(s, i)
  {
    var t := Apply(s, step);
    if HasHigher(t.nodes[i], i) {
      HearingIsOld(s, step, i);
    } else if k :| ToldBy(t, i, k) {
      TellingIsOld(s, step, i, k);
    } else {
      var k :| Outranks(t, k, i) && WillAnswer(t, k);
      SameRanks(s, step, i, k);
      AnswerIsOld(s, step, k);
    }
  }

  /** Without a reason to step down an introducer stays active. */
  lemma HopelessStaysActive(s: System, step: Step, i: Id)
    requires WellFormed(s) && Enabled(s, step) && IsDelivery(step)
    requires Runs(s, i) && Active(s.nodes[i]) && !HasHigher(s.nodes[i], i)
    ensures Active(Apply(s, step).nodes[i])
  {
    SameRanks(s, step, i, i);
    match step.action
    case Publish => InboxesGrow(s, step.i, i);
    case Receive(env) =>
      ReceiveIsLocal(s, step.i, env);
      if i == step.i {
        StepsDownOnHigher(i, s.nodes[i], env);
      }
  }

  // ----- the whole delivery -----

  lemma RanksStay(s: System, step: Step, i: Id)
    requires WellFormed(s) && Enabled(s, step) && IsDelivery(step)
    ensures Runs(Apply(s, step), i) <==> Runs(s, i)
    ensures Topmost(Apply(s, step), i) <==> Topmost(s, i)
  {
    SameRanks(s, step, i, i);
    forall j: Id
      ensures Outranks(Apply(s, step), j, i) <==> Outranks(s, j, i)
    {
      SameRanks(s, step, i, j);
    }
  }

  /** No delivery step dooms an introducer or saves a doomed one. */
  lemma FateIsFixed(s: System, step: Step, i: Id)
    requires WellFormed(s) && AllConnected(s) && Enabled(s, step) && IsDelivery(step)
    ensures Doomed(Apply(s, step), i) <==> Doomed(s, i)
  {
    var t := Apply(s, step);
    RanksStay(s, step, i);
    if Runs(s, i) && !Topmost(s, i) {
      if Doomed(s, i) {
        HopelessStaysActive(s, step, i);
        if Hope(t, i) {
          HopeIsOld(s, step, i);
        }
      } else if Active(s.nodes[i]) {
        HopeIsKept(s, step, i);
      } else if Active(t.nodes[i]) {
        var k :| Outranks(s, k, i);
        WakingAsks(s, step, i, k);
      }
    }
  }

  lemma {:induction false} FateOverDeliveries(s: System, steps: seq<Step>, i: Id)
    requires WellFormed(s) && AllConnected(s) && Feasible(s, steps) && AllDelivery(steps)
    ensures Doomed(After(s, steps), i) <==> Doomed(s, i)
    decreases |steps|
  {
    if steps != [] {
      var t := Apply(s, steps[0]);
      forall j: Id | Runs(t, j)
        ensures t.nodes[j].connected
      {
        SameRanks(s, steps[0], j, j);
      }
      FateIsFixed(s, steps[0], i);
      FateOverDeliveries(t, steps[1..], i);
    }
  }

  lemma NoHopeInSilence(s: System, i: Id)
    requires Drained(s) && AllConnected(s) && Runs(s, i)
    ensures !Hope(s, i)
  {
    DrainedIsSilent(s);
    forall k: Id
      ensures !ToldBy(s, i, k) && !WillCall(s, k)
    {
      assert IsDelivery(At(k, Publish)) && !Enabled(s, At(k, Publish));
    }
  }

  /** If nobody has ever left, then from any state with everyone connected: every order of
      deliveries that runs to the end elects exactly the topmost introducers if nobody is doomed
      at its start, and no order does if somebody is. */
  lemma ElectsExactlyUnlessDoomed(before: seq<Step>, deliveries: seq<Step>)
    requires Staying(EMPTY, before) && Feasible(EMPTY, before)
    requires var s := After(EMPTY, before);
             AllConnected(s) && Feasible(s, deliveries) && AllDelivery(deliveries) && Drained(After(s, deliveries))
    ensures var s := After(EMPTY, before);
            Elected(After(s, deliveries)) <==> forall i: Id :: !Doomed(s, i)
  {
    var s := After(EMPTY, before);
    var t := After(s, deliveries);
    Coverage.DeliveryKeepsConnected(s, deliveries);
    forall i: Id
      ensures Doomed(s, i) <==> Runs(t, i) && Active(t.nodes[i]) && !Topmost(t, i)
      ensures Topmost(t, i) ==> Active(t.nodes[i])
    {
      FateOverDeliveries(s, deliveries, i);
      if Runs(t, i) {
        NoHopeInSilence(t, i);
      }
      if Topmost(t, i) {
        TopmostAfterDeliveries(before, deliveries, i);
      }
    }
  }

  /** Whoever is covered is not doomed. */
  lemma CoveredIsNotDoomed(s: System, i: Id)
    requires Coverage.Covered(s) && AllConnected(s)
    ensures !Doomed(s, i)
  {
    if Runs(s, i) && Active(s.nodes[i]) && !Topmost(s, i) {
      var j: Id :| Outranks(s, j, i);
      var t := Coverage.Forget(s);
      assert Outranks(t, j, i) && Active(t.nodes[i]);
      assert Asks(t.nodes[i], i) || Answers(t.nodes[j], j);
      CoveringIsHope(s, i, j);
    }
  }

  lemma CoveringIsHope(s: System, i: Id, j: Id)
    requires Outranks(s, j, i) && AllConnected(s)
    requires Asks(Coverage.Trusted(s.nodes[i]), i) || Answers(Coverage.Trusted(s.nodes[j]), j)
    ensures Hope(s, i)
  {
    var (low, high) := (Coverage.Trusted(s.nodes[i]), Coverage.Trusted(s.nodes[j]));
    assert HasHigher(low, i) ==> HasHigher(s.nodes[i], i);
    assert HasRollCall(high, j) ==> HasRollCall(s.nodes[j], j);
    if WillCall(s, i) {
      assert CalledBy(s, j, i);
    }
    if Present(s.nodes[j].role.level) in s.nodes[j].outbox {
      assert ToldBy(s, i, j);
    }
  }

  /** If nobody has ever left and no theft was harmful, every order of deliveries that runs to the
      end elects exactly the topmost introducers. */
  lemma ElectsWithoutHarm(before: seq<Step>, deliveries: seq<Step>)
    requires Staying(EMPTY, before) && Feasible(EMPTY, before) && Coverage.NeverHarmful(EMPTY, before)
    requires var s := After(EMPTY, before);
             AllConnected(s) && Feasible(s, deliveries) && AllDelivery(deliveries) && Drained(After(s, deliveries))
    ensures Elected(After(After(EMPTY, before), deliveries))
  {
    Coverage.CoveredExactly(EMPTY, before);
    forall i: Id
      ensures !Doomed(After(EMPTY, before), i)
    {
      CoveredIsNotDoomed(After(EMPTY, before), i);
    }
    ElectsExactlyUnlessDoomed(before, deliveries);
  }
}

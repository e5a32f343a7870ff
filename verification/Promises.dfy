/** What a client may conclude, over every run of the bus from the empty system. */
module Promises {
  import opened Wrappers
  import opened Wire
  import opened Introducer
  import opened Clients
  import opened Bus
  import opened Provenance

  lemma {:induction false} AccountedAfter(s: System, steps: seq<Step>)
    requires WellFormed(s) && Accounted(s) && Feasible(s, steps)
    ensures Accounted(After(s, steps))
    decreases |steps|
  {
    if steps != [] {
      ApplyKeepsAccounted(s, steps[0]);
      AccountedAfter(Apply(s, steps[0]), steps[1..]);
    }
  }

  /** The introducer `i` is active and the next thing it takes is this request. */
  ghost predicate ServesNext(s: System, i: Id, client: Id, request: Content)
  {
    && i < |s.nodes|
    && var node := s.nodes[i];
    && node.alive && node.role.Intro? && node.role.active && node.inbox != []
    && node.inbox[0].FromWire? && Open(node.inbox[0].body, node.keys, i) == Some(Packet(client, request))
  }

  /** The step from `s` does this deed, for this reason. */
  ghost predicate Does(s: System, step: Step, entry: Entry)
  {
    && step.At? && step.i == entry.who
    && match entry.deed
       case Vouched(client) => step.action.Receive? && ServesNext(s, entry.who, client, TestAuth)
       case Copied(client, data) => step.action.Receive? && ServesNext(s, entry.who, client, CopyData(data))
       case Displayed(client, noteId, text) =>
         && step.action.Receive?
         && exists noteLevel :: ServesNext(s, entry.who, client, Notification(noteId, text, noteLevel))
       case _ => true
  }

  predicate IsService(deed: Deed)
  {
    deed.Vouched? || deed.Copied? || deed.Displayed?
  }

  lemma ServiceIsServed(keys: seq<Key>, packet: Packet, env: Env, deed: Deed)
    requires deed in Serve(keys, packet, env).deeds && IsService(deed)
    ensures match deed
            case Vouched(client) => packet == Packet(client, TestAuth)
            case Copied(client, data) => packet == Packet(client, CopyData(data))
            case Displayed(client, noteId, text) =>
              exists noteLevel :: packet == Packet(client, Notification(noteId, text, noteLevel))
            case _ => false
  {
    if deed.Displayed? {
      assert packet == Packet(deed.client, Notification(deed.noteId, deed.text, packet.content.noteLevel));
    }
  }

  /** A program serves only by taking a request, as an active introducer. */
  lemma ServiceIsTaken(i: Id, node: Node, action: Action, deed: Deed)
    requires RoleFits(node.role) && CanAct(i, node, action)
    requires deed in Act(i, node, action).deeds && IsService(deed)
    ensures action.Receive? && node.role.Intro? && node.role.active && node.inbox[0].FromWire?
    ensures var packet := Open(node.inbox[0].body, node.keys, i);
            packet.Some? && deed in Serve(node.keys, packet.value, action.env).deeds
  {
  }

  /** Every new service in the log was done by the program that acted. */
  lemma NewServices(s: System, step: Step)
    requires WellFormed(s) && Enabled(s, step)
    ensures forall entry :: entry in Apply(s, step).log && IsService(entry.deed) ==>
              || entry in s.log
              || (step.At? && step.i == entry.who && entry.deed in Act(step.i, s.nodes[step.i], step.action).deeds)
  {
    match step
    case Join(newcomer, _) => LogGrowsBy(s, Apply(s, step), |s.nodes|, Birth(newcomer).deeds);
    case At(i, action) => LogGrowsBy(s, Apply(s, step), i, Act(i, s.nodes[i], action).deeds);
  }

  lemma NewEntryIsDone(s: System, step: Step, entry: Entry)
    requires WellFormed(s) && Enabled(s, step) && entry !in s.log && entry in Apply(s, step).log
    requires IsService(entry.deed)
    ensures Does(s, step, entry)
  {
    NewServices(s, step);
    var node := s.nodes[step.i];
    ServiceIsTaken(step.i, node, step.action, entry.deed);
    ServiceIsServed(node.keys, Open(node.inbox[0].body, node.keys, step.i).value, step.action.env, entry.deed);
  }

  /** The state reached after the first `n` steps. */
  ghost predicate AtPoint(s: System, steps: seq<Step>, n: nat, t: System)
    requires WellFormed(s)
  {
    n <= |steps| && Feasible(s, steps[..n]) && After(s, steps[..n]) == t
  }

  /** A served request in the log was served at some step of the run, by an active introducer. */
  lemma {:induction false} LoggedWasDone(s: System, steps: seq<Step>, entry: Entry)
    returns (n: nat, t: System)
    requires WellFormed(s) && Feasible(s, steps) && entry !in s.log && entry in After(s, steps).log
    requires IsService(entry.deed)
    ensures n < |steps| && AtPoint(s, steps, n, t) && Does(t, steps[n], entry)
    decreases |steps|
  {
    var next := Apply(s, steps[0]);
    if entry in next.log {
      NewEntryIsDone(s, steps[0], entry);
      n, t := 0, s;
    } else {
      var m, u := LoggedWasDone(next, steps[1..], entry);
      n, t := m + 1, u;
      assert steps[..n][1..] == steps[1..][..m];
    }
  }

  /** At some step of the run, introducer `x`, active in the state just before, took this request. */
  ghost predicate WasServed(steps: seq<Step>, x: Id, client: Id, request: Content)
  {
    exists n: nat, t: System ::
      AtPoint(EMPTY, steps, n, t) && n < |steps| && steps[n].At? && steps[n].i == x && steps[n].action.Receive?
      && ServesNext(t, x, client, request)
  }

  ghost predicate HoldAKeyInCommon(s: System, x: Id, client: Id)
  {
    x < |s.nodes| && client < |s.nodes| && ShareKey(s.nodes[x].keys, s.nodes[client].keys)
  }

  predicate GotPastTheCheck(s: System, client: Id)
  {
    && client < |s.nodes| && s.nodes[client].role.Client? && !s.nodes[client].role.trust
    && !s.nodes[client].role.phase.Authing? && !s.nodes[client].role.phase.Failed?
  }

  /** A client that connected with key checking, and was not turned away, holds a key of an
      introducer that was active when it handled the client's test. */
  lemma AcceptedKeyIsHeld(steps: seq<Step>, client: Id)
    requires Feasible(EMPTY, steps) && GotPastTheCheck(After(EMPTY, steps), client)
    ensures exists x: Id :: WasServed(steps, x, client, TestAuth) && HoldAKeyInCommon(After(EMPTY, steps), x, client)
  {
    var s := After(EMPTY, steps);
    AccountedAfter(EMPTY, steps);
    assert ClientBacked(s, client, s.nodes[client].role);
    var x :| Entry(x, Vouched(client)) in s.log;
    var m: nat :| m < |s.log| && s.log[m] == Entry(x, Vouched(client));
    assert EntryBacked(s, m);
    var n, t := LoggedWasDone(EMPTY, steps, Entry(x, Vouched(client)));
    assert WasServed(steps, x, client, TestAuth);
  }

  predicate CopyReported(s: System, client: Id, data: string)
  {
    client < |s.nodes| && s.nodes[client].role.Client? && s.nodes[client].role.task == Copy(data)
    && s.nodes[client].role.phase.Succeeded?
  }

  /** A remote copy that reports success put exactly its data on the clipboard of an active introducer. */
  lemma CopiedMeansCopied(steps: seq<Step>, client: Id, data: string)
    requires Feasible(EMPTY, steps) && CopyReported(After(EMPTY, steps), client, data)
    ensures exists x: Id ::
              && WasServed(steps, x, client, CopyData(data)) && HoldAKeyInCommon(After(EMPTY, steps), x, client)
              && Entry(x, Copied(client, data)) in After(EMPTY, steps).log
  {
    var s := After(EMPTY, steps);
    AccountedAfter(EMPTY, steps);
    assert ClientBacked(s, client, s.nodes[client].role);
    var x :| Entry(x, Copied(client, data)) in s.log;
    var m: nat :| m < |s.log| && s.log[m] == Entry(x, Copied(client, data));
    assert EntryBacked(s, m);
    var n, t := LoggedWasDone(EMPTY, steps, Entry(x, Copied(client, data)));
    assert WasServed(steps, x, client, CopyData(data));
  }

  /** The client waits to hear that its notification was displayed. */
  predicate AwaitsDisplay(s: System, client: Id)
  {
    && client < |s.nodes| && s.nodes[client].role.Client?
    && var phase := s.nodes[client].role.phase;
    phase.TriggerNote? || phase.DoneNote? || phase.SendNote?
  }

  /** A client that waits for a display and moves on by what it receives has heard that it was displayed. */
  lemma MovesOnByReport(i: Id, node: Node, env: Env)
    requires RoleFits(node.role) && CanAct(i, node, Receive(env)) && node.role.Client?
    requires node.role.phase.TriggerNote? || node.role.phase.DoneNote? || node.role.phase.SendNote?
    requires Act(i, node, Receive(env)).node.role != node.role
    ensures node.inbox[0].FromWire?
    ensures var packet := Open(node.inbox[0].body, node.keys, i);
            packet == Some(node.inbox[0].body.packet)
            && packet.value.content.NotificationDisplayed? && packet.value.content.origin == i
  {
  }

  /** A notification in the log as displayed was taken by an active introducer. */
  lemma DisplayedWasServed(steps: seq<Step>, x: Id, client: Id, noteId: string, text: string)
    requires Feasible(EMPTY, steps) && Entry(x, Displayed(client, noteId, text)) in After(EMPTY, steps).log
    ensures exists level :: WasServed(steps, x, client, Notification(noteId, text, level))
    ensures HoldAKeyInCommon(After(EMPTY, steps), x, client)
  {
    var s := After(EMPTY, steps);
    var entry := Entry(x, Displayed(client, noteId, text));
    AccountedAfter(EMPTY, steps);
    var m: nat :| m < |s.log| && s.log[m] == entry;
    assert EntryBacked(s, m);
    var n, t := LoggedWasDone(EMPTY, steps, entry);
    var level :| ServesNext(t, x, client, Notification(noteId, text, level));
    assert WasServed(steps, x, client, Notification(noteId, text, level));
  }

  lemma ReportInLog(s: System, client: Id, packet: Packet)
    requires Backed(s, packet.sender, packet.content)
    requires packet.content.NotificationDisplayed? && packet.content.origin == client
    ensures Entry(packet.sender, Displayed(client, packet.content.noteId, packet.content.text)) in s.log
  {
  }

  /** What the client takes next is backed by the log. */
  lemma NextIsBacked(s: System, client: Id)
    requires Accounted(s) && client < |s.nodes| && s.nodes[client].inbox != [] && s.nodes[client].inbox[0].FromWire?
    ensures var packet := s.nodes[client].inbox[0].body.packet; Backed(s, packet.sender, packet.content)
  {
    assert NodeBacked(s, client, s.nodes[client]) && FromWire(s.nodes[client].inbox[0].body) in s.nodes[client].inbox;
  }

  /** What a display report shows: a notification with this id and text was taken by an active
      introducer that shares a key with the client, and was displayed. */
  ghost predicate WasDisplayed(steps: seq<Step>, client: Id, x: Id, noteId: string, text: string)
    requires Feasible(EMPTY, steps)
  {
    && (exists level :: WasServed(steps, x, client, Notification(noteId, text, level)))
    && HoldAKeyInCommon(After(EMPTY, steps), x, client)
    && Entry(x, Displayed(client, noteId, text)) in After(EMPTY, steps).log
  }

  /** A client that stops waiting for a display by a message, and not by the timer, had a notification
      displayed by an introducer that was active when it took it and that shares a key with the client. */
  lemma ReportedMeansDisplayed(steps: seq<Step>, client: Id, env: Env)
    requires Feasible(EMPTY, steps) && AwaitsDisplay(After(EMPTY, steps), client)
    requires var s := After(EMPTY, steps);
             && Enabled(s, At(client, Receive(env)))
             && Act(client, s.nodes[client], Receive(env)).node.role != s.nodes[client].role
    ensures exists x: Id, noteId, text :: WasDisplayed(steps, client, x, noteId, text)
  {
    var s := After(EMPTY, steps);
    AccountedAfter(EMPTY, steps);
    MovesOnByReport(client, s.nodes[client], env);
    NextIsBacked(s, client);
    var packet := s.nodes[client].inbox[0].body.packet;
    ReportInLog(s, client, packet);
    DisplayedWasServed(steps, packet.sender, client, packet.content.noteId, packet.content.text);
    assert WasDisplayed(steps, client, packet.sender, packet.content.noteId, packet.content.text);
  }

  // ----- chains of `run` processes -----

  /** Each process waits, without trigger-always, on a trigger that only its predecessor sends. */
  ghost predicate IsChain(s: System, chain: seq<Id>)
  {
    forall k :: 0 < k < |chain| ==> Follower(s, chain[k-1], chain[k])
  }

  ghost predicate Follower(s: System, before: Id, after: Id)
  {
    && after < |s.nodes| && s.nodes[after].role.Client?
    && var task := s.nodes[after].role.task;
    && task.Run? && task.waitFor.Some? && !task.always
    && forall p :: 0 <= p < |s.nodes| && SendsTo(s.nodes[p].role, task.waitFor.value) ==> p == before
  }

  ghost predicate LoggedAt(s: System, n: nat, entry: Entry)
  {
    n < |s.log| && s.log[n] == entry
  }

  /** Command `k` of the chain starts at log position `n`, after each earlier command
      started and then finished successfully, one after the other. */
  ghost predicate InOrder(s: System, chain: seq<Id>, k: nat, n: nat)
    requires k < |chain|
    decreases k, 0
  {
    LoggedAt(s, n, Entry(chain[k], Started)) && (k > 0 ==> DoneBefore(s, chain, k-1, n))
  }

  ghost predicate DoneBefore(s: System, chain: seq<Id>, k: nat, n: nat)
    requires k < |chain|
    decreases k, 1
  {
    exists finished: nat, started: nat ::
      && LoggedAt(s, finished, Entry(chain[k], Finished(true))) && LoggedAt(s, started, Entry(chain[k], Started))
      && started < finished < n && InOrder(s, chain, k, started)
  }

  lemma {:induction false} StartedInOrder(s: System, chain: seq<Id>, k: nat, n: nat)
    requires Accounted(s) && IsChain(s, chain) && k < |chain|
    requires LoggedAt(s, n, Entry(chain[k], Started))
    ensures InOrder(s, chain, k, n)
  {
    if k > 0 {
      var (before, after) := (chain[k-1], chain[k]);
      assert Follower(s, before, after) && EntryBacked(s, n);
      var finished: nat :| finished < n && s.log[finished].deed == Finished(true) && s.log[finished].who < |s.nodes|
                           && SendsTo(s.nodes[s.log[finished].who].role, s.nodes[after].role.task.waitFor.value);
      assert EntryBacked(s, finished);
      assert LoggedAt(s, finished, Entry(before, Finished(true)));
      var started: nat :| started < finished && s.log[started] == Entry(before, Started);
      assert LoggedAt(s, started, Entry(before, Started));
      StartedInOrder(s, chain, k-1, started);
    }
  }

  lemma ChainRunsInOrder(steps: seq<Step>, chain: seq<Id>, k: nat, n: nat)
    requires Feasible(EMPTY, steps) && IsChain(After(EMPTY, steps), chain) && k < |chain|
    requires LoggedAt(After(EMPTY, steps), n, Entry(chain[k], Started))
    ensures InOrder(After(EMPTY, steps), chain, k, n)
  {
    AccountedAfter(EMPTY, steps);
    StartedInOrder(After(EMPTY, steps), chain, k, n);
  }

  lemma {:induction false} EarlierSucceeded(s: System, chain: seq<Id>, k: nat, n: nat, j: nat) returns (m: nat)
    requires j < k < |chain| && InOrder(s, chain, k, n)
    ensures m < n && LoggedAt(s, m, Entry(chain[j], Finished(true)))
  {
    var finished: nat, started: nat :|
      && LoggedAt(s, finished, Entry(chain[k-1], Finished(true))) && LoggedAt(s, started, Entry(chain[k-1], Started))
      && started < finished < n && InOrder(s, chain, k-1, started);
    if j == k - 1 {
      m := finished;
    } else {
      m := EarlierSucceeded(s, chain, k-1, started, j);
    }
  }

  /** A command ends once. */
  lemma OneOutcome(s: System, p: Id, m: nat, n: nat)
    requires Accounted(s) && LoggedAt(s, m, Entry(p, Finished(true)))
    ensures !LoggedAt(s, n, Entry(p, Finished(false)))
  {
    assert EntryBacked(s, m);
    if n < |s.log| {
      assert EntryBacked(s, n);
    }
  }

  /** After a failure no later command of the chain ever runs. */
  lemma FailureStopsTheChain(steps: seq<Step>, chain: seq<Id>, j: nat, k: nat, bad: nat, n: nat)
    requires Feasible(EMPTY, steps) && IsChain(After(EMPTY, steps), chain) && j < k < |chain|
    requires LoggedAt(After(EMPTY, steps), bad, Entry(chain[j], Finished(false)))
    ensures !LoggedAt(After(EMPTY, steps), n, Entry(chain[k], Started))
  {
    var s := After(EMPTY, steps);
    AccountedAfter(EMPTY, steps);
    if LoggedAt(s, n, Entry(chain[k], Started)) {
      StartedInOrder(s, chain, k, n);
      var good := EarlierSucceeded(s, chain, k, n, j);
      OneOutcome(s, chain[j], good, bad);
      assert false;
    }
  }
}

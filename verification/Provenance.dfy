/** Where messages come from: every reply on the bus has the deed it reports behind it, in
    the log, before it.  From this follow what an accepted key, a finished remote copy and a
    trigger mean. */
module Provenance {
  import opened Wrappers
  import opened Wire
  import opened Introducer
  import opened Clients
  import opened Bus

  predicate SendsTo(role: Role, name: string)
  {
    role.Client? && role.task.Run? && role.task.sendTo == Some(name)
  }

  /** The deed a message reports is in the log; an announcement is the sender's own. */
  ghost predicate Backed(s: System, sender: Id, content: Content)
  {
    && sender < |s.nodes|
    && var role := s.nodes[sender].role;
    match content
    case Present(level) => role.Intro? && role.level == level
    case AuthValid(client) => Entry(sender, Vouched(client)) in s.log
    case DataCopied(client) => exists data :: Entry(sender, Copied(client, data)) in s.log
    case URLOpened(client) => exists url, isHtml :: Entry(sender, OpenedUrl(client, url, isHtml)) in s.log
    case NotificationDisplayed(client, noteId, text, _, _) => Entry(sender, Displayed(client, noteId, text)) in s.log
    case CopyData(data) => role.Client? ==> role.task == Copy(data)
    case Trigger(name, ok) => SendsTo(role, name) && Entry(sender, Finished(ok)) in s.log
    case _ => true
  }

  ghost predicate BodyBacked(s: System, body: Body)
  {
    && Backed(s, body.packet.sender, body.packet.content)
    && (body.Sealed? ==> body.key in s.nodes[body.packet.sender].keys)
  }

  ghost predicate NodeBacked(s: System, i: Id, node: Node)
  {
    && (forall content :: content in node.outbox ==> Backed(s, i, content))
    && (forall body :: FromWire(body) in node.inbox ==> BodyBacked(s, body))
  }

  ghost predicate VouchedFor(s: System, i: Id)
  {
    exists x :: Entry(x, Vouched(i)) in s.log
  }

  ghost predicate CopyMade(s: System, i: Id, data: string)
  {
    exists x :: Entry(x, Copied(i, data)) in s.log
  }

  /** A process that sends this trigger has finished successfully. */
  ghost predicate Released(s: System, name: string)
  {
    exists p: Id :: p < |s.nodes| && SendsTo(s.nodes[p].role, name) && Entry(p, Finished(true)) in s.log
  }

  predicate Launched(task: Task, phase: Phase)
  {
    task.Run? && (phase.Running? || phase.DoneNote? || phase.SendNote? || phase.Succeeded?)
  }

  /** What a client's phase says about the log. */
  ghost predicate ClientBacked(s: System, i: Id, role: Role)
    requires role.Client?
  {
    var (task, phase) := (role.task, role.phase);
    && (!role.trust && !phase.Authing? && !phase.Failed? ==> VouchedFor(s, i))
    && (task.Copy? && phase.Succeeded? ==> CopyMade(s, i, task.data))
    && (task.Run? && (phase.Waiting? || phase.TriggerNote?) ==> task.waitFor.Some?)
    && (task.Run? && task.waitFor.Some? && phase == TriggerNote(true) ==> Released(s, task.waitFor.value))
    && (Launched(task, phase) <==> Entry(i, Started) in s.log)
    && (phase.DoneNote? || phase.SendNote? ==> Entry(i, Finished(phase.ok)) in s.log)
    && (forall ok :: Entry(i, Finished(ok)) in s.log ==> Launched(task, phase) && !phase.Running?)
  }

  /** What each log entry says about the ones before it. */
  ghost predicate EntryBacked(s: System, n: nat)
    requires n < |s.log|
  {
    var who := s.log[n].who;
    && who < |s.nodes|
    && var role := s.nodes[who].role;
    match s.log[n].deed
    case Vouched(client) => role.Intro? && client < |s.nodes| && ShareKey(s.nodes[who].keys, s.nodes[client].keys)
    case Copied(client, data) =>
      && role.Intro? && client < |s.nodes|
      && (s.nodes[client].role.Client? ==>
            s.nodes[client].role.task == Copy(data) && ShareKey(s.nodes[who].keys, s.nodes[client].keys))
    case Displayed(client, _, _) =>
      role.Intro? && client < |s.nodes| && ShareKey(s.nodes[who].keys, s.nodes[client].keys)
    case Started =>
      && role.Client? && role.task.Run?
      && (forall m :: 0 <= m < n ==> s.log[m] != s.log[n])
      && (role.task.waitFor.Some? && !role.task.always ==> ReleasedBefore(s, n, role.task.waitFor.value))
    case Finished(_) =>
      && (exists m :: 0 <= m < n && s.log[m] == Entry(who, Started))
      && (forall m :: 0 <= m < n && s.log[m].who == who ==> !s.log[m].deed.Finished?)
    case _ => true
  }

  ghost predicate ReleasedBefore(s: System, n: nat, name: string)
    requires n <= |s.log|
  {
    exists m: nat ::
      && m < n && s.log[m].deed == Finished(true)
      && s.log[m].who < |s.nodes| && SendsTo(s.nodes[s.log[m].who].role, name)
  }

  ghost predicate Accounted(s: System)
  {
    && (forall i :: 0 <= i < |s.nodes| ==> NodeBacked(s, i, s.nodes[i]))
    && (forall i :: 0 <= i < |s.nodes| && s.nodes[i].role.Client? ==> ClientBacked(s, i, s.nodes[i].role))
    && (forall n :: 0 <= n < |s.log| ==> EntryBacked(s, n))
  }

  /** `t` has everything `s` has: the same programs, perhaps more, and a longer log. */
  ghost predicate Extends(s: System, t: System)
  {
    && |s.nodes| <= |t.nodes|
    && s.log <= t.log
    && (forall i :: 0 <= i < |s.nodes| ==>
          SameIdentity(s.nodes[i].role, t.nodes[i].role) && s.nodes[i].keys == t.nodes[i].keys)
  }

  lemma ApplyExtends(s: System, step: Step)
    requires WellFormed(s) && Enabled(s, step)
    ensures Extends(s, Apply(s, step))
  {
    if step.At? {
      ActKeepsIdentity(step.i, s.nodes[step.i], step.action);
    }
  }

  lemma StillLogged(s: System, t: System)
    requires s.log <= t.log
    ensures forall entry :: entry in s.log ==> entry in t.log
  {
    forall entry | entry in s.log
      ensures entry in t.log
    {
      var n: nat :| n < |s.log| && s.log[n] == entry;
      assert t.log[n] == entry;
    }
  }

  lemma BackedStays(s: System, t: System, sender: Id, content: Content)
    requires Extends(s, t) && Backed(s, sender, content)
    ensures Backed(t, sender, content)
  {
    StillLogged(s, t);
    assert SameIdentity(s.nodes[sender].role, t.nodes[sender].role);
  }

  lemma NodeBackedStays(s: System, t: System, i: Id, node: Node)
    requires Extends(s, t) && NodeBacked(s, i, node)
    ensures NodeBacked(t, i, node)
  {
    forall content | content in node.outbox
      ensures Backed(t, i, content)
    {
      BackedStays(s, t, i, content);
    }
    forall body | FromWire(body) in node.inbox
      ensures BodyBacked(t, body)
    {
      BackedStays(s, t, body.packet.sender, body.packet.content);
    }
  }

  /** Somebody else's deeds leave a client's account as it was. */
  lemma ClientBackedStays(s: System, t: System, i: Id, role: Role)
    requires role.Client? && Extends(s, t) && ClientBacked(s, i, role)
    requires forall n :: |s.log| <= n < |t.log| ==> t.log[n].who != i
    ensures ClientBacked(t, i, role)
  {
    StillLogged(s, t);
    forall entry: Entry | entry.who == i && entry in t.log
      ensures entry in s.log
    {
      var n: nat :| n < |t.log| && t.log[n] == entry;
      assert s.log[n] == entry;
    }
    if task :| role.task == task && task.Run? && task.waitFor.Some? && role.phase == TriggerNote(true) {
      ReleasedStays(s, t, task.waitFor.value);
    }
  }

  lemma ReleasedStays(s: System, t: System, name: string)
    requires Extends(s, t) && Released(s, name)
    ensures Released(t, name)
  {
    StillLogged(s, t);
    var p: Id :| p < |s.nodes| && SendsTo(s.nodes[p].role, name) && Entry(p, Finished(true)) in s.log;
    assert SameIdentity(s.nodes[p].role, t.nodes[p].role);
  }

  lemma EntryBackedStays(s: System, t: System, n: nat)
    requires Extends(s, t) && n < |s.log| && EntryBacked(s, n)
    ensures EntryBacked(t, n)
  {
    var who := s.log[n].who;
    assert forall m :: 0 <= m <= n ==> t.log[m] == s.log[m];
    assert SameIdentity(s.nodes[who].role, t.nodes[who].role);
    match s.log[n].deed {
      case Copied(client, _) => assert SameIdentity(s.nodes[client].role, t.nodes[client].role);
      case Started =>
        var task := s.nodes[who].role.task;
        if task.waitFor.Some? && !task.always {
          var m: nat :| m < n && s.log[m].deed == Finished(true) && s.log[m].who < |s.nodes|
                        && SendsTo(s.nodes[s.log[m].who].role, task.waitFor.value);
          assert SameIdentity(s.nodes[s.log[m].who].role, t.nodes[t.log[m].who].role);
        }
      case _ =>
    }
  }

  // ----- one step -----

  /** A received packet is backed, and unless it was in the clear its sender shares a key. */
  ghost predicate GoodInput(s: System, i: Id, input: Input)
    requires i < |s.nodes|
  {
    input.Arrived? ==>
      && Backed(s, input.packet.sender, input.packet.content)
      && (input.packet.content != RequestAuth ==> ShareKey(s.nodes[i].keys, s.nodes[input.packet.sender].keys))
  }

  /** `t` follows `s` when program `i` becomes `role` and does `deeds`. */
  ghost predicate Follows(s: System, t: System, i: Id, role: Role, deeds: seq<Deed>)
  {
    && i < |s.nodes| && |t.nodes| == |s.nodes| && Extends(s, t)
    && t.log == s.log + Entries(i, deeds)
    && t.nodes[i].role == role
  }

  ghost predicate NewEntriesBacked(s: System, t: System)
  {
    forall n :: |s.log| <= n < |t.log| ==> EntryBacked(t, n)
  }

  lemma IntroReplies(s: System, t: System, i: Id, input: Input)
    requires i < |s.nodes| && s.nodes[i].role.Intro?
    requires var r := React(i, s.nodes[i].keys, s.nodes[i].role, input); Follows(s, t, i, r.role, r.deeds)
    ensures var r := React(i, s.nodes[i].keys, s.nodes[i].role, input);
            forall content :: content in r.outs ==> Backed(t, i, content)
  {
    var r := React(i, s.nodes[i].keys, s.nodes[i].role, input);
    LogGrowsBy(s, t, i, r.deeds);
    if r.deeds != [] {
      assert r.deeds[0] in r.deeds;
    }
  }

  lemma IntroDeeds(s: System, t: System, i: Id, input: Input)
    requires i < |s.nodes| && s.nodes[i].role.Intro? && GoodInput(s, i, input)
    requires var r := React(i, s.nodes[i].keys, s.nodes[i].role, input); Follows(s, t, i, r.role, r.deeds)
    ensures NewEntriesBacked(s, t)
  {
    var deeds := React(i, s.nodes[i].keys, s.nodes[i].role, input).deeds;
    forall n: nat | |s.log| <= n < |t.log|
      ensures EntryBacked(t, n)
    {
      assert t.log[n] == Entry(i, deeds[n - |s.log|]);
      assert SameIdentity(s.nodes[input.packet.sender].role, t.nodes[input.packet.sender].role);
    }
  }

  lemma IntroReacts(s: System, t: System, i: Id, input: Input)
    requires i < |s.nodes| && s.nodes[i].role.Intro? && GoodInput(s, i, input)
    requires var r := React(i, s.nodes[i].keys, s.nodes[i].role, input); Follows(s, t, i, r.role, r.deeds)
    ensures var r := React(i, s.nodes[i].keys, s.nodes[i].role, input);
            forall content :: content in r.outs ==> Backed(t, i, content)
    ensures NewEntriesBacked(s, t)
  {
    IntroReplies(s, t, i, input);
    IntroDeeds(s, t, i, input);
  }

  lemma LogGrowsBy(s: System, t: System, i: Id, deeds: seq<Deed>)
    requires t.log == s.log + Entries(i, deeds)
    ensures forall entry :: entry in t.log <==> entry in s.log || (entry.who == i && entry.deed in deeds)
  {
    forall deed | deed in deeds
      ensures Entry(i, deed) in t.log
    {
      var n: nat :| n < |deeds| && deeds[n] == deed;
      assert t.log[|s.log| + n] == Entry(i, deed);
    }
  }

  /** A reply to a copy client reports the copy of that client's own data. */
  lemma CopyReplyIsAboutOurData(s: System, x: Id, i: Id)
    requires Accounted(s) && i < |s.nodes| && s.nodes[i].role.Client? && s.nodes[i].role.task.Copy?
    requires Backed(s, x, DataCopied(i))
    ensures CopyMade(s, i, s.nodes[i].role.task.data)
  {
    var data :| Entry(x, Copied(i, data)) in s.log;
    var n: nat :| n < |s.log| && s.log[n] == Entry(x, Copied(i, data));
    assert EntryBacked(s, n);
  }

  /** Client `i` of `s` reacts to a good input, which makes `t`. */
  ghost predicate ClientStep(s: System, t: System, i: Id, input: Input)
  {
    && Accounted(s) && i < |s.nodes| && s.nodes[i].role.Client? && RoleFits(s.nodes[i].role) && GoodInput(s, i, input)
    && var r := React(i, s.nodes[i].keys, s.nodes[i].role, input);
    && Follows(s, t, i, r.role, r.deeds)
  }

  lemma ClientSends(s: System, t: System, i: Id, input: Input)
    requires ClientStep(s, t, i, input)
    ensures var r := React(i, s.nodes[i].keys, s.nodes[i].role, input);
            forall content :: content in r.outs ==> Backed(t, i, content)
  {
    var r := React(i, s.nodes[i].keys, s.nodes[i].role, input);
    assert ClientBacked(s, i, s.nodes[i].role);
    LogGrowsBy(s, t, i, r.deeds);
  }

  lemma ClientStarts(s: System, t: System, i: Id, input: Input)
    requires ClientStep(s, t, i, input)
    ensures NewEntriesBacked(s, t)
  {
    var r := React(i, s.nodes[i].keys, s.nodes[i].role, input);
    assert ClientBacked(s, i, s.nodes[i].role);
    if r.deeds != [] {
      assert r.deeds == [Started];
      StartIsBacked(s, t, i, r.role);
    }
  }

  /** What the input shows to client `i`, in the next state. */
  ghost predicate Shown(t: System, i: Id, task: Task, input: Input)
  {
    input.Arrived? ==>
      && Backed(t, input.packet.sender, input.packet.content)
      && (input.packet.content == DataCopied(i) && task.Copy? ==> CopyMade(t, i, task.data))
  }

  lemma AuthingMoves(t: System, i: Id, role: Role, input: Input)
    requires role.Client? && role.phase.Authing? && ClientBacked(t, i, role) && Shown(t, i, role.task, input)
    requires ClientTurn(i, role.task, role.phase, input).deeds == []
    ensures ClientBacked(t, i, role.(phase := ClientTurn(i, role.task, role.phase, input).phase))
  {
  }

  lemma CopyingMoves(t: System, i: Id, role: Role, input: Input)
    requires role.Client? && role.phase.Copying? && role.task.Copy? && ClientBacked(t, i, role)
    requires Shown(t, i, role.task, input)
    ensures ClientBacked(t, i, role.(phase := ClientTurn(i, role.task, role.phase, input).phase))
  {
  }

  lemma WaitingMoves(t: System, i: Id, role: Role, input: Input)
    requires role.Client? && role.phase.Waiting? && role.task.Run? && ClientBacked(t, i, role)
    requires Shown(t, i, role.task, input)
    ensures ClientBacked(t, i, role.(phase := ClientTurn(i, role.task, role.phase, input).phase))
  {
  }

  lemma NoteMoves(t: System, i: Id, role: Role, input: Input)
    requires role.Client? && role.task.Run? && ClientBacked(t, i, role)
    requires role.phase.TriggerNote? || role.phase.DoneNote? || role.phase.SendNote?
    requires ClientTurn(i, role.task, role.phase, input).deeds == []
    ensures ClientBacked(t, i, role.(phase := ClientTurn(i, role.task, role.phase, input).phase))
  {
  }

  lemma ClientMoves(t: System, i: Id, role: Role, input: Input)
    requires role.Client? && RoleFits(role) && ClientBacked(t, i, role) && Shown(t, i, role.task, input)
    requires ClientTurn(i, role.task, role.phase, input).deeds == []
    ensures ClientBacked(t, i, role.(phase := ClientTurn(i, role.task, role.phase, input).phase))
  {
    match role.phase
    case Authing => AuthingMoves(t, i, role, input);
    case Copying => CopyingMoves(t, i, role, input);
    case Waiting => WaitingMoves(t, i, role, input);
    case TriggerNote(_) => NoteMoves(t, i, role, input);
    case DoneNote(_) => NoteMoves(t, i, role, input);
    case SendNote(_) => NoteMoves(t, i, role, input);
    case _ =>
  }

  /** A client only ever starts its command, and only once. */
  lemma ClientLaunches(s: System, t: System, i: Id, role: Role, input: Input)
    requires role.Client? && RoleFits(role) && ClientBacked(s, i, role) && s.log <= t.log
    requires t.log == s.log + [Entry(i, Started)] && ClientTurn(i, role.task, role.phase, input).deeds == [Started]
    requires Shown(s, i, role.task, input)
    ensures ClientBacked(t, i, role.(phase := Running)) && ClientTurn(i, role.task, role.phase, input).phase == Running
  {
    StillLogged(s, t);
    assert forall entry :: entry in t.log <==> entry in s.log || entry == Entry(i, Started);
  }

  lemma StillShown(s: System, t: System, i: Id, input: Input)
    requires ClientStep(s, t, i, input)
    ensures Shown(s, i, s.nodes[i].role.task, input) && Shown(t, i, s.nodes[i].role.task, input)
  {
    StillLogged(s, t);
    if input.Arrived? {
      BackedStays(s, t, input.packet.sender, input.packet.content);
      if input.packet.content == DataCopied(i) && s.nodes[i].role.task.Copy? {
        CopyReplyIsAboutOurData(s, input.packet.sender, i);
      }
    }
  }

  lemma ClientAdvances(s: System, t: System, i: Id, input: Input)
    requires ClientStep(s, t, i, input)
    ensures ClientBacked(t, i, React(i, s.nodes[i].keys, s.nodes[i].role, input).role)
  {
    var role := s.nodes[i].role;
    var deeds := ClientTurn(i, role.task, role.phase, input).deeds;
    assert ClientBacked(s, i, role);
    StillShown(s, t, i, input);
    if deeds == [] {
      assert Entries(i, deeds) == [];
      ClientBackedStays(s, t, i, role);
      ClientMoves(t, i, role, input);
    } else {
      assert deeds == [Started] && Entries(i, deeds) == [Entry(i, Started)];
      ClientLaunches(s, t, i, role, input);
    }
  }

  lemma ReleasedInLog(s: System, name: string)
    requires Released(s, name)
    ensures ReleasedBefore(s, |s.log|, name)
  {
    var p: Id :| p < |s.nodes| && SendsTo(s.nodes[p].role, name) && Entry(p, Finished(true)) in s.log;
    var m: nat :| m < |s.log| && s.log[m] == Entry(p, Finished(true));
  }

  lemma ReleaseStays(s: System, t: System, n: nat, name: string)
    requires Extends(s, t) && n <= |s.log| && ReleasedBefore(s, n, name)
    ensures ReleasedBefore(t, n, name)
  {
    var m: nat :| m < n && s.log[m].deed == Finished(true) && s.log[m].who < |s.nodes|
                  && SendsTo(s.nodes[s.log[m].who].role, name);
    assert t.log[m] == s.log[m];
    assert SameIdentity(s.nodes[s.log[m].who].role, t.nodes[s.log[m].who].role);
  }

  lemma FirstStart(t: System, n: nat, i: Id)
    requires n < |t.log| && t.log[n] == Entry(i, Started) && i < |t.nodes|
    requires t.nodes[i].role.Client? && t.nodes[i].role.task.Run? && Entry(i, Started) !in t.log[..n]
    requires var task := t.nodes[i].role.task;
             task.waitFor.Some? && !task.always ==> ReleasedBefore(t, n, task.waitFor.value)
    ensures EntryBacked(t, n)
  {
    assert forall m :: 0 <= m < n ==> t.log[m] in t.log[..n];
  }

  lemma StartIsBacked(s: System, t: System, i: Id, role: Role)
    requires Accounted(s) && Follows(s, t, i, role, [Started]) && role.Client? && role.task.Run?
    requires Entry(i, Started) !in s.log
    requires role.task.waitFor.Some? && !role.task.always ==> Released(s, role.task.waitFor.value)
    ensures NewEntriesBacked(s, t)
  {
    assert t.log == s.log + [Entry(i, Started)] && t.log[..|s.log|] == s.log;
    if role.task.waitFor.Some? && !role.task.always {
      ReleasedInLog(s, role.task.waitFor.value);
      ReleaseStays(s, t, |s.log|, role.task.waitFor.value);
    }
    FirstStart(t, |s.log|, i);
  }

  /** What program `i`'s action must leave accounted for in the next system `t`. */
  ghost predicate EffectAccounted(s: System, t: System, i: Id, e: Effect)
  {
    && NodeBacked(t, i, e.node)
    && (forall body :: body in e.bodies ==> BodyBacked(t, body))
    && (e.node.role.Client? ==> ClientBacked(t, i, e.node.role))
    && NewEntriesBacked(s, t)
  }

  lemma RespondAccounted(s: System, t: System, i: Id, node: Node, input: Input)
    requires Accounted(s) && i < |s.nodes| && RoleFits(node.role) && GoodInput(s, i, input)
    requires node.role == s.nodes[i].role && node.keys == s.nodes[i].keys && NodeBacked(s, i, node)
    requires var e := Respond(i, node, input); Follows(s, t, i, e.node.role, e.deeds)
    ensures EffectAccounted(s, t, i, Respond(i, node, input))
  {
    NodeBackedStays(s, t, i, node);
    match node.role
    case Intro(_, _) => IntroReacts(s, t, i, input);
    case Client(_, _, _) =>
      ClientSends(s, t, i, input);
      ClientStarts(s, t, i, input);
      ClientAdvances(s, t, i, input);
    case Bystander =>
  }

  lemma OpenedIsGood(s: System, i: Id, body: Body, env: Env)
    requires i < |s.nodes| && BodyBacked(s, body) && Open(body, s.nodes[i].keys, i).Some?
    ensures GoodInput(s, i, Arrived(Open(body, s.nodes[i].keys, i).value, env))
  {
  }

  lemma TakeItemAccounted(s: System, t: System, i: Id, env: Env)
    requires Accounted(s) && i < |s.nodes| && RoleFits(s.nodes[i].role) && s.nodes[i].inbox != []
    requires var e := TakeItem(i, s.nodes[i], env); Follows(s, t, i, e.node.role, e.deeds)
    ensures EffectAccounted(s, t, i, TakeItem(i, s.nodes[i], env))
  {
    var node := s.nodes[i];
    var rest := node.(inbox := node.inbox[1..]);
    assert NodeBacked(s, i, rest);
    match node.inbox[0]
    case ReconnectedNotice => RespondAccounted(s, t, i, rest.(robbed := false), Input.Reconnected);
    case FromWire(body) =>
      assert BodyBacked(s, body);
      match Open(body, node.keys, i) {
        case None => QuietAccounted(s, t, i, TakeItem(i, node, env));
        case Some(packet) =>
          OpenedIsGood(s, i, body, env);
          RespondAccounted(s, t, i, rest, Arrived(packet, env));
      }
  }

  /** An action without deeds that keeps the role and only drops or relays what was there. */
  lemma QuietAccounted(s: System, t: System, i: Id, e: Effect)
    requires Accounted(s) && i < |s.nodes| && Follows(s, t, i, e.node.role, []) && e.deeds == []
    requires e.node.role == s.nodes[i].role && NodeBacked(s, i, e.node)
    requires forall body :: body in e.bodies ==> BodyBacked(s, body)
    ensures EffectAccounted(s, t, i, e)
  {
    NodeBackedStays(s, t, i, e.node);
    forall body | body in e.bodies
      ensures BodyBacked(t, body)
    {
      BackedStays(s, t, body.packet.sender, body.packet.content);
    }
    if e.node.role.Client? {
      ClientBackedStays(s, t, i, e.node.role);
    }
  }

  /** The client's account after its command has ended. */
  lemma DoneIsBacked(s: System, t: System, i: Id, role: Role, ok: bool)
    requires role.Client? && role.task.Run? && role.phase.Running? && ClientBacked(s, i, role)
    requires t.log == s.log + [Entry(i, Finished(ok))]
    ensures ClientBacked(t, i, role.(phase := DoneNote(ok)))
  {
    assert forall entry :: entry in t.log <==> entry in s.log || entry == Entry(i, Finished(ok));
  }

  /** A command's end is logged after its start, and no end of it was logged before. */
  lemma FirstFinish(t: System, n: nat, i: Id, ok: bool)
    requires n < |t.log| && t.log[n] == Entry(i, Finished(ok)) && i < |t.nodes|
    requires Entry(i, Started) in t.log[..n] && forall other :: Entry(i, Finished(other)) !in t.log[..n]
    ensures EntryBacked(t, n)
  {
    var m: nat :| m < n && t.log[..n][m] == Entry(i, Started);
    assert t.log[m] == Entry(i, Started);
    forall k | 0 <= k < n && t.log[k].who == i
      ensures !t.log[k].deed.Finished?
    {
      assert t.log[k] in t.log[..n];
    }
  }

  lemma ExitNodeBacked(t: System, i: Id, node: Node, ok: bool)
    requires RoleFits(node.role) && CanAct(i, node, Exit(ok)) && i < |t.nodes| && NodeBacked(t, i, node)
    ensures var e := Act(i, node, Exit(ok));
            && NodeBacked(t, i, e.node) && e.bodies == [] && e.deeds == [Finished(ok)]
            && e.node.role == node.role.(phase := DoneNote(ok))
  {
  }

  lemma FinishIsBacked(s: System, t: System, i: Id, ok: bool)
    requires i < |s.nodes| == |t.nodes| && s.nodes[i].role.Client? && ClientBacked(s, i, s.nodes[i].role)
    requires Launched(s.nodes[i].role.task, s.nodes[i].role.phase) && s.nodes[i].role.phase.Running?
    requires t.log == s.log + [Entry(i, Finished(ok))]
    ensures NewEntriesBacked(s, t)
  {
    assert t.log[..|s.log|] == s.log;
    FirstFinish(t, |s.log|, i, ok);
  }

  lemma ExitAccounted(s: System, t: System, i: Id, ok: bool)
    requires Accounted(s) && i < |s.nodes| && RoleFits(s.nodes[i].role) && CanAct(i, s.nodes[i], Exit(ok))
    requires var e := Act(i, s.nodes[i], Exit(ok)); Follows(s, t, i, e.node.role, e.deeds)
    ensures EffectAccounted(s, t, i, Act(i, s.nodes[i], Exit(ok)))
  {
    assert ClientBacked(s, i, s.nodes[i].role);
    assert Entries(i, [Finished(ok)]) == [Entry(i, Finished(ok))];
    NodeBackedStays(s, t, i, s.nodes[i]);
    ExitNodeBacked(t, i, s.nodes[i], ok);
    DoneIsBacked(s, t, i, s.nodes[i].role, ok);
    FinishIsBacked(s, t, i, ok);
  }

  /** Other actions only drop or relay what was there, or send something that needs no backing. */
  lemma OtherActionIsQuiet(s: System, i: Id, action: Action)
    requires WellFormed(s) && Accounted(s) && Enabled(s, At(i, action)) && !action.Receive? && !action.Timeout?
    requires !action.Exit?
    ensures var e := Act(i, s.nodes[i], action);
            && e.deeds == [] && e.node.role == s.nodes[i].role && NodeBacked(s, i, e.node)
            && forall body :: body in e.bodies ==> BodyBacked(s, body)
  {
    assert NodeBacked(s, i, s.nodes[i]);
  }

  lemma ActAccounted(s: System, i: Id, action: Action)
    requires WellFormed(s) && Accounted(s) && Enabled(s, At(i, action))
    ensures EffectAccounted(s, Apply(s, At(i, action)), i, Act(i, s.nodes[i], action))
  {
    var t := Apply(s, At(i, action));
    var node := s.nodes[i];
    var e := Act(i, node, action);
    ApplyExtends(s, At(i, action));
    match action
    case Receive(env) => TakeItemAccounted(s, t, i, env);
    case Timeout => RespondAccounted(s, t, i, node, TimerFires);
    case Exit(ok) => ExitAccounted(s, t, i, ok);
    case _ =>
      OtherActionIsQuiet(s, i, action);
      QuietAccounted(s, t, i, e);
  }

  lemma DeliverAccounted(t: System, i: Id, node: Node, bodies: seq<Body>)
    requires NodeBacked(t, i, node) && forall body :: body in bodies ==> BodyBacked(t, body)
    ensures NodeBacked(t, i, Deliver(node, bodies))
  {
    forall body | FromWire(body) in Deliver(node, bodies).inbox
      ensures BodyBacked(t, body)
    {
      if FromWire(body) !in node.inbox {
        var n: nat :| n < |bodies| && Items(bodies)[n] == FromWire(body);
      }
    }
  }

  lemma ApplyKeepsAccounted(s: System, step: Step)
    requires WellFormed(s) && Accounted(s) && Enabled(s, step)
    ensures Accounted(Apply(s, step))
  {
    ApplyExtends(s, step);
    match step
    case At(i, action) => AtKeepsAccounted(s, i, action);
    case Join(newcomer, keys) => JoinKeepsAccounted(s, newcomer, keys);
  }

  lemma AtKeepsAccounted(s: System, i: Id, action: Action)
    requires WellFormed(s) && Accounted(s) && Enabled(s, At(i, action)) && Extends(s, Apply(s, At(i, action)))
    ensures Accounted(Apply(s, At(i, action)))
  {
    var t := Apply(s, At(i, action));
    var e := Act(i, s.nodes[i], action);
    ActAccounted(s, i, action);
    forall k: Id | k < |t.nodes|
      ensures NodeBacked(t, k, t.nodes[k])
      ensures t.nodes[k].role.Client? ==> ClientBacked(t, k, t.nodes[k].role)
    {
      if k == i {
        DeliverAccounted(t, i, e.node, e.bodies);
      } else {
        NodeBackedStays(s, t, k, s.nodes[k]);
        DeliverAccounted(t, k, s.nodes[k], e.bodies);
        if s.nodes[k].role.Client? {
          ClientBackedStays(s, t, k, s.nodes[k].role);
        }
      }
    }
    OldEntriesBacked(s, t);
  }

  lemma OldEntriesBacked(s: System, t: System)
    requires Accounted(s) && Extends(s, t)
    ensures forall n :: 0 <= n < |s.log| ==> EntryBacked(t, n)
  {
    forall n: nat | n < |s.log|
      ensures EntryBacked(t, n)
    {
      EntryBackedStays(s, t, n);
    }
  }

  /** A newcomer is accounted for. */
  lemma NewcomerAccounted(s: System, newcomer: Newcomer, keys: seq<Key>)
    requires WellFormed(s) && Accounted(s) && Enabled(s, Join(newcomer, keys))
    ensures var t := Apply(s, Join(newcomer, keys));
            var k := |s.nodes|;
            NodeBacked(t, k, t.nodes[k]) && (t.nodes[k].role.Client? ==> ClientBacked(t, k, t.nodes[k].role))
  {
    var k := |s.nodes|;
    LogGrowsBy(s, Apply(s, Join(newcomer, keys)), k, Birth(newcomer).deeds);
    KnownNumbers(s);
  }

  /** The log speaks only of programs there are. */
  lemma KnownNumbers(s: System)
    requires Accounted(s)
    ensures forall entry :: entry in s.log ==> entry.who < |s.nodes|
  {
    forall entry | entry in s.log
      ensures entry.who < |s.nodes|
    {
      var n: nat :| n < |s.log| && s.log[n] == entry;
      assert EntryBacked(s, n);
    }
  }

  lemma NewcomerStarts(s: System, newcomer: Newcomer, keys: seq<Key>)
    requires WellFormed(s) && Accounted(s) && Enabled(s, Join(newcomer, keys))
    ensures NewEntriesBacked(s, Apply(s, Join(newcomer, keys)))
  {
    var t := Apply(s, Join(newcomer, keys));
    var deeds := Birth(newcomer).deeds;
    KnownNumbers(s);
    if deeds != [] {
      assert Entries(|s.nodes|, deeds) == [Entry(|s.nodes|, Started)];
      assert t.log[|s.log|] == Entry(|s.nodes|, Started);
      assert forall m :: 0 <= m < |s.log| ==> t.log[m] in s.log;
    } else {
      assert t.log == s.log;
    }
  }

  lemma JoinKeepsAccounted(s: System, newcomer: Newcomer, keys: seq<Key>)
    requires WellFormed(s) && Accounted(s) && Enabled(s, Join(newcomer, keys))
    requires Extends(s, Apply(s, Join(newcomer, keys)))
    ensures Accounted(Apply(s, Join(newcomer, keys)))
  {
    var t := Apply(s, Join(newcomer, keys));
    NewcomerAccounted(s, newcomer, keys);
    NewcomerStarts(s, newcomer, keys);
    OldEntriesBacked(s, t);
    forall i: Id | i < |s.nodes|
      ensures NodeBacked(t, i, t.nodes[i])
      ensures t.nodes[i].role.Client? ==> ClientBacked(t, i, t.nodes[i].role)
    {
      NodeBackedStays(s, t, i, s.nodes[i]);
      if s.nodes[i].role.Client? {
        ClientBackedStays(s, t, i, s.nodes[i].role);
      }
    }
  }
}

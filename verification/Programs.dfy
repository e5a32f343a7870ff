/** The loops of the programs themselves: runIntroducer, testAuth, SendNotification,
    runRemoteCopy and runRun over a connection, proved to behave as the automata that the
    bus is built from. */
module Programs {
  import opened Wrappers
  import opened Wire
  import opened Introducer
  import opened Clients
  import KeyScan

  /** A connection: what is queued to go out, and what will come in, in order.  A timer that
      fires is an input like a message. */
  class Connection {
    const id: Id
    const keys: seq<Key>
    var Out: seq<Content>
    var In: seq<Input>

    constructor (id: Id, keys: seq<Key>, inputs: seq<Input>)
      ensures this.id == id && this.keys == keys && In == inputs && Out == []
    {
      this.id, this.keys, In, Out := id, keys, inputs, [];
    }
  }

  /** The machine the program runs on: clipboard, browser, notices, commands. */
  class Desktop {
    var deeds: seq<Deed>

    constructor ()
      ensures deeds == []
    {
      deeds := [];
    }
  }

  // ----- the introducer -----

  /** Where the loop stands: its flag, what it has sent, what it has done. */
  datatype Standing = Standing(active: bool, outs: seq<Content>, deeds: seq<Deed>)

  /** The standing after all the inputs. */
  function IntroRun(level: real, keys: seq<Key>, at: Standing, inputs: seq<Input>): Standing
    decreases |inputs|
  {
    if inputs == [] then at
    else
      var t := IntroTurn(level, keys, at.active, inputs[0]);
      IntroRun(level, keys, Standing(t.active, at.outs + t.outs, at.deeds + t.deeds), inputs[1..])
  }

  method SendPresent(conn: Connection, level: real)
    modifies conn`Out
    ensures conn.Out == old(conn.Out) + [Present(level)]
  {
    conn.Out := conn.Out + [Present(level)];
  }

  method SendRollCall(conn: Connection)
    modifies conn`Out
    ensures conn.Out == old(conn.Out) + [RollCall]
  {
    conn.Out := conn.Out + [RollCall];
  }

  /** The requests that only an active introducer serves. */
  method ServeRequest(conn: Connection, desk: Desktop, packet: Packet, env: Env)
    requires packet.content != RollCall && !packet.content.Present?
    modifies conn`Out, desk
    ensures var t := Serve(conn.keys, packet, env);
            t.active && conn.Out == old(conn.Out) + t.outs && desk.deeds == old(desk.deeds) + t.deeds
  {
    var origin := packet.sender;
    match packet.content {
      case CopyData(data) =>
        desk.deeds := desk.deeds + [Copied(origin, data)];
        desk.deeds := desk.deeds + [Noticed("Remote copy complete.", false)];
        conn.Out := conn.Out + [DataCopied(origin)];
      case OpenURL(url, isHtml) =>
        if env.openError.Some? {
          desk.deeds := desk.deeds + [Noticed("Unable to open url: " + env.openError.value, false)];
        } else {
          desk.deeds := desk.deeds + [OpenedUrl(origin, url, isHtml)];
          desk.deeds := desk.deeds + [Noticed("URL opened.", false)];
          conn.Out := conn.Out + [URLOpened(origin)];
        }
      case TestAuth =>
        desk.deeds := desk.deeds + [Vouched(origin)];
        conn.Out := conn.Out + [AuthValid(origin)];
      case RequestAuth =>
        desk.deeds := desk.deeds + [KeysCopied(KeyScan.Join(conn.keys))];
        desk.deeds := desk.deeds + [Noticed("Copied key.", false)];
      case Notification(noteId, text, noteLevel) =>
        desk.deeds := desk.deeds + [Displayed(origin, noteId, text)];
        desk.deeds := desk.deeds + [Noticed(text, noteLevel >= env.stickyFrom)];
        conn.Out := conn.Out + [NotificationDisplayed(origin, noteId, text, noteLevel, env.screenSaverOn)];
      case _ =>
    }
    assert conn.Out == old(conn.Out) + Serve(conn.keys, packet, env).outs;
    assert desk.deeds == old(desk.deeds) + Serve(conn.keys, packet, env).deeds;
  }

  method RunIntroducer(conn: Connection, desk: Desktop, level: real) returns (active: bool)
    modifies conn, desk
    ensures conn.In == []
    ensures Standing(active, conn.Out, desk.deeds)
            == IntroRun(level, conn.keys,
                        Standing(true, old(conn.Out) + [Present(level), RollCall], old(desk.deeds)), old(conn.In))
  {
    active := true;
    SendPresent(conn, level);
    SendRollCall(conn);
    assert conn.Out == old(conn.Out) + [Present(level), RollCall];
    ghost var end := IntroRun(level, conn.keys, Standing(active, conn.Out, desk.deeds), conn.In);
    while conn.In != []
      invariant IntroRun(level, conn.keys, Standing(active, conn.Out, desk.deeds), conn.In) == end
      decreases |conn.In|
    {
      ghost var (out, deeds, t) := (conn.Out, desk.deeds, IntroTurn(level, conn.keys, active, conn.In[0]));
      var input := conn.In[0];
      conn.In := conn.In[1..];
      match input {
        case TimerFires =>
          if !active {
            active := true;
            SendRollCall(conn);
          }
        case Reconnected =>
          active := true;
          SendPresent(conn, level);
          SendRollCall(conn);
        case Arrived(packet, env) =>
          if packet.content.Present? {
            if packet.content.level > level {
              active := false;
            }
          } else if packet.content == RollCall {
            SendPresent(conn, level);
          } else if active {
            ServeRequest(conn, desk, packet, env);
          }
      }
      assert active == t.active && conn.Out == out + t.outs && desk.deeds == deeds + t.deeds;
    }
  }

  predicate Restores(input: Input)
  {
    input.TimerFires? || input.Reconnected?
  }

  predicate Outranked(level: real, input: Input)
  {
    input.Arrived? && input.packet.content.Present? && input.packet.content.level > level
  }

  /** A higher introducer has announced itself, and no timeout or reconnection has come since. */
  ghost predicate SteppedDown(level: real, inputs: seq<Input>)
  {
    exists i :: 0 <= i < |inputs| && Outranked(level, inputs[i]) && NoneRestores(inputs, i + 1)
  }

  ghost predicate NoneRestores(inputs: seq<Input>, from: nat)
  {
    forall j :: from <= j < |inputs| ==> !Restores(inputs[j])
  }

  ghost predicate Untouched(inputs: seq<Input>)
  {
    NoneRestores(inputs, 0)
  }

  /** What the flag means: inactive exactly when a higher introducer was heard since the last
      timeout or reconnection, however requests and roll calls come in between. */
  lemma {:induction false} FlagMeans(level: real, keys: seq<Key>, at: Standing, inputs: seq<Input>)
    ensures IntroRun(level, keys, at, inputs).active
            <==> !SteppedDown(level, inputs) && (at.active || !Untouched(inputs))
    decreases |inputs|
  {
    if inputs != [] {
      var (first, rest) := (inputs[0], inputs[1..]);
      var t := IntroTurn(level, keys, at.active, first);
      FlagMeans(level, keys, Standing(t.active, at.outs + t.outs, at.deeds + t.deeds), rest);
      SteppedDownSplit(level, inputs);
      assert Untouched(inputs) <==> !Restores(first) && Untouched(rest);
    }
  }

  lemma SteppedDownSplit(level: real, inputs: seq<Input>)
    requires inputs != []
    ensures SteppedDown(level, inputs)
            <==> SteppedDown(level, inputs[1..]) || (Outranked(level, inputs[0]) && Untouched(inputs[1..]))
  {
    var rest := inputs[1..];
    if SteppedDown(level, inputs) {
      var i :| 0 <= i < |inputs| && Outranked(level, inputs[i]) && NoneRestores(inputs, i + 1);
      assert forall j :: 0 <= j < |rest| ==> rest[j] == inputs[j + 1];
      if i > 0 {
        assert Outranked(level, rest[i - 1]);
      }
    }
    if SteppedDown(level, rest) {
      var i :| 0 <= i < |rest| && Outranked(level, rest[i]) && NoneRestores(rest, i + 1);
      assert Outranked(level, inputs[i + 1]);
      assert forall j :: i + 1 < j < |inputs| ==> inputs[j] == rest[j - 1];
    }
    if Outranked(level, inputs[0]) && Untouched(rest) {
      assert forall j :: 0 < j < |inputs| ==> inputs[j] == rest[j - 1];
    }
  }

  // ----- the clients -----

  /** Where a client stands: its phase, what it has sent and done, what it has not read yet. */
  datatype Course = Course(phase: Phase, outs: seq<Content>, deeds: seq<Deed>, rest: seq<Input>)

  /** The client automaton run until it stops reading, or nothing more comes.  `ok`: how its command exits. */
  function ClientRun(me: Id, task: Task, ok: bool, at: Course): Course
    requires Fits(task, at.phase)
    decreases |at.rest|, if at.phase.Running? then 1 else 0
  {
    if at.phase.Running? then
      var m := CommandExits(task, ok);
      ClientRun(me, task, ok, Course(m.phase, at.outs + m.outs, at.deeds + m.deeds, at.rest))
    else if !Reading(at.phase) || at.rest == [] then at
    else
      var m := ClientTurn(me, task, at.phase, at.rest[0]);
      ClientRun(me, task, ok, Course(m.phase, at.outs + m.outs, at.deeds + m.deeds, at.rest[1..]))
  }

  /** Reading until an input that `stop` accepts: that input and what follows it. */
  function Until(stop: Input -> bool, inputs: seq<Input>): Option<(Input, seq<Input>)>
  {
    if inputs == [] then None
    else if stop(inputs[0]) then Some((inputs[0], inputs[1..]))
    else Until(stop, inputs[1..])
  }

  /** A phase that ignores every other input waits for the one it reacts to. */
  lemma {:induction false} PhaseWaits(me: Id, task: Task, ok: bool, at: Course, stop: Input -> bool)
    requires Fits(task, at.phase) && Reading(at.phase)
    requires forall x :: !stop(x) ==> ClientTurn(me, task, at.phase, x) == Stay(at.phase)
    ensures ClientRun(me, task, ok, at)
            == match Until(stop, at.rest)
               case None => at.(rest := [])
               case Some((x, rest)) =>
                 var m := ClientTurn(me, task, at.phase, x);
                 ClientRun(me, task, ok, Course(m.phase, at.outs + m.outs, at.deeds + m.deeds, rest))
    decreases |at.rest|
  {
    if at.rest != [] && !stop(at.rest[0]) {
      assert at.outs + [] == at.outs && at.deeds + [] == at.deeds;
      PhaseWaits(me, task, ok, at.(rest := at.rest[1..]), stop);
    }
  }

  function AuthStop(me: Id): Input -> bool
  {
    (x: Input) => x.TimerFires? || (x.Arrived? && x.packet.content == AuthValid(me))
  }

  function CopyStop(me: Id): Input -> bool
  {
    (x: Input) => x.TimerFires? || (x.Arrived? && x.packet.content == DataCopied(me))
  }

  function NoteStop(me: Id): Input -> bool
  {
    (x: Input) =>
      || x.TimerFires?
      || (x.Arrived? && x.packet.content.NotificationDisplayed? && x.packet.content.origin == me)
  }

  function TriggerStop(name: string): Input -> bool
  {
    (x: Input) => x.Arrived? && x.packet.content.Trigger? && x.packet.content.name == name
  }

  /** How a wait ends: with the awaited message, by the timer, or still waiting when nothing more comes. */
  datatype Wait = Got(x: Input) | TimedOut | Waiting

  function WaitResult(end: Option<(Input, seq<Input>)>): Wait
  {
    match end
    case None => Wait.Waiting
    case Some((x, _)) => if x.TimerFires? then TimedOut else Got(x)
  }

  function WaitRest(end: Option<(Input, seq<Input>)>): seq<Input>
  {
    match end
    case None => []
    case Some((_, rest)) => rest
  }

  method TestAuthLoop(conn: Connection) returns (r: Wait)
    modifies conn
    ensures conn.Out == old(conn.Out) + [TestAuth]
    ensures var end := Until(AuthStop(conn.id), old(conn.In)); r == WaitResult(end) && conn.In == WaitRest(end)
  {
    conn.Out := conn.Out + [TestAuth];
    while conn.In != []
      invariant conn.Out == old(conn.Out) + [TestAuth]
      invariant Until(AuthStop(conn.id), conn.In) == Until(AuthStop(conn.id), old(conn.In))
      decreases |conn.In|
    {
      var x := conn.In[0];
      conn.In := conn.In[1..];
      match x {
        case TimerFires => return TimedOut;
        case Arrived(packet, _) =>
          if packet.content.AuthValid? && packet.content.origin == conn.id {
            return Got(x);
          }
        case Reconnected =>
      }
    }
    return Wait.Waiting;
  }

  method SendNotification(conn: Connection, level: real) returns (r: Wait)
    modifies conn
    ensures conn.Out == old(conn.Out) + [Note(level)]
    ensures var end := Until(NoteStop(conn.id), old(conn.In)); r == WaitResult(end) && conn.In == WaitRest(end)
  {
    conn.Out := conn.Out + [Note(level)];
    while conn.In != []
      invariant conn.Out == old(conn.Out) + [Note(level)]
      invariant Until(NoteStop(conn.id), conn.In) == Until(NoteStop(conn.id), old(conn.In))
      decreases |conn.In|
    {
      var x := conn.In[0];
      conn.In := conn.In[1..];
      match x {
        case TimerFires => return TimedOut;
        case Arrived(packet, _) =>
          if packet.content.NotificationDisplayed? && packet.content.origin == conn.id {
            return Got(x);
          }
        case Reconnected =>
      }
    }
    return Wait.Waiting;
  }

  /** The client's course so far, read off the objects it works on. */
  function CourseOf(conn: Connection, desk: Desktop, phase: Phase): Course
    reads conn, desk
  {
    Course(phase, conn.Out, desk.deeds, conn.In)
  }

  method RunRemoteCopy(conn: Connection, desk: Desktop, data: string) returns (phase: Phase)
    modifies conn
    ensures CourseOf(conn, desk, phase)
            == ClientRun(conn.id, Copy(data), true,
                         Course(Copying, old(conn.Out) + [CopyData(data)], desk.deeds, old(conn.In)))
  {
    conn.Out := conn.Out + [CopyData(data)];
    ghost var start := CourseOf(conn, desk, Copying);
    PhaseWaits(conn.id, Copy(data), true, start, CopyStop(conn.id));
    while conn.In != []
      invariant conn.Out == start.outs
      invariant Until(CopyStop(conn.id), conn.In) == Until(CopyStop(conn.id), start.rest)
      decreases |conn.In|
    {
      var x := conn.In[0];
      conn.In := conn.In[1..];
      match x {
        case TimerFires => return Failed;
        case Arrived(packet, _) =>
          if packet.content.DataCopied? && packet.content.origin == conn.id {
            return Succeeded;
          }
        case Reconnected =>
      }
    }
    return Copying;
  }

  /** What a client does when its notification is displayed, or times out. */
  function AfterNote(task: Task, phase: Phase): Move
    requires task.Run? && (phase.TriggerNote? || phase.DoneNote? || phase.SendNote?)
  {
    match phase
    case TriggerNote(ok) => AfterTrigger(task, ok)
    case DoneNote(ok) => AfterDone(task, ok)
    case SendNote(ok) => AfterSend(task, ok)
  }

  /** A notification that has been sent is waited for, and then the client moves on either way. */
  lemma NoteWaits(me: Id, task: Task, ok: bool, at: Course)
    requires task.Run? && (at.phase.TriggerNote? || at.phase.DoneNote? || at.phase.SendNote?)
    ensures ClientRun(me, task, ok, at)
            == (var end := Until(NoteStop(me), at.rest);
                if end.None? then at.(rest := [])
                else
                  var m := AfterNote(task, at.phase);
                  ClientRun(me, task, ok, Course(m.phase, at.outs + m.outs, at.deeds + m.deeds, end.value.1)))
  {
    PhaseWaits(me, task, ok, at, NoteStop(me));
    UntilStops(NoteStop(me), at.rest);
  }

  lemma {:induction false} UntilStops(stop: Input -> bool, inputs: seq<Input>)
    ensures match Until(stop, inputs) case None => true case Some((x, _)) => stop(x)
  {
    if inputs != [] && !stop(inputs[0]) {
      UntilStops(stop, inputs[1..]);
    }
  }

  /** The last stretch of runRun: announce the trigger, then send it. */
  method SendTrigger(conn: Connection, desk: Desktop, task: Task, exit: bool) returns (phase: Phase)
    requires task.Run?
    modifies conn
    ensures var m := AfterDone(task, exit);
            CourseOf(conn, desk, phase)
            == ClientRun(conn.id, task, exit,
                         Course(m.phase, old(conn.Out) + m.outs, desk.deeds + m.deeds, old(conn.In)))
  {
    assert desk.deeds + [] == desk.deeds && conn.Out + [] == conn.Out;
    if task.sendTo.None? {
      return Succeeded;
    }
    NoteWaits(conn.id, task, exit, Course(SendNote(exit), conn.Out + [Note(3.0)], desk.deeds, conn.In));
    var r := SendNotification(conn, 3.0);
    if r.Waiting? {
      return SendNote(exit);
    }
    conn.Out := conn.Out + [Trigger(task.sendTo.value, exit)];
    return Succeeded;
  }

  /** runRun from the start of the command on. */
  method RunCommand(conn: Connection, desk: Desktop, task: Task, exit: bool) returns (phase: Phase)
    requires task.Run?
    modifies conn, desk
    ensures CourseOf(conn, desk, phase)
            == ClientRun(conn.id, task, exit, Course(Running, old(conn.Out), old(desk.deeds) + [Started], old(conn.In)))
  {
    desk.deeds := desk.deeds + [Started];
    desk.deeds := desk.deeds + [Finished(exit)];
    NoteWaits(conn.id, task, exit, Course(DoneNote(exit), conn.Out + [Note(task.noteLevel)], desk.deeds, conn.In));
    var r := SendNotification(conn, task.noteLevel);
    if r.Waiting? {
      return DoneNote(exit);
    }
    phase := SendTrigger(conn, desk, task, exit);
  }

  method RunRun(conn: Connection, desk: Desktop, task: Task, exit: bool) returns (phase: Phase)
    requires task.Run?
    modifies conn, desk
    ensures var m := Begin(task);
            CourseOf(conn, desk, phase)
            == ClientRun(conn.id, task, exit,
                         Course(m.phase, old(conn.Out) + m.outs, old(desk.deeds) + m.deeds, old(conn.In)))
  {
    assert conn.Out + [] == conn.Out && desk.deeds + [] == desk.deeds;
    if task.waitFor.Some? {
      ghost var start := CourseOf(conn, desk, Phase.Waiting);
      PhaseWaits(conn.id, task, exit, start, TriggerStop(task.waitFor.value));
      UntilStops(TriggerStop(task.waitFor.value), conn.In);
      var triggerMessage: Option<bool> := None;
      while conn.In != [] && triggerMessage.None?
        invariant conn.Out == start.outs && desk.deeds == start.deeds
        invariant triggerMessage.None? ==>
                    Until(TriggerStop(task.waitFor.value), conn.In)
                    == Until(TriggerStop(task.waitFor.value), start.rest)
        invariant triggerMessage.Some? ==>
          var end := Until(TriggerStop(task.waitFor.value), start.rest);
          end.Some? && end.value.1 == conn.In && end.value.0.packet.content.success == triggerMessage.value
        decreases |conn.In|
      {
        var x := conn.In[0];
        conn.In := conn.In[1..];
        if x.Arrived? && x.packet.content.Trigger? && x.packet.content.name == task.waitFor.value {
          triggerMessage := Some(x.packet.content.success);
        }
      }
      if triggerMessage.None? {
        return Phase.Waiting;
      }
      var success := triggerMessage.value;
      NoteWaits(conn.id, task, exit, Course(TriggerNote(success), conn.Out + [Note(3.0)], desk.deeds, conn.In));
      var r := SendNotification(conn, 3.0);
      if r.Waiting? {
        return TriggerNote(success);
      }
      assert conn.Out + [] == conn.Out && desk.deeds + [] == desk.deeds;
      if !task.always && !success {
        return Failed;
      }
    }
    phase := RunCommand(conn, desk, task, exit);
  }

  /** connectWithKey with a key given, and then the command's own loop: the whole client is the automaton. */
  method RunClient(conn: Connection, desk: Desktop, task: Task, trust: bool, exit: bool) returns (phase: Phase)
    modifies conn, desk
    ensures var m := Connect(task, trust);
            CourseOf(conn, desk, phase)
            == ClientRun(conn.id, task, exit,
                         Course(m.phase, old(conn.Out) + m.outs, old(desk.deeds) + m.deeds, old(conn.In)))
  {
    assert conn.Out + [] == conn.Out && desk.deeds + [] == desk.deeds;
    if !trust {
      ghost var start := Course(Authing, conn.Out + [TestAuth], desk.deeds, conn.In);
      PhaseWaits(conn.id, task, exit, start, AuthStop(conn.id));
      UntilStops(AuthStop(conn.id), conn.In);
      var r := TestAuthLoop(conn);
      assert conn.Out + [] == conn.Out;
      match r {
        case Waiting => return Authing;
        case TimedOut => return Failed;
        case Got(_) =>
      }
    }
    match task {
      case JustConnect => phase := Succeeded;
      case Copy(data) =>
        CopyIgnoresExit(conn.id, data, exit, Course(Copying, conn.Out + [CopyData(data)], desk.deeds, conn.In));
        phase := RunRemoteCopy(conn, desk, data);
      case Run(_, _, _, _) => phase := RunRun(conn, desk, task, exit);
    }
  }

  /** connectWithKey with a key given: a key string without keys is refused; otherwise the connection
      has exactly the keys scanned from it, and the client runs over it. */
  method ConnectWithKey(id: Id, key: string, inputs: seq<Input>, desk: Desktop, task: Task, trust: bool, exit: bool)
    returns (phase: Phase, connection: Option<Connection>)
    modifies desk
    ensures connection.None? <==> KeyScan.ParseKeys(key).None?
    ensures connection.None? ==> phase == Failed && desk.deeds == old(desk.deeds)
    ensures connection.Some? ==>
              var m := Connect(task, trust);
              && fresh(connection.value)
              && connection.value.id == id && connection.value.keys == KeyScan.ParseKeys(key).value
              && CourseOf(connection.value, desk, phase)
                 == ClientRun(id, task, exit, Course(m.phase, m.outs, old(desk.deeds) + m.deeds, inputs))
  {
    var keys := KeyScan.ParseKeys(key);
    if keys.None? {
      return Failed, None;
    }
    var conn := new Connection(id, keys.value, inputs);
    assert [] + Connect(task, trust).outs == Connect(task, trust).outs;
    phase := RunClient(conn, desk, task, trust, exit);
    connection := Some(conn);
  }

  lemma {:induction false} CopyIgnoresExit(me: Id, data: string, ok: bool, at: Course)
    requires at.phase.Copying? || at.phase.Succeeded? || at.phase.Failed?
    ensures ClientRun(me, Copy(data), ok, at) == ClientRun(me, Copy(data), true, at)
    decreases |at.rest|
  {
    if at.phase.Copying? && at.rest != [] {
      var m := ClientTurn(me, Copy(data), at.phase, at.rest[0]);
      CopyIgnoresExit(me, data, ok, Course(m.phase, at.outs + m.outs, at.deeds + m.deeds, at.rest[1..]));
    }
  }
}

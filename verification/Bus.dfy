/** All the programs of one realm on the bus, and every step the system can take. */
module Bus {
  import opened Wire
  import opened Introducer
  import opened Clients

  /** What waits on a connection's In side. */
  datatype Item = FromWire(body: Body) | ReconnectedNotice

  datatype Role =
    | Intro(level: real, active: bool)
    | Client(task: Task, trust: bool, phase: Phase)
    | Bystander

  /** One program.  `oldWriter`: the writer goroutine of a socket that died is still running.
      `robbed`: such a writer took a message after the reconnection (history only). */
  datatype Node = Node(alive: bool, keys: seq<Key>, role: Role, connected: bool, oldWriter: bool, robbed: bool,
                       outbox: seq<Content>, inbox: seq<Item>)

  datatype Entry = Entry(who: Id, deed: Deed)

  /** Node `i` of `nodes` has connection id `i`; programs that left stay in the list, dead. */
  datatype System = System(nodes: seq<Node>, log: seq<Entry>)

  datatype Newcomer =
    | NewIntroducer(level: real)
    | NewClient(task: Task, trust: bool)
    | NewBystander

  /** What one program, or the network around it, can do next. */
  datatype Action =
    | Publish
    | Receive(env: Env)
    | Timeout
    | Exit(ok: bool)
    | Disconnect(keep: nat)
    | Lose(written: nat)
    | WriterExit
    | Reconnect
    | Leave
    | Say(content: Content)

  datatype Step = Join(newcomer: Newcomer, keys: seq<Key>) | At(i: Id, action: Action)

  const EMPTY := System([], [])

  predicate Reads(role: Role)
  {
    role.Client? ==> Reading(role.phase)
  }

  predicate RoleFits(role: Role)
  {
    role.Client? ==> Fits(role.task, role.phase)
  }

  /** Other programs may send anything but the protocol's own announcements and replies. */
  predicate Speakable(content: Content)
  {
    || content.TestAuth? || content.RequestAuth? || content.CopyData? || content.OpenURL?
    || content.Notification? || content.Other?
  }

  datatype Reaction = Reaction(role: Role, outs: seq<Content>, deeds: seq<Deed>)

  function Birth(newcomer: Newcomer): (r: Reaction)
    ensures RoleFits(r.role)
  {
    match newcomer
    case NewIntroducer(level) => Reaction(Intro(level, true), [Present(level), RollCall], [])
    case NewClient(task, trust) =>
      var m := Connect(task, trust);
      Reaction(Client(task, trust, m.phase), m.outs, m.deeds)
    case NewBystander => Reaction(Bystander, [], [])
  }

  function React(me: Id, keys: seq<Key>, role: Role, input: Input): (r: Reaction)
    requires RoleFits(role)
    ensures RoleFits(r.role)
  {
    match role
    case Intro(level, active) =>
      var t := IntroTurn(level, keys, active, input);
      Reaction(Intro(level, t.active), t.outs, t.deeds)
    case Client(task, trust, phase) =>
      var m := ClientTurn(me, task, phase, input);
      Reaction(Client(task, trust, m.phase), m.outs, m.deeds)
    case Bystander => Reaction(Bystander, [], [])
  }

  function Entries(who: Id, deeds: seq<Deed>): seq<Entry>
  {
    seq(|deeds|, n requires 0 <= n < |deeds| => Entry(who, deeds[n]))
  }

  function Items(bodies: seq<Body>): seq<Item>
  {
    seq(|bodies|, n requires 0 <= n < |bodies| => FromWire(bodies[n]))
  }

  /** The broker hands the bodies to everyone connected, the sender included. */
  function Deliver(node: Node, bodies: seq<Body>): Node
  {
    if node.alive && node.connected then node.(inbox := node.inbox + Items(bodies)) else node
  }

  function Broadcast(nodes: seq<Node>, bodies: seq<Body>): seq<Node>
  {
    seq(|nodes|, j requires 0 <= j < |nodes| => Deliver(nodes[j], bodies))
  }

  predicate CanAct(i: Id, node: Node, action: Action)
  {
    match action
    case Publish => node.connected && node.outbox != []
    case Receive(_) => node.alive && node.inbox != [] && Reads(node.role)
    case Timeout => node.alive
    case Exit(_) => node.alive && node.role.Client? && node.role.phase.Running?
    case Disconnect(keep) => node.connected && keep <= |node.inbox| && ReconnectedNotice !in node.inbox[keep..]
    case Lose(written) =>
      node.alive && node.oldWriter && node.outbox != [] && written <= |Prepare(node.outbox[0], node.keys, i)|
    case WriterExit => node.oldWriter
    case Reconnect => node.alive && !node.connected
    case Leave => node.alive
    case Say(content) => node.alive && node.role.Bystander? && Speakable(content)
  }

  /** What an action does: the program's new state, the bodies the broker relays, the deeds. */
  datatype Effect = Effect(node: Node, bodies: seq<Body>, deeds: seq<Deed>)

  function Respond(i: Id, node: Node, input: Input): (e: Effect)
    requires RoleFits(node.role)
    ensures RoleFits(e.node.role)
  {
    var r := React(i, node.keys, node.role, input);
    Effect(node.(role := r.role, outbox := node.outbox + r.outs), [], r.deeds)
  }

  /** The program takes the next item off its connection. */
  function TakeItem(i: Id, node: Node, env: Env): (e: Effect)
    requires RoleFits(node.role) && node.inbox != []
    ensures RoleFits(e.node.role)
  {
    var rest := node.(inbox := node.inbox[1..]);
    match node.inbox[0]
    case ReconnectedNotice => Respond(i, rest.(robbed := false), Input.Reconnected)
    case FromWire(body) =>
      match Open(body, node.keys, i)
      case None => Effect(rest, [], [])
      case Some(packet) => Respond(i, rest, Arrived(packet, env))
  }

  function Act(i: Id, node: Node, action: Action): (e: Effect)
    requires RoleFits(node.role) && CanAct(i, node, action)
    ensures RoleFits(e.node.role)
  {
    match action
    case Publish => Effect(node.(outbox := node.outbox[1..]), Prepare(node.outbox[0], node.keys, i), [])
    case Receive(env) => TakeItem(i, node, env)
    case Timeout => Respond(i, node, TimerFires)
    case Exit(ok) =>
      var m := CommandExits(node.role.task, ok);
      Effect(node.(role := node.role.(phase := m.phase), outbox := node.outbox + m.outs), [], m.deeds)
    case Disconnect(keep) =>
      Effect(if node.alive then node.(connected := false, oldWriter := true, inbox := node.inbox[..keep])
             else node.(connected := false, outbox := []), [], [])
    case Lose(written) =>
      Effect(node.(outbox := node.outbox[1..], robbed := node.robbed || node.connected),
             Prepare(node.outbox[0], node.keys, i)[..written], [])
    case WriterExit => Effect(node.(oldWriter := false), [], [])
    case Reconnect => Effect(node.(connected := true, inbox := node.inbox + [ReconnectedNotice]), [], [])
    case Leave =>
      var outbox := if node.connected then node.outbox else [];
      Effect(node.(alive := false, oldWriter := false, inbox := [], outbox := outbox), [], [])
    case Say(content) => Effect(node.(outbox := node.outbox + [content]), [], [])
  }

  /** What a program is never changes: its keys, an introducer's level, a client's task. */
  predicate SameIdentity(a: Role, b: Role)
  {
    match a
    case Intro(level, _) => b.Intro? && b.level == level
    case Client(task, trust, _) => b.Client? && b.task == task && b.trust == trust
    case Bystander => b.Bystander?
  }

  lemma RespondKeepsIdentity(i: Id, node: Node, input: Input)
    requires RoleFits(node.role)
    ensures var e := Respond(i, node, input).node;
            SameIdentity(node.role, e.role) && e.keys == node.keys && e.alive == node.alive
  {
  }

  lemma TakeItemKeepsIdentity(i: Id, node: Node, env: Env)
    requires RoleFits(node.role) && node.inbox != []
    ensures var e := TakeItem(i, node, env).node;
            SameIdentity(node.role, e.role) && e.keys == node.keys && e.alive == node.alive
  {
    var rest := node.(inbox := node.inbox[1..]);
    match node.inbox[0]
    case ReconnectedNotice => RespondKeepsIdentity(i, rest.(robbed := false), Input.Reconnected);
    case FromWire(body) =>
      if Open(body, node.keys, i).Some? {
        RespondKeepsIdentity(i, rest, Arrived(Open(body, node.keys, i).value, env));
      }
  }

  lemma ActKeepsIdentity(i: Id, node: Node, action: Action)
    requires RoleFits(node.role) && CanAct(i, node, action)
    ensures var e := Act(i, node, action);
            && SameIdentity(node.role, e.node.role) && e.node.keys == node.keys
            && (e.node.alive ==> node.alive)
  {
    match action
    case Receive(env) => TakeItemKeepsIdentity(i, node, env);
    case Timeout => RespondKeepsIdentity(i, node, TimerFires);
    case _ =>
  }

  ghost predicate WellFormed(s: System)
  {
    forall i :: 0 <= i < |s.nodes| ==> RoleFits(s.nodes[i].role)
  }

  predicate Enabled(s: System, step: Step)
  {
    match step
    case Join(newcomer, keys) => newcomer.NewBystander? || keys != []
    case At(i, action) => i < |s.nodes| && CanAct(i, s.nodes[i], action)
  }

  function Apply(s: System, step: Step): (s': System)
    requires Enabled(s, step) && WellFormed(s)
    ensures WellFormed(s')
  {
    match step
    case Join(newcomer, keys) =>
      var r := Birth(newcomer);
      System(s.nodes + [Node(true, keys, r.role, true, false, false, r.outs, [])], s.log + Entries(|s.nodes|, r.deeds))
    case At(i, action) =>
      var e := Act(i, s.nodes[i], action);
      System(Broadcast(s.nodes[i := e.node], e.bodies), s.log + Entries(i, e.deeds))
  }

  /** The steps can be taken one after the other from `s`. */
  ghost predicate Feasible(s: System, steps: seq<Step>)
    requires WellFormed(s)
    decreases |steps|
  {
    steps == [] || (Enabled(s, steps[0]) && Feasible(Apply(s, steps[0]), steps[1..]))
  }

  ghost function After(s: System, steps: seq<Step>): (s': System)
    requires WellFormed(s) && Feasible(s, steps)
    ensures WellFormed(s')
    decreases |steps|
  {
    if steps == [] then s else After(Apply(s, steps[0]), steps[1..])
  }

  /** `steps` lead from `s` to `t`. */
  ghost predicate Leads(s: System, steps: seq<Step>, t: System)
  {
    WellFormed(s) && Feasible(s, steps) && After(s, steps) == t
  }
}

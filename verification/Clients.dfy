/** The commands that connect as clients: api/pmb.go, remotecopy.go and run.go. */
module Clients {
  import opened Wrappers
  import opened Wire
  import opened Introducer

  datatype Task =
    | JustConnect
    | Copy(data: string)
    | Run(waitFor: Option<string>, sendTo: Option<string>, always: bool, noteLevel: real)

  datatype Phase =
    | Authing
    | Copying
    | Waiting
    | TriggerNote(ok: bool)
    | Running
    | DoneNote(ok: bool)
    | SendNote(ok: bool)
    | Succeeded
    | Failed

  datatype Move = Move(phase: Phase, outs: seq<Content>, deeds: seq<Deed>)

  function Stay(phase: Phase): Move { Move(phase, [], []) }

  function Note(level: real): Content { Notification("notify", "", level) }

  /** Connect: check the key unless told to trust it, then start the task. */
  function Connect(task: Task, trust: bool): Move
  {
    if trust then Begin(task) else Move(Authing, [TestAuth], [])
  }

  function Begin(task: Task): Move
  {
    match task
    case JustConnect => Stay(Succeeded)
    case Copy(data) => Move(Copying, [CopyData(data)], [])
    case Run(waitFor, _, _, _) => if waitFor.Some? then Stay(Waiting) else Move(Running, [], [Started])
  }

  /** runRun after its first notification: give up on a failed trigger, or start the command. */
  function AfterTrigger(task: Task, ok: bool): Move
    requires task.Run?
  {
    if !task.always && !ok then Stay(Failed) else Move(Running, [], [Started])
  }

  /** runRun after its completion notification. */
  function AfterDone(task: Task, ok: bool): Move
    requires task.Run?
  {
    if task.sendTo.Some? then Move(SendNote(ok), [Note(3.0)], []) else Stay(Succeeded)
  }

  function AfterSend(task: Task, ok: bool): Move
    requires task.Run?
  {
    if task.sendTo.Some? then Move(Succeeded, [Trigger(task.sendTo.value, ok)], []) else Stay(Succeeded)
  }

  /** The program is receiving from its connection in this phase. */
  predicate Reading(phase: Phase)
  {
    !phase.Running? && !phase.Succeeded? && !phase.Failed?
  }

  predicate Fits(task: Task, phase: Phase)
  {
    match phase
    case Authing => true
    case Succeeded => true
    case Failed => true
    case Copying => task.Copy?
    case _ => task.Run?
  }

  /** One pass of the `select` the client is blocked in. */
  function ClientTurn(me: Id, task: Task, phase: Phase, input: Input): (m: Move)
    requires Fits(task, phase)
    ensures Fits(task, m.phase)
  {
    var displayed := input.Arrived? && input.packet.content.NotificationDisplayed? && input.packet.content.origin == me;
    match phase
    case Authing =>
      if input.Arrived? && input.packet.content == AuthValid(me) then Begin(task)
      else if input.TimerFires? then Stay(Failed)
      else Stay(phase)
    case Copying =>
      if input.Arrived? && input.packet.content == DataCopied(me) then Stay(Succeeded)
      else if input.TimerFires? then Stay(Failed)
      else Stay(phase)
    case Waiting =>
      if input.Arrived? && input.packet.content.Trigger? && task.waitFor == Some(input.packet.content.name)
      then Move(TriggerNote(input.packet.content.success), [Note(3.0)], [])
      else Stay(phase)
    case TriggerNote(ok) => if displayed || input.TimerFires? then AfterTrigger(task, ok) else Stay(phase)
    case DoneNote(ok) => if displayed || input.TimerFires? then AfterDone(task, ok) else Stay(phase)
    case SendNote(ok) => if displayed || input.TimerFires? then AfterSend(task, ok) else Stay(phase)
    case _ => Stay(phase)
  }

  /** The command exits. */
  function CommandExits(task: Task, ok: bool): Move
    requires task.Run?
  {
    Move(DoneNote(ok), [Note(task.noteLevel)], [Finished(ok)])
  }
}

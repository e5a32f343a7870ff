/** introducer.go: the introducer's message loop. */
module Introducer {
  import opened Wrappers
  import opened Wire
  import KeyScan

  /** What the machine answers when asked: what stops a URL from opening, if anything, and is the
      screen saver on.  Notifications from level `stickyFrom` on stick. */
  datatype Env = Env(openError: Option<string>, screenSaverOn: bool, stickyFrom: real)

  /** One turn of a `select` over the connection's In channel and a timer. */
  datatype Input =
    | Arrived(packet: Packet, env: Env)
    | Reconnected
    | TimerFires

  /** What a program did outside the bus. */
  datatype Deed =
    | Vouched(client: Id)
    | Copied(client: Id, data: string)
    | OpenedUrl(client: Id, url: string, isHtml: bool)
    | KeysCopied(clipboard: string)
    | Displayed(client: Id, noteId: string, text: string)
    | Noticed(text: string, sticky: bool)
    | Started
    | Finished(ok: bool)

  datatype Turn = Turn(active: bool, outs: seq<Content>, deeds: seq<Deed>)

  /** One pass of the loop of runIntroducer. */
  function IntroTurn(level: real, keys: seq<Key>, active: bool, input: Input): Turn
  {
    match input
    case TimerFires => if active then Turn(active, [], []) else Turn(true, [RollCall], [])
    case Reconnected => Turn(true, [Present(level), RollCall], [])
    case Arrived(packet, env) =>
      match packet.content
      case Present(theirs) => Turn(active && !(theirs > level), [], [])
      case RollCall => Turn(active, [Present(level)], [])
      case _ => if active then Serve(keys, packet, env) else Turn(active, [], [])
  }

  /** The requests that only an active introducer serves. */
  function Serve(keys: seq<Key>, packet: Packet, env: Env): Turn
  {
    var client := packet.sender;
    match packet.content
    case CopyData(data) =>
      Turn(true, [DataCopied(client)], [Copied(client, data), Noticed("Remote copy complete.", false)])
    case OpenURL(url, isHtml) =>
      if env.openError.Some? then Turn(true, [], [Noticed("Unable to open url: " + env.openError.value, false)])
      else Turn(true, [URLOpened(client)], [OpenedUrl(client, url, isHtml), Noticed("URL opened.", false)])
    case TestAuth => Turn(true, [AuthValid(client)], [Vouched(client)])
    case RequestAuth => Turn(true, [], [KeysCopied(KeyScan.Join(keys)), Noticed("Copied key.", false)])
    case Notification(noteId, text, noteLevel) =>
      Turn(true, [NotificationDisplayed(client, noteId, text, noteLevel, env.screenSaverOn)],
           [Displayed(client, noteId, text), Noticed(text, noteLevel >= env.stickyFrom)])
    case _ => Turn(true, [], [])
  }

  /** Someone who asks for authorisation and pastes what an active introducer put on the clipboard
      gets exactly the introducer's keys. */
  lemma CopiedKeysScanBack(level: real, keys: seq<Key>, packet: Packet, env: Env)
    requires packet.content == RequestAuth && KeyScan.AllKeys(keys)
    ensures var t := IntroTurn(level, keys, true, Arrived(packet, env));
            && t.active && t.outs == [] && |t.deeds| == 2
            && t.deeds[0].KeysCopied? && KeyScan.ParseKeys(t.deeds[0].clipboard) == Some(keys)
  {
    KeyScan.ParseJoin(keys);
  }
}

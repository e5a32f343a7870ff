/** What an introducer owes: for every message it can send and everything it can do, which inputs
    call for it.  Over any run it does each as often as it was called for, and nothing else. */
module Answers {
  import opened Wrappers
  import opened Wire
  import opened Introducer
  import opened Programs
  import opened Tally
  import KeyScan

  /** The flag after one more input. */
  function NextFlag(level: real, active: bool, input: Input): bool
  {
    Restores(input) || (active && !Outranked(level, input))
  }

  /** The input is a request with this content from this client. */
  predicate Requests(input: Input, client: Id, content: Content)
  {
    input.Arrived? && input.packet == Packet(client, content)
  }

  predicate AsksToOpen(input: Input, client: Id)
  {
    input.Arrived? && input.packet.sender == client && input.packet.content.OpenURL?
  }

  /** The input calls for this message, from an introducer of this level with this flag. */
  predicate CallsFor(level: real, active: bool, input: Input, message: Content)
  {
    match message
    case Present(l) => l == level && (input.Reconnected? || (input.Arrived? && input.packet.content == RollCall))
    case RollCall => input.Reconnected? || (input.TimerFires? && !active)
    case AuthValid(client) => active && Requests(input, client, TestAuth)
    case DataCopied(client) =>
      active && input.Arrived? && input.packet.sender == client && input.packet.content.CopyData?
    case URLOpened(client) => active && AsksToOpen(input, client) && input.env.openError.None?
    case NotificationDisplayed(client, noteId, text, noteLevel, screenSaverOn) =>
      && active && Requests(input, client, Notification(noteId, text, noteLevel))
      && input.env.screenSaverOn == screenSaverOn
    case _ => false
  }

  /** The notice that a request puts on the screen. */
  predicate NoticeFor(input: Input, text: string, sticky: bool)
  {
    input.Arrived? &&
    match input.packet.content
    case CopyData(_) => text == "Remote copy complete." && !sticky
    case OpenURL(_, _) =>
      && !sticky
      && text == (if input.env.openError.None? then "URL opened."
                  else "Unable to open url: " + input.env.openError.value)
    case RequestAuth => text == "Copied key." && !sticky
    case Notification(_, message, noteLevel) => text == message && (sticky <==> noteLevel >= input.env.stickyFrom)
    case _ => false
  }

  /** The input calls for this deed, from an introducer with these keys and this flag. */
  predicate Warrants(keys: seq<Key>, active: bool, input: Input, deed: Deed)
  {
    && active
    && match deed
       case Vouched(client) => Requests(input, client, TestAuth)
       case Copied(client, data) => Requests(input, client, CopyData(data))
       case OpenedUrl(client, url, isHtml) => Requests(input, client, OpenURL(url, isHtml)) && input.env.openError.None?
       case KeysCopied(clipboard) =>
         input.Arrived? && input.packet.content == RequestAuth && clipboard == KeyScan.Join(keys)
       case Displayed(client, noteId, text) =>
         && input.Arrived? && input.packet.sender == client && input.packet.content.Notification?
         && input.packet.content.noteId == noteId && input.packet.content.text == text
       case Noticed(text, sticky) => NoticeFor(input, text, sticky)
       case _ => false
  }

  /** How many of the inputs call for the message, as the flag goes up and down. */
  function Calls(level: real, active: bool, inputs: seq<Input>, message: Content): nat
    decreases |inputs|
  {
    if inputs == [] then 0
    else
      One(CallsFor(level, active, inputs[0], message))
      + Calls(level, NextFlag(level, active, inputs[0]), inputs[1..], message)
  }

  function Warranted(level: real, keys: seq<Key>, active: bool, inputs: seq<Input>, deed: Deed): nat
    decreases |inputs|
  {
    if inputs == [] then 0
    else
      One(Warrants(keys, active, inputs[0], deed))
      + Warranted(level, keys, NextFlag(level, active, inputs[0]), inputs[1..], deed)
  }

  lemma TurnFlag(level: real, keys: seq<Key>, active: bool, input: Input)
    ensures IntroTurn(level, keys, active, input).active == NextFlag(level, active, input)
  {
  }

  lemma TurnShort(level: real, keys: seq<Key>, active: bool, input: Input)
    ensures var t := IntroTurn(level, keys, active, input);
            && |t.outs| <= 2 && |t.deeds| <= 2
            && (|t.outs| == 2 ==> t.outs[0] != t.outs[1]) && (|t.deeds| == 2 ==> t.deeds[0] != t.deeds[1])
  {
  }

  lemma TurnSends(level: real, keys: seq<Key>, active: bool, input: Input, message: Content)
    ensures message in IntroTurn(level, keys, active, input).outs <==> CallsFor(level, active, input, message)
  {
  }

  lemma TurnDoes(level: real, keys: seq<Key>, active: bool, input: Input, deed: Deed)
    ensures deed in IntroTurn(level, keys, active, input).deeds <==> Warrants(keys, active, input, deed)
  {
  }

  lemma CountPair<T>(items: seq<T>, x: T)
    requires |items| <= 2 && (|items| == 2 ==> items[0] != items[1])
    ensures Count(items, x) == One(x in items)
  {
    CountShort(items, x);
  }

  /** Over any run, each message goes out exactly as often as it was called for. */
  lemma {:induction false} AnswersMatchRequests(level: real, keys: seq<Key>, at: Standing, inputs: seq<Input>,
                                                message: Content)
    ensures Count(IntroRun(level, keys, at, inputs).outs, message)
            == Count(at.outs, message) + Calls(level, at.active, inputs, message)
    decreases |inputs|
  {
    if inputs != [] {
      var t := IntroTurn(level, keys, at.active, inputs[0]);
      AnswersMatchRequests(level, keys, Standing(t.active, at.outs + t.outs, at.deeds + t.deeds), inputs[1..], message);
      TurnFlag(level, keys, at.active, inputs[0]);
      TurnShort(level, keys, at.active, inputs[0]);
      TurnSends(level, keys, at.active, inputs[0], message);
      CountPair(t.outs, message);
      CountAppend(at.outs, t.outs, message);
    }
  }

  /** And each deed is done exactly as often as it was called for. */
  lemma {:induction false} DeedsMatchRequests(level: real, keys: seq<Key>, at: Standing, inputs: seq<Input>, deed: Deed)
    ensures Count(IntroRun(level, keys, at, inputs).deeds, deed)
            == Count(at.deeds, deed) + Warranted(level, keys, at.active, inputs, deed)
    decreases |inputs|
  {
    if inputs != [] {
      var t := IntroTurn(level, keys, at.active, inputs[0]);
      DeedsMatchRequests(level, keys, Standing(t.active, at.outs + t.outs, at.deeds + t.deeds), inputs[1..], deed);
      TurnFlag(level, keys, at.active, inputs[0]);
      TurnShort(level, keys, at.active, inputs[0]);
      TurnDoes(level, keys, at.active, inputs[0], deed);
      CountPair(t.deeds, deed);
      CountAppend(at.deeds, t.deeds, deed);
    }
  }

  /** Answers and deeds come in the order of their requests: those to the first inputs come first. */
  lemma {:induction false} AnswersInOrder(level: real, keys: seq<Key>, at: Standing, a: seq<Input>, b: seq<Input>)
    ensures IntroRun(level, keys, at, a + b) == IntroRun(level, keys, IntroRun(level, keys, at, a), b)
    ensures var (middle, end) := (IntroRun(level, keys, at, a), IntroRun(level, keys, at, a + b));
            middle.outs <= end.outs && middle.deeds <= end.deeds
    decreases |a| + |b|
  {
    if a != [] {
      var t := IntroTurn(level, keys, at.active, a[0]);
      assert (a + b)[1..] == a[1..] + b;
      AnswersInOrder(level, keys, Standing(t.active, at.outs + t.outs, at.deeds + t.deeds), a[1..], b);
    } else {
      assert a + b == b;
      if b != [] {
        var t := IntroTurn(level, keys, at.active, b[0]);
        assert [] + b[1..] == b[1..];
        AnswersInOrder(level, keys, Standing(t.active, at.outs + t.outs, at.deeds + t.deeds), [], b[1..]);
      }
    }
  }
}

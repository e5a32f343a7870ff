/** How a client's run ends, read off what it receives.  Nothing here follows the client step by
    step: the first decisive input, and the number of inputs that end a wait for a display, say
    what it has sent, what it has done and how it ended. */
module Outcomes {
  import opened Wrappers
  import opened Wire
  import opened Introducer
  import opened Clients
  import opened Programs
  import opened Tally

  predicate Replies(input: Input, content: Content)
  {
    input.Arrived? && input.packet.content == content
  }

  /** Input `j` is the first that is this reply or the timer. */
  ghost predicate Decides(inputs: seq<Input>, j: nat, reply: Content)
  {
    && j < |inputs| && (inputs[j].TimerFires? || Replies(inputs[j], reply))
    && Undecided(inputs[..j], reply)
  }

  ghost predicate Undecided(inputs: seq<Input>, reply: Content)
  {
    forall k :: 0 <= k < |inputs| ==> !inputs[k].TimerFires? && !Replies(inputs[k], reply)
  }

  lemma DecidesLater(inputs: seq<Input>, j: nat, reply: Content)
    requires j > 0 && Decides(inputs, j, reply)
    ensures !inputs[0].TimerFires? && !Replies(inputs[0], reply) && Decides(inputs[1..], j - 1, reply)
  {
    assert inputs[..j][0] == inputs[0];
    forall k | 0 <= k < j - 1
      ensures !inputs[1..][k].TimerFires? && !Replies(inputs[1..][k], reply)
    {
      assert inputs[..j][k + 1] == inputs[1..][k];
    }
  }

  lemma StaysPut(me: Id, task: Task, ok: bool, at: Course)
    requires Fits(task, at.phase) && Reading(at.phase) && at.rest != []
    requires ClientTurn(me, task, at.phase, at.rest[0]) == Stay(at.phase)
    ensures ClientRun(me, task, ok, at) == ClientRun(me, task, ok, at.(rest := at.rest[1..]))
  {
    assert at.outs + [] == at.outs && at.deeds + [] == at.deeds;
  }

  // ----- remote copy -----

  /** A remote copy succeeds if its confirmation comes before its timer, and fails if the timer
      comes first; it sends and does nothing more either way. */
  lemma {:induction false} CopyEnds(me: Id, data: string, ok: bool, at: Course, j: nat)
    requires at.phase.Copying? && Decides(at.rest, j, DataCopied(me))
    ensures ClientRun(me, Copy(data), ok, at)
            == Course(if at.rest[j].TimerFires? then Failed else Succeeded, at.outs, at.deeds, at.rest[j + 1..])
    decreases j
  {
    assert at.outs + [] == at.outs && at.deeds + [] == at.deeds;
    if j > 0 {
      DecidesLater(at.rest, j, DataCopied(me));
      StaysPut(me, Copy(data), ok, at);
      CopyEnds(me, data, ok, at.(rest := at.rest[1..]), j - 1);
      assert at.rest[1..][j..] == at.rest[j + 1..];
    }
  }

  lemma {:induction false} CopyWaits(me: Id, data: string, ok: bool, at: Course)
    requires at.phase.Copying? && Undecided(at.rest, DataCopied(me))
    ensures ClientRun(me, Copy(data), ok, at) == at.(rest := [])
    decreases |at.rest|
  {
    if at.rest != [] {
      StaysPut(me, Copy(data), ok, at);
      CopyWaits(me, data, ok, at.(rest := at.rest[1..]));
    }
  }

  // ----- key check -----

  /** The key check passes if AuthValid for this client comes before its timer, and then the task
      begins with the inputs after it; it fails if the timer comes first, and nothing more is sent. */
  lemma {:induction false} CheckEnds(me: Id, task: Task, ok: bool, at: Course, j: nat)
    requires at.phase.Authing? && Decides(at.rest, j, AuthValid(me))
    ensures var m := Begin(task);
            ClientRun(me, task, ok, at)
            == if at.rest[j].TimerFires? then Course(Failed, at.outs, at.deeds, at.rest[j + 1..])
               else ClientRun(me, task, ok, Course(m.phase, at.outs + m.outs, at.deeds + m.deeds, at.rest[j + 1..]))
    decreases j
  {
    assert at.outs + [] == at.outs && at.deeds + [] == at.deeds;
    if j > 0 {
      DecidesLater(at.rest, j, AuthValid(me));
      StaysPut(me, task, ok, at);
      CheckEnds(me, task, ok, at.(rest := at.rest[1..]), j - 1);
      assert at.rest[1..][j..] == at.rest[j + 1..];
    }
  }

  lemma {:induction false} CheckWaits(me: Id, task: Task, ok: bool, at: Course)
    requires at.phase.Authing? && Undecided(at.rest, AuthValid(me))
    ensures ClientRun(me, task, ok, at) == at.(rest := [])
    decreases |at.rest|
  {
    if at.rest != [] {
      StaysPut(me, task, ok, at);
      CheckWaits(me, task, ok, at.(rest := at.rest[1..]));
    }
  }

  // ----- run -----

  /** The timer, or a report that a notification of this client was displayed. */
  predicate EndsNote(me: Id, input: Input)
  {
    || input.TimerFires?
    || (input.Arrived? && input.packet.content.NotificationDisplayed? && input.packet.content.origin == me)
  }

  /** How many of the inputs end a wait for a display. */
  function NoteEnds(me: Id, inputs: seq<Input>): nat
  {
    if inputs == [] then 0 else One(EndsNote(me, inputs[0])) + NoteEnds(me, inputs[1..])
  }

  predicate InNote(phase: Phase)
  {
    phase.TriggerNote? || phase.DoneNote? || phase.SendNote?
  }

  /** A wait for a display takes up one of the inputs that can end it, if there is one. */
  lemma {:induction false} NoteTakesOne(me: Id, task: Task, ok: bool, at: Course) returns (rest: seq<Input>)
    requires task.Run? && InNote(at.phase)
    ensures NoteEnds(me, at.rest) == 0 ==> ClientRun(me, task, ok, at) == at.(rest := [])
    ensures NoteEnds(me, at.rest) > 0 ==>
              var m := AfterNote(task, at.phase);
              && NoteEnds(me, rest) == NoteEnds(me, at.rest) - 1
              && ClientRun(me, task, ok, at)
                 == ClientRun(me, task, ok, Course(m.phase, at.outs + m.outs, at.deeds + m.deeds, rest))
    decreases |at.rest|
  {
    rest := [];
    if at.rest != [] {
      if EndsNote(me, at.rest[0]) {
        rest := at.rest[1..];
      } else {
        StaysPut(me, task, ok, at);
        rest := NoteTakesOne(me, task, ok, at.(rest := at.rest[1..]));
      }
    }
  }

  lemma NothingMore(me: Id, task: Task, ok: bool, at: Course)
    requires at.phase.Succeeded? || at.phase.Failed?
    ensures ClientRun(me, task, ok, at) == at
  {
  }

  /** From the notification before the trigger on: with one more display the trigger goes out. */
  lemma TriggerGoesOut(me: Id, task: Task, exit: bool, at: Course)
    requires task.Run? && task.sendTo.Some? && at.phase == SendNote(exit)
    ensures var end := ClientRun(me, task, exit, at);
            && end.deeds == at.deeds
            && end.outs == at.outs + (if NoteEnds(me, at.rest) > 0 then [Trigger(task.sendTo.value, exit)] else [])
            && end.phase == (if NoteEnds(me, at.rest) > 0 then Succeeded else SendNote(exit))
  {
    var rest := NoteTakesOne(me, task, exit, at);
    assert at.deeds + [] == at.deeds && at.outs + [] == at.outs;
    if NoteEnds(me, at.rest) > 0 {
      NothingMore(me, task, exit, Course(Succeeded, at.outs + [Trigger(task.sendTo.value, exit)], at.deeds, rest));
    }
  }

  /** What a command sends once it has started: its report, the announcement of its trigger after
      one display, and its trigger after another. */
  function SentAfterStart(task: Task, exit: bool, ends: nat): seq<Content>
    requires task.Run?
  {
    if task.sendTo.None? then [Note(task.noteLevel)]
    else if ends == 0 then [Note(task.noteLevel)]
    else if ends == 1 then [Note(task.noteLevel), Note(3.0)]
    else [Note(task.noteLevel), Note(3.0), Trigger(task.sendTo.value, exit)]
  }

  /** A command that has started reaches its end after one display, or two if it has a trigger to send. */
  predicate ReachesEnd(task: Task, ends: nat)
    requires task.Run?
  {
    ends >= if task.sendTo.Some? then 2 else 1
  }

  lemma CommandEnds(me: Id, task: Task, exit: bool, at: Course)
    requires task.Run? && at.phase.Running?
    ensures var (end, ends) := (ClientRun(me, task, exit, at), NoteEnds(me, at.rest));
            && end.deeds == at.deeds + [Finished(exit)] && end.outs == at.outs + SentAfterStart(task, exit, ends)
            && (end.phase.Succeeded? <==> ReachesEnd(task, ends)) && !end.phase.Failed?
  {
    var done := Course(DoneNote(exit), at.outs + [Note(task.noteLevel)], at.deeds + [Finished(exit)], at.rest);
    var rest := NoteTakesOne(me, task, exit, done);
    if NoteEnds(me, at.rest) > 0 {
      var m := AfterDone(task, exit);
      var next := Course(m.phase, done.outs + m.outs, done.deeds + m.deeds, rest);
      assert done.deeds + [] == done.deeds && done.outs + [] == done.outs;
      if task.sendTo.Some? {
        TriggerGoesOut(me, task, exit, next);
        assert at.outs + [Note(task.noteLevel)] + [Note(3.0)] == at.outs + [Note(task.noteLevel), Note(3.0)];
      } else {
        NothingMore(me, task, exit, next);
      }
    }
  }

  /** The input is the trigger of this name. */
  predicate IsTrigger(input: Input, name: string)
  {
    input.Arrived? && input.packet.content.Trigger? && input.packet.content.name == name
  }

  ghost predicate NoTrigger(inputs: seq<Input>, name: string)
  {
    forall k :: 0 <= k < |inputs| ==> !IsTrigger(inputs[k], name)
  }

  ghost predicate FirstTrigger(inputs: seq<Input>, name: string, j: nat)
  {
    j < |inputs| && IsTrigger(inputs[j], name) && NoTrigger(inputs[..j], name)
  }

  lemma {:induction false} KeepsWaiting(me: Id, task: Task, exit: bool, at: Course)
    requires task.Run? && task.waitFor.Some? && at.phase.Waiting? && NoTrigger(at.rest, task.waitFor.value)
    ensures ClientRun(me, task, exit, at) == at.(rest := [])
    decreases |at.rest|
  {
    if at.rest != [] {
      StaysPut(me, task, exit, at);
      KeepsWaiting(me, task, exit, at.(rest := at.rest[1..]));
    }
  }

  lemma {:induction false} TriggerIsTaken(me: Id, task: Task, exit: bool, at: Course, j: nat)
    requires task.Run? && task.waitFor.Some? && at.phase.Waiting? && FirstTrigger(at.rest, task.waitFor.value, j)
    ensures ClientRun(me, task, exit, at)
            == (var noting := TriggerNote(at.rest[j].packet.content.success);
                ClientRun(me, task, exit, Course(noting, at.outs + [Note(3.0)], at.deeds, at.rest[j + 1..])))
    decreases j
  {
    assert at.deeds + [] == at.deeds;
    if j > 0 {
      assert at.rest[..j][0] == at.rest[0];
      StaysPut(me, task, exit, at);
      forall k | 0 <= k < j - 1
        ensures !IsTrigger(at.rest[1..][k], task.waitFor.value)
      {
        assert at.rest[..j][k + 1] == at.rest[1..][k];
      }
      TriggerIsTaken(me, task, exit, at.(rest := at.rest[1..]), j - 1);
      assert at.rest[1..][j..] == at.rest[j + 1..];
    }
  }

  /** After its trigger: nothing until the display of its notification ends; then the command starts
      if the trigger reports success or always is set, and otherwise fails. */
  lemma TriggeredEnds(me: Id, task: Task, exit: bool, at: Course, success: bool)
    requires task.Run? && at.phase == TriggerNote(success)
    ensures var (end, ends) := (ClientRun(me, task, exit, at), NoteEnds(me, at.rest));
            if ends == 0 then end == at.(rest := [])
            else if !success && !task.always then end.phase.Failed? && end.outs == at.outs && end.deeds == at.deeds
            else
              && end.deeds == at.deeds + [Started, Finished(exit)]
              && end.outs == at.outs + SentAfterStart(task, exit, ends - 1)
              && (end.phase.Succeeded? <==> ReachesEnd(task, ends - 1)) && !end.phase.Failed?
  {
    var rest := NoteTakesOne(me, task, exit, at);
    assert at.deeds + [] == at.deeds && at.outs + [] == at.outs;
    if NoteEnds(me, at.rest) > 0 {
      if !success && !task.always {
        NothingMore(me, task, exit, Course(Failed, at.outs, at.deeds, rest));
      } else {
        CommandEnds(me, task, exit, Course(Running, at.outs, at.deeds + [Started], rest));
        assert at.deeds + [Started] + [Finished(exit)] == at.deeds + [Started, Finished(exit)];
      }
    }
  }

  /** The command may start, with this many displays after its start: it has nothing to wait for; or
      its trigger came, the display after it ended, and it was a success, or always is set. */
  ghost predicate MayStart(me: Id, task: Task, inputs: seq<Input>, ends: nat)
    requires task.Run?
  {
    if task.waitFor.None? then ends == NoteEnds(me, inputs)
    else exists j: nat :: ReleasedAt(me, task, inputs, j) && ends + 1 == NoteEnds(me, inputs[j + 1..])
  }

  ghost predicate ReleasedAt(me: Id, task: Task, inputs: seq<Input>, j: nat)
    requires task.Run? && task.waitFor.Some?
  {
    && FirstTrigger(inputs, task.waitFor.value, j) && NoteEnds(me, inputs[j + 1..]) > 0
    && (task.always || inputs[j].packet.content.success)
  }

  lemma {:induction false} SomeTrigger(inputs: seq<Input>, name: string) returns (j: nat)
    requires !NoTrigger(inputs, name)
    ensures FirstTrigger(inputs, name, j)
  {
    if IsTrigger(inputs[0], name) {
      j := 0;
    } else {
      assert exists k :: 0 <= k < |inputs| && IsTrigger(inputs[k], name);
      var k :| 0 <= k < |inputs| && IsTrigger(inputs[k], name);
      assert inputs[1..][k - 1] == inputs[k];
      j := SomeTrigger(inputs[1..], name);
      var before := inputs[..j + 1];
      forall k | 0 <= k < |before|
        ensures !IsTrigger(before[k], name)
      {
        assert k > 0 ==> before[k] == inputs[1..][..j][k - 1];
      }
      j := j + 1;
    }
  }

  /** The run command begun with these inputs. */
  function Begun(me: Id, task: Task, exit: bool, outs: seq<Content>, deeds: seq<Deed>, inputs: seq<Input>): Course
    requires task.Run?
  {
    var m := Begin(task);
    ClientRun(me, task, exit, Course(m.phase, outs + m.outs, deeds + m.deeds, inputs))
  }

  /** A command that may start does: it starts once, ends once, and sends exactly its report, the
      announcement of its trigger, and its trigger, as far as the displays go. */
  lemma RunEnds(me: Id, task: Task, exit: bool, outs: seq<Content>, deeds: seq<Deed>, inputs: seq<Input>, ends: nat)
    requires task.Run? && MayStart(me, task, inputs, ends)
    ensures var end := Begun(me, task, exit, outs, deeds, inputs);
            && end.deeds == deeds + [Started, Finished(exit)]
            && end.outs == outs + (if task.waitFor.Some? then [Note(3.0)] else []) + SentAfterStart(task, exit, ends)
            && (end.phase.Succeeded? <==> ReachesEnd(task, ends))
  {
    assert outs + [] == outs && deeds + [] == deeds;
    if task.waitFor.None? {
      CommandEnds(me, task, exit, Course(Running, outs, deeds + [Started], inputs));
      assert deeds + [Started] + [Finished(exit)] == deeds + [Started, Finished(exit)];
    } else {
      var j: nat :| ReleasedAt(me, task, inputs, j) && ends + 1 == NoteEnds(me, inputs[j + 1..]);
      var success := inputs[j].packet.content.success;
      TriggerIsTaken(me, task, exit, Course(Phase.Waiting, outs, deeds, inputs), j);
      TriggeredEnds(me, task, exit, Course(TriggerNote(success), outs + [Note(3.0)], deeds, inputs[j + 1..]), success);
    }
  }

  /** A command that may not start does nothing, and sends at most the notification of its trigger. */
  lemma RunDoesNotStart(me: Id, task: Task, exit: bool, outs: seq<Content>, deeds: seq<Deed>, inputs: seq<Input>)
    requires task.Run? && forall ends: nat :: !MayStart(me, task, inputs, ends)
    ensures var end := Begun(me, task, exit, outs, deeds, inputs);
            && end.deeds == deeds && !end.phase.Succeeded? && task.waitFor.Some?
            && end.outs == outs + (if NoTrigger(inputs, task.waitFor.value) then [] else [Note(3.0)])
  {
    assert outs + [] == outs && deeds + [] == deeds;
    assert task.waitFor.None? ==> MayStart(me, task, inputs, NoteEnds(me, inputs));
    var name := task.waitFor.value;
    var start := Course(Phase.Waiting, outs, deeds, inputs);
    if NoTrigger(inputs, name) {
      KeepsWaiting(me, task, exit, start);
    } else {
      var j := SomeTrigger(inputs, name);
      var success := inputs[j].packet.content.success;
      TriggerIsTaken(me, task, exit, start, j);
      assert ReleasedAt(me, task, inputs, j) ==> MayStart(me, task, inputs, NoteEnds(me, inputs[j + 1..]) - 1);
      TriggeredEnds(me, task, exit, Course(TriggerNote(success), outs + [Note(3.0)], deeds, inputs[j + 1..]), success);
    }
  }

  // ----- the same, in counts -----

  ghost predicate MayStartAtAll(me: Id, task: Task, inputs: seq<Input>)
    requires task.Run?
  {
    task.waitFor.None? || exists j: nat :: ReleasedAt(me, task, inputs, j)
  }

  lemma StartsMean(me: Id, task: Task, inputs: seq<Input>)
    requires task.Run?
    ensures MayStartAtAll(me, task, inputs) <==> exists ends: nat :: MayStart(me, task, inputs, ends)
  {
    if task.waitFor.None? {
      assert MayStart(me, task, inputs, NoteEnds(me, inputs));
    } else {
      if j: nat :| ReleasedAt(me, task, inputs, j) {
        assert MayStart(me, task, inputs, NoteEnds(me, inputs[j + 1..]) - 1);
      }
      if ends: nat :| MayStart(me, task, inputs, ends) {
        var j: nat :| ReleasedAt(me, task, inputs, j) && ends + 1 == NoteEnds(me, inputs[j + 1..]);
      }
    }
  }

  /** The command is started and finished exactly once if it may start, and never otherwise. */
  lemma StartsExactly(me: Id, task: Task, exit: bool, outs: seq<Content>, deeds: seq<Deed>, inputs: seq<Input>,
                      ok: bool)
    requires task.Run?
    ensures var end := Begun(me, task, exit, outs, deeds, inputs);
            && Count(end.deeds, Started) == Count(deeds, Started) + One(MayStartAtAll(me, task, inputs))
            && Count(end.deeds, Finished(ok))
               == Count(deeds, Finished(ok)) + One(MayStartAtAll(me, task, inputs) && ok == exit)
  {
    StartsMean(me, task, inputs);
    if ends: nat :| MayStart(me, task, inputs, ends) {
      RunEnds(me, task, exit, outs, deeds, inputs, ends);
      CountAppend(deeds, [Started, Finished(exit)], Started);
      CountAppend(deeds, [Started, Finished(exit)], Finished(ok));
      CountShort([Started, Finished(exit)], Started);
      CountShort([Started, Finished(exit)], Finished(ok));
    } else {
      RunDoesNotStart(me, task, exit, outs, deeds, inputs);
    }
  }

  lemma TriggersInReport(task: Task, exit: bool, ends: nat, name: string, ok: bool)
    requires task.Run?
    ensures Count(SentAfterStart(task, exit, ends), Trigger(name, ok))
            == One(ReachesEnd(task, ends) && task.sendTo == Some(name) && ok == exit)
  {
    var sent := SentAfterStart(task, exit, ends);
    if |sent| == 3 {
      CountShort(sent[1..], Trigger(name, ok));
    } else {
      CountShort(sent, Trigger(name, ok));
    }
  }

  /** A command that reaches its end has sent its trigger exactly once, with its outcome; no other
      trigger is ever sent, nor any before the end. */
  lemma TriggersExactly(me: Id, task: Task, exit: bool, outs: seq<Content>, deeds: seq<Deed>, inputs: seq<Input>,
                        name: string, ok: bool)
    requires task.Run?
    ensures var end := Begun(me, task, exit, outs, deeds, inputs);
            Count(end.outs, Trigger(name, ok))
            == Count(outs, Trigger(name, ok)) + One(end.phase.Succeeded? && task.sendTo == Some(name) && ok == exit)
  {
    var announced := if task.waitFor.Some? then [Note(3.0)] else [];
    CountShort(announced, Trigger(name, ok));
    CountShort([Note(3.0)], Trigger(name, ok));
    if ends: nat :| MayStart(me, task, inputs, ends) {
      var sent := SentAfterStart(task, exit, ends);
      RunEnds(me, task, exit, outs, deeds, inputs, ends);
      CountAppend(outs + announced, sent, Trigger(name, ok));
      CountAppend(outs, announced, Trigger(name, ok));
      TriggersInReport(task, exit, ends, name, ok);
    } else {
      RunDoesNotStart(me, task, exit, outs, deeds, inputs);
      CountAppend(outs, [Note(3.0)], Trigger(name, ok));
      assert outs + [] == outs;
    }
  }
}

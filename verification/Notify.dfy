/** notify_mobile.go: notifications that nobody acknowledges within five seconds are pushed to
    the phone.  The agent and one waiter per notification meet on unbuffered channels. */
module Unack {

  datatype How = Acknowledged | WokenByClose | PushedOut

  /** A waitForComplete goroutine: waiting; timed out and pushing; or done, and then reaped. */
  datatype State = Waiting | Pushing | Done(how: How, reaped: bool)

  /** A waiter and its completion channel, which is known by the waiter's number. */
  datatype Waiter = Waiter(noteId: string, state: State, closes: nat)

  /** The agent is at its select, or blocked sending on a completion channel. */
  datatype Agent = Idle | Sending(w: nat)

  /** `pushed`, `acknowledged`: the waiters whose message went to the phone, or whose channel was sent on. */
  datatype World = World(waiters: seq<Waiter>, chans: map<string, nat>, agent: Agent,
                         pushed: seq<nat>, acknowledged: seq<nat>)

  datatype Step =
    | Sent(noteId: string)
    | Displayed(noteId: string)
    | Meet
    | Timeout(w: nat)
    | Wake(w: nat)
    | Push(w: nat)
    | Reap(w: nat)

  const START := World([], map[], Idle, [], [])

  predicate Enabled(s: World, step: Step)
  {
    match step
    case Sent(_) => s.agent.Idle?
    case Displayed(_) => s.agent.Idle?
    case Meet => s.agent.Sending? && s.agent.w < |s.waiters| && s.waiters[s.agent.w].state.Waiting?
    case Timeout(w) => w < |s.waiters| && s.waiters[w].state.Waiting?
    case Wake(w) => w < |s.waiters| && s.waiters[w].state.Waiting? && s.waiters[w].closes > 0
    case Push(w) => w < |s.waiters| && s.waiters[w].state.Pushing?
    case Reap(w) => s.agent.Idle? && w < |s.waiters| && s.waiters[w].state.Done? && !s.waiters[w].state.reaped
  }

  function Become(s: World, w: nat, state: State): World
    requires w < |s.waiters|
  {
    s.(waiters := s.waiters[w := s.waiters[w].(state := state)])
  }

  /** The agent closes and forgets whatever channel it has under this notification id. */
  function CloseChan(s: World, noteId: string): World
  {
    if noteId in s.chans && s.chans[noteId] < |s.waiters| then
      var w := s.chans[noteId];
      s.(waiters := s.waiters[w := s.waiters[w].(closes := s.waiters[w].closes + 1)], chans := s.chans - {noteId})
    else s
  }

  function Apply(s: World, step: Step): World
    requires Enabled(s, step)
  {
    match step
    case Sent(noteId) =>
      s.(waiters := s.waiters + [Waiter(noteId, Waiting, 0)], chans := s.chans[noteId := |s.waiters|])
    case Displayed(noteId) => if noteId in s.chans then s.(agent := Sending(s.chans[noteId])) else s
    case Meet =>
      Become(s, s.agent.w, Done(Acknowledged, false)).(agent := Idle, acknowledged := s.acknowledged + [s.agent.w])
    case Timeout(w) => Become(s, w, Pushing)
    case Wake(w) => Become(s, w, Done(WokenByClose, false))
    case Push(w) => Become(s, w, Done(PushedOut, false)).(pushed := s.pushed + [w])
    case Reap(w) => CloseChan(Become(s, w, Done(s.waiters[w].state.how, true)), s.waiters[w].noteId)
  }

  ghost predicate NoRepeats(log: seq<nat>)
  {
    forall i, j :: 0 <= i < j < |log| ==> log[i] != log[j]
  }

  predicate Ended(s: World, w: nat, how: How)
  {
    w < |s.waiters| && s.waiters[w].state.Done? && s.waiters[w].state.how == how
  }

  /** Somebody with this notification id has been reaped. */
  ghost predicate SomeReaped(s: World, noteId: string)
  {
    exists u :: ReapedFor(s, u, noteId)
  }

  predicate ReapedFor(s: World, u: int, noteId: string)
  {
    0 <= u < |s.waiters| && s.waiters[u].noteId == noteId && s.waiters[u].state.Done? && s.waiters[u].state.reaped
  }

  /** A registered channel is open and belongs to a waiter of its id; no channel is closed twice; the
      agent sends only on an open one; and a waiter ends once, one way. */
  ghost predicate Sound(s: World)
  {
    && (forall id :: id in s.chans ==> Registered(s, id, s.chans[id]))
    && (forall w :: 0 <= w < |s.waiters| ==>
          s.waiters[w].closes <= 1 && (s.waiters[w].closes > 0 ==> SomeReaped(s, s.waiters[w].noteId)))
    && (s.agent.Sending? ==> s.agent.w < |s.waiters| && OnChannel(s, s.agent.w))
    && NoRepeats(s.pushed) && NoRepeats(s.acknowledged)
    && (forall w :: w in s.pushed <==> Ended(s, w, PushedOut))
    && (forall w :: w in s.acknowledged <==> Ended(s, w, Acknowledged))
  }

  predicate Registered(s: World, id: string, w: nat)
  {
    w < |s.waiters| && s.waiters[w].noteId == id && s.waiters[w].closes == 0
  }

  predicate OnChannel(s: World, w: nat)
    requires w < |s.waiters|
  {
    s.waiters[w].noteId in s.chans && s.chans[s.waiters[w].noteId] == w
  }

  lemma SomeReapedStays(s: World, t: World, noteId: string)
    requires |s.waiters| <= |t.waiters| && SomeReaped(s, noteId)
    requires forall u :: ReapedFor(s, u, noteId) ==> ReapedFor(t, u, noteId)
    ensures SomeReaped(t, noteId)
  {
    var u :| ReapedFor(s, u, noteId);
    assert ReapedFor(t, u, noteId);
  }

  /** Channels and the agent stay sound. */
  lemma ApplyKeepsChannels(s: World, step: Step)
    requires Sound(s) && Enabled(s, step)
    ensures var t := Apply(s, step);
            && (forall id :: id in t.chans ==> Registered(t, id, t.chans[id]))
            && (forall w :: 0 <= w < |t.waiters| ==> t.waiters[w].closes <= 1)
            && (t.agent.Sending? ==> t.agent.w < |t.waiters| && OnChannel(t, t.agent.w))
  {
    var t := Apply(s, step);
    forall id | id in t.chans
      ensures Registered(t, id, t.chans[id])
    {
      assert id in s.chans ==> Registered(s, id, s.chans[id]);
    }
    if step.Displayed? && step.noteId in s.chans {
      assert Registered(s, step.noteId, s.chans[step.noteId]);
    }
    if step.Reap? && s.waiters[step.w].noteId in s.chans {
      assert Registered(s, s.waiters[step.w].noteId, s.chans[s.waiters[step.w].noteId]);
    }
  }

  lemma ApplyKeepsReaped(s: World, step: Step, w: nat)
    requires Sound(s) && Enabled(s, step) && w < |Apply(s, step).waiters| && Apply(s, step).waiters[w].closes > 0
    ensures SomeReaped(Apply(s, step), Apply(s, step).waiters[w].noteId)
  {
    var t := Apply(s, step);
    var noteId := t.waiters[w].noteId;
    if w < |s.waiters| && s.waiters[w].closes > 0 {
      SomeReapedStays(s, t, noteId);
    } else {
      var id := s.waiters[step.w].noteId;
      assert Registered(s, id, s.chans[id]);
      assert ReapedFor(t, step.w, noteId);
    }
  }

  lemma ApplyKeepsLogs(s: World, step: Step)
    requires Sound(s) && Enabled(s, step)
    ensures var t := Apply(s, step);
            && NoRepeats(t.pushed) && NoRepeats(t.acknowledged)
            && (forall w :: w in t.pushed <==> Ended(t, w, PushedOut))
            && (forall w :: w in t.acknowledged <==> Ended(t, w, Acknowledged))
  {
    var t := Apply(s, step);
    match step {
      case Meet => assert !Ended(s, s.agent.w, Acknowledged);
      case Push(w) => assert !Ended(s, w, PushedOut);
      case _ =>
    }
  }

  lemma ApplyKeepsSound(s: World, step: Step)
    requires Sound(s) && Enabled(s, step)
    ensures Sound(Apply(s, step))
  {
    ApplyKeepsChannels(s, step);
    ApplyKeepsLogs(s, step);
    forall w: nat | w < |Apply(s, step).waiters| && Apply(s, step).waiters[w].closes > 0
      ensures SomeReaped(Apply(s, step), Apply(s, step).waiters[w].noteId)
    {
      ApplyKeepsReaped(s, step, w);
    }
  }

  ghost predicate Feasible(s: World, steps: seq<Step>)
    decreases |steps|
  {
    steps == [] || (Enabled(s, steps[0]) && Feasible(Apply(s, steps[0]), steps[1..]))
  }

  ghost function After(s: World, steps: seq<Step>): World
    requires Feasible(s, steps)
    decreases |steps|
  {
    if steps == [] then s else After(Apply(s, steps[0]), steps[1..])
  }

  lemma {:induction false} SoundAfter(s: World, steps: seq<Step>)
    requires Sound(s) && Feasible(s, steps)
    ensures Sound(After(s, steps))
    decreases |steps|
  {
    if steps != [] {
      ApplyKeepsSound(s, steps[0]);
      SoundAfter(Apply(s, steps[0]), steps[1..]);
    }
  }

  /** Every waiter ends at most once, acknowledged or pushed but never both; no channel is closed
      twice; and the agent never sends on a closed one.  Duplicate ids included. */
  lemma EndsOnceOneWay(steps: seq<Step>, w: nat)
    requires Feasible(START, steps)
    ensures var s := After(START, steps);
            && NoRepeats(s.pushed) && NoRepeats(s.acknowledged) && !(w in s.pushed && w in s.acknowledged)
            && (w < |s.waiters| ==> s.waiters[w].closes <= 1)
            && (s.agent == Sending(w) ==> w < |s.waiters| && s.waiters[w].closes == 0)
  {
    SoundAfter(START, steps);
    var s := After(START, steps);
    if s.agent == Sending(w) {
      assert Registered(s, s.waiters[w].noteId, w);
    }
  }

  ghost predicate DistinctIds(s: World)
  {
    forall u, w :: 0 <= u < w < |s.waiters| ==> s.waiters[u].noteId != s.waiters[w].noteId
  }

  /** A waiter whose channel is closed under it shares its id with another one, already reaped. */
  lemma WokenNeedsDuplicate(s: World, w: nat) returns (u: nat)
    requires Sound(s) && Enabled(s, Wake(w))
    ensures u != w && ReapedFor(s, u, s.waiters[w].noteId)
  {
    assert SomeReaped(s, s.waiters[w].noteId);
    u :| ReapedFor(s, u, s.waiters[w].noteId);
  }

  /** With distinct ids a channel is never closed under its waiter, and a notification whose
      acknowledgement got through is never pushed. */
  lemma AcknowledgedIsNotPushed(steps: seq<Step>, w: nat, u: nat)
    requires Feasible(START, steps) && DistinctIds(After(START, steps))
    ensures var s := After(START, steps);
            && !Enabled(s, Wake(w))
            && (w in s.acknowledged && u in s.pushed ==>
                  w < |s.waiters| && u < |s.waiters| && s.waiters[w].noteId != s.waiters[u].noteId)
  {
    SoundAfter(START, steps);
    var s := After(START, steps);
    if Enabled(s, Wake(w)) {
      var v := WokenNeedsDuplicate(s, w);
      assert false;
    }
    if w in s.acknowledged && u in s.pushed {
      assert Ended(s, w, Acknowledged) && Ended(s, u, PushedOut);
    }
  }

  /** A waiter still waits although its channel has been closed: it will look acknowledged. */
  ghost predicate HasOrphan(s: World)
  {
    exists w: nat :: Orphaned(s, w)
  }

  predicate Orphaned(s: World, w: nat)
  {
    w < |s.waiters| && s.waiters[w].state.Waiting? && s.waiters[w].closes > 0
  }

  /** Reaping one waiter while its id's channel belongs to another, which is still waiting. */
  predicate Orphans(s: World, step: Step)
    requires Enabled(s, step)
  {
    && step.Reap?
    && var id := s.waiters[step.w].noteId;
    id in s.chans && s.chans[id] < |s.waiters| && s.waiters[s.chans[id]].state.Waiting?
  }

  /** One step leaves a waiter on a closed channel exactly when it is such a reaping. */
  lemma OrphanedExactly(s: World, step: Step)
    requires Sound(s) && !HasOrphan(s) && Enabled(s, step)
    ensures HasOrphan(Apply(s, step)) <==> Orphans(s, step)
  {
    var t := Apply(s, step);
    if Orphans(s, step) {
      assert Orphaned(t, s.chans[s.waiters[step.w].noteId]);
    }
    if HasOrphan(t) {
      var w: nat :| Orphaned(t, w);
      assert !Orphaned(s, w);
    }
  }

  ghost predicate NeverOrphans(s: World, steps: seq<Step>)
    requires Feasible(s, steps)
    decreases |steps|
  {
    steps != [] ==> !Orphans(s, steps[0]) && NeverOrphans(Apply(s, steps[0]), steps[1..])
  }

  ghost predicate OrphanFreeThroughout(s: World, steps: seq<Step>)
    requires Feasible(s, steps)
    decreases |steps|
  {
    !HasOrphan(s) && (steps != [] ==> OrphanFreeThroughout(Apply(s, steps[0]), steps[1..]))
  }

  ghost predicate NoneWoken(s: World)
  {
    forall w :: 0 <= w < |s.waiters| ==> !Ended(s, w, WokenByClose)
  }

  lemma {:induction false} OrphansOverRuns(s: World, steps: seq<Step>)
    requires Sound(s) && !HasOrphan(s) && NoneWoken(s) && Feasible(s, steps)
    ensures OrphanFreeThroughout(s, steps) <==> NeverOrphans(s, steps)
    ensures NeverOrphans(s, steps) ==> NoneWoken(After(s, steps))
    decreases |steps|
  {
    if steps != [] {
      OrphanedExactly(s, steps[0]);
      ApplyKeepsSound(s, steps[0]);
      if !Orphans(s, steps[0]) {
        NoneWokenStays(s, steps[0]);
        OrphansOverRuns(Apply(s, steps[0]), steps[1..]);
      }
    }
  }

  lemma NoneWokenStays(s: World, step: Step)
    requires !HasOrphan(s) && NoneWoken(s) && Enabled(s, step)
    ensures NoneWoken(Apply(s, step))
  {
    assert step.Wake? ==> Orphaned(s, step.w);
    var t := Apply(s, step);
    forall w | 0 <= w < |t.waiters|
      ensures !Ended(t, w, WokenByClose)
    {
      assert w < |s.waiters| ==> !Ended(s, w, WokenByClose);
    }
  }

  /** Over every run, no waiter ever waits on a closed channel exactly when no reaping took the
      channel of another that still waited; and then every waiter that ended was either really
      acknowledged or pushed. */
  lemma WokenExactlyByOrphaning(steps: seq<Step>, w: nat)
    requires Feasible(START, steps)
    ensures OrphanFreeThroughout(START, steps) <==> NeverOrphans(START, steps)
    ensures var s := After(START, steps);
            NeverOrphans(START, steps) && w < |s.waiters| && s.waiters[w].state.Done? ==>
              w in s.acknowledged || w in s.pushed
  {
    OrphansOverRuns(START, steps);
    SoundAfter(START, steps);
    var s := After(START, steps);
    if NeverOrphans(START, steps) && w < |s.waiters| && s.waiters[w].state.Done? {
      assert !Ended(s, w, WokenByClose);
      assert Ended(s, w, PushedOut) || Ended(s, w, Acknowledged);
    }
  }

  // ----- what is registered, and what has been closed -----

  /** The notification ids of the waiters that the steps start, in order. */
  function SentIds(steps: seq<Step>): seq<string>
  {
    if steps == [] then [] else SentIds(steps[..|steps| - 1]) + StartsFor(steps[|steps| - 1])
  }

  function StartsFor(step: Step): seq<string>
  {
    if step.Sent? then [step.noteId] else []
  }

  /** The step reaps a waiter of this notification. */
  predicate ReapsFor(step: Step, ids: seq<string>, id: string)
  {
    step.Reap? && step.w < |ids| && ids[step.w] == id
  }

  lemma {:induction false} LastStep(s: World, steps: seq<Step>)
    requires Feasible(s, steps) && steps != []
    ensures var (before, last) := (steps[..|steps| - 1], steps[|steps| - 1]);
            && Feasible(s, before) && Enabled(After(s, before), last)
            && After(s, steps) == Apply(After(s, before), last)
    decreases |steps|
  {
    if |steps| > 1 {
      LastStep(Apply(s, steps[0]), steps[1..]);
      assert steps[1..][..|steps| - 2] == steps[..|steps| - 1][1..];
    }
  }

  predicate Named(s: World, ids: seq<string>)
  {
    |ids| == |s.waiters| && forall w :: 0 <= w < |ids| ==> ids[w] == s.waiters[w].noteId
  }

  lemma {:induction false} WaitersAreNamed(steps: seq<Step>)
    requires Feasible(START, steps)
    ensures Named(After(START, steps), SentIds(steps))
    decreases |steps|
  {
    if steps != [] {
      LastStep(START, steps);
      WaitersAreNamed(steps[..|steps| - 1]);
    }
  }

  /** The first `w + 1` ids never change. */
  lemma {:induction false} IdsGrow(steps: seq<Step>, n: nat)
    requires n <= |steps|
    ensures SentIds(steps[..n]) <= SentIds(steps)
    decreases |steps|
  {
    if n == |steps| {
      assert steps[..n] == steps;
    } else {
      IdsGrow(steps[..|steps| - 1], n);
      assert steps[..|steps| - 1][..n] == steps[..n];
    }
  }

  /** Step `n` starts a waiter for this notification; until step `m` none of its waiters is reaped,
      and no other is started. */
  ghost predicate LatestSince(steps: seq<Step>, ids: seq<string>, id: string, n: nat, m: nat)
  {
    && n < m <= |steps| && steps[n] == Sent(id)
    && forall k :: n < k < m ==> !ReapsFor(steps[k], ids, id) && steps[k] != Sent(id)
  }

  /** What one step does to the registry. */
  lemma RegistryStep(s: World, step: Step, id: string)
    requires Sound(s) && Enabled(s, step)
    ensures var t := Apply(s, step);
            && (id in t.chans
                <==> step == Sent(id) || (id in s.chans && !(step.Reap? && s.waiters[step.w].noteId == id)))
            && (id in t.chans ==> t.chans[id] == if step == Sent(id) then |s.waiters| else s.chans[id])
  {
    if step.Reap? && s.waiters[step.w].noteId in s.chans {
      var own := s.waiters[step.w].noteId;
      assert Registered(s, own, s.chans[own]);
    }
  }

  lemma Shorter(steps: seq<Step>, ids: seq<string>, id: string, n: nat, m: nat)
    requires m < |steps|
    ensures LatestSince(steps[..m], ids, id, n, m) <==> LatestSince(steps, ids, id, n, m)
  {
    assert forall k :: 0 <= k < m ==> steps[..m][k] == steps[k];
  }

  lemma OneMore(steps: seq<Step>, ids: seq<string>, id: string, n: nat, m: nat)
    requires m + 1 == |steps|
    ensures LatestSince(steps, ids, id, n, |steps|)
            <==> || (n == m && steps[m] == Sent(id))
                 || (LatestSince(steps, ids, id, n, m) && !ReapsFor(steps[m], ids, id) && steps[m] != Sent(id))
  {
  }

  ghost predicate IsOpen(steps: seq<Step>, ids: seq<string>, id: string, m: nat)
  {
    exists n: nat :: LatestSince(steps, ids, id, n, m)
  }

  lemma SamePrefix(steps: seq<Step>, ids: seq<string>, id: string, m: nat)
    requires m < |steps|
    ensures var before := steps[..m];
            && (forall n: nat :: LatestSince(before, ids, id, n, m) <==> LatestSince(steps, ids, id, n, m))
            && (IsOpen(before, ids, id, m) <==> IsOpen(steps, ids, id, m))
            && (forall n: nat :: n <= m ==> before[..n] == steps[..n])
  {
    var before := steps[..m];
    forall n: nat
      ensures LatestSince(before, ids, id, n, m) <==> LatestSince(steps, ids, id, n, m)
    {
      Shorter(steps, ids, id, n, m);
    }
  }

  /** In every run, a channel is registered under an id exactly if some waiter was started for it
      and none of its waiters was reaped since; and it is that of the last waiter started for it. */
  lemma {:induction false} RegisteredExactly(steps: seq<Step>, ids: seq<string>, id: string)
    requires Feasible(START, steps) && SentIds(steps) <= ids
    ensures id in After(START, steps).chans <==> IsOpen(steps, ids, id, |steps|)
    ensures forall n: nat :: LatestSince(steps, ids, id, n, |steps|) ==>
              id in After(START, steps).chans && After(START, steps).chans[id] == |SentIds(steps[..n])|
    decreases |steps|
  {
    if steps != [] {
      var m := |steps| - 1;
      var before := steps[..m];
      LastStep(START, steps);
      SoundAfter(START, before);
      WaitersAreNamed(before);
      RegisteredExactly(before, ids, id);
      RegistryStep(After(START, before), steps[m], id);
      ReapIsNamed(After(START, before), steps[m], SentIds(before), ids, id);
      SamePrefix(steps, ids, id, m);
      OpenOneMore(steps, ids, id, m);
    }
  }

  lemma ReapIsNamed(s: World, step: Step, named: seq<string>, ids: seq<string>, id: string)
    requires Named(s, named) && named <= ids && Enabled(s, step)
    ensures ReapsFor(step, ids, id) <==> step.Reap? && s.waiters[step.w].noteId == id
  {
  }

  lemma OpenOneMore(steps: seq<Step>, ids: seq<string>, id: string, m: nat)
    requires m + 1 == |steps|
    ensures IsOpen(steps, ids, id, |steps|)
            <==> steps[m] == Sent(id) || (IsOpen(steps, ids, id, m) && !ReapsFor(steps[m], ids, id))
    ensures forall n: nat :: LatestSince(steps, ids, id, n, |steps|) ==>
              || (n == m && steps[m] == Sent(id))
              || (LatestSince(steps, ids, id, n, m) && steps[m] != Sent(id))
  {
    forall n: nat
      ensures LatestSince(steps, ids, id, n, |steps|)
              <==> || (n == m && steps[m] == Sent(id))
                   || (LatestSince(steps, ids, id, n, m) && !ReapsFor(steps[m], ids, id) && steps[m] != Sent(id))
    {
      OneMore(steps, ids, id, n, m);
    }
    if IsOpen(steps, ids, id, |steps|) {
      var n: nat :| LatestSince(steps, ids, id, n, |steps|);
      assert LatestSince(steps, ids, id, n, m) || steps[m] == Sent(id);
    }
    if steps[m] == Sent(id) {
      assert LatestSince(steps, ids, id, m, |steps|);
    } else if IsOpen(steps, ids, id, m) && !ReapsFor(steps[m], ids, id) {
      var n: nat :| LatestSince(steps, ids, id, n, m);
      assert LatestSince(steps, ids, id, n, |steps|);
    }
  }

  /** The waiter started at step `n` has been reaped while its channel was the registered one: some
      waiter of its notification was reaped, with none started in between. */
  ghost predicate ReapedOver(steps: seq<Step>, ids: seq<string>, id: string, n: nat, k: nat)
  {
    n < k < |steps| && LatestSince(steps, ids, id, n, k) && ReapsFor(steps[k], ids, id)
  }

  /** What one step closes. */
  lemma ClosingStep(s: World, step: Step, w: nat)
    requires Sound(s) && Enabled(s, step) && w < |s.waiters|
    ensures var (t, id) := (Apply(s, step), s.waiters[w].noteId);
            t.waiters[w].closes
            == s.waiters[w].closes
               + if step.Reap? && s.waiters[step.w].noteId == id && id in s.chans && s.chans[id] == w then 1 else 0
  {
    if step.Reap? && s.waiters[step.w].noteId in s.chans {
      var own := s.waiters[step.w].noteId;
      assert Registered(s, own, s.chans[own]);
    }
  }

  ghost predicate WasReapedOver(steps: seq<Step>, ids: seq<string>, id: string, n: nat)
  {
    exists k: nat :: ReapedOver(steps, ids, id, n, k)
  }

  lemma ReapedOneMore(steps: seq<Step>, ids: seq<string>, id: string, n: nat)
    requires steps != [] && n < |steps|
    ensures var m := |steps| - 1;
            WasReapedOver(steps, ids, id, n)
            <==> || (n < m && WasReapedOver(steps[..m], ids, id, n))
                 || (n < m && LatestSince(steps, ids, id, n, m) && ReapsFor(steps[m], ids, id))
  {
    var m := |steps| - 1;
    forall k: nat | k < m
      ensures ReapedOver(steps, ids, id, n, k) <==> ReapedOver(steps[..m], ids, id, n, k)
    {
      Shorter(steps, ids, id, n, k);
      Shorter(steps[..m], ids, id, n, k);
      assert steps[..m][..k] == steps[..k];
    }
    assert ReapedOver(steps, ids, id, n, m)
           <==> n < m && LatestSince(steps, ids, id, n, m) && ReapsFor(steps[m], ids, id);
    if k: nat :| ReapedOver(steps[..m], ids, id, n, k) {
      assert ReapedOver(steps, ids, id, n, k);
    }
  }

  /** Step `n` starts waiter `w`. */
  predicate Starts(steps: seq<Step>, n: nat, w: nat)
  {
    n < |steps| && steps[n].Sent? && |SentIds(steps[..n])| == w
  }

  lemma StartedOnce(steps: seq<Step>, n: nat, k: nat, w: nat)
    requires n < k && Starts(steps, n, w) && k <= |steps|
    ensures |SentIds(steps[..k])| > w
  {
    assert steps[..n + 1][..n] == steps[..n] && steps[..k][..n + 1] == steps[..n + 1];
    IdsGrow(steps[..k], n + 1);
  }

  /** The registered channel is waiter `w`'s exactly if its start is the latest. */
  lemma RegisteredIsLatest(steps: seq<Step>, ids: seq<string>, n: nat, w: nat, id: string)
    requires Feasible(START, steps) && SentIds(steps) <= ids && Starts(steps, n, w) && steps[n].noteId == id
    ensures id in After(START, steps).chans && After(START, steps).chans[id] == w
            <==> LatestSince(steps, ids, id, n, |steps|)
  {
    assert steps[n] == Sent(id);
    RegisteredExactly(steps, ids, id);
    if IsOpen(steps, ids, id, |steps|) {
      var k: nat :| LatestSince(steps, ids, id, k, |steps|);
      if n < k {
        StartedOnce(steps, n, k, w);
      }
    }
  }

  lemma StartsBefore(steps: seq<Step>, n: nat, w: nat, m: nat)
    requires Starts(steps, n, w) && n < m < |steps|
    ensures Starts(steps[..m], n, w) && steps[..m][n] == steps[n]
  {
    assert steps[..m][..n] == steps[..n];
  }

  lemma NamesBefore(steps: seq<Step>, ids: seq<string>, m: nat)
    requires SentIds(steps) <= ids && m <= |steps|
    ensures SentIds(steps[..m]) <= ids
  {
    IdsGrow(steps, m);
  }

  lemma LatestIsRegistered(steps: seq<Step>, ids: seq<string>, n: nat, w: nat, id: string, m: nat)
    requires SentIds(steps) <= ids && n < m < |steps| && Feasible(START, steps[..m])
    requires Starts(steps, n, w) && steps[n].noteId == id
    ensures var s := After(START, steps[..m]);
            id in s.chans && s.chans[id] == w <==> LatestSince(steps, ids, id, n, m)
  {
    StartsBefore(steps, n, w, m);
    NamesBefore(steps, ids, m);
    RegisteredIsLatest(steps[..m], ids, n, w, id);
    Shorter(steps, ids, id, n, m);
  }

  /** What is known of the state before the last step. */
  lemma LastFacts(steps: seq<Step>, ids: seq<string>, m: nat)
    requires Feasible(START, steps) && SentIds(steps) <= ids && m + 1 == |steps|
    ensures Feasible(START, steps[..m]) && SentIds(steps[..m]) <= ids
    ensures var s := After(START, steps[..m]);
            && Sound(s) && Named(s, SentIds(steps[..m])) && Enabled(s, steps[m])
            && After(START, steps) == Apply(s, steps[m])
  {
    LastStep(START, steps);
    SoundAfter(START, steps[..m]);
    WaitersAreNamed(steps[..m]);
    NamesBefore(steps, ids, m);
  }

  /** What the last step of a run closes. */
  lemma LastCloses(steps: seq<Step>, ids: seq<string>, n: nat, w: nat, id: string, m: nat)
    requires Feasible(START, steps) && SentIds(steps) <= ids && m + 1 == |steps| && n < m
    requires Starts(steps, n, w) && steps[n].noteId == id && Feasible(START, steps[..m])
    requires w < |After(START, steps[..m]).waiters| && After(START, steps[..m]).waiters[w].noteId == id
    ensures w < |After(START, steps).waiters|
    ensures var (s, t) := (After(START, steps[..m]), After(START, steps));
            && t.waiters[w].noteId == id
            && t.waiters[w].closes
               == s.waiters[w].closes
                  + if LatestSince(steps, ids, id, n, m) && ReapsFor(steps[m], ids, id) then 1 else 0
  {
    LastFacts(steps, ids, m);
    LatestIsRegistered(steps, ids, n, w, id, m);
    var latest := LatestSince(steps, ids, id, n, m);
    ClosedBy(After(START, steps[..m]), steps[m], SentIds(steps[..m]), ids, id, w, latest);
  }

  lemma ClosedBy(s: World, step: Step, named: seq<string>, ids: seq<string>, id: string, w: nat, latest: bool)
    requires Sound(s) && Enabled(s, step) && Named(s, named) && named <= ids
    requires w < |s.waiters| && s.waiters[w].noteId == id && (id in s.chans && s.chans[id] == w <==> latest)
    ensures w < |Apply(s, step).waiters| && Apply(s, step).waiters[w].noteId == id
    ensures Apply(s, step).waiters[w].closes == s.waiters[w].closes + if latest && ReapsFor(step, ids, id) then 1 else 0
  {
    ClosingStep(s, step, w);
    ReapIsNamed(s, step, named, ids, id);
  }

  /** A waiter started by the last step is there, with an open channel. */
  lemma JustStarted(steps: seq<Step>, ids: seq<string>, n: nat, w: nat)
    requires Feasible(START, steps) && Starts(steps, n, w) && n + 1 == |steps|
    ensures w < |After(START, steps).waiters|
    ensures After(START, steps).waiters[w] == Waiter(steps[n].noteId, Waiting, 0)
  {
    LastStep(START, steps);
    WaitersAreNamed(steps[..n]);
  }

  lemma ClosedOnce(steps: seq<Step>, w: nat)
    requires Feasible(START, steps) && w < |After(START, steps).waiters|
    ensures After(START, steps).waiters[w].closes <= 1
  {
    SoundAfter(START, steps);
  }

  /** In every run, a waiter's channel has been closed exactly if one of its notification's waiters
      was reaped since it was started, with none started in between; and then it was closed once. */
  lemma {:induction false} ClosedExactly(steps: seq<Step>, ids: seq<string>, n: nat, w: nat, id: string)
    requires Feasible(START, steps) && SentIds(steps) <= ids && Starts(steps, n, w) && steps[n].noteId == id
    ensures w < |After(START, steps).waiters| && After(START, steps).waiters[w].noteId == id
    ensures After(START, steps).waiters[w].closes == if WasReapedOver(steps, ids, id, n) then 1 else 0
    decreases |steps|
  {
    var m := |steps| - 1;
    ReapedOneMore(steps, ids, id, n);
    if n == m {
      JustStarted(steps, ids, n, w);
    } else {
      assert steps[..m][..n] == steps[..n];
      LastStep(START, steps);
      ClosedExactly(steps[..m], ids, n, w, id);
      LastCloses(steps, ids, n, w, id, m);
      ClosedOnce(steps, w);
    }
  }

  ghost predicate Leads(s: World, steps: seq<Step>, t: World)
  {
    Feasible(s, steps) && After(s, steps) == t
  }

  lemma Link(s: World, step: Step, rest: seq<Step>, t: World)
    requires Enabled(s, step) && Leads(Apply(s, step), rest, t)
    ensures Leads(s, [step] + rest, t)
  {
    assert ([step] + rest)[1..] == rest;
  }

  const NEW := Waiter("n", Waiting, 0)
  const TWO := World([NEW, NEW], map["n" := 1], Idle, [], [])
  const PUSHED := World([NEW.(state := Done(PushedOut, false)), NEW], map["n" := 1], Idle, [0], [])
  const WOKEN := World([NEW.(state := Done(PushedOut, true)), Waiter("n", Done(WokenByClose, false), 1)],
                       map[], Idle, [0], [])

  function Resend(): seq<Step>
  {
    [Sent("n")] + ([Sent("n")] + [])
  }

  function PushFirst(): seq<Step>
  {
    [Timeout(0)] + ([Push(0)] + [])
  }

  function WakeSecond(): seq<Step>
  {
    [Reap(0)] + ([Wake(1)] + [])
  }

  lemma Resending()
    ensures Leads(START, Resend(), TWO)
  {
    var s1 := Apply(START, Sent("n"));
    assert s1 == World([NEW], map["n" := 0], Idle, [], []);
    assert Apply(s1, Sent("n")) == TWO;
    Link(s1, Sent("n"), [], TWO);
    Link(START, Sent("n"), [Sent("n")] + [], TWO);
  }

  lemma PushingFirst()
    ensures Leads(TWO, PushFirst(), PUSHED)
  {
    var s1 := Apply(TWO, Timeout(0));
    assert s1.waiters == [NEW.(state := Pushing), NEW];
    assert Apply(s1, Push(0)) == PUSHED;
    Link(s1, Push(0), [], PUSHED);
    Link(TWO, Timeout(0), [Push(0)] + [], PUSHED);
  }

  lemma WakingSecond()
    ensures Leads(PUSHED, WakeSecond(), WOKEN)
  {
    var s1 := Apply(PUSHED, Reap(0));
    assert s1 == WOKEN.(waiters := [WOKEN.waiters[0], NEW.(closes := 1)]);
    assert Apply(s1, Wake(1)) == WOKEN;
    Link(s1, Wake(1), [], WOKEN);
    Link(PUSHED, Reap(0), [Wake(1)] + [], WOKEN);
  }

  lemma {:induction false} Chain(s: World, first: seq<Step>, t: World, rest: seq<Step>, u: World)
    requires Leads(s, first, t) && Leads(t, rest, u)
    ensures Leads(s, first + rest, u)
    decreases |first|
  {
    if first == [] {
      assert first + rest == rest;
    } else {
      Chain(Apply(s, first[0]), first[1..], t, rest, u);
      assert (first + rest)[1..] == first[1..] + rest;
    }
  }

  /** With a repeated id, reaping the first notification makes the second look acknowledged,
      although nothing was ever displayed. */
  lemma DuplicateLooksAcknowledged() returns (steps: seq<Step>)
    ensures Leads(START, steps, WOKEN)
    ensures WOKEN.acknowledged == [] && 1 !in WOKEN.pushed && Ended(WOKEN, 1, WokenByClose)
    ensures forall n :: 0 <= n < |steps| ==> !steps[n].Displayed?
  {
    Resending();
    PushingFirst();
    WakingSecond();
    Chain(TWO, PushFirst(), PUSHED, WakeSecond(), WOKEN);
    steps := Resend() + (PushFirst() + WakeSecond());
    Chain(START, Resend(), TWO, PushFirst() + WakeSecond(), WOKEN);
  }

  /** The agent is sending to a waiter that has stopped listening. */
  predicate Wedged(s: World)
  {
    s.agent.Sending? && s.agent.w < |s.waiters| && !s.waiters[s.agent.w].state.Waiting?
  }

  /** A wedged agent stays wedged: nothing is ever received, reaped or closed again. */
  lemma {:induction false} WedgedForever(s: World, steps: seq<Step>)
    requires Wedged(s) && Feasible(s, steps)
    ensures var t := After(s, steps);
            Wedged(t) && t.agent == s.agent && t.chans == s.chans && |t.waiters| == |s.waiters|
    decreases |steps|
  {
    if steps != [] {
      WedgedForever(Apply(s, steps[0]), steps[1..]);
    }
  }

  /** The step starts a send to a waiter that has stopped listening, or lets the timer of the waiter
      being sent to win. */
  predicate Wedges(s: World, step: Step)
  {
    || (step.Displayed? && step.noteId in s.chans && s.chans[step.noteId] < |s.waiters|
        && !s.waiters[s.chans[step.noteId]].state.Waiting?)
    || (step.Timeout? && s.agent == Sending(step.w))
  }

  /** One step wedges the agent exactly when it is one of these two. */
  lemma WedgedExactly(s: World, step: Step)
    requires Sound(s) && !Wedged(s) && Enabled(s, step)
    ensures Wedged(Apply(s, step)) <==> Wedges(s, step)
  {
    if step.Displayed? && step.noteId in s.chans {
      assert Registered(s, step.noteId, s.chans[step.noteId]);
    }
    assert s.agent.Sending? ==> Registered(s, s.waiters[s.agent.w].noteId, s.agent.w);
  }

  ghost predicate NeverWedges(s: World, steps: seq<Step>)
    requires Feasible(s, steps)
    decreases |steps|
  {
    steps != [] ==> !Wedges(s, steps[0]) && NeverWedges(Apply(s, steps[0]), steps[1..])
  }

  lemma {:induction false} WedgesOverRuns(s: World, steps: seq<Step>)
    requires Sound(s) && !Wedged(s) && Feasible(s, steps)
    ensures Wedged(After(s, steps)) <==> !NeverWedges(s, steps)
    decreases |steps|
  {
    if steps != [] {
      var t := Apply(s, steps[0]);
      WedgedExactly(s, steps[0]);
      if Wedged(t) {
        WedgedForever(t, steps[1..]);
      } else {
        ApplyKeepsSound(s, steps[0]);
        WedgesOverRuns(t, steps[1..]);
      }
    }
  }

  /** A run leaves the agent wedged exactly when one of its steps was of these two kinds. */
  lemma WedgedExactlyWhenSomeStepWedges(steps: seq<Step>)
    requires Feasible(START, steps)
    ensures Wedged(After(START, steps)) <==> !NeverWedges(START, steps)
  {
    WedgesOverRuns(START, steps);
  }

  /** These steps take the agent back to its select. */
  ghost predicate Recovers(s: World, steps: seq<Step>)
  {
    Feasible(s, steps) && After(s, steps).agent.Idle?
  }

  /** The agent can get back to its select exactly when the waiter it sends to is still waiting. */
  lemma RecoversExactlyWhenAwaited(s: World)
    requires Sound(s) && s.agent.Sending?
    ensures (exists steps :: Recovers(s, steps)) <==> s.waiters[s.agent.w].state.Waiting?
  {
    if s.waiters[s.agent.w].state.Waiting? {
      Link(s, Meet, [], Apply(s, Meet));
      assert Recovers(s, [Meet] + []);
    } else {
      forall steps | Feasible(s, steps)
        ensures !Recovers(s, steps)
      {
        WedgedForever(s, steps);
      }
    }
  }

  function WedgeRun(): seq<Step>
  {
    [Sent("n")] + ([Timeout(0)] + ([Displayed("n")] + []))
  }

  /** An acknowledgement that comes just after the timeout wedges the agent. */
  lemma LateAcknowledgementWedges()
    ensures Feasible(START, WedgeRun()) && Wedged(After(START, WedgeRun()))
  {
    var s1 := Apply(START, Sent("n"));
    var s2 := Apply(s1, Timeout(0));
    var s3 := Apply(s2, Displayed("n"));
    Link(s2, Displayed("n"), [], s3);
    Link(s1, Timeout(0), [Displayed("n")] + [], s3);
    Link(START, Sent("n"), [Timeout(0)] + ([Displayed("n")] + []), s3);
  }

  /** An acknowledgement in time wedges it too, if the timer wins the waiter's select. */
  lemma TimelyAcknowledgementWedges()
    ensures var steps := [Sent("n")] + ([Displayed("n")] + ([Timeout(0)] + []));
            Feasible(START, steps) && Wedged(After(START, steps))
  {
    var s1 := Apply(START, Sent("n"));
    var s2 := Apply(s1, Displayed("n"));
    var s3 := Apply(s2, Timeout(0));
    Link(s2, Timeout(0), [], s3);
    Link(s1, Displayed("n"), [Timeout(0)] + [], s3);
    Link(START, Sent("n"), [Displayed("n")] + ([Timeout(0)] + []), s3);
  }

  /** The agent as it stands in memory, with the waiters it has started. */
  class UnackAgent {
    var completeChans: map<string, nat>
    var waiters: seq<Waiter>
    var agent: Agent
    ghost var pushed: seq<nat>
    ghost var acknowledged: seq<nat>

    constructor ()
      ensures Standing() == START
    {
      completeChans, waiters, agent, pushed, acknowledged := map[], [], Idle, [], [];
    }

    ghost function Standing(): World
      reads this
    {
      World(waiters, completeChans, agent, pushed, acknowledged)
    }

    /** A message comes in: register a waiter, or go to send on the registered channel. */
    method OnMessage(isDisplayed: bool, noteId: string)
      requires agent.Idle?
      modifies this
      ensures Standing() == Apply(old(Standing()), if isDisplayed then Displayed(noteId) else Sent(noteId))
    {
      if isDisplayed {
        if noteId in completeChans {
          agent := Sending(completeChans[noteId]);
        }
      } else {
        var complete := |waiters|;
        completeChans := completeChans[noteId := complete];
        waiters := waiters + [Waiter(noteId, Waiting, 0)];
      }
    }

    /** A waiter asks to be reaped: its id's channel is closed and forgotten, if there is one. */
    method OnReap(w: nat)
      requires Enabled(Standing(), Reap(w)) && Sound(Standing())
      modifies this
      ensures Standing() == Apply(old(Standing()), Reap(w))
    {
      var noteId := waiters[w].noteId;
      ghost var was := Standing();
      waiters := waiters[w := waiters[w].(state := Done(waiters[w].state.how, true))];
      if noteId in completeChans {
        assert Registered(was, noteId, completeChans[noteId]);
        var complete := completeChans[noteId];
        waiters := waiters[complete := waiters[complete].(closes := waiters[complete].closes + 1)];
        completeChans := completeChans - {noteId};
      }
    }
  }
}

/** notify_mobile.go, pushoverAgent: a notification is not sent again while its id is among the
    last ten sent. */
module Debounce {

  /** The last `n` of a log. */
  function Last(n: nat, log: seq<string>): seq<string>
  {
    if |log| <= n then log else log[|log| - n..]
  }

  /** What has been sent after one more message. */
  function Next(sent: seq<string>, id: string): seq<string>
  {
    if id in Last(10, sent) then sent else sent + [id]
  }

  function SentFor(sent: seq<string>, ids: seq<string>): seq<string>
    decreases |ids|
  {
    if ids == [] then sent else SentFor(Next(sent, ids[0]), ids[1..])
  }

  class PushoverAgent {
    var recentIds: seq<string>
    var sent: seq<string>

    constructor ()
      ensures Valid() && sent == []
    {
      recentIds, sent := [], [];
    }

    /** The window is always the last ten sends. */
    ghost predicate Valid()
      reads this
    {
      recentIds == Last(10, sent)
    }

    method Receive(messageId: string)
      requires Valid()
      modifies this
      ensures Valid() && sent == Next(old(sent), messageId)
      ensures sent == old(sent) <==> AmongLastTen(old(sent), messageId)
      ensures !AmongLastTen(old(sent), messageId) ==> sent == old(sent) + [messageId]
    {
      SkippedExactly(sent, messageId);
      for i := 0 to |recentIds|
        invariant recentIds == old(recentIds) && sent == old(sent)
        invariant messageId !in recentIds[..i]
      {
        if recentIds[i] == messageId {
          return;
        }
      }
      recentIds := recentIds + [messageId];
      if |recentIds| > 10 {
        recentIds := recentIds[1..];
      }
      sent := sent + [messageId];
    }

    method Run(ids: seq<string>)
      requires Valid()
      modifies this
      ensures Valid() && sent == SentFor(old(sent), ids)
    {
      var rest := ids;
      while rest != []
        invariant Valid() && SentFor(sent, rest) == SentFor(old(sent), ids)
        decreases |rest|
      {
        Receive(rest[0]);
        rest := rest[1..];
      }
    }
  }

  /** One of the last ten sends was of this notification. */
  ghost predicate AmongLastTen(sent: seq<string>, id: string)
  {
    exists j :: 0 <= j < |sent| && |sent| - 10 <= j && sent[j] == id
  }

  /** A notification is skipped exactly when it is among the last ten sent, and is sent otherwise. */
  lemma SkippedExactly(sent: seq<string>, id: string)
    ensures Next(sent, id) == sent <==> AmongLastTen(sent, id)
    ensures !AmongLastTen(sent, id) ==> Next(sent, id) == sent + [id]
  {
    var last := Last(10, sent);
    if id in last {
      var k :| 0 <= k < |last| && last[k] == id;
      assert sent[|sent| - |last| + k] == id;
    }
    if j :| 0 <= j < |sent| && |sent| - 10 <= j && sent[j] == id {
      assert last[j - (|sent| - |last|)] == id;
    }
    assert |sent + [id]| != |sent|;
  }

  lemma {:induction false} SentForSplit(sent: seq<string>, a: seq<string>, b: seq<string>)
    ensures SentFor(sent, a + b) == SentFor(SentFor(sent, a), b)
    decreases |a|
  {
    if a == [] {
      assert a + b == b;
    } else {
      assert (a + b)[1..] == a[1..] + b;
      SentForSplit(Next(sent, a[0]), a[1..], b);
    }
  }

  lemma {:induction false} NothingUnsent(sent: seq<string>, ids: seq<string>)
    ensures sent <= SentFor(sent, ids)
    decreases |ids|
  {
    if ids != [] {
      NothingUnsent(Next(sent, ids[0]), ids[1..]);
    }
  }

  /** In any run, what arrives is sent next, for good, unless it is among the last ten sent by then. */
  lemma ArrivalsAreSent(ids: seq<string>, n: nat)
    requires n < |ids|
    ensures Arrived(SentFor([], ids[..n]), ids[n], SentFor([], ids[..n + 1]), SentFor([], ids))
  {
    OneArrival(ids, n);
    SentSoFar(ids, n + 1);
    SkippedExactly(SentFor([], ids[..n]), ids[n]);
  }

  /** The log `next` after this arrival has it at the end, unless it is among the last ten of `log`;
      and the final log goes on from there. */
  ghost predicate Arrived(log: seq<string>, id: string, next: seq<string>, final: seq<string>)
  {
    next == (if AmongLastTen(log, id) then log else log + [id]) && next <= final
  }

  lemma SentSoFar(ids: seq<string>, n: nat)
    requires n <= |ids|
    ensures SentFor([], ids[..n]) <= SentFor([], ids)
  {
    assert ids == ids[..n] + ids[n..];
    SentForSplit([], ids[..n], ids[n..]);
    NothingUnsent(SentFor([], ids[..n]), ids[n..]);
  }

  lemma OneArrival(ids: seq<string>, n: nat)
    requires n < |ids|
    ensures SentFor([], ids[..n + 1]) == Next(SentFor([], ids[..n]), ids[n])
  {
    assert ids[..n + 1] == ids[..n] + [ids[n]];
    SentForSplit([], ids[..n], [ids[n]]);
    JustOne(SentFor([], ids[..n]), ids[n]);
  }

  lemma JustOne(sent: seq<string>, id: string)
    ensures SentFor(sent, [id]) == Next(sent, id)
  {
    assert [id][1..] == [];
  }

  /** No id repeats within any eleven consecutive sends. */
  ghost predicate Spread(sent: seq<string>)
  {
    forall i, j :: 0 <= i < j < |sent| && j <= i + 10 ==> sent[i] != sent[j]
  }

  lemma NextSpread(sent: seq<string>, id: string)
    requires Spread(sent)
    ensures Spread(Next(sent, id))
  {
    var next := Next(sent, id);
    if id !in Last(10, sent) {
      forall i, j | 0 <= i < j < |next| && j <= i + 10
        ensures next[i] != next[j]
      {
        if j == |sent| {
          assert sent[i] == Last(10, sent)[if |sent| <= 10 then i else i - (|sent| - 10)];
        }
      }
    }
  }

  /** In any run, any eleven consecutive sends are of different notifications. */
  lemma {:induction false} ElevenDistinct(sent: seq<string>, ids: seq<string>)
    requires Spread(sent)
    ensures Spread(SentFor(sent, ids))
    decreases |ids|
  {
    if ids != [] {
      NextSpread(sent, ids[0]);
      ElevenDistinct(Next(sent, ids[0]), ids[1..]);
    }
  }

  /** Every notification received is sent at least once, and nothing else is sent. */
  lemma {:induction false} EachIsSent(sent: seq<string>, ids: seq<string>, id: string)
    ensures id in SentFor(sent, ids) <==> id in sent || id in ids
    decreases |ids|
  {
    if ids != [] {
      assert id in Next(sent, ids[0]) <==> id in sent || id == ids[0] by {
        assert forall x :: x in Last(10, sent) ==> x in sent;
      }
      EachIsSent(Next(sent, ids[0]), ids[1..], id);
      assert id in ids <==> id == ids[0] || id in ids[1..];
    }
  }
}

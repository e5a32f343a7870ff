/** broker.go, Broker.run: what the broker's map of clients and their queues hold, step by step. */
module Fanout {
  import opened Wrappers

  const CAPACITY := 256

  /** One client as the broker treats it: where in the log it was added, everything put on its
      queue, how much its writer has taken, and whether and where it was dropped. */
  datatype Tap<Msg> = Tap(start: nat, put: seq<Msg>, taken: nat, until: Option<nat>, closes: nat)

  /** `log` is every message the broker has handled; `taps` every client ever added. */
  datatype View<!C, Msg> = View(log: seq<Msg>, taps: map<C, Tap<Msg>>)

  datatype Op<C, Msg> = Add(c: C) | Remove(c: C) | Send(m: Msg) | Take(c: C)

  predicate Listening<Msg>(tap: Tap<Msg>)
  {
    tap.until.None?
  }

  predicate Full<Msg>(tap: Tap<Msg>)
    requires tap.taken <= |tap.put|
  {
    |tap.put| - tap.taken >= CAPACITY
  }

  /** Offer message number `n` to a client: queue it, or close and forget a client that is full. */
  function Offer<Msg>(tap: Tap<Msg>, m: Msg, n: nat): Tap<Msg>
    requires tap.taken <= |tap.put|
  {
    if !Listening(tap) then tap
    else if Full(tap) then tap.(until := Some(n), closes := tap.closes + 1)
    else tap.(put := tap.put + [m])
  }

  /** What holds of one client after `log`: its queue got one gap-free stretch of the log, from its
      arrival to its removal or eviction; it was closed once if dropped, and never if not. */
  ghost predicate TapOk<Msg>(log: seq<Msg>, tap: Tap<Msg>)
  {
    && tap.taken <= |tap.put| <= tap.taken + CAPACITY
    && tap.start <= |log|
    && match tap.until
       case None => tap.put == log[tap.start..] && tap.closes == 0
       case Some(end) => tap.start <= end <= |log| && tap.put == log[tap.start..end] && tap.closes == 1
  }

  ghost predicate ViewOk<C, Msg>(v: View<C, Msg>)
  {
    forall c :: c in v.taps ==> TapOk(v.log, v.taps[c])
  }

  /** Clients are added once; only queued messages can be taken. */
  predicate CanDo<C, Msg>(v: View<C, Msg>, op: Op<C, Msg>)
  {
    match op
    case Add(c) => c !in v.taps
    case Remove(c) => c in v.taps
    case Send(_) => true
    case Take(c) => c in v.taps && v.taps[c].taken < |v.taps[c].put|
  }

  function Step<C, Msg>(v: View<C, Msg>, op: Op<C, Msg>): View<C, Msg>
    requires CanDo(v, op) && forall c :: c in v.taps ==> v.taps[c].taken <= |v.taps[c].put|
  {
    match op
    case Add(c) => v.(taps := v.taps[c := Tap(|v.log|, [], 0, None, 0)])
    case Remove(c) =>
      var tap := v.taps[c];
      if Listening(tap) then v.(taps := v.taps[c := tap.(until := Some(|v.log|), closes := tap.closes + 1)]) else v
    case Send(m) => View(v.log + [m], map c | c in v.taps :: Offer(v.taps[c], m, |v.log|))
    case Take(c) => v.(taps := v.taps[c := v.taps[c].(taken := v.taps[c].taken + 1)])
  }

  lemma OfferKeepsOk<Msg>(log: seq<Msg>, tap: Tap<Msg>, m: Msg)
    requires TapOk(log, tap)
    ensures TapOk(log + [m], Offer(tap, m, |log|))
  {
    if Listening(tap) {
      assert (log + [m])[tap.start..] == log[tap.start..] + [m];
      assert (log + [m])[tap.start..|log|] == log[tap.start..];
    } else {
      assert (log + [m])[tap.start..tap.until.value] == log[tap.start..tap.until.value];
    }
  }

  lemma StepKeepsOk<C, Msg>(v: View<C, Msg>, op: Op<C, Msg>)
    requires ViewOk(v) && CanDo(v, op)
    ensures ViewOk(Step(v, op))
  {
    var v' := Step(v, op);
    forall c | c in v'.taps
      ensures TapOk(v'.log, v'.taps[c])
    {
      if op.Send? {
        OfferKeepsOk(v.log, v.taps[c], op.m);
      } else if op == Remove(c) {
        assert v.log[v.taps[c].start..] == v.log[v.taps[c].start..|v.log|];
      }
    }
  }

  ghost predicate CanRun<C, Msg>(v: View<C, Msg>, ops: seq<Op<C, Msg>>)
    requires ViewOk(v)
    decreases |ops|
  {
    ops == [] || (CanDo(v, ops[0]) && (StepKeepsOk(v, ops[0]); CanRun(Step(v, ops[0]), ops[1..])))
  }

  ghost function Run<C, Msg>(v: View<C, Msg>, ops: seq<Op<C, Msg>>): (v': View<C, Msg>)
    requires ViewOk(v) && CanRun(v, ops)
    ensures ViewOk(v')
    decreases |ops|
  {
    if ops == [] then v
    else
      StepKeepsOk(v, ops[0]);
      Run(Step(v, ops[0]), ops[1..])
  }

  /** The messages broadcast by a list of operations, in order. */
  function Sent<C, Msg>(ops: seq<Op<C, Msg>>): seq<Msg>
  {
    if ops == [] then []
    else (if ops[0].Send? then [ops[0].m] else []) + Sent(ops[1..])
  }

  lemma Regroup<Msg>(a: seq<Msg>, b: seq<Msg>, c: seq<Msg>)
    ensures (a + b) + c == a + (b + c)
  {
  }

  lemma {:induction false} LogIsWhatWasSent<C, Msg>(v: View<C, Msg>, ops: seq<Op<C, Msg>>)
    requires ViewOk(v) && CanRun(v, ops)
    ensures Run(v, ops).log == v.log + Sent(ops)
    decreases |ops|
  {
    if ops != [] {
      var v' := Step(v, ops[0]);
      var first := if ops[0].Send? then [ops[0].m] else [];
      StepKeepsOk(v, ops[0]);
      LogIsWhatWasSent(v', ops[1..]);
      assert v'.log == v.log + first;
      Regroup(v.log, first, Sent(ops[1..]));
    }
  }

  /** A new broker. */
  function NewBroker<C, Msg>(): (v: View<C, Msg>)
    ensures ViewOk(v)
  {
    View([], map[])
  }

  // ----- where a client's stretch begins and ends -----

  lemma {:induction false} StartStays<C, Msg>(v: View<C, Msg>, ops: seq<Op<C, Msg>>, c: C)
    requires ViewOk(v) && CanRun(v, ops) && c in v.taps
    ensures c in Run(v, ops).taps && Run(v, ops).taps[c].start == v.taps[c].start
    ensures v.taps[c].until.Some? ==> Run(v, ops).taps[c].until == v.taps[c].until
    decreases |ops|
  {
    if ops != [] {
      StepKeepsOk(v, ops[0]);
      StartStays(Step(v, ops[0]), ops[1..], c);
    }
  }

  /** A client's stretch begins where it was added. */
  lemma {:induction false} StartsWhereAdded<C, Msg>(v: View<C, Msg>, ops: seq<Op<C, Msg>>, n: nat, c: C)
    requires ViewOk(v) && CanRun(v, ops) && n < |ops| && ops[n] == Add(c)
    ensures c in Run(v, ops).taps && Run(v, ops).taps[c].start == |v.log| + |Sent(ops[..n])|
    decreases |ops|
  {
    StepKeepsOk(v, ops[0]);
    var v' := Step(v, ops[0]);
    if n == 0 {
      StartStays(v', ops[1..], c);
    } else {
      StartsWhereAdded(v', ops[1..], n - 1, c);
      assert ops[..n][1..] == ops[1..][..n - 1];
    }
  }

  /** Every client of the run was added in it, unless it was there before. */
  lemma {:induction false} WasAdded<C, Msg>(v: View<C, Msg>, ops: seq<Op<C, Msg>>, c: C) returns (n: nat)
    requires ViewOk(v) && CanRun(v, ops) && c in Run(v, ops).taps && c !in v.taps
    ensures n < |ops| && ops[n] == Add(c)
    decreases |ops|
  {
    StepKeepsOk(v, ops[0]);
    if ops[0] == Add(c) {
      n := 0;
    } else {
      n := WasAdded(Step(v, ops[0]), ops[1..], c);
      n := n + 1;
    }
  }

  /** The operation drops the client: it removes it, or it broadcasts while 256 messages wait for it. */
  predicate Drops<C, Msg>(v: View<C, Msg>, op: Op<C, Msg>, c: C)
  {
    && c in v.taps && Listening(v.taps[c])
    && (op == Remove(c) || (op.Send? && |v.taps[c].put| - v.taps[c].taken == CAPACITY))
  }

  ghost predicate DropsAt<C, Msg>(v: View<C, Msg>, ops: seq<Op<C, Msg>>, m: nat, c: C)
    requires ViewOk(v)
  {
    m < |ops| && CanRun(v, ops[..m]) && Drops(Run(v, ops[..m]), ops[m], c)
  }

  /** One operation ends a client's stretch exactly when it drops the client, and it ends it there. */
  lemma DroppedExactly<C, Msg>(v: View<C, Msg>, op: Op<C, Msg>, c: C)
    requires ViewOk(v) && CanDo(v, op) && c in v.taps && Listening(v.taps[c])
    ensures Step(v, op).taps[c].until == if Drops(v, op, c) then Some(|v.log|) else None
  {
    assert TapOk(v.log, v.taps[c]);
  }

  lemma DropsLater<C, Msg>(v: View<C, Msg>, ops: seq<Op<C, Msg>>, m: nat, c: C)
    requires ViewOk(v) && ops != [] && CanDo(v, ops[0])
    ensures ViewOk(Step(v, ops[0]))
    ensures DropsAt(v, ops, m + 1, c) <==> DropsAt(Step(v, ops[0]), ops[1..], m, c)
    ensures m + 1 < |ops| ==> Sent(ops[..m + 1]) == (if ops[0].Send? then [ops[0].m] else []) + Sent(ops[1..][..m])
  {
    StepKeepsOk(v, ops[0]);
    if m + 1 < |ops| {
      assert ops[..m + 1][1..] == ops[1..][..m];
    }
  }

  lemma DropsNow<C, Msg>(v: View<C, Msg>, ops: seq<Op<C, Msg>>, c: C)
    requires ViewOk(v) && ops != []
    ensures DropsAt(v, ops, 0, c) <==> Drops(v, ops[0], c)
  {
    assert ops[..0] == [];
  }

  /** A client's stretch ends where some operation dropped it. */
  lemma {:induction false} EndsWhereDropped<C, Msg>(v: View<C, Msg>, ops: seq<Op<C, Msg>>, c: C) returns (m: nat)
    requires ViewOk(v) && CanRun(v, ops) && (c in v.taps ==> Listening(v.taps[c]))
    requires c in Run(v, ops).taps && !Listening(Run(v, ops).taps[c])
    ensures DropsAt(v, ops, m, c) && Run(v, ops).taps[c].until == Some(|v.log| + |Sent(ops[..m])|)
    decreases |ops|
  {
    StepKeepsOk(v, ops[0]);
    var v' := Step(v, ops[0]);
    DropsNow(v, ops, c);
    if c in v.taps {
      DroppedExactly(v, ops[0], c);
    }
    if Drops(v, ops[0], c) {
      StartStays(v', ops[1..], c);
      m := 0;
    } else {
      m := EndsWhereDropped(v', ops[1..], c);
      DropsLater(v, ops, m, c);
      m := m + 1;
    }
  }

  /** Wherever an operation drops a client, that is where its stretch ends. */
  lemma {:induction false} DroppedOnce<C, Msg>(v: View<C, Msg>, ops: seq<Op<C, Msg>>, m: nat, c: C)
    requires ViewOk(v) && CanRun(v, ops) && DropsAt(v, ops, m, c)
    ensures c in Run(v, ops).taps && Run(v, ops).taps[c].until == Some(|v.log| + |Sent(ops[..m])|)
    decreases |ops|
  {
    StepKeepsOk(v, ops[0]);
    var v' := Step(v, ops[0]);
    if m == 0 {
      DropsNow(v, ops, c);
      DroppedExactly(v, ops[0], c);
      StartStays(v', ops[1..], c);
    } else {
      DropsLater(v, ops, m - 1, c);
      DroppedOnce(v', ops[1..], m - 1, c);
    }
  }

  /** Over a whole run, what a client's queue has received is exactly the broadcasts from the place
      where the client was added to the place where it was removed or found full, or to the end of
      the run if neither happened.  At most 256 wait, and the queue is closed once if it was dropped. */
  lemma QueuesAreStretches<C, Msg>(ops: seq<Op<C, Msg>>, c: C)
    requires CanRun(NewBroker(), ops) && c in Run(NewBroker(), ops).taps
    ensures var tap := Run(NewBroker(), ops).taps[c];
            var end := if tap.until.Some? then tap.until.value else |Sent(ops)|;
            && tap.start <= end <= |Sent(ops)| && tap.put == Sent(ops)[tap.start..end]
            && tap.taken <= |tap.put| <= tap.taken + CAPACITY
            && tap.closes == (if tap.until.Some? then 1 else 0)
    ensures exists n :: 0 <= n < |ops| && ops[n] == Add(c)
    ensures forall n :: 0 <= n < |ops| && ops[n] == Add(c) ==> Run(NewBroker(), ops).taps[c].start == |Sent(ops[..n])|
    ensures Run(NewBroker(), ops).taps[c].until.Some? <==> exists m: nat :: DropsAt(NewBroker(), ops, m, c)
    ensures forall m: nat :: DropsAt(NewBroker(), ops, m, c) ==>
              Run(NewBroker(), ops).taps[c].until == Some(|Sent(ops[..m])|)
  {
    LogIsWhatWasSent(NewBroker(), ops);
    StretchOf(Run(NewBroker(), ops), Sent(ops), c);
    var n := WasAdded(NewBroker(), ops, c);
    assert ops[n] == Add(c);
    forall n: nat | n < |ops| && ops[n] == Add(c)
      ensures Run(NewBroker(), ops).taps[c].start == |Sent(ops[..n])|
    {
      StartsWhereAdded(NewBroker(), ops, n, c);
    }
    if Run(NewBroker(), ops).taps[c].until.Some? {
      var m := EndsWhereDropped(NewBroker(), ops, c);
    }
    forall m: nat | DropsAt(NewBroker(), ops, m, c)
      ensures Run(NewBroker(), ops).taps[c].until == Some(|Sent(ops[..m])|)
    {
      DroppedOnce(NewBroker(), ops, m, c);
    }
  }

  lemma StretchOf<C, Msg>(v: View<C, Msg>, sent: seq<Msg>, c: C)
    requires ViewOk(v) && c in v.taps && v.log == [] + sent
    ensures var tap := v.taps[c];
            var end := if tap.until.Some? then tap.until.value else |sent|;
            && tap.start <= end <= |sent| && tap.put == sent[tap.start..end]
            && tap.taken <= |tap.put| <= tap.taken + CAPACITY
            && tap.closes == (if tap.until.Some? then 1 else 0)
  {
    assert v.log == sent;
    assert TapOk(v.log, v.taps[c]);
  }

  /** What was queued can still be drained to the end after the queue is closed. */
  lemma {:induction false} ClosedQueueDrains<C, Msg>(v: View<C, Msg>, c: C, n: nat)
    requires ViewOk(v) && c in v.taps && v.taps[c].taken + n == |v.taps[c].put|
    ensures var ops := seq(n, _ => Take(c));
            && CanRun(v, ops)
            && c in Run(v, ops).taps && Run(v, ops).taps[c] == v.taps[c].(taken := |v.taps[c].put|)
    decreases n
  {
    var ops: seq<Op<C, Msg>> := seq(n, _ => Take(c));
    if n > 0 {
      StepKeepsOk(v, Take(c));
      ClosedQueueDrains(Step(v, Take(c)), c, n - 1);
      assert ops[1..] == seq(n - 1, _ => Take(c));
    }
  }
}

/** broker.go as a whole: the manager of Hub.dfy with a broker of Fanout.dfy behind every entry.
    What is said of messages and queues here is about everything any client ever receives. */
module Realms {
  import Hub
  import Fanout

  type Conn = Hub.Conn

  /** A message together with the client it was read from. */
  datatype Post = Post(from: Conn, text: string)

  type View = Fanout.View<Conn, Post>

  /** Broker `b` of the hub has the log and the queues `views[b]`. */
  datatype Net = Net(hub: Hub.Hub, views: seq<View>)

  datatype Step =
    | Accept(c: Conn)
    | Insert(b: nat)
    | Remove(b: nat, c: Conn)
    | Say(c: Conn, text: string)
    | Take(b: nat, c: Conn)
    | Tick

  const NOTHING := Net(Hub.NOBODY, [])

  function Members(v: View): set<Conn>
  {
    set c | c in v.taps && Fanout.Listening(v.taps[c])
  }

  /** The broker at `b` is at its select. */
  predicate Selects(s: Net, b: nat)
  {
    b < |s.views| && b < |s.hub.brokers| && s.hub.brokers[b].handing.None?
  }

  predicate Enabled(s: Net, step: Step)
  {
    match step
    case Accept(c) => Hub.Enabled(s.hub, Hub.Accept(c))
    case Insert(b) => b < |s.views| && Hub.Enabled(s.hub, Hub.Insert(b))
    case Remove(b, c) => Selects(s, b) && c in s.views[b].taps
    case Say(c, _) => c in s.hub.home && Selects(s, s.hub.home[c])
    case Take(b, c) => b < |s.views| && Fanout.CanDo(s.views[b], Fanout.Take(c))
    case Tick => true
  }

  /** The broker at `b` does this, and its map is left with those that still listen. */
  function Work(s: Net, b: nat, op: Fanout.Op<Conn, Post>): Net
    requires b < |s.views| && b < |s.hub.brokers| && Fanout.ViewOk(s.views[b]) && Fanout.CanDo(s.views[b], op)
  {
    var v := Fanout.Step(s.views[b], op);
    Net(s.hub.(brokers := s.hub.brokers[b := s.hub.brokers[b].(members := Members(v))]), s.views[b := v])
  }

  function Apply(s: Net, step: Step): Net
    requires Good(s) && Enabled(s, step)
  {
    match step
    case Accept(c) =>
      var hub := Hub.Apply(s.hub, Hub.Accept(c));
      Net(hub, if |hub.brokers| > |s.views| then s.views + [Fanout.NewBroker()] else s.views)
    case Insert(b) =>
      var c := s.hub.brokers[b].handing.value;
      assert InStep(s, b);
      Net(Hub.Apply(s.hub, Hub.Insert(b)), s.views[b := Fanout.Step(s.views[b], Fanout.Add(c))])
    case Remove(b, c) => assert InStep(s, b); Work(s, b, Fanout.Remove(c))
    case Say(c, text) => assert InStep(s, s.hub.home[c]); Work(s, s.hub.home[c], Fanout.Send(Post(c, text)))
    case Take(b, c) => assert InStep(s, b); s.(views := s.views[b := Fanout.Step(s.views[b], Fanout.Take(c))])
    case Tick => s.(hub := Hub.Apply(s.hub, Hub.Tick))
  }

  /** Everyone who ever was with broker `b`, and everyone it ever heard, was sent to it. */
  ghost predicate AtHome(s: Net, b: nat)
    requires b < |s.views|
  {
    && (forall c :: c in s.views[b].taps ==> c in s.hub.home && s.hub.home[c] == b)
    && (forall post :: post in s.views[b].log ==> post.from in s.hub.home && s.hub.home[post.from] == b)
  }

  /** The hub's broker at `b` and its view are the same broker. */
  ghost predicate InStep(s: Net, b: nat)
    requires b < |s.views| == |s.hub.brokers|
  {
    && Fanout.ViewOk(s.views[b])
    && s.hub.brokers[b].members == Members(s.views[b])
    && (s.hub.brokers[b].handing.Some? ==> s.hub.brokers[b].handing.value !in s.views[b].taps)
  }

  ghost predicate Good(s: Net)
  {
    && Hub.Tidy(s.hub) && |s.views| == |s.hub.brokers|
    && forall b: nat :: b < |s.views| ==> AtHome(s, b) && InStep(s, b)
  }

  /** Removing and broadcasting add nobody. */
  lemma WorkAddsNobody(v: View, op: Fanout.Op<Conn, Post>)
    requires Fanout.ViewOk(v) && Fanout.CanDo(v, op) && (op.Remove? || op.Send?)
    ensures var v' := Fanout.Step(v, op);
            && v'.taps.Keys == v.taps.Keys && Members(v') <= Members(v)
            && v'.log == v.log + if op.Send? then [op.m] else []
  {
  }

  lemma WorkKeepsHome(s: Net, b: nat, op: Fanout.Op<Conn, Post>)
    requires Good(s) && b < |s.views| && InStep(s, b) && Fanout.CanDo(s.views[b], op) && (op.Remove? || op.Send?)
    requires op.Send? ==> op.m.from in s.hub.home && s.hub.home[op.m.from] == b
    ensures AtHome(Work(s, b, op), b)
  {
    var t := Work(s, b, op);
    assert AtHome(s, b);
    WorkAddsNobody(s.views[b], op);
  }

  lemma WorkKeepsStep(s: Net, b: nat, op: Fanout.Op<Conn, Post>)
    requires |s.views| == |s.hub.brokers|
    requires b < |s.views| && InStep(s, b) && Fanout.CanDo(s.views[b], op) && (op.Remove? || op.Send?)
    ensures InStep(Work(s, b, op), b)
  {
    Fanout.StepKeepsOk(s.views[b], op);
    WorkAddsNobody(s.views[b], op);
  }

  lemma WorkKeepsTidy(s: Net, b: nat, op: Fanout.Op<Conn, Post>)
    requires Good(s) && b < |s.views| && InStep(s, b) && Fanout.CanDo(s.views[b], op) && (op.Remove? || op.Send?)
    ensures Hub.Tidy(Work(s, b, op).hub)
  {
    var broker := Work(s, b, op).hub.brokers[b];
    WorkAddsNobody(s.views[b], op);
    assert forall c :: Hub.With(broker, c) ==> Hub.With(s.hub.brokers[b], c);
    Hub.MembersKeepTidy(s.hub, b, broker);
  }

  lemma WorkKeepsGood(s: Net, b: nat, op: Fanout.Op<Conn, Post>)
    requires Good(s) && b < |s.views| && InStep(s, b) && Fanout.CanDo(s.views[b], op) && (op.Remove? || op.Send?)
    requires op.Send? ==> op.m.from in s.hub.home && s.hub.home[op.m.from] == b
    ensures Good(Work(s, b, op))
  {
    var t := Work(s, b, op);
    WorkKeepsHome(s, b, op);
    WorkKeepsStep(s, b, op);
    WorkKeepsTidy(s, b, op);
    forall k: nat | k < |t.views|
      ensures AtHome(t, k) && InStep(t, k)
    {
      if k != b {
        assert AtHome(s, k) && InStep(s, k);
        Untouched(s, t, k);
      }
    }
  }

  /** A broker to which nothing happens is as well off as before. */
  lemma Untouched(s: Net, t: Net, k: nat)
    requires |s.views| == |s.hub.brokers| && |t.views| == |t.hub.brokers|
    requires k < |s.views| && AtHome(s, k) && InStep(s, k)
    requires k < |t.views| && t.views[k] == s.views[k]
    requires t.hub.brokers[k].(done := false) == s.hub.brokers[k].(done := false)
    requires forall c :: c in s.hub.home ==> c in t.hub.home && t.hub.home[c] == s.hub.home[c]
    ensures AtHome(t, k) && InStep(t, k)
  {
  }

  lemma HandingMoves(s: Net, t: Net, k: nat)
    requires |s.views| == |s.hub.brokers| && |t.views| == |t.hub.brokers|
    requires k < |s.views| && k < |t.views| && AtHome(s, k) && InStep(s, k) && t.views[k] == s.views[k]
    requires t.hub.brokers[k].members == s.hub.brokers[k].members
    requires t.hub.brokers[k].handing.Some? ==> t.hub.brokers[k].handing.value !in s.views[k].taps
    requires forall c :: c in s.hub.home ==> c in t.hub.home && t.hub.home[c] == s.hub.home[c]
    ensures AtHome(t, k) && InStep(t, k)
  {
  }

  lemma AcceptKeepsGood(s: Net, c: Conn)
    requires Good(s) && Enabled(s, Accept(c))
    ensures Good(Apply(s, Accept(c)))
  {
    var t := Apply(s, Accept(c));
    Hub.ApplyKeepsTidy(s.hub, Hub.Accept(c));
    forall k: nat | k < |t.views|
      ensures AtHome(t, k) && InStep(t, k)
    {
      if k < |s.views| {
        assert AtHome(s, k) && InStep(s, k);
        HandingMoves(s, t, k);
      }
    }
  }

  lemma InsertKeepsHome(s: Net, b: nat)
    requires Good(s) && Enabled(s, Insert(b))
    ensures AtHome(Apply(s, Insert(b)), b)
  {
    var c := s.hub.brokers[b].handing.value;
    assert AtHome(s, b) && InStep(s, b);
    assert Hub.With(s.hub.brokers[b], c);
  }

  lemma InsertKeepsStep(s: Net, b: nat)
    requires Good(s) && Enabled(s, Insert(b))
    ensures |Apply(s, Insert(b)).hub.brokers| == |s.views| && InStep(Apply(s, Insert(b)), b)
  {
    var c := s.hub.brokers[b].handing.value;
    var t := Apply(s, Insert(b));
    assert InStep(s, b);
    Fanout.StepKeepsOk(s.views[b], Fanout.Add(c));
    assert Members(t.views[b]) == Members(s.views[b]) + {c};
  }

  lemma InsertKeepsGood(s: Net, b: nat)
    requires Good(s) && Enabled(s, Insert(b))
    ensures Good(Apply(s, Insert(b)))
  {
    var t := Apply(s, Insert(b));
    Hub.ApplyKeepsTidy(s.hub, Hub.Insert(b));
    InsertKeepsHome(s, b);
    InsertKeepsStep(s, b);
    forall k: nat | k < |t.views|
      ensures AtHome(t, k) && InStep(t, k)
    {
      if k != b {
        assert AtHome(s, k) && InStep(s, k);
        Untouched(s, t, k);
      }
    }
  }

  lemma TakeKeepsGood(s: Net, b: nat, c: Conn)
    requires Good(s) && Enabled(s, Take(b, c))
    ensures Good(Apply(s, Take(b, c)))
  {
    var t := Apply(s, Take(b, c));
    assert InStep(s, b);
    Fanout.StepKeepsOk(s.views[b], Fanout.Take(c));
    forall k: nat | k < |t.views|
      ensures AtHome(t, k) && InStep(t, k)
    {
      assert AtHome(s, k) && InStep(s, k);
    }
  }

  lemma TickKeepsGood(s: Net)
    requires Good(s)
    ensures Good(Apply(s, Tick))
  {
    var t := Apply(s, Tick);
    Hub.ApplyKeepsTidy(s.hub, Hub.Tick);
    forall k: nat | k < |t.views|
      ensures AtHome(t, k) && InStep(t, k)
    {
      assert AtHome(s, k) && InStep(s, k);
    }
  }

  lemma ApplyKeepsGood(s: Net, step: Step)
    requires Good(s) && Enabled(s, step)
    ensures Good(Apply(s, step))
  {
    match step
    case Accept(c) => AcceptKeepsGood(s, c);
    case Insert(b) => InsertKeepsGood(s, b);
    case Remove(b, c) =>
      assert InStep(s, b);
      WorkKeepsGood(s, b, Fanout.Remove(c));
    case Say(c, text) =>
      assert InStep(s, s.hub.home[c]);
      WorkKeepsGood(s, s.hub.home[c], Fanout.Send(Post(c, text)));
    case Take(b, c) => TakeKeepsGood(s, b, c);
    case Tick => TickKeepsGood(s);
  }

  ghost predicate Feasible(s: Net, steps: seq<Step>)
    requires Good(s)
    decreases |steps|
  {
    steps == [] || (Enabled(s, steps[0]) && (ApplyKeepsGood(s, steps[0]); Feasible(Apply(s, steps[0]), steps[1..])))
  }

  ghost function After(s: Net, steps: seq<Step>): (t: Net)
    requires Good(s) && Feasible(s, steps)
    ensures Good(t)
    decreases |steps|
  {
    if steps == [] then s
    else
      ApplyKeepsGood(s, steps[0]);
      After(Apply(s, steps[0]), steps[1..])
  }

  /** In every run, whatever was put on a client's queue was said in that client's own realm. */
  lemma QueuesHoldTheirRealm(steps: seq<Step>, b: nat, c: Conn, post: Post)
    requires Feasible(NOTHING, steps)
    requires var s := After(NOTHING, steps); b < |s.views| && c in s.views[b].taps && post in s.views[b].taps[c].put
    ensures post.from.realm == c.realm
  {
    var s := After(NOTHING, steps);
    assert AtHome(s, b) && InStep(s, b);
    assert Fanout.TapOk(s.views[b].log, s.views[b].taps[c]);
    assert post in s.views[b].log;
  }

  // ----- who hears a message -----

  ghost predicate Rash(s: Net, step: Step)
  {
    step.Tick? && Hub.Rash(s.hub, Hub.Tick)
  }

  ghost predicate NeverRash(s: Net, steps: seq<Step>)
    requires Good(s) && Feasible(s, steps)
    decreases |steps|
  {
    steps != [] ==> !Rash(s, steps[0]) && (ApplyKeepsGood(s, steps[0]); NeverRash(Apply(s, steps[0]), steps[1..]))
  }

  lemma ApplyKeepsQuiet(s: Net, step: Step)
    requires Good(s) && Hub.Quiet(s.hub) && Enabled(s, step) && !Rash(s, step)
    ensures Hub.Quiet(Apply(s, step).hub)
  {
    match step
    case Accept(c) => Hub.QuietUnlessRash(s.hub, Hub.Accept(c));
    case Insert(b) => Hub.QuietUnlessRash(s.hub, Hub.Insert(b));
    case Tick => Hub.QuietUnlessRash(s.hub, Hub.Tick);
    case Remove(b, c) =>
      assert InStep(s, b);
      WorkKeepsQuiet(s, b, Fanout.Remove(c));
    case Say(c, text) =>
      assert InStep(s, s.hub.home[c]);
      WorkKeepsQuiet(s, s.hub.home[c], Fanout.Send(Post(c, text)));
    case Take(_, _) =>
  }

  lemma WorkKeepsQuiet(s: Net, b: nat, op: Fanout.Op<Conn, Post>)
    requires Good(s) && Hub.Quiet(s.hub)
    requires b < |s.views| && InStep(s, b) && Fanout.CanDo(s.views[b], op) && (op.Remove? || op.Send?)
    ensures Hub.Quiet(Work(s, b, op).hub)
  {
    WorkAddsNobody(s.views[b], op);
  }

  lemma {:induction false} QuietAfter(s: Net, steps: seq<Step>)
    requires Good(s) && Hub.Quiet(s.hub) && Feasible(s, steps) && NeverRash(s, steps)
    ensures Hub.Quiet(After(s, steps).hub)
    decreases |steps|
  {
    if steps != [] {
      ApplyKeepsQuiet(s, steps[0]);
      ApplyKeepsGood(s, steps[0]);
      QuietAfter(Apply(s, steps[0]), steps[1..]);
    }
  }

  /** Client `d` is in the map of broker `b`. */
  predicate Hears(s: Net, b: nat, d: Conn)
  {
    b < |s.views| && d in s.views[b].taps && Fanout.Listening(s.views[b].taps[d])
  }

  lemma HearersShareABroker(s: Net, b: nat, c: Conn, k: nat, d: Conn)
    requires Good(s) && Hub.Quiet(s.hub) && Hears(s, b, c) && Hears(s, k, d)
    ensures k == b <==> d.realm == c.realm
  {
    assert AtHome(s, b) && AtHome(s, k) && InStep(s, b) && InStep(s, k);
    assert c in s.hub.brokers[b].members && d in s.hub.brokers[k].members;
    assert !s.hub.brokers[b].done && !s.hub.brokers[k].done;
    assert Hub.IsRegistered(s.hub, b) && Hub.IsRegistered(s.hub, k);
  }

  /** What a broadcast does to one listening client of the broker. */
  lemma SentTo(v: View, post: Post, d: Conn)
    requires Fanout.ViewOk(v) && d in v.taps && Fanout.Listening(v.taps[d])
    ensures var t := Fanout.Step(v, Fanout.Send(post)).taps[d];
            var full := |v.taps[d].put| - v.taps[d].taken == Fanout.CAPACITY;
            Fanout.Listening(t) == !full && t.put == v.taps[d].put + (if full then [] else [post])
  {
    assert Fanout.TapOk(v.log, v.taps[d]);
  }

  lemma SayIsLocal(s: Net, c: Conn, text: string)
    requires Good(s) && Enabled(s, Say(c, text))
    ensures var b := s.hub.home[c];
            && Fanout.ViewOk(s.views[b])
            && Apply(s, Say(c, text)).views == s.views[b := Fanout.Step(s.views[b], Fanout.Send(Post(c, text)))]
  {
    assert InStep(s, s.hub.home[c]);
  }

  /** After any run without a rash tick, a message said by a client that is in a map reaches exactly
      the clients of its realm: each of them, wherever it is, gets the message at the end of its
      queue, or is dropped if 256 messages already wait; and nobody else's queue changes. */
  lemma SaidToExactlyTheRealm(steps: seq<Step>, b: nat, c: Conn, text: string, k: nat, d: Conn)
    requires Feasible(NOTHING, steps) && NeverRash(NOTHING, steps)
    requires var s := After(NOTHING, steps); Enabled(s, Say(c, text)) && Hears(s, b, c) && Hears(s, k, d)
    ensures var s := After(NOTHING, steps);
            var t := Apply(s, Say(c, text));
            var (was, now) := (s.views[k].taps[d], t.views[k].taps[d]);
            var full := |was.put| - was.taken == Fanout.CAPACITY;
            && Hears(t, k, d) == (d.realm == c.realm ==> !full)
            && now.put == was.put + (if d.realm == c.realm && !full then [Post(c, text)] else [])
  {
    var s := After(NOTHING, steps);
    QuietAfter(NOTHING, steps);
    HearersShareABroker(s, b, c, k, d);
    assert AtHome(s, b) && InStep(s, k);
    SayIsLocal(s, c, text);
    SentTo(s.views[k], Post(c, text), d);
  }
}

/** broker.go, runBrokerManager: brokers come and go per realm.  Handing a client over and the
    broker's map insertion are two steps, as they are in two goroutines. */
module Hub {
  import opened Wrappers

  datatype Conn = Conn(realm: string, serial: nat)

  /** `handing`: received on the broker's add channel, not yet in its map. */
  datatype Broker = Broker(realm: string, done: bool, handing: Option<Conn>, members: set<Conn>)

  /** Every broker ever made, which of them is registered for each realm, and where each client was sent. */
  datatype Hub = Hub(brokers: seq<Broker>, registered: map<string, nat>, home: map<Conn, nat>)

  datatype Step =
    | Accept(c: Conn)
    | Insert(b: nat)
    | Drop(b: nat, c: Conn)
    | Tick

  const NOBODY := Hub([], map[], map[])

  /** The registry after retiring the brokers in `empty`. */
  function Surviving<B>(registered: map<string, B>, empty: set<B>): map<string, B>
  {
    map realm | realm in registered && registered[realm] !in empty :: registered[realm]
  }

  /** The registered brokers whose map is empty, as the ticker finds them. */
  function Empty(s: Hub): set<nat>
  {
    set realm |
      && realm in s.registered && s.registered[realm] < |s.brokers|
      && s.brokers[s.registered[realm]].members == {}
      :: s.registered[realm]
  }

  predicate Enabled(s: Hub, step: Step)
  {
    match step
    case Accept(c) =>
      && c !in s.home
      && (c.realm in s.registered ==>
            s.registered[c.realm] < |s.brokers| && s.brokers[s.registered[c.realm]].handing.None?)
    case Insert(b) => b < |s.brokers| && s.brokers[b].handing.Some?
    case Drop(b, c) => b < |s.brokers| && c in s.brokers[b].members
    case Tick => true
  }

  function Apply(s: Hub, step: Step): Hub
    requires Enabled(s, step)
  {
    match step
    case Accept(c) =>
      if c.realm in s.registered then
        var b := s.registered[c.realm];
        Hub(s.brokers[b := s.brokers[b].(handing := Some(c))], s.registered, s.home[c := b])
      else
        var b := |s.brokers|;
        Hub(s.brokers + [Broker(c.realm, false, Some(c), {})], s.registered[c.realm := b], s.home[c := b])
    case Insert(b) =>
      var broker := s.brokers[b];
      s.(brokers := s.brokers[b := broker.(members := broker.members + {broker.handing.value}, handing := None)])
    case Drop(b, c) => s.(brokers := s.brokers[b := s.brokers[b].(members := s.brokers[b].members - {c})])
    case Tick =>
      var empty := Empty(s);
      Hub(seq(|s.brokers|, b requires 0 <= b < |s.brokers| =>
            if b in empty then s.brokers[b].(done := true) else s.brokers[b]),
          Surviving(s.registered, empty), s.home)
  }

  /** The registered brokers are exactly the ones that have not been retired, one to a realm, and
      a client is only ever with the broker of its own realm that it was sent to. */
  ghost predicate Tidy(s: Hub)
  {
    && (forall realm :: realm in s.registered ==> Serves(s, s.registered[realm], realm))
    && (forall b: nat :: b < |s.brokers| && !s.brokers[b].done ==> IsRegistered(s, b))
    && (forall c :: c in s.home ==> s.home[c] < |s.brokers| && s.brokers[s.home[c]].realm == c.realm)
    && (forall b: nat, c :: b < |s.brokers| && With(s.brokers[b], c) ==> c in s.home && s.home[c] == b)
  }

  predicate Serves(s: Hub, b: nat, realm: string)
  {
    b < |s.brokers| && !s.brokers[b].done && s.brokers[b].realm == realm
  }

  predicate IsRegistered(s: Hub, b: nat)
    requires b < |s.brokers|
  {
    s.brokers[b].realm in s.registered && s.registered[s.brokers[b].realm] == b
  }

  predicate With(broker: Broker, c: Conn)
  {
    c in broker.members || broker.handing == Some(c)
  }

  /** A retired broker has no client, and none on the way. */
  ghost predicate Quiet(s: Hub)
  {
    forall b: nat :: b < |s.brokers| && s.brokers[b].done ==> s.brokers[b].members == {} && s.brokers[b].handing.None?
  }

  lemma TickKeepsTidy(s: Hub)
    requires Tidy(s)
    ensures Tidy(Apply(s, Tick))
  {
    var t := Apply(s, Tick);
    forall realm | realm in t.registered
      ensures Serves(t, t.registered[realm], realm)
    {
      assert Serves(s, s.registered[realm], realm);
    }
    forall b: nat | b < |t.brokers| && !t.brokers[b].done
      ensures IsRegistered(t, b)
    {
      assert IsRegistered(s, b);
    }
    forall b: nat, c | b < |t.brokers| && With(t.brokers[b], c)
      ensures c in t.home && t.home[c] == b
    {
      assert With(s.brokers[b], c);
    }
  }

  /** Changing who is with one broker, in keeping with where they were sent. */
  lemma MembersKeepTidy(s: Hub, b: nat, broker: Broker)
    requires Tidy(s) && b < |s.brokers| && broker.realm == s.brokers[b].realm && broker.done == s.brokers[b].done
    requires forall c :: With(broker, c) ==> c in s.home && s.home[c] == b
    ensures Tidy(s.(brokers := s.brokers[b := broker]))
  {
    var t := s.(brokers := s.brokers[b := broker]);
    forall realm | realm in t.registered
      ensures Serves(t, t.registered[realm], realm)
    {
      assert Serves(s, s.registered[realm], realm);
    }
    forall k: nat | k < |t.brokers| && !t.brokers[k].done
      ensures IsRegistered(t, k)
    {
      assert IsRegistered(s, k);
    }
    forall k: nat, c | k < |t.brokers| && With(t.brokers[k], c)
      ensures c in t.home && t.home[c] == k
    {
      assert k != b ==> With(s.brokers[k], c);
    }
  }

  lemma AcceptKeepsRegistry(s: Hub, c: Conn)
    requires Tidy(s) && Enabled(s, Accept(c))
    ensures var t := Apply(s, Accept(c));
            && (forall realm :: realm in t.registered ==> Serves(t, t.registered[realm], realm))
            && (forall b: nat :: b < |t.brokers| && !t.brokers[b].done ==> IsRegistered(t, b))
  {
    var t := Apply(s, Accept(c));
    forall realm | realm in t.registered
      ensures Serves(t, t.registered[realm], realm)
    {
      assert realm in s.registered ==> Serves(s, s.registered[realm], realm);
    }
    forall k: nat | k < |t.brokers| && !t.brokers[k].done
      ensures IsRegistered(t, k)
    {
      assert k < |s.brokers| ==> IsRegistered(s, k);
    }
  }

  lemma AcceptKeepsHomes(s: Hub, c: Conn)
    requires Tidy(s) && Enabled(s, Accept(c))
    ensures var t := Apply(s, Accept(c));
            && (forall d :: d in t.home ==> t.home[d] < |t.brokers| && t.brokers[t.home[d]].realm == d.realm)
            && (forall b: nat, d :: b < |t.brokers| && With(t.brokers[b], d) ==> d in t.home && t.home[d] == b)
  {
    var t := Apply(s, Accept(c));
    assert c.realm in s.registered ==> Serves(s, s.registered[c.realm], c.realm);
    forall k: nat, d | k < |t.brokers| && With(t.brokers[k], d)
      ensures d in t.home && t.home[d] == k
    {
      assert k < |s.brokers| && With(s.brokers[k], d) ==> d in s.home && s.home[d] == k;
    }
  }

  lemma AcceptKeepsTidy(s: Hub, c: Conn)
    requires Tidy(s) && Enabled(s, Accept(c))
    ensures Tidy(Apply(s, Accept(c)))
  {
    AcceptKeepsRegistry(s, c);
    AcceptKeepsHomes(s, c);
  }

  lemma ApplyKeepsTidy(s: Hub, step: Step)
    requires Tidy(s) && Enabled(s, step)
    ensures Tidy(Apply(s, step))
  {
    match step
    case Accept(c) => AcceptKeepsTidy(s, c);
    case Tick => TickKeepsTidy(s);
    case Insert(b) =>
      var broker := s.brokers[b];
      assert With(broker, broker.handing.value);
      MembersKeepTidy(s, b, broker.(members := broker.members + {broker.handing.value}, handing := None));
    case Drop(b, c) => MembersKeepTidy(s, b, s.brokers[b].(members := s.brokers[b].members - {c}));
  }

  /** The ticker fires while a client handed to an empty broker is not in its map yet. */
  ghost predicate Rash(s: Hub, step: Step)
  {
    step.Tick? && exists b :: b in Empty(s) && s.brokers[b].handing.Some?
  }

  /** One step keeps retired brokers quiet exactly when it is not a rash tick. */
  lemma QuietUnlessRash(s: Hub, step: Step)
    requires Tidy(s) && Quiet(s) && Enabled(s, step)
    ensures Quiet(Apply(s, step)) <==> !Rash(s, step)
  {
    var t := Apply(s, step);
    if Rash(s, step) {
      var b :| b in Empty(s) && s.brokers[b].handing.Some?;
      assert t.brokers[b].done;
    }
  }

  ghost predicate Feasible(s: Hub, steps: seq<Step>)
    decreases |steps|
  {
    steps == [] || (Enabled(s, steps[0]) && Feasible(Apply(s, steps[0]), steps[1..]))
  }

  ghost function After(s: Hub, steps: seq<Step>): Hub
    requires Feasible(s, steps)
    decreases |steps|
  {
    if steps == [] then s else After(Apply(s, steps[0]), steps[1..])
  }

  ghost predicate QuietThroughout(s: Hub, steps: seq<Step>)
    requires Feasible(s, steps)
    decreases |steps|
  {
    Quiet(s) && (steps != [] ==> QuietThroughout(Apply(s, steps[0]), steps[1..]))
  }

  ghost predicate NeverRash(s: Hub, steps: seq<Step>)
    requires Feasible(s, steps)
    decreases |steps|
  {
    steps != [] ==> !Rash(s, steps[0]) && NeverRash(Apply(s, steps[0]), steps[1..])
  }

  lemma {:induction false} TidyAfter(s: Hub, steps: seq<Step>)
    requires Tidy(s) && Feasible(s, steps)
    ensures Tidy(After(s, steps))
    decreases |steps|
  {
    if steps != [] {
      ApplyKeepsTidy(s, steps[0]);
      TidyAfter(Apply(s, steps[0]), steps[1..]);
    }
  }

  /** Over a whole run retired brokers stay quiet exactly when no tick was rash. */
  lemma {:induction false} QuietExactlyWhenNeverRash(s: Hub, steps: seq<Step>)
    requires Tidy(s) && Quiet(s) && Feasible(s, steps)
    ensures QuietThroughout(s, steps) <==> NeverRash(s, steps)
    decreases |steps|
  {
    if steps != [] {
      ApplyKeepsTidy(s, steps[0]);
      QuietUnlessRash(s, steps[0]);
      if !Rash(s, steps[0]) {
        QuietExactlyWhenNeverRash(Apply(s, steps[0]), steps[1..]);
      }
    }
  }

  lemma {:induction false} QuietAtEnd(s: Hub, steps: seq<Step>)
    requires Feasible(s, steps) && QuietThroughout(s, steps)
    ensures Quiet(After(s, steps))
    decreases |steps|
  {
    if steps != [] {
      QuietAtEnd(Apply(s, steps[0]), steps[1..]);
    }
  }

  /** In every run: the registered brokers are the running ones, and everybody who hears what a
      client says is in that client's realm. */
  lemma RealmsAreSeparate(steps: seq<Step>, sender: Conn, hearer: Conn)
    requires Feasible(NOBODY, steps)
    ensures var s := After(NOBODY, steps);
            && Tidy(s)
            && (sender in s.home && s.home[sender] < |s.brokers| && hearer in s.brokers[s.home[sender]].members ==>
                  hearer.realm == sender.realm)
  {
    TidyAfter(NOBODY, steps);
    var s := After(NOBODY, steps);
    if sender in s.home && s.home[sender] < |s.brokers| {
      assert hearer in s.brokers[s.home[sender]].members ==> With(s.brokers[s.home[sender]], hearer);
    }
  }

  /** Without a rash tick, the clients of one realm are all with one broker, which is running. */
  lemma OneBrokerPerRealm(steps: seq<Step>, c: Conn, d: Conn, b: nat, b': nat)
    requires Feasible(NOBODY, steps) && NeverRash(NOBODY, steps) && c.realm == d.realm
    requires var s := After(NOBODY, steps);
             b < |s.brokers| && b' < |s.brokers| && With(s.brokers[b], c) && With(s.brokers[b'], d)
    ensures b == b' && !After(NOBODY, steps).brokers[b].done
  {
    var s := After(NOBODY, steps);
    TidyAfter(NOBODY, steps);
    QuietExactlyWhenNeverRash(NOBODY, steps);
    QuietAtEnd(NOBODY, steps);
    assert IsRegistered(s, b) && IsRegistered(s, b');
  }

  /** A tick retires exactly the running brokers without clients, and forgets exactly those. */
  lemma TickRetiresExactly(s: Hub, b: nat)
    requires Tidy(s) && b < |s.brokers|
    ensures var t := Apply(s, Tick);
            && |t.brokers| == |s.brokers|
            && (t.brokers[b].done <==> s.brokers[b].done || s.brokers[b].members == {})
            && (s.brokers[b].realm in t.registered && t.registered[s.brokers[b].realm] == b
                <==> !s.brokers[b].done && s.brokers[b].members != {})
  {
    var realm := s.brokers[b].realm;
    if !s.brokers[b].done {
      assert IsRegistered(s, b);
    }
    if realm in s.registered {
      assert Serves(s, s.registered[realm], realm);
    }
    if b in Empty(s) {
      var other :| other in s.registered && s.registered[other] == b;
      assert Serves(s, b, other);
    }
  }

  /** When the last client of a running broker leaves, the next tick retires the broker, and no earlier. */
  lemma LastOneOut(s: Hub, b: nat, c: Conn)
    requires Tidy(s) && b < |s.brokers| && c in s.brokers[b].members && !s.brokers[b].done
    ensures !Apply(s, Tick).brokers[b].done
    ensures var t := Apply(s, Drop(b, c)); Apply(t, Tick).brokers[b].done <==> s.brokers[b].members == {c}
  {
    var t := Apply(s, Drop(b, c));
    ApplyKeepsTidy(s, Drop(b, c));
    TickRetiresExactly(s, b);
    TickRetiresExactly(t, b);
    assert s.brokers[b].members == t.brokers[b].members + {c};
  }

  // ----- a rash tick, concretely -----

  const FIRST := Conn("r", 1)
  const SECOND := Conn("r", 2)

  function RashRun(): seq<Step>
  {
    [Accept(FIRST)] + ([Tick] + ([Insert(0)] + ([Accept(SECOND)] + ([Insert(1)] + []))))
  }

  ghost predicate Leads(s: Hub, steps: seq<Step>, t: Hub)
  {
    Feasible(s, steps) && After(s, steps) == t
  }

  lemma Link(s: Hub, step: Step, rest: seq<Step>, t: Hub)
    requires Enabled(s, step) && Leads(Apply(s, step), rest, t)
    ensures Leads(s, [step] + rest, t)
  {
    assert ([step] + rest)[1..] == rest;
  }

  /** The tick retires the broker that has just been given its first client: two clients of one
      realm end up with two brokers, one of them stopped, and never hear each other. */
  lemma RashTickSplitsTheRealm()
    ensures Feasible(NOBODY, RashRun())
    ensures var s := After(NOBODY, RashRun());
            && |s.brokers| == 2 && s.brokers[0] == Broker("r", true, None, {FIRST})
            && s.brokers[1] == Broker("r", false, None, {SECOND})
  {
    var s1 := Apply(NOBODY, Accept(FIRST));
    assert s1.brokers == [Broker("r", false, Some(FIRST), {})] && s1.registered == map["r" := 0];
    assert "r" in s1.registered && 0 in Empty(s1);
    var s2 := Apply(s1, Tick);
    assert s2.brokers == [Broker("r", true, Some(FIRST), {})] && s2.registered == map[];
    assert {} + {FIRST} == {FIRST} && {} + {SECOND} == {SECOND};
    var s3 := Apply(s2, Insert(0));
    assert s3.brokers == [Broker("r", true, None, {FIRST})];
    var s4 := Apply(s3, Accept(SECOND));
    assert s4.brokers == [Broker("r", true, None, {FIRST}), Broker("r", false, Some(SECOND), {})];
    var s5 := Apply(s4, Insert(1));
    assert s5.brokers == [Broker("r", true, None, {FIRST}), Broker("r", false, None, {SECOND})];
    Link(s4, Insert(1), [], s5);
    Link(s3, Accept(SECOND), [Insert(1)] + [], s5);
    Link(s2, Insert(0), [Accept(SECOND)] + ([Insert(1)] + []), s5);
    Link(s1, Tick, [Insert(0)] + ([Accept(SECOND)] + ([Insert(1)] + [])), s5);
    Link(NOBODY, Accept(FIRST), [Tick] + ([Insert(0)] + ([Accept(SECOND)] + ([Insert(1)] + []))), s5);
  }
}

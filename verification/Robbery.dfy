/** Why the election's settled-state result excludes introducers robbed by an old writer:
    one concrete run, step by step. */
module Robbery {
  import opened Wrappers
  import opened Wire
  import opened Introducer
  import opened Bus
  import opened Election

  const ENV := Env(None, false, 3.0)

  /** Introducer 0, of level 1. */
  function Low(connected: bool, oldWriter: bool, robbed: bool, outbox: seq<Content>, inbox: seq<Item>): Node
  {
    Node(true, ["k"], Intro(1.0, true), connected, oldWriter, robbed, outbox, inbox)
  }

  /** Introducer 1, of level 2; it is never disconnected. */
  function High(outbox: seq<Content>, inbox: seq<Item>): Node
  {
    Node(true, ["k"], Intro(2.0, true), true, false, false, outbox, inbox)
  }

  ghost predicate Links(s: System, step: Step, t: System)
  {
    WellFormed(s) && Enabled(s, step) && Apply(s, step) == t
  }

  lemma First(s: System, step: Step, t: System, rest: seq<Step>, u: System)
    requires Links(s, step, t) && Leads(t, rest, u)
    ensures Leads(s, [step] + rest, u)
  {
    assert ([step] + rest)[1..] == rest;
  }

  /** One step of a two-introducer system, by its effect. */
  lemma TwoStep(a: Node, b: Node, i: Id, action: Action, a': Node, b': Node)
    requires i < 2 && RoleFits(a.role) && RoleFits(b.role) && CanAct(i, if i == 0 then a else b, action)
    requires var e := Act(i, if i == 0 then a else b, action);
             && e.deeds == []
             && a' == Deliver(if i == 0 then e.node else a, e.bodies)
             && b' == Deliver(if i == 0 then b else e.node, e.bodies)
    ensures Links(System([a, b], []), At(i, action), System([a', b'], []))
  {
    var s := System([a, b], []);
    assert Apply(s, At(i, action)).nodes == [a', b'];
  }

  const SAYS := [Present(1.0), RollCall]

  function Own(content: Content): Item { FromWire(Sealed("k", Packet(1, content))) }

  /** 0 reconnects and speaks up, but the writer of its dead socket takes both messages. */
  function Theft(): seq<Step>
  {
    [At(0, Reconnect)] + ([At(0, Receive(ENV))] + ([At(0, Lose(0))] + ([At(0, Lose(0))] + [])))
  }

  const CUT := Low(false, true, false, [], [])
  const STOLEN := System([Low(true, true, true, [], []), High([], [])], [])

  lemma TheftRuns()
    ensures Leads(System([CUT, High([], [])], []), Theft(), STOLEN)
  {
    var h := High([], []);
    var back := Low(true, true, false, [], [ReconnectedNotice]);
    var said := Low(true, true, false, SAYS, []);
    var half := Low(true, true, true, [RollCall], []);
    TwoStep(CUT, h, 0, Reconnect, back, h);
    TwoStep(back, h, 0, Receive(ENV), said, h);
    TwoStep(said, h, 0, Lose(0), half, h);
    TwoStep(half, h, 0, Lose(0), Low(true, true, true, [], []), h);
    First(System([half, h], []), At(0, Lose(0)), STOLEN, [], STOLEN);
    First(System([said, h], []), At(0, Lose(0)), System([half, h], []), [At(0, Lose(0))] + [], STOLEN);
    First(System([back, h], []), At(0, Receive(ENV)), System([said, h], []),
          [At(0, Lose(0))] + ([At(0, Lose(0))] + []), STOLEN);
    First(System([CUT, h], []), At(0, Reconnect), System([back, h], []),
          [At(0, Receive(ENV))] + ([At(0, Lose(0))] + ([At(0, Lose(0))] + [])), STOLEN);
  }

  function HearItself(): seq<Step> { [At(1, Receive(ENV))] + ([At(1, Receive(ENV))] + Theft()) }

  function SpeakUnheard(): seq<Step> { [At(1, Publish)] + ([At(1, Publish)] + HearItself()) }

  lemma Hearing()
    ensures Leads(System([CUT, High([], [Own(Present(2.0)), Own(RollCall)])], []), HearItself(), STOLEN)
  {
    var h2 := High([], [Own(Present(2.0)), Own(RollCall)]);
    var h1 := High([], [Own(RollCall)]);
    TheftRuns();
    TwoStep(CUT, h2, 1, Receive(ENV), CUT, h1);
    TwoStep(CUT, h1, 1, Receive(ENV), CUT, High([], []));
    First(System([CUT, h1], []), At(1, Receive(ENV)), System([CUT, High([], [])], []), Theft(), STOLEN);
    First(System([CUT, h2], []), At(1, Receive(ENV)), System([CUT, h1], []), [At(1, Receive(ENV))] + Theft(), STOLEN);
  }

  const SPEAKING := High([Present(2.0), RollCall], [])
  const HALFWAY := High([RollCall], [Own(Present(2.0))])
  const SPOKEN := High([], [Own(Present(2.0)), Own(RollCall)])

  /** Introducer 1 publishes while 0 is cut off: only its own copy arrives. */
  lemma SpeaksAlone(content: Content, before: Node, after: Node)
    requires before.alive && before.connected && before.keys == ["k"] && RoleFits(before.role)
    requires before.outbox != [] && before.outbox[0] == content
    requires after == before.(outbox := before.outbox[1..], inbox := before.inbox + [Own(content)])
    ensures Links(System([CUT, before], []), At(1, Publish), System([CUT, after], []))
  {
    assert Items(Prepare(content, ["k"], 1)) == [Own(content)];
    TwoStep(CUT, before, 1, Publish, CUT, after);
  }

  lemma SpeakingSteps()
    ensures Links(System([CUT, SPEAKING], []), At(1, Publish), System([CUT, HALFWAY], []))
    ensures Links(System([CUT, HALFWAY], []), At(1, Publish), System([CUT, SPOKEN], []))
  {
    assert SPEAKING.outbox[1..] == HALFWAY.outbox && SPEAKING.inbox + [Own(Present(2.0))] == HALFWAY.inbox;
    SpeaksAlone(Present(2.0), SPEAKING, HALFWAY);
    assert HALFWAY.outbox[1..] == SPOKEN.outbox && HALFWAY.inbox + [Own(RollCall)] == SPOKEN.inbox;
    SpeaksAlone(RollCall, HALFWAY, SPOKEN);
  }

  lemma Speaking()
    ensures Leads(System([CUT, SPEAKING], []), SpeakUnheard(), STOLEN)
  {
    Hearing();
    SpeakingSteps();
    First(System([CUT, HALFWAY], []), At(1, Publish), System([CUT, SPOKEN], []), HearItself(), STOLEN);
    First(System([CUT, SPEAKING], []), At(1, Publish), System([CUT, HALFWAY], []),
          [At(1, Publish)] + HearItself(), STOLEN);
  }

  const ALONE := Low(true, false, false, SAYS, [])

  function SecondJoins(): seq<Step> { [Join(NewIntroducer(2.0), ["k"])] + SpeakUnheard() }

  function DropOff(): seq<Step> { [At(0, Disconnect(0))] + ([At(0, Lose(0))] + ([At(0, Lose(0))] + SecondJoins())) }

  /** A second introducer joins one that is already there. */
  lemma JoinStep(a: Node)
    requires RoleFits(a.role)
    ensures Links(System([a], []), Join(NewIntroducer(2.0), ["k"]), System([a, SPEAKING], []))
  {
    var (s, step) := (System([a], []), Join(NewIntroducer(2.0), ["k"]));
    assert Apply(s, step).nodes == [a, SPEAKING];
    assert Apply(s, step).log == [];
  }

  lemma Joining()
    ensures Leads(System([CUT], []), SecondJoins(), STOLEN)
  {
    Speaking();
    JoinStep(CUT);
    First(System([CUT], []), Join(NewIntroducer(2.0), ["k"]), System([CUT, SPEAKING], []),
          SpeakUnheard(), STOLEN);
  }

  lemma OneStep(a: Node, action: Action, a': Node)
    requires RoleFits(a.role) && CanAct(0, a, action)
    requires var e := Act(0, a, action); e.deeds == [] && a' == Deliver(e.node, e.bodies)
    ensures Links(System([a], []), At(0, action), System([a'], []))
  {
    var s := System([a], []);
    assert Apply(s, At(0, action)).nodes == [a'];
  }

  const OFFLINE := Low(false, true, false, SAYS, [])
  const LOSING := Low(false, true, false, [RollCall], [])

  lemma DroppingSteps()
    ensures Links(System([ALONE], []), At(0, Disconnect(0)), System([OFFLINE], []))
    ensures Links(System([OFFLINE], []), At(0, Lose(0)), System([LOSING], []))
    ensures Links(System([LOSING], []), At(0, Lose(0)), System([CUT], []))
  {
    OneStep(ALONE, Disconnect(0), OFFLINE);
    assert OFFLINE.outbox[1..] == LOSING.outbox;
    OneStep(OFFLINE, Lose(0), LOSING);
    OneStep(LOSING, Lose(0), CUT);
  }

  lemma Dropping()
    ensures Leads(System([ALONE], []), DropOff(), STOLEN)
  {
    Joining();
    DroppingSteps();
    var rest := [At(0, Lose(0))] + SecondJoins();
    First(System([LOSING], []), At(0, Lose(0)), System([CUT], []), SecondJoins(), STOLEN);
    First(System([OFFLINE], []), At(0, Lose(0)), System([LOSING], []), rest, STOLEN);
    First(System([ALONE], []), At(0, Disconnect(0)), System([OFFLINE], []), [At(0, Lose(0))] + rest, STOLEN);
  }

  /** 0 joins, drops off, and its first two messages are lost; 1 joins, speaks, and hears only
      itself; 0 reconnects and is robbed. */
  function TheRun(): seq<Step> { [Join(NewIntroducer(1.0), ["k"])] + DropOff() }

  lemma FirstJoins()
    ensures Links(EMPTY, Join(NewIntroducer(1.0), ["k"]), System([ALONE], []))
  {
  }

  lemma TheRunLeads()
    ensures Leads(EMPTY, TheRun(), STOLEN)
  {
    Dropping();
    FirstJoins();
    First(EMPTY, Join(NewIntroducer(1.0), ["k"]), System([ALONE], []), DropOff(), STOLEN);
  }

  /** Everyone is connected and silent, yet the lower introducer stays active for good. */
  lemma RobberyDefeatsTheElection() returns (steps: seq<Step>)
    ensures Feasible(EMPTY, steps)
    ensures var s := After(EMPTY, steps);
            && Silent(s) && |s.nodes| == 2 && s.nodes[0].connected && s.nodes[1].connected
            && Active(s.nodes[0]) && Outranks(s, 1, 0)
  {
    TheRunLeads();
    StolenIsWrong();
    steps := TheRun();
  }

  lemma StolenIsWrong()
    ensures Silent(STOLEN) && Active(STOLEN.nodes[0]) && Outranks(STOLEN, 1, 0)
  {
    assert "k" in STOLEN.nodes[0].keys && "k" in STOLEN.nodes[1].keys;
  }
}

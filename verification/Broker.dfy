/** broker.go: the broker and its clients as the objects they are. */
module Broker {
  import opened Wrappers
  import opened CipherFeedback
  import opened Fanout
  import Normalise
  import Hub

  type Message = seq<byte>

  class Client {
    const realm: string
    var send: seq<Message>
    var open: bool
    ghost var tap: Tap<Message>

    /** newClient: a fresh queue that no broker knows yet. */
    constructor (realm: string)
      ensures this.realm == realm && send == [] && open && Sound() && Listening(tap)
    {
      this.realm := realm;
      send, open := [], true;
      tap := Tap(0, [], 0, None, 0);
    }

    /** The queue holds what was put on it and not yet taken; it is closed when it has been closed. */
    ghost predicate Sound()
      reads this
    {
      tap.taken <= |tap.put| && send == tap.put[tap.taken..] && (open <==> tap.closes == 0)
    }

    /** The non-blocking send: queue the message, or close the queue when it is full. */
    method Offered(m: Message, ghost n: nat) returns (kept: bool)
      requires Sound() && open && Listening(tap)
      modifies this
      ensures Sound() && tap == Offer(old(tap), m, n)
      ensures kept == Listening(tap) == open
    {
      kept := |send| < CAPACITY;
      if kept {
        send := send + [m];
        tap := tap.(put := tap.put + [m]);
      } else {
        open := false;
        tap := tap.(until := Some(n), closes := tap.closes + 1);
      }
    }

    /** One pass of processWrites: the next queued message goes to the socket, or the writer ends,
        because the queue is closed and drained or because the socket takes no more. */
    method NextWrite(writable: bool) returns (written: Option<Message>, ends: bool)
      requires Sound()
      modifies this
      ensures Sound() && open == old(open)
      ensures old(send) != [] ==>
                && tap == old(tap).(taken := old(tap).taken + 1)
                && written == (if writable then Some(old(send)[0]) else None) && ends == !writable
      ensures old(send) == [] ==> written == None && ends == !open && tap == old(tap)
    {
      if send == [] {
        return None, !open;
      }
      var message := send[0];
      send := send[1..];
      tap := tap.(taken := tap.taken + 1);
      if !writable {
        return None, true;
      }
      return Some(message), false;
    }
  }

  class Broker {
    var clients: set<Client>
    var done: bool
    ghost var log: seq<Message>
    ghost var known: set<Client>

    constructor ()
      ensures Valid() && !done && known == {} && View() == NewBroker()
    {
      clients, done, log, known := {}, false, [], {};
      new;
      assert View() == NewBroker();
    }

    /** The map holds exactly the clients that were added and not dropped, and exactly those
        with an open queue. */
    ghost predicate Valid()
      reads this, known
    {
      && clients <= known
      && forall c :: c in known ==> Tracked(c)
    }

    ghost function View(): View<Client, Message>
      reads this, known
    {
      Fanout.View(log, map c | c in known :: c.tap)
    }

    method Add(c: Client)
      requires Valid() && c !in known && c.Sound() && c.send == [] && c.open
      modifies this, c`tap
      ensures Valid() && View() == Step(old(View()), Fanout.Add(c))
      ensures clients == old(clients) + {c} && known == old(known) + {c} && done == old(done)
    {
      c.tap := Tap(|log|, [], 0, None, 0);
      clients, known := clients + {c}, known + {c};
      assert View() == Step(old(View()), Fanout.Add(c));
    }

    method Remove(c: Client)
      requires Valid() && c in known
      modifies this, c
      ensures Valid() && View() == Step(old(View()), Fanout.Remove(c))
      ensures clients == old(clients) - {c} && known == old(known) && done == old(done)
    {
      assert old(View()).taps[c] == c.tap;
      if c in clients {
        clients := clients - {c};
        assert c.open;
        c.open := false;
        c.tap := c.tap.(until := Some(|log|), closes := c.tap.closes + 1);
      }
      assert View() == Step(old(View()), Fanout.Remove(c));
    }

    ghost predicate Tracked(c: Client)
      reads this, c
    {
      c.Sound() && (c in clients <==> Listening(c.tap)) && (c in clients <==> c.open)
    }

    /** The clients are visited in any order, and dropped from the map while it is walked. */
    method OfferAll(message: Message)
      requires Valid()
      modifies this`clients, clients
      ensures clients <= known && forall c :: c in known ==> Tracked(c) && c.tap == Offer(old(c.tap), message, |log|)
      ensures clients <= old(clients)
    {
      var todo := clients;
      while todo != {}
        invariant todo <= clients <= old(clients)
        invariant forall c :: c in known ==> Tracked(c)
        invariant forall c :: c in known ==>
                    c.tap == if c in todo then old(c.tap) else Offer(old(c.tap), message, |log|)
        decreases todo
      {
        var c :| c in todo;
        todo := todo - {c};
        assert Tracked(c);
        var kept := c.Offered(message, |log|);
        if !kept {
          clients := clients - {c};
        }
      }
    }

    method Broadcast(message: Message)
      requires Valid()
      modifies this, clients
      ensures Valid() && View() == Step(old(View()), Fanout.Send(message))
      ensures known == old(known) && done == old(done) && clients <= old(clients)
    {
      ghost var was := View();
      OfferAll(message);
      log := log + [message];
      assert View().taps == Step(was, Fanout.Send(message)).taps;
    }

    /** One pass of processReads: what a client wrote, normalised, goes to everyone. */
    method Read(raw: seq<byte>)
      requires Valid()
      modifies this, clients
      ensures Valid() && View() == Step(old(View()), Fanout.Send(Normalise.Normal(raw)))
    {
      Broadcast(Normalise.Normal(raw));
    }
  }

  /** The broker manager's loop state: the map of running brokers. */
  class Manager {
    var brokers: map<string, Broker>

    constructor ()
      ensures Valid() && brokers == map[]
    {
      brokers := map[];
    }

    /** Every client that a registered broker knows. */
    ghost function Clients(): set<Client>
      reads this, brokers.Values
    {
      set realm, c | realm in brokers && c in brokers[realm].known :: c
    }

    /** Each realm has a broker of its own, which knows clients of that realm only. */
    ghost predicate Valid()
      reads this, brokers.Values, Clients()
    {
      && (forall r, r' :: r in brokers && r' in brokers && r != r' ==> brokers[r] != brokers[r'])
      && (forall r :: r in brokers ==> brokers[r].Valid())
      && (forall r, c :: r in brokers && c in brokers[r].known ==> c.realm == r)
    }

    /** A realm without a broker gets one. */
    method Register(realm: string)
      requires Valid()
      modifies this
      ensures Valid() && realm in brokers
      ensures realm in old(brokers) ==> brokers == old(brokers)
      ensures realm !in old(brokers) ==>
                && fresh(brokers[realm]) && brokers == old(brokers)[realm := brokers[realm]]
                && !brokers[realm].done && brokers[realm].known == {} && brokers[realm].View() == NewBroker()
    {
      if realm !in brokers {
        var broker := new Broker();
        brokers := brokers[realm := broker];
      }
    }

    /** A client is handed to its realm's broker. */
    method Hand(c: Client)
      requires Valid() && c.Sound() && c.send == [] && c.open
      requires c.realm in brokers && c !in brokers[c.realm].known
      modifies brokers[c.realm], c`tap
      ensures Valid() && c in brokers[c.realm].clients && brokers[c.realm].done == old(brokers[c.realm].done)
      ensures brokers[c.realm].View() == Step(old(brokers[c.realm].View()), Fanout.Add(c))
      ensures forall r :: r in brokers && r != c.realm ==> brokers[r].View() == old(brokers[r].View())
    {
      brokers[c.realm].Add(c);
    }

    /** A client arrives: its realm's broker, made if there is none, takes it, and all the other
        brokers stay as they are. */
    method Accept(c: Client)
      requires Valid() && c.Sound() && c.send == [] && c.open
      requires c.realm in brokers ==> c !in brokers[c.realm].known
      modifies this, c`tap, if c.realm in brokers then {brokers[c.realm]} else {}
      ensures Valid() && c.realm in brokers && c in brokers[c.realm].clients
      ensures forall r :: r in old(brokers) && r != c.realm ==>
                r in brokers && brokers[r] == old(brokers)[r] && brokers[r].View() == old(brokers[r].View())
      ensures c.realm in old(brokers) ==>
                && brokers == old(brokers)
                && brokers[c.realm].View() == Step(old(brokers[c.realm].View()), Fanout.Add(c))
      ensures c.realm !in old(brokers) ==>
                && fresh(brokers[c.realm]) && !brokers[c.realm].done
                && brokers == old(brokers)[c.realm := brokers[c.realm]]
                && brokers[c.realm].View() == Step(NewBroker(), Fanout.Add(c))
    {
      Register(c.realm);
      Hand(c);
    }

    /** The ticker: brokers found without clients are stopped and forgotten, all the others kept. */
    method Tick()
      modifies this, brokers.Values`done
      ensures var empty := set b | b in old(brokers.Values) && b.clients == {};
              && brokers == Hub.Surviving(old(brokers), empty)
              && forall b :: b in old(brokers.Values) ==> b.done == (b in empty || old(b.done))
      ensures old(Valid()) ==> Valid()
    {
      Sweep();
    }

    method Sweep()
      modifies this, brokers.Values`done
      ensures var empty := set b | b in old(brokers.Values) && b.clients == {};
              && brokers == Hub.Surviving(old(brokers), empty)
              && forall b :: b in old(brokers.Values) ==> b.done == (b in empty || old(b.done))
    {
      ghost var empty := set b | b in brokers.Values && b.clients == {};
      var realms := brokers.Keys;
      while realms != {}
        invariant realms <= old(brokers.Keys)
        invariant brokers
                  == map realm | realm in old(brokers) && (realm in realms || old(brokers)[realm] !in empty)
                       :: old(brokers)[realm]
        invariant forall b :: b in old(brokers.Values) ==>
                    b.done == (old(b.done) || (b in empty && exists realm ::
                                 realm in old(brokers) && realm !in realms && old(brokers)[realm] == b))
        decreases realms
      {
        var realm :| realm in realms;
        realms := realms - {realm};
        var broker := brokers[realm];
        if |broker.clients| == 0 {
          broker.done := true;
          brokers := brokers - {realm};
        }
      }
    }
  }
}

/** What travels on the bus, seen symbolically: a body opens only with the key that
    sealed it.  Envelope.dfy proves the same delivery law of the concrete bytes. */
module Wire {
  import opened Wrappers

  type Id = nat
  type Key = string

  datatype Content =
    | Present(level: real)
    | RollCall
    | TestAuth
    | AuthValid(origin: Id)
    | RequestAuth
    | CopyData(data: string)
    | DataCopied(origin: Id)
    | OpenURL(url: string, isHtml: bool)
    | URLOpened(origin: Id)
    | Notification(noteId: string, text: string, noteLevel: real)
    | NotificationDisplayed(origin: Id, noteId: string, text: string, noteLevel: real, screenSaverOn: bool)
    | Trigger(name: string, success: bool)
    | Other(kind: string)

  datatype Packet = Packet(sender: Id, content: Content)

  datatype Body = Sealed(key: Key, packet: Packet) | Clear(packet: Packet)

  /** prepareMessage: tag with the sender, then one sealed body per key, or one clear body. */
  function Prepare(content: Content, keys: seq<Key>, id: Id): seq<Body>
  {
    if keys == [] then [Clear(Packet(id, content))]
    else seq(|keys|, n requires 0 <= n < |keys| => Sealed(keys[n], Packet(id, content)))
  }

  /** parseMessage: open with one of our keys, accept a clear body only for RequestAuth,
      and hide our own messages. */
  function Open(body: Body, keys: seq<Key>, id: Id): Option<Packet>
  {
    if body.Sealed? && body.key !in keys then None
    else if body.Clear? && body.packet.content != RequestAuth then None
    else if body.packet.sender == id then None
    else Some(body.packet)
  }

  ghost predicate ShareKey(a: seq<Key>, b: seq<Key>)
  {
    exists k :: k in a && k in b
  }

  /** What one receiver gets out of a list of bodies, in order. */
  function Heard(bodies: seq<Body>, keys: seq<Key>, id: Id): seq<Packet>
  {
    if bodies == [] then []
    else
      var rest := Heard(bodies[1..], keys, id);
      match Open(bodies[0], keys, id)
      case None => rest
      case Some(packet) => [packet] + rest
  }

  /** How many entries of `sending` the receiver also holds. */
  function SharedEntries(sending: seq<Key>, receiving: seq<Key>): nat
  {
    if sending == [] then 0
    else (if sending[0] in receiving then 1 else 0) + SharedEntries(sending[1..], receiving)
  }

  function Copies<T>(item: T, n: nat): seq<T>
  {
    seq(n, _ => item)
  }

  /** One delivery per shared key entry; in the clear, only RequestAuth; never to oneself. */
  lemma HeardOncePerSharedEntry(content: Content, sending: seq<Key>, sender: Id, receiving: seq<Key>, receiver: Id)
    ensures Heard(Prepare(content, sending, sender), receiving, receiver)
            == Copies(Packet(sender, content),
                      if sender == receiver then 0
                      else if sending != [] then SharedEntries(sending, receiving)
                      else if content == RequestAuth then 1 else 0)
  {
    if sending == [] {
      assert Prepare(content, sending, sender)[1..] == [];
    } else {
      HeardSealed(content, sending, sender, receiving, receiver);
    }
  }

  lemma {:induction false} HeardSealed(content: Content, sending: seq<Key>, sender: Id, receiving: seq<Key>,
                                       receiver: Id)
    requires sending != []
    ensures Heard(Prepare(content, sending, sender), receiving, receiver)
            == Copies(Packet(sender, content), if sender == receiver then 0 else SharedEntries(sending, receiving))
  {
    var bodies := Prepare(content, sending, sender);
    if |sending| == 1 {
      assert bodies[1..] == [] && sending[1..] == [];
    } else {
      HeardSealed(content, sending[1..], sender, receiving, receiver);
      assert bodies[1..] == Prepare(content, sending[1..], sender);
    }
  }

  /** Two nodes with a common key hear each other. */
  lemma SharedKeyIsHeard(content: Content, sending: seq<Key>, sender: Id, receiving: seq<Key>, receiver: Id)
    returns (n: nat)
    requires ShareKey(sending, receiving) && sender != receiver
    ensures n < |Prepare(content, sending, sender)|
    ensures Open(Prepare(content, sending, sender)[n], receiving, receiver) == Some(Packet(sender, content))
  {
    var k :| k in sending && k in receiving;
    n :| n < |sending| && sending[n] == k;
  }
}

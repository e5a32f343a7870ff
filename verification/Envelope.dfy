/** api/util.go: sealing a message for every key and opening what arrives, on the actual bytes. */
module Envelope {
  import opened Wrappers
  import opened CipherFeedback
  import opened Cfb
  import Base64Url
  import Normalise
  import Wire

  type Key = string

  /** The block cipher under each key, taken as given. */
  type Suite = Key -> Cipher

  datatype Value = Str(s: string) | Num(n: real) | Bool(b: bool)

  type Contents = map<string, Value>

  /** A JSON text is an object, or something else: a number, a list, a string. */
  datatype Json = Object(contents: Contents) | NoObject

  /** The JSON encoder and decoder, taken as given. */
  datatype Codec = Codec(marshal: Contents -> Option<seq<byte>>, unmarshal: seq<byte> -> Option<Json>)

  const BRACE: byte := 123

  /** The key lengths that the block cipher accepts. */
  predicate UsableKey(key: Key)
  {
    |key| == 16 || |key| == 24 || |key| == 32
  }

  // ----- one key -----

  function EncryptText(suite: Suite, key: Key, iv: seq<byte>, text: seq<byte>): Option<seq<byte>>
    requires |iv| == 16
  {
    if !UsableKey(key) then None
    else Some(Base64Url.Encode(iv + Seal(KeyStream(suite(key), iv), text)))
  }

  function DecryptText(suite: Suite, key: Key, body: seq<byte>): Option<seq<byte>>
  {
    var data := Base64Url.Decode(body);
    if !UsableKey(key) || |data| < 16 then None
    else Some(Unseal(KeyStream(suite(key), data[..16]), data[16..]))
  }

  /** Decrypting undoes encrypting, for every usable key, IV and text, and any block function. */
  lemma DecryptEncrypt(suite: Suite, key: Key, iv: seq<byte>, text: seq<byte>)
    requires |iv| == 16 && UsableKey(key)
    ensures DecryptText(suite, key, EncryptText(suite, key, iv, text).value) == Some(text)
  {
    var sealed := Seal(KeyStream(suite(key), iv), text);
    Base64Url.DecodeEncode(iv + sealed);
    assert (iv + sealed)[..16] == iv && (iv + sealed)[16..] == sealed;
    SealUnseal(KeyStream(suite(key), iv), text);
  }

  /** `data` starts with the IV, and has one more byte for each byte of the text.  Bit `k` of the one
      at place `r` of block `n` is that of the text, flipped if the block cipher gives a one there
      for the 16 bytes before the block. */
  ghost predicate IsCiphertext(e: Cipher, iv: seq<byte>, text: seq<byte>, data: seq<byte>, n: nat, r: nat, k: nat)
    requires |iv| == 16 && 16 * n + r < |text| && r < 16
  {
    && |data| == 16 + |text| && data[..16] == iv
    && var mask := e(data[16 * n..16 * n + 16]);
    |mask| == 16 ==> Bit(data[16 + 16 * n + r], k) == (Bit(text[16 * n + r], k) + Bit(mask[r], k)) % 2
  }

  /** What is sent, bit by bit: under the base64url is the IV with the CFB ciphertext for this key. */
  lemma EncryptedBit(suite: Suite, key: Key, iv: seq<byte>, text: seq<byte>, n: nat, r: nat, k: nat)
    requires |iv| == 16 && UsableKey(key) && 16 * n + r < |text| && r < 16 && k < 8
    ensures IsCiphertext(suite(key), iv, text, Base64Url.Decode(EncryptText(suite, key, iv, text).value), n, r, k)
  {
    EncryptedData(suite, key, iv, text);
    SealedBit(suite(key), iv, text, n, r, k);
  }

  lemma EncryptedData(suite: Suite, key: Key, iv: seq<byte>, text: seq<byte>)
    requires |iv| == 16 && UsableKey(key)
    ensures Base64Url.Decode(EncryptText(suite, key, iv, text).value) == iv + Seal(KeyStream(suite(key), iv), text)
  {
    Base64Url.DecodeEncode(iv + Seal(KeyStream(suite(key), iv), text));
  }

  lemma SealedBit(e: Cipher, iv: seq<byte>, text: seq<byte>, n: nat, r: nat, k: nat)
    requires |iv| == 16 && 16 * n + r < |text| && r < 16 && k < 8
    ensures IsCiphertext(e, iv, text, iv + Seal(KeyStream(e, iv), text), n, r, k)
  {
    var cipher := Seal(KeyStream(e, iv), text);
    SealedByte(e, iv, text, n, r);
    SummedBit(e, iv, text, cipher, n, r, k);
  }

  lemma SummedBit(e: Cipher, iv: seq<byte>, text: seq<byte>, cipher: seq<byte>, n: nat, r: nat, k: nat)
    requires |iv| == 16 && 16 * n + r < |text| && r < 16 && k < 8 && |cipher| == |text|
    requires cipher[16 * n + r] == Xor(text[16 * n + r], Block(e, (iv + cipher)[16 * n..16 * n + 16])[r])
    ensures IsCiphertext(e, iv, text, iv + cipher, n, r, k)
  {
    var data := iv + cipher;
    var mask := e(data[16 * n..16 * n + 16]);
    assert data[16 + 16 * n + r] == cipher[16 * n + r];
    if |mask| == 16 {
      SumAt(cipher[16 * n + r], text[16 * n + r], mask[r], k);
    }
  }

  /** One byte of the ciphertext, from the 16 bytes before its block. */
  lemma SealedByte(e: Cipher, iv: seq<byte>, text: seq<byte>, n: nat, r: nat)
    requires |iv| == 16 && 16 * n + r < |text| && r < 16
    ensures var cipher := Seal(KeyStream(e, iv), text);
            cipher[16 * n + r] == Xor(text[16 * n + r], Block(e, (iv + cipher)[16 * n..16 * n + 16])[r])
  {
    var stream := KeyStream(e, iv);
    var cipher := Seal(stream, text);
    var before := cipher[..16 * n + r];
    SealEncrypts(stream, text);
    assert stream(before) == KeyByte(e, iv, before);
    KeyByteInBlocks(e, iv, before, n, r);
    PreviousBlock(iv, cipher, n, r);
  }

  lemma PreviousBlock(iv: seq<byte>, cipher: seq<byte>, n: nat, r: nat)
    requires |iv| == 16 && 16 * n + r <= |cipher|
    ensures (iv + cipher)[16 * n..16 * n + 16] == if n == 0 then iv else cipher[..16 * n + r][16 * (n - 1)..16 * n]
  {
    var (all, before) := (iv + cipher, cipher[..16 * n + r]);
    if n == 0 {
      assert all[0..16] == iv;
    } else {
      var (a, b) := (all[16 * n..16 * n + 16], before[16 * (n - 1)..16 * n]);
      assert |a| == |b| == 16;
      forall t | 0 <= t < 16
        ensures a[t] == b[t]
      {
        assert a[t] == all[16 * n + t] == cipher[16 * n + t - 16];
      }
      assert a == b;
    }
  }

  /** An encrypted body is base64url text: it never starts with a brace, and the broker's
      normalisation leaves it alone. */
  lemma EncryptedShape(suite: Suite, key: Key, iv: seq<byte>, text: seq<byte>)
    requires |iv| == 16 && UsableKey(key)
    ensures var body := EncryptText(suite, key, iv, text).value;
            body != [] && body[0] != BRACE && Normalise.Normal(body) == body
  {
    Base64Url.EncodeAlphabet(iv + Seal(KeyStream(suite(key), iv), text));
    Normalise.EncodedPasses(EncryptText(suite, key, iv, text).value);
  }

  method Encrypt(suite: Suite, key: Key, iv: seq<byte>, text: seq<byte>) returns (r: Option<seq<byte>>)
    requires |iv| == 16
    ensures r == EncryptText(suite, key, iv, text)
    ensures r.None? <==> |key| !in {16, 24, 32}
  {
    if !UsableKey(key) {
      return None;
    }
    var n := |text|;
    var plaintext := new byte[n](i requires 0 <= i < n => text[i]);
    var ciphertext := new byte[16 + n](i requires 0 <= i < 16 + n => if i < 16 then iv[i] else 0);
    assert plaintext[0..n] == text;
    assert ciphertext[..16] == iv;
    XorKeyStream(suite(key), iv, false, ciphertext, 16, plaintext, 0, n);
    assert ciphertext[..] == ciphertext[..16] + ciphertext[16..16 + n];
    r := Some(Base64Url.Encode(ciphertext[..]));
  }

  method Decrypt(suite: Suite, key: Key, body: seq<byte>) returns (r: Option<seq<byte>>)
    ensures r == DecryptText(suite, key, body)
    ensures r.None? <==> |key| !in {16, 24, 32} || |Base64Url.Decode(body)| < 16
  {
    var data := Base64Url.Decode(body);
    if !UsableKey(key) || |data| < 16 {
      return None;
    }
    var ciphertext := new byte[|data|](i requires 0 <= i < |data| => data[i]);
    var n := |data| - 16;
    assert ciphertext[16..16 + n] == data[16..];
    XorKeyStream(suite(key), data[..16], true, ciphertext, 16, ciphertext, 16, n);
    assert ciphertext[16..] == ciphertext[16..16 + n];
    r := Some(ciphertext[16..]);
  }

  // ----- sending -----

  class Message {
    var contents: Contents

    constructor (contents: Contents)
      ensures this.contents == contents
    {
      this.contents := contents;
    }
  }

  /** What the sender's machine adds to a message. */
  datatype Origin = Origin(id: string, hostname: string, ip: string, sent: string)

  function Stamp(contents: Contents, origin: Origin): Contents
  {
    var tagged := contents["id" := Str(origin.id)];
    tagged["hostname" := Str(origin.hostname)]["ip" := Str(origin.ip)]["sent" := Str(origin.sent)]
  }

  function Field(contents: Contents, field: string): Option<Value>
  {
    if field in contents then Some(contents[field]) else None
  }

  /** One sealed body for each usable key, in order; `ivs` are the random IVs drawn. */
  function Bodies(suite: Suite, keys: seq<Key>, ivs: seq<seq<byte>>, text: seq<byte>): seq<seq<byte>>
    requires |ivs| == |keys| && forall i :: 0 <= i < |ivs| ==> |ivs[i]| == 16
  {
    if keys == [] then []
    else
      var rest := Bodies(suite, keys[1..], ivs[1..], text);
      match EncryptText(suite, keys[0], ivs[0], text)
      case None => rest
      case Some(body) => [body] + rest
  }

  function Prepared(suite: Suite, codec: Codec, contents: Contents, keys: seq<Key>,
                    ivs: seq<seq<byte>>): Option<seq<seq<byte>>>
    requires |ivs| == |keys| && forall i :: 0 <= i < |ivs| ==> |ivs[i]| == 16
  {
    match codec.marshal(contents)
    case None => None
    case Some(json) => Some(if keys == [] then [json] else Bodies(suite, keys, ivs, json))
  }

  lemma {:induction false} BodiesSnoc(suite: Suite, keys: seq<Key>, ivs: seq<seq<byte>>, text: seq<byte>, n: nat)
    requires |ivs| == |keys| && forall i :: 0 <= i < |ivs| ==> |ivs[i]| == 16
    requires n < |keys|
    ensures Bodies(suite, keys[..n+1], ivs[..n+1], text)
            == Bodies(suite, keys[..n], ivs[..n], text)
               + (match EncryptText(suite, keys[n], ivs[n], text) case None => [] case Some(body) => [body])
  {
    var (ks, vs) := (keys[..n+1], ivs[..n+1]);
    if n == 0 {
      assert ks[1..] == [] && vs[1..] == [];
    } else {
      BodiesSnoc(suite, keys[1..], ivs[1..], text, n - 1);
      assert ks[1..] == keys[1..][..n] && vs[1..] == ivs[1..][..n];
      assert keys[..n][1..] == keys[1..][..n-1] && ivs[..n][1..] == ivs[1..][..n-1];
    }
  }

  method PrepareMessage(suite: Suite, codec: Codec, message: Message, keys: seq<Key>, origin: Origin,
                        ivs: seq<seq<byte>>)
    returns (r: Option<seq<seq<byte>>>)
    requires |ivs| == |keys| && forall i :: 0 <= i < |ivs| ==> |ivs[i]| == 16
    modifies message
    ensures message.contents == Stamp(old(message.contents), origin)
    ensures forall field ::
              Field(message.contents, field)
              == if field == "id" then Some(Str(origin.id))
                 else if field == "hostname" then Some(Str(origin.hostname))
                 else if field == "ip" then Some(Str(origin.ip))
                 else if field == "sent" then Some(Str(origin.sent))
                 else Field(old(message.contents), field)
    ensures r == Prepared(suite, codec, message.contents, keys, ivs)
  {
    message.contents := message.contents["id" := Str(origin.id)];
    message.contents := message.contents["hostname" := Str(origin.hostname)];
    message.contents := message.contents["ip" := Str(origin.ip)];
    message.contents := message.contents["sent" := Str(origin.sent)];
    var json := codec.marshal(message.contents);
    if json.None? {
      return None;
    }
    var bodies: seq<seq<byte>> := [];
    if |keys| > 0 {
      for i := 0 to |keys|
        invariant message.contents == Stamp(old(message.contents), origin)
        invariant bodies == Bodies(suite, keys[..i], ivs[..i], json.value)
      {
        BodiesSnoc(suite, keys, ivs, json.value, i);
        var encrypted := Encrypt(suite, keys[i], ivs[i], json.value);
        if encrypted.None? {
          continue;
        }
        bodies := bodies + [encrypted.value];
      }
      assert keys[..|keys|] == keys && ivs[..|ivs|] == ivs;
    } else {
      bodies := [json.value];
    }
    r := Some(bodies);
  }

  // ----- receiving -----

  datatype Plain = Plain(text: seq<byte>, json: Json)

  datatype Outcome = Delivered(plain: Plain) | Dropped | Panicked

  /** Open a body with one key: it must decrypt, and decrypt to JSON. */
  function ReadWith(suite: Suite, codec: Codec, key: Key, body: seq<byte>): Option<Plain>
  {
    match DecryptText(suite, key, body)
    case None => None
    case Some(text) =>
      match codec.unmarshal(text)
      case None => None
      case Some(json) => Some(Plain(text, json))
  }

  /** The keys are tried in order; the first that opens the body wins. */
  function FirstRead(suite: Suite, codec: Codec, keys: seq<Key>, body: seq<byte>): Option<Plain>
  {
    if keys == [] then None
    else
      match ReadWith(suite, codec, keys[0], body)
      case Some(plain) => Some(plain)
      case None => FirstRead(suite, codec, keys[1..], body)
  }

  predicate IsText(contents: Contents, field: string)
  {
    field in contents && contents[field].Str?
  }

  predicate HasText(json: Json, field: string)
  {
    json.Object? && IsText(json.contents, field)
  }

  /** What happens once the body is plain: the clear is for RequestAuth alone, and our own
      messages are hidden.  What is no object, or lacks a field, panics, as the type assertions do. */
  function Accept(plain: Plain, wasEncrypted: bool, id: string): Outcome
  {
    if !HasText(plain.json, "id") then Panicked
    else if !wasEncrypted && !HasText(plain.json, "type") then Panicked
    else if !wasEncrypted && plain.json.contents["type"].s != "RequestAuth" then Dropped
    else if plain.json.contents["id"].s != id then Delivered(plain)
    else Dropped
  }

  function Parsed(suite: Suite, codec: Codec, body: seq<byte>, keys: seq<Key>, id: string): Outcome
  {
    if body == [] then Panicked
    else if body[0] != BRACE then
      match FirstRead(suite, codec, keys, body)
      case None => Dropped
      case Some(plain) => Accept(plain, true, id)
    else
      match codec.unmarshal(body)
      case None => Dropped
      case Some(json) => Accept(Plain(body, json), false, id)
  }

  /** The keys are tried in order: what is read is what the first key that opens the body reads. */
  lemma {:induction false} FirstReadIsFirst(suite: Suite, codec: Codec, keys: seq<Key>, body: seq<byte>, plain: Plain)
    ensures FirstRead(suite, codec, keys, body) == Some(plain)
            <==> exists i :: OpensFirst(suite, codec, keys, body, i, plain)
    decreases |keys|
  {
    if keys != [] {
      var rest := keys[1..];
      FirstReadIsFirst(suite, codec, rest, body, plain);
      if ReadWith(suite, codec, keys[0], body).None? {
        if i :| OpensFirst(suite, codec, rest, body, i, plain) {
          forall k | 0 <= k < i + 1
            ensures ReadWith(suite, codec, keys[k], body).None?
          {
            assert k > 0 ==> keys[k] == rest[k - 1];
          }
          assert OpensFirst(suite, codec, keys, body, i + 1, plain);
        }
        if i :| OpensFirst(suite, codec, keys, body, i, plain) {
          assert forall k :: 0 <= k < i - 1 ==> rest[k] == keys[k + 1];
          assert OpensFirst(suite, codec, rest, body, i - 1, plain);
        }
      } else {
        assert ReadWith(suite, codec, keys[0], body) == Some(plain) ==> OpensFirst(suite, codec, keys, body, 0, plain);
      }
    }
  }

  ghost predicate OpensFirst(suite: Suite, codec: Codec, keys: seq<Key>, body: seq<byte>, i: int, plain: Plain)
  {
    && 0 <= i < |keys| && ReadWith(suite, codec, keys[i], body) == Some(plain)
    && forall k :: 0 <= k < i ==> ReadWith(suite, codec, keys[k], body).None?
  }

  /** The body reads as this: sealed, by the first key that opens it; or in the clear, as JSON. */
  ghost predicate ReadsAs(suite: Suite, codec: Codec, keys: seq<Key>, body: seq<byte>, plain: Plain, sealed: bool)
  {
    && body != [] && (sealed <==> body[0] != BRACE)
    && (if sealed then exists i :: OpensFirst(suite, codec, keys, body, i, plain)
        else plain.text == body && codec.unmarshal(body) == Some(plain.json))
  }

  ghost predicate Malformed(plain: Plain, sealed: bool)
  {
    !HasText(plain.json, "id") || (!sealed && !HasText(plain.json, "type"))
  }

  /** Exactly what is delivered, and exactly what panics; the rest is dropped. */
  lemma ParsedExactly(suite: Suite, codec: Codec, keys: seq<Key>, body: seq<byte>, id: string, plain: Plain)
    ensures Parsed(suite, codec, body, keys, id) == Delivered(plain)
            <==> exists sealed ::
                   && ReadsAs(suite, codec, keys, body, plain, sealed) && !Malformed(plain, sealed)
                   && (sealed || plain.json.contents["type"] == Str("RequestAuth"))
                   && plain.json.contents["id"] != Str(id)
    ensures Parsed(suite, codec, body, keys, id).Panicked?
            <==> body == [] || exists p, sealed :: ReadsAs(suite, codec, keys, body, p, sealed) && Malformed(p, sealed)
  {
    if body != [] {
      var sealed := body[0] != BRACE;
      forall p
        ensures sealed ==>
                  (FirstRead(suite, codec, keys, body) == Some(p) <==> ReadsAs(suite, codec, keys, body, p, true))
      {
        FirstReadIsFirst(suite, codec, keys, body, p);
      }
      if !sealed && codec.unmarshal(body).Some? {
        assert ReadsAs(suite, codec, keys, body, Plain(body, codec.unmarshal(body).value), false);
      }
      if sealed && FirstRead(suite, codec, keys, body).Some? {
        assert ReadsAs(suite, codec, keys, body, FirstRead(suite, codec, keys, body).value, true);
      }
    }
  }

  /** The connection's In channel. */
  class Inbox {
    var queue: seq<Plain>

    constructor ()
      ensures queue == []
    {
      queue := [];
    }
  }

  method ParseMessage(suite: Suite, codec: Codec, body: seq<byte>, keys: seq<Key>, inbox: Inbox,
                      id: string) returns (panicked: bool)
    modifies inbox
    ensures panicked <==> Parsed(suite, codec, body, keys, id).Panicked?
    ensures inbox.queue == old(inbox.queue)
              + (match Parsed(suite, codec, body, keys, id) case Delivered(plain) => [plain] case _ => [])
  {
    if body == [] {
      return true;
    }
    var message: seq<byte> := [];
    var rawData := NoObject;
    var messageWasEncrypted := false;
    if body[0] != BRACE {
      var decryptedOk := false;
      var i := 0;
      while i < |keys| && !decryptedOk
        invariant i <= |keys| && inbox.queue == old(inbox.queue)
        invariant !decryptedOk ==> FirstRead(suite, codec, keys[i..], body) == FirstRead(suite, codec, keys, body)
        invariant decryptedOk ==> FirstRead(suite, codec, keys, body) == Some(Plain(message, rawData))
        decreases |keys| - i, !decryptedOk
      {
        var decrypted := Decrypt(suite, keys[i], body);
        if decrypted.Some? {
          var rd := codec.unmarshal(decrypted.value);
          if rd.Some? {
            decryptedOk := true;
            message, rawData := decrypted.value, rd.value;
          }
        }
        i := i + 1;
      }
      if !decryptedOk {
        return false;
      }
      messageWasEncrypted := true;
    } else {
      message := body;
      var rd := codec.unmarshal(message);
      if rd.None? {
        return false;
      }
      rawData := rd.value;
    }
    if !rawData.Object? {
      return true;
    }
    var data := rawData.contents;
    if !IsText(data, "id") {
      return true;
    }
    if !messageWasEncrypted {
      if !IsText(data, "type") {
        return true;
      }
      if data["type"].s != "RequestAuth" {
        return false;
      }
    }
    if data["id"].s != id {
      inbox.queue := inbox.queue + [Plain(message, rawData)];
    }
    return false;
  }

  // ----- from sender to receiver -----

  /** What one receiver gets out of a list of bodies, in order. */
  function Received(suite: Suite, codec: Codec, bodies: seq<seq<byte>>, keys: seq<Key>, id: string): seq<Plain>
  {
    if bodies == [] then []
    else
      var rest := Received(suite, codec, bodies[1..], keys, id);
      match Parsed(suite, codec, bodies[0], keys, id)
      case Delivered(plain) => [plain] + rest
      case _ => rest
  }

  /** The encoder's text reads back as what was encoded, and is an object from brace to brace on one line. */
  ghost predicate Faithful(codec: Codec, contents: Contents)
  {
    match codec.marshal(contents)
    case None => true
    case Some(json) =>
      && codec.unmarshal(json) == Some(Object(contents))
      && json != [] && json[0] == BRACE && json[|json| - 1] == 125 && 10 !in json
  }

  /** Decrypting with another key never yields JSON. */
  ghost predicate NoCrossRead(suite: Suite, codec: Codec, sending: seq<Key>, receiving: seq<Key>, iv: seq<byte>,
                              text: seq<byte>)
    requires |iv| == 16
  {
    forall k, k' :: k in sending && k' in receiving && k != k' && UsableKey(k)
      ==> ReadWith(suite, codec, k', EncryptText(suite, k, iv, text).value).None?
  }

  /** With the one key that opens the body among its keys, a receiver reads it, whatever comes before. */
  lemma {:induction false} FirstReadFinds(suite: Suite, codec: Codec, key: Key, body: seq<byte>, plain: Plain,
                                          keys: seq<Key>)
    requires ReadWith(suite, codec, key, body) == Some(plain)
    requires forall k' :: k' in keys && k' != key ==> ReadWith(suite, codec, k', body).None?
    ensures FirstRead(suite, codec, keys, body) == if key in keys then Some(plain) else None
  {
    if keys != [] {
      FirstReadFinds(suite, codec, key, body, plain, keys[1..]);
      assert keys[0] in keys;
    }
  }

  lemma ReadsIfHeld(suite: Suite, codec: Codec, key: Key, iv: seq<byte>, plain: Plain, keys: seq<Key>)
    requires |iv| == 16 && UsableKey(key) && codec.unmarshal(plain.text) == Some(plain.json)
    requires NoCrossRead(suite, codec, [key], keys, iv, plain.text)
    ensures FirstRead(suite, codec, keys, EncryptText(suite, key, iv, plain.text).value)
            == if key in keys then Some(plain) else None
  {
    DecryptEncrypt(suite, key, iv, plain.text);
    FirstReadFinds(suite, codec, key, EncryptText(suite, key, iv, plain.text).value, plain, keys);
  }

  lemma SealedIsParsed(suite: Suite, codec: Codec, key: Key, iv: seq<byte>, plain: Plain, keys: seq<Key>, id: string)
    requires |iv| == 16 && UsableKey(key) && codec.unmarshal(plain.text) == Some(plain.json)
    requires HasText(plain.json, "id")
    requires NoCrossRead(suite, codec, [key], keys, iv, plain.text)
    ensures Parsed(suite, codec, EncryptText(suite, key, iv, plain.text).value, keys, id)
            == if key in keys && plain.json.contents["id"].s != id then Delivered(plain) else Dropped
  {
    EncryptedShape(suite, key, iv, plain.text);
    ReadsIfHeld(suite, codec, key, iv, plain, keys);
  }

  function UsableKeys(keys: seq<Key>): seq<Key>
  {
    if keys == [] then [] else (if UsableKey(keys[0]) then [keys[0]] else []) + UsableKeys(keys[1..])
  }

  ghost predicate NoCrossReads(suite: Suite, codec: Codec, sending: seq<Key>, receiving: seq<Key>,
                               ivs: seq<seq<byte>>, text: seq<byte>)
    requires |ivs| == |sending| && forall i :: 0 <= i < |ivs| ==> |ivs[i]| == 16
  {
    forall i :: 0 <= i < |ivs| ==> NoCrossRead(suite, codec, sending, receiving, ivs[i], text)
  }

  lemma NoCrossReadsTail(suite: Suite, codec: Codec, sending: seq<Key>, receiving: seq<Key>, ivs: seq<seq<byte>>,
                         text: seq<byte>)
    requires |ivs| == |sending| && forall i :: 0 <= i < |ivs| ==> |ivs[i]| == 16
    requires NoCrossReads(suite, codec, sending, receiving, ivs, text) && sending != []
    ensures NoCrossRead(suite, codec, [sending[0]], receiving, ivs[0], text)
    ensures NoCrossReads(suite, codec, sending[1..], receiving, ivs[1..], text)
  {
    assert NoCrossRead(suite, codec, sending, receiving, ivs[0], text);
    forall i | 0 <= i < |ivs[1..]|
      ensures NoCrossRead(suite, codec, sending[1..], receiving, ivs[1..][i], text)
    {
      assert NoCrossRead(suite, codec, sending, receiving, ivs[i + 1], text);
    }
  }

  /** The body made for the first key adds one delivery if the receiver holds that key. */
  lemma FirstBodyIsParsed(suite: Suite, codec: Codec, sending: seq<Key>, ivs: seq<seq<byte>>, plain: Plain,
                          receiving: seq<Key>, id: string)
    requires |ivs| == |sending| && forall i :: 0 <= i < |ivs| ==> |ivs[i]| == 16
    requires codec.unmarshal(plain.text) == Some(plain.json) && HasText(plain.json, "id") && sending != []
    requires NoCrossRead(suite, codec, [sending[0]], receiving, ivs[0], plain.text)
    ensures Received(suite, codec, Bodies(suite, sending, ivs, plain.text), receiving, id)
            == (if UsableKey(sending[0]) && sending[0] in receiving && plain.json.contents["id"].s != id then [plain]
                else [])
               + Received(suite, codec, Bodies(suite, sending[1..], ivs[1..], plain.text), receiving, id)
  {
    if UsableKey(sending[0]) {
      SealedIsParsed(suite, codec, sending[0], ivs[0], plain, receiving, id);
      assert Bodies(suite, sending, ivs, plain.text)[1..] == Bodies(suite, sending[1..], ivs[1..], plain.text);
    }
  }

  lemma UsableEntry(sending: seq<Key>, receiving: seq<Key>)
    requires sending != []
    ensures Wire.SharedEntries(UsableKeys(sending), receiving)
            == (if UsableKey(sending[0]) && sending[0] in receiving then 1 else 0)
               + Wire.SharedEntries(UsableKeys(sending[1..]), receiving)
  {
    if UsableKey(sending[0]) {
      assert UsableKeys(sending)[1..] == UsableKeys(sending[1..]);
    } else {
      assert UsableKeys(sending) == UsableKeys(sending[1..]);
    }
  }

  lemma OneMoreCopy(plain: Plain, n: nat)
    ensures [plain] + Wire.Copies(plain, n) == Wire.Copies(plain, n + 1)
    ensures [] + Wire.Copies(plain, n) == Wire.Copies(plain, n)
  {
  }

  lemma {:induction false} SealedOncePerKey(suite: Suite, codec: Codec, sending: seq<Key>, ivs: seq<seq<byte>>,
                                            plain: Plain,
                                            receiving: seq<Key>, id: string)
    requires |ivs| == |sending| && forall i :: 0 <= i < |ivs| ==> |ivs[i]| == 16
    requires codec.unmarshal(plain.text) == Some(plain.json) && HasText(plain.json, "id")
    requires NoCrossReads(suite, codec, sending, receiving, ivs, plain.text)
    ensures Received(suite, codec, Bodies(suite, sending, ivs, plain.text), receiving, id)
            == Wire.Copies(plain, if plain.json.contents["id"].s == id then 0
                                  else Wire.SharedEntries(UsableKeys(sending), receiving))
  {
    if sending != [] {
      NoCrossReadsTail(suite, codec, sending, receiving, ivs, plain.text);
      SealedOncePerKey(suite, codec, sending[1..], ivs[1..], plain, receiving, id);
      FirstBodyIsParsed(suite, codec, sending, ivs, plain, receiving, id);
      UsableEntry(sending, receiving);
      OneMoreCopy(plain, Wire.SharedEntries(UsableKeys(sending[1..]), receiving));
    }
  }

  /** Sent with keys `sending` and received with keys `receiving`, a stamped message arrives once
      for each usable entry of `sending` that the receiver holds.  In the clear it arrives only
      if it is RequestAuth, and it never arrives back at its sender. */
  lemma DeliveredOncePerSharedKey(suite: Suite, codec: Codec, contents: Contents, origin: Origin, sending: seq<Key>,
                                  ivs: seq<seq<byte>>, receiving: seq<Key>, id: string)
    requires |ivs| == |sending| && forall i :: 0 <= i < |ivs| ==> |ivs[i]| == 16
    requires IsText(contents, "type")
    requires var stamped := Stamp(contents, origin);
             && Faithful(codec, stamped) && codec.marshal(stamped).Some?
             && NoCrossReads(suite, codec, sending, receiving, ivs, codec.marshal(stamped).value)
    ensures var stamped := Stamp(contents, origin);
            var bodies := Prepared(suite, codec, stamped, sending, ivs).value;
            Received(suite, codec, bodies, receiving, id)
            == Wire.Copies(Plain(codec.marshal(stamped).value, Object(stamped)),
                           if origin.id == id then 0
                           else if sending != [] then Wire.SharedEntries(UsableKeys(sending), receiving)
                           else if contents["type"] == Str("RequestAuth") then 1 else 0)
  {
    var stamped := Stamp(contents, origin);
    var plain := Plain(codec.marshal(stamped).value, Object(stamped));
    if sending == [] {
      var bodies := [plain.text];
      assert bodies[1..] == [];
      assert Parsed(suite, codec, plain.text, receiving, id) == Accept(plain, false, id);
    } else {
      SealedOncePerKey(suite, codec, sending, ivs, plain, receiving, id);
    }
  }

  /** Every body that is sent passes the broker's normalisation unchanged. */
  lemma {:induction false} BodiesPassTheBroker(suite: Suite, keys: seq<Key>, ivs: seq<seq<byte>>, text: seq<byte>,
                                               body: seq<byte>)
    requires |ivs| == |keys| && forall i :: 0 <= i < |ivs| ==> |ivs[i]| == 16
    requires body in Bodies(suite, keys, ivs, text)
    ensures Normalise.Normal(body) == body && body != [] && body[0] != BRACE
  {
    if UsableKey(keys[0]) {
      EncryptedShape(suite, keys[0], ivs[0], text);
      if body != EncryptText(suite, keys[0], ivs[0], text).value {
        BodiesPassTheBroker(suite, keys[1..], ivs[1..], text, body);
      }
    } else {
      BodiesPassTheBroker(suite, keys[1..], ivs[1..], text, body);
    }
  }

  lemma PreparedPassesTheBroker(suite: Suite, codec: Codec, contents: Contents, keys: seq<Key>, ivs: seq<seq<byte>>,
                                body: seq<byte>)
    requires |ivs| == |keys| && forall i :: 0 <= i < |ivs| ==> |ivs[i]| == 16
    requires Faithful(codec, contents) && codec.marshal(contents).Some?
    requires body in Prepared(suite, codec, contents, keys, ivs).value
    ensures Normalise.Normal(body) == body && body != [] && (body[0] == BRACE <==> keys == [])
  {
    if keys == [] {
      Normalise.VisibleEndsPass(body);
    } else {
      BodiesPassTheBroker(suite, keys, ivs, codec.marshal(contents).value, body);
    }
  }
}

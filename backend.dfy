/**
 * The collaborators every protocol adapter talks to: the retained store
 * (`persistence`), the publish/subscribe broker, the gateway's `updated`
 * event stream, and the response streams the adapters write to.
 *
 * Their internals (mosca, ascoltatori, topic wildcards, QoS) are not modelled:
 * the store is a map from topic to its last packet, the broker keeps its
 * subscriptions and delivers a publish to every response subscribed to
 * exactly that topic.
 */
module Backend {
  import opened Wrappers

  newtype byte = x: int | 0 <= x < 256

  type Payload = seq<byte>
  type Topic = string

  /** A retained record as the adapters build it: `{ topic, payload, retain }`. */
  datatype Packet = Packet(topic: Topic, payload: Payload, retain: bool)

  /** A `(topic, payload)` pair: a publish, or an `updated` event. */
  datatype Message = Message(topic: Topic, payload: Payload)

  /** `Buffer.concat` of the chunks a request body arrived in. */
  function Concat(chunks: seq<Payload>): Payload
  {
    if chunks == [] then [] else chunks[0] + Concat(chunks[1..])
  }

  /** Buffering chunk by chunk and concatenating at the end gives the same
      bytes as concatenating the two halves of the body separately. */
  lemma {:induction false} ConcatAppend(a: seq<Payload>, b: seq<Payload>)
    ensures Concat(a + b) == Concat(a) + Concat(b)
  {
    if a == [] {
      assert a + b == b;
    } else {
      assert (a + b)[1..] == a[1..] + b;
      ConcatAppend(a[1..], b);
    }
  }

  /** The bytes Node's `res.end(string)` sends for a string literal: one
      byte per character, the low byte of its code, which is its UTF-8
      encoding for the ASCII characters the gateway's literals use. */
  function Ascii(s: string): (r: Payload)
    ensures |r| == |s|
    ensures forall i :: 0 <= i < |s| ==> r[i] as int == s[i] as int % 256
  {
    if s == [] then [] else [(s[0] as int % 256) as byte] + Ascii(s[1..])
  }

  /**
   * An outgoing response stream, CoAP's `OutgoingMessage` or Node's
   * `ServerResponse`: a status code (a string such as "2.05" for CoAP, a
   * number for HTTP), response options or headers, the chunks written so
   * far, whether it has ended, and the unsubscribe listener that a CoAP
   * observation registers on its `finish` event.
   */
  class Response<C(==)> {
    var code: C
    var headers: map<string, string>
    var chunks: seq<Payload>
    var ended: bool
    var onFinish: Option<Sub>

    /** A new response, with the library's default status code. */
    constructor (defaultCode: C)
      ensures code == defaultCode && headers == map[] && chunks == []
      ensures !ended && onFinish == None
    {
      code := defaultCode;
      headers := map[];
      chunks := [];
      ended := false;
      onFinish := None;
    }

    /** A response nobody has written to yet. */
    predicate Pristine(defaultCode: C)
      reads this
    {
      code == defaultCode && headers == map[] && chunks == [] && !ended && onFinish == None
    }

    /** `res.statusCode = c`. */
    method SetCode(c: C)
      modifies this`code
      ensures code == c
    {
      code := c;
    }

    /** `res.setOption(name, value)` (CoAP) or `res.setHeader(name, value)` (HTTP). */
    method SetHeader(name: string, value: string)
      modifies this`headers
      ensures headers == old(headers)[name := value]
    {
      headers := headers[name := value];
    }

    /** `res.write(p)`: a stream that has ended takes no more data. */
    method Write(p: Payload)
      modifies this`chunks
      ensures chunks == if ended then old(chunks) else old(chunks) + [p]
    {
      if !ended {
        chunks := chunks + [p];
      }
    }

    /** `res.end(p)`: writes the last chunk and ends the stream. */
    method EndWith(p: Payload)
      modifies this`chunks, this`ended
      ensures ended
      ensures chunks == if old(ended) then old(chunks) else old(chunks) + [p]
    {
      if !ended {
        chunks := chunks + [p];
        ended := true;
      }
    }

    /** `res.end()`. */
    method End()
      modifies this`ended
      ensures ended
    {
      ended := true;
    }
  }

  /** A broker subscription `(topic, cb)`: the callback a CoAP observation
      subscribes writes each payload to one response, so it is identified
      by that response. */
  datatype Sub = Sub(topic: Topic, res: Response<string>)

  /** The subscriptions left after `unsubscribe(x.topic, x.res)`. */
  function Without(s: seq<Sub>, x: Sub): (r: seq<Sub>)
    ensures forall i :: 0 <= i < |r| ==> r[i] in s && r[i] != x
    ensures forall i :: 0 <= i < |s| && s[i] != x ==> s[i] in r
    ensures |r| <= |s|
  {
    if s == [] then [] else (if s[0] == x then [] else [s[0]]) + Without(s[1..], x)
  }

  /** Unsubscribing twice leaves what unsubscribing once left. */
  lemma {:induction false} WithoutIdempotent(s: seq<Sub>, x: Sub)
    ensures Without(Without(s, x), x) == Without(s, x)
  {
    if s != [] {
      var rest := Without(s[1..], x);
      WithoutIdempotent(s[1..], x);
      if s[0] != x {
        var r := [s[0]] + rest;
        assert Without(s, x) == r;
        assert r[1..] == rest;
        assert Without(r, x) == [s[0]] + Without(rest, x);
      } else {
        assert Without(s, x) == [] + rest == rest;
      }
    }
  }

  /** Removing a subscription that is not there changes nothing. */
  lemma {:induction false} WithoutAbsent(s: seq<Sub>, x: Sub)
    requires x !in s
    ensures Without(s, x) == s
  {
    if s != [] {
      assert s[1..] + [] == s[1..];
      WithoutAbsent(s[1..], x);
      assert s == [s[0]] + s[1..];
    }
  }

  /** Unsubscribing a callback removes exactly the subscription that
      subscribing it added, and unsubscribing it again removes nothing more. */
  lemma {:induction false} UnsubscribeUndoesSubscribe(s: seq<Sub>, x: Sub)
    requires x !in s
    ensures Without(s + [x], x) == s
    ensures Without(Without(s + [x], x), x) == s
  {
    if s == [] {
      assert [] + [x] == [x];
      assert Without([x], x) == [] + Without([], x);
    } else {
      assert (s + [x])[1..] == s[1..] + [x];
      UnsubscribeUndoesSubscribe(s[1..], x);
      assert Without(s + [x], x) == [s[0]] + s[1..];
      assert s == [s[0]] + s[1..];
    }
    WithoutAbsent(s, x);
  }

  /** No response is subscribed twice. */
  ghost predicate DistinctResponses(s: seq<Sub>)
  {
    forall i, j :: 0 <= i < j < |s| ==> s[i].res != s[j].res
  }

  /** Unsubscribing keeps the responses distinct. */
  lemma {:induction false} WithoutKeepsDistinct(s: seq<Sub>, x: Sub)
    requires DistinctResponses(s)
    ensures DistinctResponses(Without(s, x))
  {
    if s != [] {
      DistinctTail(s);
      WithoutKeepsDistinct(s[1..], x);
      if s[0] != x {
        var rest := Without(s[1..], x);
        forall k | 0 <= k < |rest| ensures rest[k].res != s[0].res {
          HeadNotInTail(s, rest[k]);
        }
        DistinctCons(s[0], rest);
        assert Without(s, x) == [s[0]] + rest;
      }
    }
  }

  lemma DistinctTail(s: seq<Sub>)
    requires s != [] && DistinctResponses(s)
    ensures DistinctResponses(s[1..])
  {
    forall i, j | 0 <= i < j < |s[1..]| ensures s[1..][i].res != s[1..][j].res {
      assert s[1..][i] == s[i + 1] && s[1..][j] == s[j + 1];
    }
  }

  lemma HeadNotInTail(s: seq<Sub>, y: Sub)
    requires s != [] && DistinctResponses(s)
    requires y in s[1..]
    ensures y.res != s[0].res
  {
    var j :| 0 <= j < |s[1..]| && s[1..][j] == y;
    assert s[j + 1] == y;
  }

  lemma DistinctCons(a: Sub, rest: seq<Sub>)
    requires DistinctResponses(rest)
    requires forall k :: 0 <= k < |rest| ==> rest[k].res != a.res
    ensures DistinctResponses([a] + rest)
  {
    var r := [a] + rest;
    forall i, j | 0 <= i < j < |r| ensures r[i].res != r[j].res {
      assert r[j] == rest[j - 1];
      if i > 0 {
        assert r[i] == rest[i - 1];
      }
    }
  }

  /** The retained store: the last packet stored for each topic. */
  class Persistence {
    var retained: map<Topic, Packet>

    constructor ()
      ensures retained == map[]
    {
      retained := map[];
    }

    /** `lookupRetained(topic, cb)`: the records for `topic`, none or one. */
    method LookupRetained(topic: Topic) returns (packets: seq<Packet>)
      ensures |packets| <= 1
      ensures |packets| == 1 <==> topic in retained
      ensures topic in retained ==> packets[0] == retained[topic]
    {
      if topic in retained {
        packets := [retained[topic]];
      } else {
        packets := [];
      }
    }

    /** `storeRetained(packet, cb)`: replaces the record for the packet's topic. */
    method StoreRetained(packet: Packet)
      modifies this
      ensures retained == old(retained)[packet.topic := packet]
    {
      retained := retained[packet.topic := packet];
    }
  }

  /** The publish/subscribe broker, with a log of the publishes and of the
      unsubscribe calls it received. */
  class Broker {
    var subscriptions: seq<Sub>
    var published: seq<Message>
    var unsubscribed: seq<Sub>

    ghost predicate Valid()
      reads this
    {
      DistinctResponses(subscriptions)
    }

    /** Every response some subscription writes to. */
    function Targets(): set<Response<string>>
      reads this
    {
      set s | s in subscriptions :: s.res
    }

    /** The responses a publish on `topic` is delivered to. */
    function Observers(topic: Topic): (r: set<Response<string>>)
      reads this
      ensures r <= Targets()
    {
      set s | s in subscriptions && s.topic == topic :: s.res
    }

    constructor ()
      ensures Valid()
      ensures subscriptions == [] && published == [] && unsubscribed == []
    {
      subscriptions := [];
      published := [];
      unsubscribed := [];
    }

    /** `subscribe(topic, cb)` with a callback nobody has subscribed yet. */
    method Subscribe(topic: Topic, res: Response<string>)
      requires Valid() && res !in Targets()
      modifies this`subscriptions
      ensures Valid()
      ensures subscriptions == old(subscriptions) + [Sub(topic, res)]
    {
      subscriptions := subscriptions + [Sub(topic, res)];
    }

    /** `unsubscribe(topic, cb)`: removes the subscription if it is there;
        the call is logged either way. */
    method Unsubscribe(topic: Topic, res: Response<string>)
      requires Valid()
      modifies this`subscriptions, this`unsubscribed
      ensures Valid()
      ensures subscriptions == Without(old(subscriptions), Sub(topic, res))
      ensures unsubscribed == old(unsubscribed) + [Sub(topic, res)]
    {
      WithoutKeepsDistinct(subscriptions, Sub(topic, res));
      subscriptions := Without(subscriptions, Sub(topic, res));
      unsubscribed := unsubscribed + [Sub(topic, res)];
    }

    /** `publish(topic, payload, {}, cb)`: every subscribed callback on
        `topic` writes the payload to its response. */
    method Publish(topic: Topic, payload: Payload)
      requires Valid()
      modifies this`published, Observers(topic)
      ensures Valid()
      ensures published == old(published) + [Message(topic, payload)]
      ensures forall r :: r in old(Observers(topic)) ==>
                && r.chunks == (if old(r.ended) then old(r.chunks) else old(r.chunks) + [payload])
                && r.ended == old(r.ended) && r.code == old(r.code)
                && r.headers == old(r.headers) && r.onFinish == old(r.onFinish)
    {
      forall r | r in Observers(topic) && !r.ended {
        r.chunks := r.chunks + [payload];
      }
      published := published + [Message(topic, payload)];
    }
  }

  /** The gateway's `updated` events, in the order they were emitted. */
  class Events {
    var updated: seq<Message>

    constructor ()
      ensures updated == []
    {
      updated := [];
    }

    /** `ponte.emit('updated', topic, payload)`. */
    method EmitUpdated(topic: Topic, payload: Payload)
      modifies this
      ensures updated == old(updated) + [Message(topic, payload)]
    {
      updated := updated + [Message(topic, payload)];
    }
  }
}

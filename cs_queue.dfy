/**
 * The in-process queue service of the C# pipeline (`InMemoryQueueService`): one FIFO of strings
 * per queue name, and a table of signal handlers per channel.
 */
module CsQueue {
  import opened Wrappers

  const UniversityQueue: string := "queue:university"
  const InstituteQueue: string := "queue:institute"
  const SystemSignals: string := "signal:system"

  const Pause: string := "PAUSE"
  const Resume: string := "RESUME"
  const Stop: string := "STOP"

  /** A subscribed handler, identified by the subscriber that registered it. */
  type HandlerId = nat

  /** The items waiting in queue `name`; a queue never created reads as empty. */
  function QueueOf(qs: map<string, seq<string>>, name: string): (q: seq<string>)
    ensures name !in qs ==> q == []
  {
    if name in qs then qs[name] else []
  }

  /** The queues after writing every value of `vs`, in order, to queue `name`. */
  function PushAll(qs: map<string, seq<string>>, name: string, vs: seq<string>): (r: map<string, seq<string>>)
    ensures name in r && r[name] == QueueOf(qs, name) + vs
    ensures forall other :: other != name ==> QueueOf(r, other) == QueueOf(qs, other)
  {
    qs[name := QueueOf(qs, name) + vs]
  }

  /** One read from queue `name`: the oldest item, or nothing once the wait times out on an empty queue. */
  function Pop(qs: map<string, seq<string>>, name: string): (r: (map<string, seq<string>>, Option<string>))
    ensures r.1.None? <==> QueueOf(qs, name) == []
    ensures r.1.Some? ==> r.1.value == QueueOf(qs, name)[0] && QueueOf(r.0, name) == QueueOf(qs, name)[1..]
    ensures name in r.0
    ensures forall other :: other != name ==> QueueOf(r.0, other) == QueueOf(qs, other)
  {
    var q := QueueOf(qs, name);
    if q == [] then (qs[name := []], None) else (qs[name := q[1..]], Some(q[0]))
  }

  /** The items `n` successive reads from queue `name` return. */
  function PopN(qs: map<string, seq<string>>, name: string, n: nat): seq<string>
  {
    if n == 0 then []
    else
      var (qs1, item) := Pop(qs, name);
      match item
      case None => []
      case Some(v) => [v] + PopN(qs1, name, n - 1)
  }

  /** Reads return exactly what is queued, oldest first, and stop returning items once it is drained. */
  lemma {:induction false} PopNDrains(qs: map<string, seq<string>>, name: string, n: nat)
    ensures n >= |QueueOf(qs, name)| ==> PopN(qs, name, n) == QueueOf(qs, name)
    ensures n <= |QueueOf(qs, name)| ==> PopN(qs, name, n) == QueueOf(qs, name)[..n]
  {
    if n > 0 && QueueOf(qs, name) != [] {
      var (qs1, item) := Pop(qs, name);
      PopNDrains(qs1, name, n - 1);
    }
  }

  /** FIFO order: after a bulk write, draining the queue returns what was there before, then the new values in order. */
  lemma FifoAfterPushAll(qs: map<string, seq<string>>, name: string, vs: seq<string>)
    ensures PopN(PushAll(qs, name, vs), name, |QueueOf(qs, name)| + |vs|) == QueueOf(qs, name) + vs
  {
    PopNDrains(PushAll(qs, name, vs), name, |QueueOf(qs, name)| + |vs|);
  }

  /** The handlers registered on a channel; an unknown channel has none. */
  function HandlersOf(hs: map<string, seq<HandlerId>>, channel: string): (h: seq<HandlerId>)
    ensures channel !in hs ==> h == []
  {
    if channel in hs then hs[channel] else []
  }

  class InMemoryQueueService {
    var queues: map<string, seq<string>>
    var handlers: map<string, seq<HandlerId>>

    constructor ()
      ensures queues == map[] && handlers == map[]
    {
      queues := map[];
      handlers := map[];
    }

    /** `EnqueueAsync`. */
    method Enqueue(name: string, value: string)
      modifies this
      ensures queues == PushAll(old(queues), name, [value])
      ensures handlers == old(handlers)
    {
      queues := queues[name := QueueOf(queues, name) + [value]];
    }

    /** `EnqueueBulkAsync`: writes the values one by one, in order. */
    method EnqueueBulk(name: string, values: seq<string>)
      modifies this
      ensures queues == PushAll(old(queues), name, values)
      ensures handlers == old(handlers)
    {
      queues := queues[name := QueueOf(queues, name)];
      var i := 0;
      assert QueueOf(old(queues), name) + values[..0] == QueueOf(old(queues), name);
      while i < |values|
        invariant 0 <= i <= |values|
        invariant queues == old(queues)[name := QueueOf(old(queues), name) + values[..i]]
        invariant handlers == old(handlers)
      {
        assert QueueOf(old(queues), name) + values[..i + 1] == (QueueOf(old(queues), name) + values[..i]) + [values[i]];
        queues := queues[name := queues[name] + [values[i]]];
        i := i + 1;
      }
      assert values[..i] == values;
    }

    /** `DequeueAsync`: creates the queue if needed; an empty queue yields null when the timeout expires. */
    method Dequeue(name: string) returns (item: Option<string>)
      modifies this
      ensures (queues, item) == Pop(old(queues), name)
      ensures handlers == old(handlers)
    {
      var q := QueueOf(queues, name);
      if q == [] {
        queues := queues[name := []];
        item := None;
      } else {
        queues := queues[name := q[1..]];
        item := Some(q[0]);
      }
    }

    /** `GetQueueLengthAsync`: does not create the queue, and an unknown queue has length 0. */
    function GetQueueLength(name: string): (n: nat)
      reads this
      ensures name !in queues ==> n == 0
      ensures name in queues ==> n == |queues[name]|
    {
      |QueueOf(queues, name)|
    }

    /** `PublishSignalAsync`: the handlers that the combined delegate invokes, in subscription order. */
    function PublishSignal(channel: string): (invoked: seq<HandlerId>)
      reads this
      ensures channel !in handlers ==> invoked == []
      ensures channel in handlers ==> invoked == handlers[channel]
    {
      HandlersOf(handlers, channel)
    }

    /** `SubscribeSignalAsync`: adds the handler after the ones already on the channel. */
    method SubscribeSignal(channel: string, handler: HandlerId)
      modifies this
      ensures handlers == old(handlers)[channel := HandlersOf(old(handlers), channel) + [handler]]
      ensures queues == old(queues)
    {
      handlers := handlers[channel := HandlersOf(handlers, channel) + [handler]];
    }

    /** `UnsubscribeAsync`: drops every handler of the channel. */
    method Unsubscribe(channel: string)
      modifies this
      ensures handlers == old(handlers) - {channel}
      ensures queues == old(queues)
    {
      handlers := handlers - {channel};
    }
  }
}

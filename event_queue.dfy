/**
 * The relay's bounded event buffer (`message_queue` in ProjectMCP_Relay/main.py):
 * frames that the local agent sends are buffered here until the event stream
 * delivers them. It holds at most `Capacity` frames; when it is full the oldest
 * frame is dropped to admit the new one.
 */
module EventQueue {
  import opened Wrappers

  /** `asyncio.Queue(maxsize=100)`. */
  const Capacity: nat := 100

  /** The newest `n` items of the stream `s`: what a drop-oldest buffer of size `n` retains of it. */
  function Newest<T>(s: seq<T>, n: nat): seq<T> {
    if |s| <= n then s else s[|s| - n..]
  }

  /** The buffer after one frame `x` arrives from the agent: appended when there is room, otherwise the head is dropped first. */
  function Admit(q: seq<string>, x: string): (r: seq<string>)
    requires |q| <= Capacity
    ensures r == Newest(q + [x], Capacity)
  {
    if |q| < Capacity then q + [x] else q[1..] + [x]
  }

  /** Admitting frames one at a time keeps exactly the newest `Capacity` frames of everything buffered so far, in arrival order. */
  lemma AdmitKeepsNewest(s: seq<string>, x: string)
    ensures |Newest(s, Capacity)| <= Capacity
    ensures Admit(Newest(s, Capacity), x) == Newest(s + [x], Capacity)
  {
  }

  /** One event the stream sends to its subscriber. */
  datatype SseEvent = Data(payload: string) | Keepalive

  /**
   * One step of the event stream: the oldest buffered frame, or a keepalive
   * comment when nothing is buffered, with the buffer that remains.
   */
  function Take(q: seq<string>): (r: (SseEvent, seq<string>))
    ensures r.0.Keepalive? <==> q == []
    ensures r.0.Keepalive? ==> r.1 == q
    ensures r.0.Data? ==> [r.0.payload] + r.1 == q
  {
    if q == [] then (Keepalive, q) else (Data(q[0]), q[1..])
  }

  /** The events of `polls` consecutive stream steps starting from buffer `q`, with no frame arriving meanwhile. */
  function Drain(q: seq<string>, polls: nat): seq<SseEvent>
    decreases polls
  {
    if polls == 0 then [] else
      var (e, rest) := Take(q);
      [e] + Drain(rest, polls - 1)
  }

  /** The payloads of the data events of `es`, in order. */
  function Payloads(es: seq<SseEvent>): seq<string> {
    if es == [] then []
    else (if es[0].Data? then [es[0].payload] else []) + Payloads(es[1..])
  }

  function Min(a: nat, b: nat): nat {
    if a <= b then a else b
  }

  /**
   * The stream delivers the buffered frames oldest first, none lost, none
   * repeated, and a keepalive for every step after the buffer runs dry.
   */
  lemma {:induction false} DrainDelivers(q: seq<string>, polls: nat)
    ensures |Drain(q, polls)| == polls
    ensures Payloads(Drain(q, polls)) == q[..Min(polls, |q|)]
    ensures forall k :: Min(polls, |q|) <= k < polls ==> Drain(q, polls)[k] == Keepalive
    ensures forall k :: 0 <= k < Min(polls, |q|) ==> Drain(q, polls)[k] == Data(q[k])
    decreases polls
  {
    if polls > 0 {
      var (e, rest) := Take(q);
      DrainDelivers(rest, polls - 1);
      var es := Drain(q, polls);
      assert es == [e] + Drain(rest, polls - 1);
      assert es[1..] == Drain(rest, polls - 1);
      if q == [] {
        assert Payloads(es) == Payloads(es[1..]);
      } else {
        assert rest == q[1..];
        assert Payloads(es) == [q[0]] + rest[..Min(polls - 1, |rest|)];
        assert q[..Min(polls, |q|)] == [q[0]] + rest[..Min(polls - 1, |rest|)];
      }
    }
  }

  /** The event buffer as `main.py` uses it: `put_nowait` and `get_nowait` on a queue bounded by `Capacity`. */
  class MessageQueue {
    var items: seq<string>

    ghost predicate Valid()
      reads this
    {
      |items| <= Capacity
    }

    constructor ()
      ensures Valid() && items == []
    {
      items := [];
    }

    /** `put_nowait`: `full` stands for the `QueueFull` exception, raised without touching the buffer. */
    method PutNowait(x: string) returns (full: bool)
      requires Valid()
      modifies this
      ensures Valid()
      ensures full <==> |old(items)| == Capacity
      ensures items == if full then old(items) else old(items) + [x]
    {
      full := |items| >= Capacity;
      if !full {
        items := items + [x];
      }
    }

    /** `get_nowait`: `None` stands for the `QueueEmpty` exception. */
    method GetNowait() returns (r: Option<string>)
      requires Valid()
      modifies this
      ensures Valid()
      ensures r.None? <==> old(items) == []
      ensures r.Some? ==> [r.value] + items == old(items)
      ensures r.None? ==> items == old(items)
    {
      if items == [] {
        r := None;
      } else {
        r := Some(items[0]);
        items := items[1..];
      }
    }
  }
}

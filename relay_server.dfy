/**
 * The relay server's state and the locked steps of its endpoints
 * (ProjectMCP_Relay/main.py): the single agent connection slot, the bounded
 * event buffer, the command forwarding decision and the health snapshot.
 * Each `async with ws_lock` block is one atomic method.
 */
module RelayServer {
  import opened Wrappers
  import opened EventQueue
  import opened ConnectionSlot

  /** The agent's websocket, as far as the relay uses it: it can be closed and written to. */
  class AgentSocket {
    var closed: bool
    var outbox: seq<string>

    constructor ()
      ensures !closed && outbox == []
    {
      closed := false;
      outbox := [];
    }

    /** `close()`: `fault` stands for a transport error, reported as `raised` and leaving the socket as it was. */
    method Close(fault: bool) returns (raised: bool)
      modifies this
      ensures raised == fault
      ensures closed == (old(closed) || !fault)
      ensures outbox == old(outbox)
    {
      raised := fault;
      if !fault {
        closed := true;
      }
    }

    /** `send_text(text)`: refused on a closed socket or on a transport error (`fault`); `err` is the exception text. */
    method SendText(text: string, fault: Option<string>) returns (err: Option<string>)
      modifies this
      ensures err == if old(closed) then Some(SendAfterClose) else fault
      ensures err.None? <==> !closed && fault.None?
      ensures outbox == if err.None? then old(outbox) + [text] else old(outbox)
      ensures closed == old(closed)
    {
      if closed {
        err := Some(SendAfterClose);
      } else if fault.Some? {
        err := fault;
      } else {
        err := None;
        outbox := outbox + [text];
      }
    }
  }

  /** The text of the exception a write to a closed socket raises (the framework's, not modelled further). */
  const SendAfterClose: string := "send after close"

  /** The body of a command request: parsed JSON (kept as its serialised text) or a body that does not parse. */
  datatype RequestBody = Json(text: string) | Malformed(reason: string)

  /** What `send_command` answers. */
  datatype CommandResponse = Sent(command: string) | ErrorResponse(status: nat, error: string)

  const NotConnectedText: string := "Local Agent is NOT connected."

  /** The fields of `health_check`'s answer, without its timestamp. */
  datatype Health = Health(status: string, agentConnected: bool, queueSize: nat)

  class Relay {
    /** `local_agent_ws`. */
    var localAgent: Option<AgentSocket>
    /** `message_queue`. */
    const queue: MessageQueue
    /** Every locked connect and cleanup so far, in order. */
    ghost var history: seq<Event<AgentSocket>>

    ghost predicate Valid()
      reads this, queue
    {
      queue.Valid() && localAgent == Replay(history)
    }

    /** The socket currently installed, as a frame. */
    function Attached(): set<AgentSocket>
      reads this
    {
      if localAgent.Some? then {localAgent.value} else {}
    }

    constructor ()
      ensures Valid() && fresh(queue)
      ensures localAgent == None && queue.items == [] && history == []
    {
      localAgent := None;
      queue := new MessageQueue();
      history := [];
    }

    /**
     * The connect block of `websocket_endpoint`: close the installed socket,
     * ignoring any error from that close, then install `ws`.
     */
    method Connect(ws: AgentSocket, closeFault: bool)
      requires Valid()
      modifies this, Attached()
      ensures Valid()
      ensures localAgent == Some(ws)
      ensures history == old(history) + [Connected(ws)]
      ensures match old(localAgent)
              case None => true
              case Some(prev) => prev.closed == (old(prev.closed) || !closeFault) && prev.outbox == old(prev.outbox)
    {
      if localAgent.Some? {
        var raised := localAgent.value.Close(closeFault);
      }
      localAgent := Some(ws);
      history := history + [Connected(ws)];
      assert history[..|history| - 1] == old(history);
    }

    /** The cleanup block of `websocket_endpoint`: empty the slot only if `ws` is still the socket installed. */
    method Disconnect(ws: AgentSocket)
      requires Valid()
      modifies this
      ensures Valid()
      ensures localAgent == Cleared(old(localAgent), ws)
      ensures old(localAgent) != Some(ws) ==> localAgent == old(localAgent)
      ensures history == old(history) + [Disconnected(ws)]
    {
      if localAgent == Some(ws) {
        localAgent := None;
      }
      history := history + [Disconnected(ws)];
      assert history[..|history| - 1] == old(history);
    }

    /** The receive loop's step: buffer one frame, dropping the oldest one when the buffer is full. */
    method Receive(data: string)
      requires Valid()
      modifies queue
      ensures Valid()
      ensures queue.items == Admit(old(queue.items), data)
    {
      var full := queue.PutNowait(data);
      if full {
        var dropped := queue.GetNowait();
        if dropped.Some? {
          full := queue.PutNowait(data);
        }
      }
    }

    /** The receive loop over the frames the agent sends: the buffer ends with the newest `Capacity` frames, oldest first. */
    method ReceiveAll(frames: seq<string>)
      requires Valid()
      modifies queue
      ensures Valid()
      ensures queue.items == Newest(old(queue.items) + frames, Capacity)
    {
      ghost var start := queue.items;
      for i := 0 to |frames|
        invariant Valid()
        invariant queue.items == Newest(start + frames[..i], Capacity)
      {
        AdmitKeepsNewest(start + frames[..i], frames[i]);
        Receive(frames[i]);
        assert start + frames[..i + 1] == start + frames[..i] + [frames[i]];
      }
      assert frames[..|frames|] == frames;
    }

    /** One step of the event stream: the oldest buffered frame, or a keepalive when there is none. */
    method NextEvent() returns (ev: SseEvent)
      requires Valid()
      modifies queue
      ensures Valid()
      ensures (ev, queue.items) == Take(old(queue.items))
    {
      var r := queue.GetNowait();
      if r.Some? {
        ev := Data(r.value);
      } else {
        ev := Keepalive;
      }
    }

    /** The event stream's loop, for a subscriber that stays for `polls` steps while no frame arrives. */
    method EventStream(polls: nat) returns (events: seq<SseEvent>)
      requires Valid()
      modifies queue
      ensures Valid()
      ensures events == Drain(old(queue.items), polls)
      ensures queue.items == old(queue.items)[Min(polls, |old(queue.items)|)..]
    {
      ghost var start := queue.items;
      events := [];
      var i := 0;
      while i < polls
        invariant 0 <= i <= polls
        invariant Valid()
        invariant queue.items == start[Min(i, |start|)..]
        invariant events + Drain(queue.items, polls - i) == Drain(start, polls)
      {
        ghost var before := queue.items;
        var ev := NextEvent();
        assert Drain(before, polls - i) == [ev] + Drain(queue.items, polls - i - 1);
        assert queue.items == start[Min(i + 1, |start|)..] by {
          if before != [] {
            assert queue.items == start[Min(i, |start|)..][1..];
          }
        }
        events := events + [ev];
        i := i + 1;
      }
    }

    /**
     * `send_command`: refuse with 503 when no agent is connected; otherwise
     * forward the body to the installed socket and answer `Sent`, or 500 when
     * the body does not parse or the write fails. The slot is never changed.
     */
    method SendCommand(body: RequestBody, sendFault: Option<string>) returns (resp: CommandResponse)
      requires Valid()
      modifies Attached()
      ensures Valid()
      ensures localAgent == old(localAgent)
      ensures localAgent.None? ==> resp == ErrorResponse(503, NotConnectedText)
      ensures match localAgent
              case None => true
              case Some(ws) =>
                ws.closed == old(ws.closed) &&
                match body
                case Malformed(reason) =>
                  resp == ErrorResponse(500, reason) && ws.outbox == old(ws.outbox)
                case Json(text) =>
                  resp == (if !old(ws.closed) && sendFault.None? then Sent(text)
                           else ErrorResponse(500, if old(ws.closed) then SendAfterClose else sendFault.value)) &&
                  ws.outbox == if resp.Sent? then old(ws.outbox) + [text] else old(ws.outbox)
    {
      if localAgent.None? {
        return ErrorResponse(503, NotConnectedText);
      }
      match body
      case Malformed(reason) =>
        resp := ErrorResponse(500, reason);
      case Json(text) =>
        var err := localAgent.value.SendText(text, sendFault);
        if err.Some? {
          resp := ErrorResponse(500, err.value);
        } else {
          resp := Sent(text);
        }
    }

    /** `health_check`: whether an agent is connected and how many frames are buffered. */
    method HealthCheck() returns (h: Health)
      requires Valid()
      ensures h.status == "Running"
      ensures h.agentConnected <==> localAgent.Some?
      ensures h.agentConnected <==> exists ws :: Live(history, ws)
      ensures h.queueSize == |queue.items| <= Capacity
    {
      OccupiedIffSomeLive(history);
      h := Health("Running", localAgent.Some?, |queue.items|);
    }
  }
}

/**
 * The single "current agent connection" of the relay (`local_agent_ws` in
 * ProjectMCP_Relay/main.py), as a value: each connection installs itself when
 * it is accepted and, in its cleanup, clears the slot only if it is still the
 * one installed. The history of the slot is the sequence of those two kinds of
 * events, each taken atomically under the lock.
 */
module ConnectionSlot {
  import opened Wrappers

  /** One locked block on the slot: an accepted connection installs itself, a finished one runs its cleanup. */
  datatype Event<H> = Connected(handle: H) | Disconnected(handle: H)

  /** The slot after the cleanup of connection `h`: emptied only when `h` is still the one installed. */
  function Cleared<H(==)>(cur: Option<H>, h: H): (r: Option<H>)
    ensures r.None? <==> cur.None? || cur == Some(h)
    ensures r.Some? ==> r == cur
  {
    if cur == Some(h) then None else cur
  }

  /** The slot after a history of events, starting empty. */
  function Replay<H(==)>(t: seq<Event<H>>): Option<H> {
    if t == [] then None
    else
      match t[|t| - 1]
      case Connected(h) => Some(h)
      case Disconnected(h) => Cleared(Replay(t[..|t| - 1]), h)
  }

  /**
   * `h` is the most recent connection of `t` and has not yet run its cleanup:
   * nothing connected after it, and no event after it is its own disconnect.
   */
  ghost predicate Live<H>(t: seq<Event<H>>, h: H) {
    exists i :: 0 <= i < |t| && t[i] == Connected(h) &&
      forall j :: i < j < |t| ==> t[j].Disconnected? && t[j].handle != h
  }

  /**
   * Whatever the interleaving of connects and cleanups, the slot holds `h`
   * exactly when `h` is the latest connection and has not disconnected: a
   * superseded connection's cleanup never empties the slot of a newer one.
   */
  lemma {:induction false} ReplayIsLive<H>(t: seq<Event<H>>, h: H)
    ensures Replay(t) == Some(h) <==> Live(t, h)
    decreases |t|
  {
    if t != [] {
      var n := |t| - 1;
      var p := t[..n];
      ReplayIsLive(p, h);
      match t[n]
      case Connected(g) =>
        if Live(t, h) {
          var i :| 0 <= i < |t| && t[i] == Connected(h) &&
            forall j :: i < j < |t| ==> t[j].Disconnected? && t[j].handle != h;
          assert i == n;
        }
        if g == h {
          assert t[n] == Connected(h);
        }
      case Disconnected(g) =>
        if Replay(t) == Some(h) {
          assert Live(p, h);
          var i :| 0 <= i < |p| && p[i] == Connected(h) &&
            forall j :: i < j < |p| ==> p[j].Disconnected? && p[j].handle != h;
          assert t[i] == Connected(h);
          assert forall j :: i < j < |t| ==> t[j].Disconnected? && t[j].handle != h;
        }
        if Live(t, h) {
          var i :| 0 <= i < |t| && t[i] == Connected(h) &&
            forall j :: i < j < |t| ==> t[j].Disconnected? && t[j].handle != h;
          assert i < n;
          assert g != h;
          assert p[i] == Connected(h);
          assert forall j :: i < j < |p| ==> p[j].Disconnected? && p[j].handle != h;
          assert Live(p, h);
        }
    }
  }

  /** The slot is occupied exactly when some connection is the latest one and still live. */
  lemma OccupiedIffSomeLive<H>(t: seq<Event<H>>)
    ensures Replay(t).Some? <==> exists h :: Live(t, h)
  {
    if Replay(t).Some? {
      ReplayIsLive(t, Replay(t).value);
    }
    forall h | Live(t, h) ensures Replay(t).Some? {
      ReplayIsLive(t, h);
    }
  }
}

/** The liveness check on Yjs connections, one connection at a time: a
    connection starts alive, a pong marks it alive, and each heartbeat sweep
    terminates it if it is still marked not alive, or else marks it not alive
    and pings it. The server sweeps every 30 seconds; here each sweep is one
    step, and the timer is not modelled. */
module Heartbeat {

  /** What the heartbeat knows of one connection: its `isAlive` flag, whether
      it has been terminated, and how many pings it has been sent. */
  datatype Liveness = Liveness(isAlive: bool, terminated: bool, pings: nat)

  /** A freshly accepted connection. */
  const ACCEPTED: Liveness := Liveness(true, false, 0)

  /** The pong handler. */
  function AfterPong(l: Liveness): Liveness {
    l.(isAlive := true)
  }

  /** One sweep's treatment of one connection. */
  function AfterSweep(l: Liveness): Liveness {
    if !l.isAlive then l.(terminated := true)
    else l.(isAlive := false, pings := l.pings + 1)
  }

  /** What a sweep does to a connection: a connection marked not alive is
      terminated and not pinged; any other is left marked not alive, keeps
      its termination state and gets exactly one more ping. */
  lemma SweepSplitsConnections(l: Liveness)
    ensures !AfterSweep(l).isAlive
    ensures !l.isAlive ==> AfterSweep(l).terminated && AfterSweep(l).pings == l.pings
    ensures l.isAlive ==> AfterSweep(l).terminated == l.terminated && AfterSweep(l).pings == l.pings + 1
  {
  }

  /** What can happen to a connection between two observations. */
  datatype Tick = Pong | Sweep

  function Step(l: Liveness, t: Tick): Liveness {
    match t
    case Pong => AfterPong(l)
    case Sweep => AfterSweep(l)
  }

  /** The state after a run of ticks, oldest first. */
  function Replay(l: Liveness, ticks: seq<Tick>): Liveness
    decreases |ticks|
  {
    if ticks == [] then l else Step(Replay(l, ticks[..|ticks| - 1]), ticks[|ticks| - 1])
  }

  function CountSweeps(ticks: seq<Tick>): nat
    decreases |ticks|
  {
    if ticks == [] then 0
    else CountSweeps(ticks[..|ticks| - 1]) + (if ticks[|ticks| - 1] == Sweep then 1 else 0)
  }

  /** Once terminated, a connection stays terminated. */
  lemma {:induction false} TerminationIsFinal(l: Liveness, ticks: seq<Tick>)
    requires l.terminated
    ensures Replay(l, ticks).terminated
    decreases |ticks|
  {
    if ticks != [] {
      TerminationIsFinal(l, ticks[..|ticks| - 1]);
    }
  }

  /** A connection that answers no ping is terminated by the second sweep
      after its last pong, whatever state it was in: so within two heartbeat
      intervals of going silent. */
  lemma SilentConnectionTerminated(l: Liveness, ticks: seq<Tick>)
    requires |ticks| >= 2
    requires forall i :: 0 <= i < |ticks| ==> ticks[i] == Sweep
    ensures Replay(l, ticks).terminated
  {
    // The last sweep finds the connection marked not alive by the one before.
  }

  /** One sweep is not enough: a connection that has just answered a ping is
      not terminated by the next sweep. */
  lemma PongedConnectionSurvivesOneSweep(l: Liveness)
    requires !l.terminated
    ensures !Replay(l, [Pong, Sweep]).terminated
    ensures Replay(l, [Pong, Sweep]).pings == l.pings + 1
  {
    assert [Pong, Sweep][..1] == [Pong];
    assert [Pong][..0] == [];
  }

  /** A connection that answers before every sweep is never terminated and is
      pinged exactly once per sweep. */
  lemma {:induction false} ResponsiveConnectionSurvives(l: Liveness, ticks: seq<Tick>)
    requires !l.terminated
    requires forall i :: 0 <= i < |ticks| && ticks[i] == Sweep ==> i > 0 && ticks[i - 1] == Pong
    ensures !Replay(l, ticks).terminated
    ensures Replay(l, ticks).pings == l.pings + CountSweeps(ticks)
    decreases |ticks|
  {
    var n := |ticks|;
    if n > 0 {
      var before := ticks[..n - 1];
      ResponsiveConnectionSurvives(l, before);
      if ticks[n - 1] == Sweep {
        assert ticks[n - 2] == Pong;
        var earlier := before[..n - 2];
        assert before[n - 2] == Pong;
        assert Replay(l, before) == AfterPong(Replay(l, earlier));
      }
    }
  }
}

/**
 * What a run of the broadcast loop promises: the shape of every channel's
 * log, the order of sends and pulls, which states are forwarded, and where
 * the two limits draw their boundaries.
 */
module CliLaws {
  import opened Cli

  // ---------------------------------------------------------------------
  // Data messages

  /** One data message per state, carrying that state. */
  lemma {:induction false} DataMessagesIndex(states: seq<State>)
    ensures |DataMessages(states)| == |states|
    ensures forall i :: 0 <= i < |states| ==> DataMessages(states)[i] == Data(states[i])
  {
    if |states| > 0 {
      DataMessagesIndex(states[..|states| - 1]);
    }
  }

  // ---------------------------------------------------------------------
  // What each pipe receives in a trace

  lemma {:induction false} ReceivedAppend(a: seq<Event>, b: seq<Event>, p: nat)
    ensures Received(a + b, p) == Received(a, p) + Received(b, p)
    decreases |b|
  {
    if |b| == 0 {
      assert a + b == a;
    } else {
      var n := |b| - 1;
      ReceivedAppend(a, b[..n], p);
      assert (a + b)[..|a + b| - 1] == a + b[..n];
    }
  }

  lemma ReceivedAppend3(a: seq<Event>, b: seq<Event>, c: seq<Event>, d: seq<Event>, p: nat)
    ensures Received(a + b + c + d, p) == Received(a, p) + Received(b, p) + Received(c, p) + Received(d, p)
  {
    ReceivedAppend(a + b + c, d, p);
    ReceivedAppend(a + b, c, p);
    ReceivedAppend(a, b, p);
  }

  /** A broadcast on n pipes reaches pipe p once if p is one of them, and not at all otherwise. */
  lemma {:induction false} ReceivedSendAll(n: nat, m: Msg, p: nat)
    ensures Received(SendAll(n, m), p) == if p < n then [m] else []
  {
    if n > 0 {
      ReceivedSendAll(n - 1, m, p);
      assert SendAll(n, m)[..n - 1] == SendAll(n - 1, m);
    }
  }

  /** Pulling a state sends nothing. */
  lemma ReceivedPulled(st: State, p: nat)
    ensures Received([Pulled(st)], p) == []
  {
    assert [Pulled(st)][..0] == [];
  }

  /** One step of the data phase: a pull, then a broadcast of the pulled state. */
  lemma ReceivedDataStep(before: seq<Event>, st: State, n: nat, p: nat)
    ensures Received(before + [Pulled(st)] + SendAll(n, Data(st)), p)
            == Received(before, p) + (if p < n then [Data(st)] else [])
  {
    ReceivedAppend(before + [Pulled(st)], SendAll(n, Data(st)), p);
    ReceivedAppend(before, [Pulled(st)], p);
    ReceivedPulled(st, p);
    ReceivedSendAll(n, Data(st), p);
  }

  /** During the data phase every pipe receives the data messages of the forwarded states. */
  lemma {:induction false} ReceivedDataPhase(n: nat, states: seq<State>, p: nat)
    ensures Received(DataPhase(n, states), p) == if p < n then DataMessages(states) else []
    decreases |states|
  {
    if |states| > 0 {
      var k := |states| - 1;
      ReceivedDataPhase(n, states[..k], p);
      ReceivedDataStep(DataPhase(n, states[..k]), states[k], n, p);
    }
  }

  /**
   * Every pipe of a run receives exactly the channel log of the stream, so
   * all pipes receive identical message sequences; nothing is addressed to
   * a pipe that was not opened.
   */
  lemma ReceivedTrace(n: nat, stream: seq<State>, lim: Limits, p: nat)
    ensures Received(Trace(n, stream, lim), p) == if p < n then ChannelLog(stream, lim) else []
  {
    var fwd := Forwarded(stream, lim);
    ReceivedAppend3(SendAll(n, Start), DataPhase(n, fwd), Stopper(stream, lim), SendAll(n, End), p);
    ReceivedSendAll(n, Start, p);
    ReceivedSendAll(n, End, p);
    ReceivedDataPhase(n, fwd, p);
    ReceivedStopper(stream, lim, p);
  }

  /** Pulling the stopping state sends nothing. */
  lemma ReceivedStopper(stream: seq<State>, lim: Limits, p: nat)
    ensures Received(Stopper(stream, lim), p) == []
  {
    var c := Cut(stream, lim);
    if c < |stream| {
      ReceivedPulled(stream[c], p);
    }
  }

  /** Any two pipes of a run receive the same messages. */
  lemma AllChannelsIdentical(n: nat, stream: seq<State>, lim: Limits, p: nat, q: nat)
    requires p < n && q < n
    ensures Received(Trace(n, stream, lim), p) == Received(Trace(n, stream, lim), q)
    ensures Received(Trace(n, stream, lim), p) == ChannelLog(stream, lim)
  {
    ReceivedTrace(n, stream, lim, p);
    ReceivedTrace(n, stream, lim, q);
  }

  // ---------------------------------------------------------------------
  // What a run pulls from the stream

  /** The states pulled in a trace, in order. */
  function Pulls(trace: seq<Event>): seq<State> {
    if |trace| == 0 then []
    else
      var e := trace[|trace| - 1];
      Pulls(trace[..|trace| - 1]) + (if e.Pulled? then [e.state] else [])
  }

  lemma {:induction false} PullsAppend(a: seq<Event>, b: seq<Event>)
    ensures Pulls(a + b) == Pulls(a) + Pulls(b)
    decreases |b|
  {
    if |b| == 0 {
      assert a + b == a;
    } else {
      var n := |b| - 1;
      PullsAppend(a, b[..n]);
      assert (a + b)[..|a + b| - 1] == a + b[..n];
    }
  }

  lemma PullsAppend3(a: seq<Event>, b: seq<Event>, c: seq<Event>, d: seq<Event>)
    ensures Pulls(a + b + c + d) == Pulls(a) + Pulls(b) + Pulls(c) + Pulls(d)
  {
    PullsAppend(a + b + c, d);
    PullsAppend(a + b, c);
    PullsAppend(a, b);
  }

  lemma {:induction false} PullsSendAll(n: nat, m: Msg)
    ensures Pulls(SendAll(n, m)) == []
  {
    if n > 0 {
      PullsSendAll(n - 1, m);
      assert SendAll(n, m)[..n - 1] == SendAll(n - 1, m);
    }
  }

  lemma {:induction false} PullsDataPhase(n: nat, states: seq<State>)
    ensures Pulls(DataPhase(n, states)) == states
    decreases |states|
  {
    if |states| > 0 {
      var k := |states| - 1;
      var last := states[k];
      var before := DataPhase(n, states[..k]);
      PullsDataPhase(n, states[..k]);
      PullsAppend(before + [Pulled(last)], SendAll(n, Data(last)));
      PullsAppend(before, [Pulled(last)]);
      assert [Pulled(last)][..0] == [];
      PullsSendAll(n, Data(last));
      assert states[..k] + [last] == states;
    }
  }

  /** How many states a run takes from the stream: up to and including the one that stops it. */
  function Consumed(stream: seq<State>, lim: Limits): (k: nat)
    ensures k <= |stream|
  {
    var c := Cut(stream, lim);
    if c < |stream| then c + 1 else c
  }

  /**
   * A run pulls the stream in order, and pulls nothing beyond the state
   * that stopped it.
   */
  lemma PullsTrace(n: nat, stream: seq<State>, lim: Limits)
    ensures Pulls(Trace(n, stream, lim)) == stream[..Consumed(stream, lim)]
  {
    var fwd := Forwarded(stream, lim);
    PullsAppend3(SendAll(n, Start), DataPhase(n, fwd), Stopper(stream, lim), SendAll(n, End));
    PullsSendAll(n, Start);
    PullsSendAll(n, End);
    PullsDataPhase(n, fwd);
    PullsStopper(stream, lim);
  }

  /** The stopping state, if any, is the state right after the forwarded ones. */
  lemma PullsStopper(stream: seq<State>, lim: Limits)
    ensures Forwarded(stream, lim) + Pulls(Stopper(stream, lim)) == stream[..Consumed(stream, lim)]
  {
    var c := Cut(stream, lim);
    if c < |stream| {
      assert [Pulled(stream[c])][..0] == [];
      assert stream[..c] + [stream[c]] == stream[..c + 1];
    }
  }

  // ---------------------------------------------------------------------
  // Order of events

  /**
   * The run first sends start on pipes 0 to n - 1 in that order, pulls only
   * after that, and finally sends end on pipes 0 to n - 1 after the last pull.
   */
  lemma StartsPrecedePulls(n: nat, stream: seq<State>, lim: Limits)
    ensures |Trace(n, stream, lim)| >= 2 * n
    ensures forall k :: 0 <= k < n ==> Trace(n, stream, lim)[k] == Sent(k, Start)
    ensures forall k :: 0 <= k < n ==>
              Trace(n, stream, lim)[|Trace(n, stream, lim)| - n + k] == Sent(k, End)
    ensures forall k :: 0 <= k < |Trace(n, stream, lim)| && Trace(n, stream, lim)[k].Pulled? ==>
              n <= k < |Trace(n, stream, lim)| - n
  {
    var t := Trace(n, stream, lim);
    var middle := DataPhase(n, Forwarded(stream, lim)) + Stopper(stream, lim);
    assert t == SendAll(n, Start) + middle + SendAll(n, End);
    forall k | 0 <= k < n
      ensures t[k] == Sent(k, Start) && t[|t| - n + k] == Sent(k, End)
    {
      assert t[k] == SendAll(n, Start)[k];
      assert t[|t| - n + k] == SendAll(n, End)[k];
    }
    forall k | 0 <= k < |t| && (k < n || |t| - n <= k)
      ensures t[k].Sent?
    {
      if k < n {
        assert t[k] == Sent(k, Start);
      } else {
        assert t[k] == Sent(k - (|t| - n), End);
      }
    }
  }

  // ---------------------------------------------------------------------
  // Shape of a channel log

  /**
   * Every channel carries start, then one data message per forwarded state in
   * stream order, then end: start only first and end only last.
   */
  lemma ChannelLogShape(stream: seq<State>, lim: Limits)
    ensures |ChannelLog(stream, lim)| == |Forwarded(stream, lim)| + 2
    ensures ChannelLog(stream, lim)[0] == Start
    ensures ChannelLog(stream, lim)[|ChannelLog(stream, lim)| - 1] == End
    ensures forall i :: 1 <= i < |ChannelLog(stream, lim)| - 1 ==>
              ChannelLog(stream, lim)[i] == Data(stream[i - 1])
    ensures forall i :: 0 <= i < |ChannelLog(stream, lim)| && ChannelLog(stream, lim)[i] == Start ==> i == 0
    ensures forall i :: 0 <= i < |ChannelLog(stream, lim)| && ChannelLog(stream, lim)[i] == End ==>
              i == |ChannelLog(stream, lim)| - 1
  {
    var fwd := Forwarded(stream, lim);
    var log := ChannelLog(stream, lim);
    DataMessagesIndex(fwd);
    assert log == [Start] + DataMessages(fwd) + [End];
    forall i | 1 <= i < |log| - 1
      ensures log[i] == Data(stream[i - 1])
    {
      assert log[i] == DataMessages(fwd)[i - 1];
    }
  }

  // ---------------------------------------------------------------------
  // Truthiness of the limits

  /**
   * A limit that is not given or is 0 never fires; any other value, a
   * negative one included, takes part in its comparison.
   */
  lemma LimitTruthiness(lim: Limits, st: State)
    ensures lim.maxTicks == None || lim.maxTicks == Some(0) ==> !TicksReached(lim, st)
    ensures lim.maxTime == None || lim.maxTime == Some(0) ==> !TimeExceeded(lim, st)
    ensures lim.maxTicks.Some? && lim.maxTicks.value != 0 && lim.maxTicks.value <= st.ticks
            ==> TicksReached(lim, st)
    ensures lim.maxTime.Some? && lim.maxTime.value != 0 && (lim.maxTime.value as real) < st.time
            ==> TimeExceeded(lim, st)
  {
  }

  // ---------------------------------------------------------------------
  // Which states are forwarded

  /**
   * The forwarded states are a prefix of the stream on which no limit fires,
   * the state after them (if any) fires one, and no longer such prefix exists.
   */
  lemma ForwardedIsLongest(stream: seq<State>, lim: Limits, k: nat)
    requires k <= |stream|
    requires forall i :: 0 <= i < k ==> !Stops(lim, stream[i])
    ensures Forwarded(stream, lim) <= stream
    ensures forall i :: 0 <= i < |Forwarded(stream, lim)| ==> !Stops(lim, Forwarded(stream, lim)[i])
    ensures |Forwarded(stream, lim)| < |stream| ==> Stops(lim, stream[|Forwarded(stream, lim)|])
    ensures k <= |Forwarded(stream, lim)|
  {
  }

  /**
   * The tick limit is inclusive: on a stream whose ticks count up by one
   * from t0 towards the limit, exactly the states with ticks below the limit
   * are forwarded, and the one whose ticks equal it stops the run.
   */
  lemma TicksLimitInclusive(stream: seq<State>, lim: Limits, t0: int)
    requires !Enabled(lim.maxTime) && Enabled(lim.maxTicks)
    requires forall i :: 0 <= i < |stream| ==> stream[i].ticks == t0 + i
    requires t0 <= lim.maxTicks.value <= t0 + |stream|
    ensures Cut(stream, lim) == lim.maxTicks.value - t0
    ensures forall st :: st in Forwarded(stream, lim) ==> st.ticks < lim.maxTicks.value
  {
    var T := lim.maxTicks.value;
    if T - t0 < |stream| {
      assert Stops(lim, stream[T - t0]);
    }
  }

  /**
   * The time limit is strict: a state whose time is at most the limit is
   * forwarded provided every state before it was too.
   */
  lemma TimeLimitStrict(stream: seq<State>, lim: Limits, k: nat)
    requires !Enabled(lim.maxTicks) && Enabled(lim.maxTime)
    requires k < |stream|
    requires forall i :: 0 <= i <= k ==> stream[i].time <= lim.maxTime.value as real
    ensures k < Cut(stream, lim)
    ensures stream[k] == Forwarded(stream, lim)[k]
  {
    ForwardedIsLongest(stream, lim, k + 1);
  }

  /** Either limit, once it fires, stops the run at that state at the latest. */
  lemma LimitStops(stream: seq<State>, lim: Limits, k: nat)
    requires k < |stream|
    requires TicksReached(lim, stream[k]) || TimeExceeded(lim, stream[k])
    ensures Cut(stream, lim) <= k
    ensures |ChannelLog(stream, lim)| <= k + 2
  {
    DataMessagesIndex(Forwarded(stream, lim));
  }

  /**
   * A limit that is not given or is 0 takes no part: with neither limit,
   * every state is forwarded and end follows the last state of the stream.
   */
  lemma NoLimitsForwardAll(n: nat, stream: seq<State>, lim: Limits)
    requires lim.maxTicks == None || lim.maxTicks == Some(0)
    requires lim.maxTime == None || lim.maxTime == Some(0)
    ensures Forwarded(stream, lim) == stream
    ensures ChannelLog(stream, lim) == [Start] + DataMessages(stream) + [End]
    ensures Trace(n, stream, lim) == SendAll(n, Start) + DataPhase(n, stream) + SendAll(n, End)
  {
    Exhausted(n, stream, lim);
  }
}

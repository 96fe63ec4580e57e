/**
 * The broadcast loop of nbp/cli.py (`Cli.start_application` and
 * `Cli.close_application`), without threads and pipes' other ends.
 *
 * Each pipe is an object whose `sent` field is the ordered log of the
 * messages the loop sent on it. The stream of states the input provider
 * yields is a finite sequence. Besides the pipes, the loop returns the ghost
 * trace of everything it did, in order: every message it sent, and every
 * state it pulled from the stream; the trace is what relates the channels
 * to one another and to the stream.
 */
module Cli {

  datatype Option<T> = None | Some(value: T)

  /** A simulation state, as far as the loop looks into it. */
  datatype State = State(ticks: int, time: real)

  /** The message envelope: `{'type': 'start'}`, `{'type': 'data', 'data': state}`, `{'type': 'end'}`. */
  datatype Msg = Start | Data(state: State) | End

  /** The `max_ticks` and `max_time` options; `None` when not given. */
  datatype Limits = Limits(maxTicks: Option<int>, maxTime: Option<int>)

  /** One step of the loop: a message sent on pipe `pipe`, or a state pulled from the stream. */
  datatype Event = Sent(pipe: nat, msg: Msg) | Pulled(state: State)

  // ---------------------------------------------------------------------
  // Limits

  /** A limit takes part only when it is truthy: neither None nor 0. */
  predicate Enabled(limit: Option<int>) {
    limit.Some? && limit.value != 0
  }

  /**
   * `max_ticks and max_ticks <= state.ticks`: the tick limit is reached,
   * inclusively — a state whose ticks equal the limit is already cut off.
   */
  function TicksReached(lim: Limits, st: State): (reached: bool)
    ensures reached ==> Enabled(lim.maxTicks)
    ensures Enabled(lim.maxTicks) && st.ticks == lim.maxTicks.value ==> reached
    ensures Enabled(lim.maxTicks) && st.ticks < lim.maxTicks.value ==> !reached
  {
    Enabled(lim.maxTicks) && lim.maxTicks.value <= st.ticks
  }

  /**
   * `max_time and max_time < state.time`: the time limit is exceeded,
   * strictly — a state whose time equals the limit is still forwarded.
   */
  function TimeExceeded(lim: Limits, st: State): (exceeded: bool)
    ensures exceeded ==> Enabled(lim.maxTime)
    ensures lim.maxTime.Some? && st.time == lim.maxTime.value as real ==> !exceeded
    ensures Enabled(lim.maxTime) && st.time > lim.maxTime.value as real ==> exceeded
  {
    Enabled(lim.maxTime) && (lim.maxTime.value as real) < st.time
  }

  /** The state ends the run instead of being forwarded. */
  predicate Stops(lim: Limits, st: State) {
    TicksReached(lim, st) || TimeExceeded(lim, st)
  }

  // ---------------------------------------------------------------------
  // What a run does, as functions of the stream

  /**
   * The index of the first state that stops the run, or the length of the
   * stream when none does.
   */
  function Cut(stream: seq<State>, lim: Limits): (c: nat)
    ensures c <= |stream|
    ensures forall i :: 0 <= i < c ==> !Stops(lim, stream[i])
    ensures c < |stream| ==> Stops(lim, stream[c])
  {
    if |stream| == 0 then 0
    else if Stops(lim, stream[0]) then 0
    else 1 + Cut(stream[1..], lim)
  }

  /** The states a run forwards as data. */
  function Forwarded(stream: seq<State>, lim: Limits): seq<State> {
    stream[..Cut(stream, lim)]
  }

  /** One data message per state, in order. */
  function DataMessages(states: seq<State>): seq<Msg> {
    if |states| == 0 then []
    else DataMessages(states[..|states| - 1]) + [Data(states[|states| - 1])]
  }

  /** What every pipe carries at the end of a run. */
  function ChannelLog(stream: seq<State>, lim: Limits): seq<Msg> {
    [Start] + DataMessages(Forwarded(stream, lim)) + [End]
  }

  /** Sending `m` on pipes 0 to n - 1, in order. */
  function SendAll(n: nat, m: Msg): seq<Event> {
    seq(n, i requires 0 <= i => Sent(i, m))
  }

  /** Pulling each state and sending it as data on pipes 0 to n - 1. */
  function DataPhase(n: nat, states: seq<State>): seq<Event> {
    if |states| == 0 then []
    else
      var last := states[|states| - 1];
      DataPhase(n, states[..|states| - 1]) + [Pulled(last)] + SendAll(n, Data(last))
  }

  /**
   * The whole run on n pipes: start everywhere, the data phase, the state
   * that stopped the run if one did, end everywhere.
   */
  function Trace(n: nat, stream: seq<State>, lim: Limits): seq<Event> {
    SendAll(n, Start) + DataPhase(n, Forwarded(stream, lim)) + Stopper(stream, lim) + SendAll(n, End)
  }

  /** Pulling the state that stopped the run, if one did. */
  function Stopper(stream: seq<State>, lim: Limits): seq<Event> {
    var c := Cut(stream, lim);
    if c < |stream| then [Pulled(stream[c])] else []
  }

  /** The messages pipe `p` receives in a trace, in order. */
  function Received(trace: seq<Event>, p: nat): seq<Msg> {
    if |trace| == 0 then []
    else
      var e := trace[|trace| - 1];
      Received(trace[..|trace| - 1], p) + (if e.Sent? && e.pipe == p then [e.msg] else [])
  }

  /** Forwarding one more state extends the data messages and the data phase by it. */
  lemma ForwardOneMore(n: nat, stream: seq<State>, k: nat)
    requires k < |stream|
    ensures DataMessages(stream[..k + 1]) == DataMessages(stream[..k]) + [Data(stream[k])]
    ensures DataPhase(n, stream[..k + 1])
            == DataPhase(n, stream[..k]) + [Pulled(stream[k])] + SendAll(n, Data(stream[k]))
  {
    assert stream[..k + 1][..k] == stream[..k];
  }

  /** A run whose state `k` is the first that stops it. */
  lemma StoppedAt(n: nat, stream: seq<State>, lim: Limits, k: nat)
    requires k < |stream| && Stops(lim, stream[k])
    requires forall i :: 0 <= i < k ==> !Stops(lim, stream[i])
    ensures Cut(stream, lim) == k
    ensures ChannelLog(stream, lim) == [Start] + DataMessages(stream[..k]) + [End]
    ensures Trace(n, stream, lim)
            == SendAll(n, Start) + DataPhase(n, stream[..k]) + [Pulled(stream[k])] + SendAll(n, End)
  {
  }

  /** A run that no state stops. */
  lemma Exhausted(n: nat, stream: seq<State>, lim: Limits)
    requires forall i :: 0 <= i < |stream| ==> !Stops(lim, stream[i])
    ensures Cut(stream, lim) == |stream|
    ensures ChannelLog(stream, lim) == [Start] + DataMessages(stream) + [End]
    ensures Trace(n, stream, lim) == SendAll(n, Start) + DataPhase(n, stream) + SendAll(n, End)
  {
    assert stream[..|stream|] == stream;
  }

  // ---------------------------------------------------------------------
  // The loop

  /** The producer's end of one pipe, connected to the output writer `writer`. */
  class Pipe {
    const writer: string
    var sent: seq<Msg>

    constructor (writer: string)
      ensures this.writer == writer && sent == []
    {
      this.writer := writer;
      sent := [];
    }

    /** `pipe.send(m)`. */
    method Send(m: Msg)
      modifies this
      ensures sent == old(sent) + [m]
    {
      sent := sent + [m];
    }
  }

  predicate Distinct(pipes: seq<Pipe>) {
    forall i, j :: 0 <= i < j < |pipes| ==> pipes[i] != pipes[j]
  }

  /** One new pipe per output writer name, in order. */
  method OpenPipes(writers: seq<string>) returns (pipes: seq<Pipe>)
    ensures |pipes| == |writers| && Distinct(pipes)
    ensures forall i :: 0 <= i < |pipes| ==> fresh(pipes[i])
    ensures forall i :: 0 <= i < |pipes| ==> pipes[i].writer == writers[i] && pipes[i].sent == []
  {
    pipes := [];
    for k := 0 to |writers|
      invariant |pipes| == k && Distinct(pipes)
      invariant forall i :: 0 <= i < k ==> fresh(pipes[i])
      invariant forall i :: 0 <= i < k ==> pipes[i].writer == writers[i] && pipes[i].sent == []
    {
      var parent := new Pipe(writers[k]);
      pipes := pipes + [parent];
    }
  }

  /** Send `m` on every pipe, in order, recording each send in the trace. */
  method Broadcast(pipes: seq<Pipe>, m: Msg, ghost trace: seq<Event>) returns (ghost trace': seq<Event>)
    requires Distinct(pipes)
    modifies set p | p in pipes
    ensures forall i :: 0 <= i < |pipes| ==> pipes[i].sent == old(pipes[i].sent) + [m]
    ensures trace' == trace + SendAll(|pipes|, m)
  {
    trace' := trace;
    for k := 0 to |pipes|
      invariant forall i :: 0 <= i < k ==> pipes[i].sent == old(pipes[i].sent) + [m]
      invariant forall i :: k <= i < |pipes| ==> pipes[i].sent == old(pipes[i].sent)
      invariant trace' == trace + SendAll(k, m)
    {
      pipes[k].Send(m);
      trace' := trace' + [Sent(k, m)];
      assert SendAll(k + 1, m) == SendAll(k, m) + [Sent(k, m)];
    }
  }

  /** `close_application`: end on every pipe; the caller then stops. */
  method CloseApplication(pipes: seq<Pipe>, ghost trace: seq<Event>) returns (ghost trace': seq<Event>)
    requires Distinct(pipes)
    modifies set p | p in pipes
    ensures forall i :: 0 <= i < |pipes| ==> pipes[i].sent == old(pipes[i].sent) + [End]
    ensures trace' == trace + SendAll(|pipes|, End)
  {
    trace' := Broadcast(pipes, End, trace);
  }

  /**
   * `start_application` for the output writers `writers`, the stream of
   * states `stream` and the limits `lim`: every pipe ends up carrying the
   * channel log of the stream, and the run is the trace of the stream.
   */
  method StartApplication(writers: seq<string>, stream: seq<State>, lim: Limits)
    returns (pipes: seq<Pipe>, ghost trace: seq<Event>)
    ensures |pipes| == |writers| && Distinct(pipes)
    ensures forall i :: 0 <= i < |pipes| ==> fresh(pipes[i]) && pipes[i].writer == writers[i]
    ensures forall i :: 0 <= i < |pipes| ==> pipes[i].sent == ChannelLog(stream, lim)
    ensures trace == Trace(|writers|, stream, lim)
  {
    pipes := OpenPipes(writers);
    trace := Broadcast(pipes, Start, []);
    for k := 0 to |stream|
      invariant forall i :: 0 <= i < k ==> !Stops(lim, stream[i])
      invariant forall i :: 0 <= i < |pipes| ==> pipes[i].writer == writers[i]
      invariant forall i :: 0 <= i < |pipes| ==> pipes[i].sent == [Start] + DataMessages(stream[..k])
      invariant trace == SendAll(|pipes|, Start) + DataPhase(|pipes|, stream[..k])
    {
      var state := stream[k];
      trace := trace + [Pulled(state)];
      if TicksReached(lim, state) {
        StoppedAt(|pipes|, stream, lim, k);
        trace := CloseApplication(pipes, trace);
        return;
      } else if TimeExceeded(lim, state) {
        StoppedAt(|pipes|, stream, lim, k);
        trace := CloseApplication(pipes, trace);
        return;
      } else {
        ForwardOneMore(|pipes|, stream, k);
        trace := Broadcast(pipes, Data(state), trace);
      }
    }
    Exhausted(|pipes|, stream, lim);
    trace := CloseApplication(pipes, trace);
  }
}

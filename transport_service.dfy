// The client transport of src/client/services/transportService.js: a
// play/pause/stop state machine over a tick position, a tempo clamped into
// [40, 240], a loop window and a set of tick listeners. The module-level
// variables of the source become the fields of `Transport`; the interval
// timer becomes the flag `timerRunning` (whether a timer handle is held) and
// its firing is the explicit step `AdvanceTick`. Listener callbacks are opaque
// ids; calling them is not modelled.
module TransportService {
  import opened JsSupport

  /** Pulses per quarter note. */
  const Ppq := 480

  const MinBpm := 40
  const MaxBpm := 240
  const DefaultBpm := 120

  /** The loop window: when enabled, reaching `end` jumps back to `start`. */
  datatype Loop = Loop(enabled: bool, start: int, end: int)

  /** The loop fields supplied to `setLoop`; `None` is an absent key. */
  datatype LoopParams = LoopParams(enabled: Option<bool>, start: Option<int>, end: Option<int>)

  /** An argument of `subscribeToTick`/`unsubscribeFromTick`: a function
      (identified by an opaque id) or any other value. */
  datatype Callback = FunctionValue(id: nat) | OtherValue

  /** 16 beats, disabled. */
  const DefaultLoop := Loop(false, 0, 16 * Ppq)

  // ---------------------------------------------------------------------
  // The value-level behaviour of each operation

  /** `Math.max(40, Math.min(240, x))`. */
  function Tempo(x: int): (r: int)
    ensures MinBpm <= r <= MaxBpm
    ensures MinBpm <= x <= MaxBpm ==> r == x
    ensures x < MinBpm ==> r == MinBpm
    ensures x > MaxBpm ==> r == MaxBpm
  {
    Clamp(x, MinBpm, MaxBpm)
  }

  /** Clamping a tempo twice is clamping it once. */
  lemma TempoIdempotent(x: int)
    ensures Tempo(Tempo(x)) == Tempo(x)
  {
  }

  /** `Math.max(0, tick)`. */
  function Position(tick: int): (r: int)
    ensures r >= 0 && (r == tick || r == 0)
    ensures tick >= 0 <==> r == tick
  {
    if tick < 0 then 0 else tick
  }

  /** `{...loop, ...loopParams}`. */
  function MergeLoop(loop: Loop, p: LoopParams): (r: Loop)
    ensures p.enabled.Some? ==> r.enabled == p.enabled.value
    ensures p.enabled.None? ==> r.enabled == loop.enabled
    ensures p.start.Some? ==> r.start == p.start.value
    ensures p.start.None? ==> r.start == loop.start
    ensures p.end.Some? ==> r.end == p.end.value
    ensures p.end.None? ==> r.end == loop.end
  {
    Loop(p.enabled.GetOr(loop.enabled), p.start.GetOr(loop.start), p.end.GetOr(loop.end))
  }

  const NoLoopParams := LoopParams(None, None, None)

  /** The fields of `p` with those of `q` written over them: the argument of
      one `setLoop` call equivalent to `setLoop(p)` followed by `setLoop(q)`. */
  function Override(p: LoopParams, q: LoopParams): LoopParams {
    LoopParams(if q.enabled.Some? then q.enabled else p.enabled,
               if q.start.Some? then q.start else p.start,
               if q.end.Some? then q.end else p.end)
  }

  /** `setLoop({})` changes nothing, repeating a `setLoop` changes nothing
      more, and two calls compose into one. */
  lemma MergeLoopEmpty(loop: Loop)
    ensures MergeLoop(loop, NoLoopParams) == loop
  {
  }

  lemma MergeLoopIdempotent(loop: Loop, p: LoopParams)
    ensures MergeLoop(MergeLoop(loop, p), p) == MergeLoop(loop, p)
  {
  }

  lemma MergeLoopCompose(loop: Loop, p: LoopParams, q: LoopParams)
    ensures MergeLoop(MergeLoop(loop, p), q) == MergeLoop(loop, Override(p, q))
  {
  }

  /** advanceTick: one tick forward, back to the loop start on reaching the
      loop end. */
  function Advance(tick: int, loop: Loop): (r: int)
    ensures loop.enabled && tick + 1 >= loop.end ==> r == loop.start
    ensures !(loop.enabled && tick + 1 >= loop.end) ==> r == tick + 1
  {
    var next := tick + 1;
    if loop.enabled && next >= loop.end then loop.start else next
  }

  /** The position after `n` timer ticks. */
  function AdvanceN(tick: int, loop: Loop, n: nat): int {
    if n == 0 then tick else Advance(AdvanceN(tick, loop, n - 1), loop)
  }

  /** Without a loop the timer counts ticks. */
  lemma {:induction false} AdvanceNoLoop(tick: int, loop: Loop, n: nat)
    requires !loop.enabled
    ensures AdvanceN(tick, loop, n) == tick + n
  {
    if n > 0 {
      AdvanceNoLoop(tick, loop, n - 1);
    }
  }

  /** Inside a non-empty enabled loop window the position never leaves it. */
  lemma {:induction false} AdvanceStaysInLoop(tick: int, loop: Loop, n: nat)
    requires loop.enabled && loop.start <= tick < loop.end
    ensures loop.start <= AdvanceN(tick, loop, n) < loop.end
  {
    if n > 0 {
      AdvanceStaysInLoop(tick, loop, n - 1);
    }
  }

  /** From the loop start, the position after `n` ticks is the start plus `n`
      modulo the loop length. */
  lemma {:induction false} AdvanceCycles(loop: Loop, n: nat)
    requires loop.enabled && loop.start < loop.end
    ensures AdvanceN(loop.start, loop, n) == loop.start + n % (loop.end - loop.start)
  {
    var len := loop.end - loop.start;
    if n == 0 {
    } else {
      AdvanceCycles(loop, n - 1);
      var q, r := (n - 1) / len, (n - 1) % len;
      assert n - 1 == q * len + r;
      var t := AdvanceN(loop.start, loop, n - 1);
      assert t == loop.start + r;
      assert AdvanceN(loop.start, loop, n) == Advance(t, loop);
      if r + 1 < len {
        RemainderUnique(n, len, q, r + 1);
      } else {
        assert n == (q + 1) * len + 0;
        RemainderUnique(n, len, q + 1, 0);
      }
    }
  }

  /** subscribeToTick: a function not yet subscribed is appended. */
  function Subscribed(listeners: seq<nat>, cb: Callback): (r: seq<nat>)
    ensures cb.FunctionValue? && cb.id !in listeners ==> r == listeners + [cb.id]
    ensures !(cb.FunctionValue? && cb.id !in listeners) ==> r == listeners
  {
    if cb.FunctionValue? && cb.id !in listeners then listeners + [cb.id] else listeners
  }

  /** Whether `cb` is the listener `x` (`listener !== callback` is false). */
  predicate Is(cb: Callback, x: nat) {
    cb.FunctionValue? && cb.id == x
  }

  /** unsubscribeFromTick: `filter(listener => listener !== callback)`. */
  function Unsubscribed(listeners: seq<nat>, cb: Callback): (r: seq<nat>)
    ensures |r| <= |listeners|
    ensures forall x :: x in r <==> x in listeners && !Is(cb, x)
  {
    if |listeners| == 0 then []
    else
      var last := listeners[|listeners| - 1];
      Unsubscribed(listeners[..|listeners| - 1], cb) + (if Is(cb, last) then [] else [last])
  }

  lemma SubscribedNoDuplicates(listeners: seq<nat>, cb: Callback)
    requires NoDuplicates(listeners)
    ensures NoDuplicates(Subscribed(listeners, cb))
    ensures cb.FunctionValue? ==> cb.id in Subscribed(listeners, cb)
  {
  }

  /** Subscribing twice is subscribing once. */
  lemma SubscribedIdempotent(listeners: seq<nat>, cb: Callback)
    ensures Subscribed(Subscribed(listeners, cb), cb) == Subscribed(listeners, cb)
  {
  }

  /** Filtering keeps the survivors in order, so no duplicate appears. */
  lemma {:induction false} UnsubscribedNoDuplicates(listeners: seq<nat>, cb: Callback)
    requires NoDuplicates(listeners)
    ensures NoDuplicates(Unsubscribed(listeners, cb))
  {
    if |listeners| > 0 {
      var init := listeners[..|listeners| - 1];
      var last := listeners[|listeners| - 1];
      assert NoDuplicates(init);
      UnsubscribedNoDuplicates(init, cb);
      assert last !in init;
    }
  }

  /** Removing a listener that is not there changes nothing. */
  lemma {:induction false} UnsubscribedAbsent(listeners: seq<nat>, cb: Callback)
    requires forall x :: x in listeners ==> !Is(cb, x)
    ensures Unsubscribed(listeners, cb) == listeners
  {
    if |listeners| > 0 {
      var init := listeners[..|listeners| - 1];
      UnsubscribedAbsent(init, cb);
      assert listeners == init + [listeners[|listeners| - 1]];
    }
  }

  /** Subscribing a new function and unsubscribing it again restores the
      listener list. */
  lemma SubscribeThenUnsubscribe(listeners: seq<nat>, id: nat)
    requires id !in listeners
    ensures Unsubscribed(Subscribed(listeners, FunctionValue(id)), FunctionValue(id)) == listeners
  {
    var cb := FunctionValue(id);
    var s := listeners + [id];
    assert s[..|s| - 1] == listeners;
    UnsubscribedAbsent(listeners, cb);
  }

  // ---------------------------------------------------------------------
  // The module state

  class Transport {
    var playing: bool
    var currentTick: int
    var bpm: int
    var loop: Loop
    var tickListeners: seq<nat>
    /** `timerHandle !== null`. */
    var timerRunning: bool

    /** A timer runs exactly while playing, and no listener is held twice. */
    predicate Valid()
      reads this
    {
      timerRunning == playing && NoDuplicates(tickListeners)
    }

    /** The initial values of the module variables. */
    constructor()
      ensures Valid()
      ensures !playing && currentTick == 0 && bpm == DefaultBpm
      ensures loop == DefaultLoop && tickListeners == []
    {
      playing := false;
      currentTick := 0;
      bpm := DefaultBpm;
      loop := DefaultLoop;
      tickListeners := [];
      timerRunning := false;
    }

    /** play: starts the timer unless already playing. */
    method Play()
      requires Valid()
      modifies this
      ensures Valid() && playing
      ensures old(playing) ==> unchanged(this)
      ensures currentTick == old(currentTick) && bpm == old(bpm) && loop == old(loop)
      ensures tickListeners == old(tickListeners)
    {
      if playing {
        return;
      }
      playing := true;
      timerRunning := true;
    }

    /** pause: stops the timer and keeps the position. */
    method Pause()
      requires Valid()
      modifies this
      ensures Valid() && !playing
      ensures currentTick == old(currentTick) && bpm == old(bpm) && loop == old(loop)
      ensures tickListeners == old(tickListeners)
    {
      playing := false;
      timerRunning := false;
    }

    /** stop: stops the timer and rewinds to tick 0. */
    method Stop()
      requires Valid()
      modifies this
      ensures Valid() && !playing && currentTick == 0
      ensures bpm == old(bpm) && loop == old(loop) && tickListeners == old(tickListeners)
    {
      playing := false;
      timerRunning := false;
      SetPosition(0);
    }

    function IsPlaying(): bool
      reads this
    {
      playing
    }

    /** setBpm: clamps the tempo; a running timer is restarted, so it keeps
        running. */
    method SetBpm(newBpm: int)
      requires Valid()
      modifies this
      ensures Valid() && bpm == Tempo(newBpm)
      ensures playing == old(playing) && currentTick == old(currentTick)
      ensures loop == old(loop) && tickListeners == old(tickListeners)
    {
      bpm := Tempo(newBpm);
      if playing {
        timerRunning := false;
        timerRunning := true;
      }
    }

    method SetLoop(loopParams: LoopParams)
      requires Valid()
      modifies this
      ensures Valid() && loop == MergeLoop(old(loop), loopParams)
      ensures playing == old(playing) && currentTick == old(currentTick) && bpm == old(bpm)
      ensures tickListeners == old(tickListeners)
    {
      loop := MergeLoop(loop, loopParams);
    }

    function GetCurrentTick(): int
      reads this
    {
      currentTick
    }

    method SetPosition(tick: int)
      modifies this
      ensures currentTick == Position(tick)
      ensures playing == old(playing) && timerRunning == old(timerRunning) && bpm == old(bpm)
      ensures loop == old(loop) && tickListeners == old(tickListeners)
    {
      currentTick := Position(tick);
    }

    method SubscribeToTick(callback: Callback)
      requires Valid()
      modifies this
      ensures Valid() && tickListeners == Subscribed(old(tickListeners), callback)
      ensures playing == old(playing) && currentTick == old(currentTick)
      ensures bpm == old(bpm) && loop == old(loop)
    {
      SubscribedNoDuplicates(tickListeners, callback);
      if callback.FunctionValue? && callback.id !in tickListeners {
        tickListeners := tickListeners + [callback.id];
      }
    }

    method UnsubscribeFromTick(callback: Callback)
      requires Valid()
      modifies this
      ensures Valid() && tickListeners == Unsubscribed(old(tickListeners), callback)
      ensures playing == old(playing) && currentTick == old(currentTick)
      ensures bpm == old(bpm) && loop == old(loop)
    {
      UnsubscribedNoDuplicates(tickListeners, callback);
      tickListeners := Unsubscribed(tickListeners, callback);
    }

    /** One firing of the playback timer. */
    method AdvanceTick()
      requires Valid()
      modifies this
      ensures Valid() && currentTick == Advance(old(currentTick), loop)
      ensures playing == old(playing) && bpm == old(bpm) && loop == old(loop)
      ensures tickListeners == old(tickListeners)
    {
      currentTick := currentTick + 1;
      if loop.enabled && currentTick >= loop.end {
        currentTick := loop.start;
      }
    }
  }
}

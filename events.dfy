/**
 * The event-drain loop of `LLDBController.processPendingEvents`, as a
 * function of what the process listener will yield.
 *
 * The listener is a FIFO queue of process states with peek, consume and a
 * bounded wait. What a wait yields is not under the controller's control,
 * so it is given as a finite list of arrivals: each wait on an empty queue
 * takes the next arrival. Once the list is used up every wait times out.
 */
module Events {
  import opened Wrappers
  import opened States

  /** What one bounded wait on an empty queue yields. */
  datatype Arrival =
      /** An event arrives within the wait and is taken by it; `burst` is
          what has been queued behind it by the time of the next peek. */
    | Delivered(state: StateType, burst: seq<StateType>)
      /** Nothing arrives within the wait. */
    | TimedOut

  /** Everything a listener will yield: the events queued now, the arrivals
      later waits take, and the state the engine reports from the reused
      event after a wait that timed out (engine-defined, so left abstract). */
  datatype EventScript = EventScript(queue: seq<StateType>, arrivals: seq<Arrival>, timeoutReport: StateType)

  /** The outcome of one drain: events handled (a wait counts as one even
      when it times out), the last state read, how many times the process
      was continued, and what is left on the listener. */
  datatype Drained = Drained(handled: nat, newState: Option<StateType>, continues: nat, rest: EventScript)

  /** The protocol rule: a Stopped event while the drain began in Attaching
      makes the controller continue the process. */
  function AutoContinue(oldState: StateType, state: StateType): nat
  {
    if oldState == Attaching && state == Stopped then 1 else 0
  }

  /** The drain loop, from a point where `handled` events were handled, the
      last state read is `newState` and the process was continued
      `continues` times. `oldState` is read once, before the loop. */
  function DrainFrom(oldState: StateType, wait: int, script: EventScript,
                     handled: nat, newState: Option<StateType>, continues: nat): (r: Drained)
    ensures handled <= r.handled
    ensures continues <= r.continues <= continues + (r.handled - handled)
    ensures r.handled == handled ==> r.newState == newState && r.rest == script
    ensures r.handled > handled ==> r.newState.Some?
    decreases |script.arrivals|, |script.queue|
  {
    if script.queue != [] then
      // peek finds an event: consume it, maybe continue, count it
      var s := script.queue[0];
      DrainFrom(oldState, wait, script.(queue := script.queue[1..]),
                handled + 1, Some(s), continues + AutoContinue(oldState, s))
    else if wait <= 0 then
      // nothing queued and no waiting allowed: the re-peek ends the loop
      Drained(handled, newState, continues, script)
    else if script.arrivals == [] then
      Drained(handled + 1, Some(script.timeoutReport), continues, script)
    else if script.arrivals[0].TimedOut? then
      Drained(handled + 1, Some(script.timeoutReport), continues, script.(arrivals := script.arrivals[1..]))
    else
      // the wait takes the arriving event (never auto-continued) and the
      // re-peek decides whether the loop goes on
      var a := script.arrivals[0];
      var next := script.(queue := a.burst, arrivals := script.arrivals[1..]);
      if a.burst == [] then Drained(handled + 1, Some(a.state), continues, next)
      else DrainFrom(oldState, wait, next, handled + 1, Some(a.state), continues)
  }

  /** One complete drain of a listener, entered in state `oldState`. */
  function Drain(oldState: StateType, wait: int, script: EventScript): (r: Drained)
    ensures r.continues <= r.handled
    ensures r.handled == 0 <==> r.newState.None?
    ensures r.handled == 0 ==> r.rest == script
  {
    DrainFrom(oldState, wait, script, 0, None, 0)
  }

  /** The whole of processPendingEvents' bookkeeping: no drain at all when
      there is no process, when it is in a "boring" state (Invalid or
      Exited) or when there is no listener. */
  function Reconcile(oldState: Option<StateType>, listening: bool, wait: int, script: EventScript): (r: Drained)
    ensures r.continues <= r.handled
    ensures r.handled == 0 <==> r.newState.None?
    ensures r.handled == 0 ==> r.rest == script
  {
    if oldState.None? || oldState.value == Invalid || oldState.value == Exited || !listening then
      Drained(0, None, 0, script)
    else
      Drain(oldState.value, wait, script)
  }

  /** What the drain tells the UI: nothing, or one update with a status. */
  datatype Notice = Silent | Refresh(status: Option<string>)

  /** One update exactly when an event was handled; its status is "" when
      the last state read equals the state the drain began in, else None. */
  function NoticeOf(oldState: Option<StateType>, d: Drained): Notice
  {
    if d.handled == 0 then Silent
    else Refresh(if oldState.Some? && d.newState == oldState then Some("") else None)
  }

  // ---------------------------------------------------------------------
  // A closed form of the drain, independent of the loop's structure.

  /** How many Continues a sequence of consumed events earns. */
  function Continues(oldState: StateType, events: seq<StateType>): nat
  {
    if oldState == Attaching then multiset(events)[Stopped] else 0
  }

  function LastOf(events: seq<StateType>, otherwise: Option<StateType>): Option<StateType>
  {
    if events == [] then otherwise else Some(events[|events| - 1])
  }

  /** The number of waits a drain performs once its queue is empty: it keeps
      waiting while each arriving event has others queued behind it. */
  function Waits(arrivals: seq<Arrival>): (n: nat)
    ensures n >= 1
  {
    if arrivals == [] || arrivals[0].TimedOut? || arrivals[0].burst == [] then 1
    else 1 + Waits(arrivals[1..])
  }

  /** The number of arrivals those waits take. */
  function Taken(arrivals: seq<Arrival>): (n: nat)
    ensures n <= |arrivals|
    ensures arrivals != [] ==> n >= 1
  {
    if arrivals == [] then 0
    else if arrivals[0].TimedOut? || arrivals[0].burst == [] then 1
    else 1 + Taken(arrivals[1..])
  }

  /** The events queued behind the given arrivals, in order. */
  function Bursts(arrivals: seq<Arrival>): seq<StateType>
  {
    if arrivals == [] then []
    else (if arrivals[0].Delivered? then arrivals[0].burst else []) + Bursts(arrivals[1..])
  }

  lemma {:induction false} ContinuesAppend(oldState: StateType, a: seq<StateType>, b: seq<StateType>)
    ensures Continues(oldState, a + b) == Continues(oldState, a) + Continues(oldState, b)
  {
    assert multiset(a + b) == multiset(a) + multiset(b);
  }

  /** Events already queued are consumed first, one by one, whatever the
      wait budget. */
  lemma {:induction false} QueueFirst(oldState: StateType, wait: int, script: EventScript,
                                      handled: nat, newState: Option<StateType>, continues: nat)
    ensures DrainFrom(oldState, wait, script, handled, newState, continues)
         == DrainFrom(oldState, wait, script.(queue := []), handled + |script.queue|,
                      LastOf(script.queue, newState), continues + Continues(oldState, script.queue))
    decreases |script.queue|
  {
    var q := script.queue;
    if q != [] {
      var s := q[0];
      QueueFirst(oldState, wait, script.(queue := q[1..]), handled + 1, Some(s),
                 continues + AutoContinue(oldState, s));
      assert q == [s] + q[1..];
      ContinuesAppend(oldState, [s], q[1..]);
      assert script.(queue := q[1..]).(queue := []) == script.(queue := []);
    }
  }

  /** Without a wait budget the drain handles exactly the queued events:
      it ends on the last one and continues once per Stopped among them
      when it began in Attaching. */
  lemma NoWaitDrain(oldState: StateType, wait: int, script: EventScript)
    requires wait <= 0
    ensures Drain(oldState, wait, script)
         == Drained(|script.queue|, LastOf(script.queue, None),
                    Continues(oldState, script.queue), script.(queue := []))
  {
    QueueFirst(oldState, wait, script, 0, None, 0);
  }

  /** How Waits, Taken and Bursts unfold over an arrival that brings a burst. */
  lemma TakenStep(arr: seq<Arrival>)
    requires arr != [] && arr[0].Delivered? && arr[0].burst != []
    ensures var t' := Taken(arr[1..]);
      && Taken(arr) == 1 + t'
      && Waits(arr) == 1 + Waits(arr[1..])
      && Bursts(arr[..Taken(arr)]) == arr[0].burst + Bursts(arr[1..][..t'])
      && arr[Taken(arr)..] == arr[1..][t'..]
  {
    var t' := Taken(arr[1..]);
    var p := arr[..1 + t'];
    assert p[0] == arr[0];
    assert p[1..] == arr[1..][..t'];
  }

  /** ... and over an arrival after which the loop stops. */
  lemma TakenLast(arr: seq<Arrival>)
    requires arr != [] && (arr[0].TimedOut? || arr[0].burst == [])
    ensures Taken(arr) == 1 && Waits(arr) == 1 && Bursts(arr[..1]) == []
  {
    assert arr[..1] == [arr[0]];
    assert Bursts(arr[..1]) == (if arr[0].Delivered? then arr[0].burst else []) + Bursts([]);
  }

  /** With a wait budget and an empty queue, the drain waits as long as
      arrivals bring further events, takes those arrivals, and handles each
      wait (even one that timed out) plus every event queued behind them.
      Only the queued events can cause a Continue, never a waited-for one. */
  lemma {:induction false} WaitingDrainFrom(oldState: StateType, wait: int, script: EventScript,
                                            handled: nat, newState: Option<StateType>, continues: nat)
    requires wait > 0 && script.queue == []
    ensures var d := DrainFrom(oldState, wait, script, handled, newState, continues);
      var t := Taken(script.arrivals);
      var b := Bursts(script.arrivals[..t]);
      && d.handled == handled + Waits(script.arrivals) + |b|
      && d.continues == continues + Continues(oldState, b)
      && d.rest == EventScript([], script.arrivals[t..], script.timeoutReport)
    decreases |script.arrivals|
  {
    var arr := script.arrivals;
    if arr == [] {
    } else if arr[0].TimedOut? || arr[0].burst == [] {
      TakenLast(arr);
    } else {
      WaitingStep(oldState, wait, script, handled, newState, continues);
    }
  }

  /** The recursive case of WaitingDrainFrom. */
  lemma {:induction false} WaitingStep(oldState: StateType, wait: int, script: EventScript,
                                       handled: nat, newState: Option<StateType>, continues: nat)
    requires wait > 0 && script.queue == []
    requires script.arrivals != [] && script.arrivals[0].Delivered? && script.arrivals[0].burst != []
    ensures var d := DrainFrom(oldState, wait, script, handled, newState, continues);
      var t := Taken(script.arrivals);
      var b := Bursts(script.arrivals[..t]);
      && d.handled == handled + Waits(script.arrivals) + |b|
      && d.continues == continues + Continues(oldState, b)
      && d.rest == EventScript([], script.arrivals[t..], script.timeoutReport)
    decreases |script.arrivals|, 0
  {
    var arr := script.arrivals;
    var a := arr[0];
    var next := script.(queue := a.burst, arrivals := arr[1..]);
    var h1, c1 := handled + 1 + |a.burst|, continues + Continues(oldState, a.burst);
    var ns1 := LastOf(a.burst, Some(a.state));
    var d := DrainFrom(oldState, wait, script, handled, newState, continues);
    assert d == DrainFrom(oldState, wait, next, handled + 1, Some(a.state), continues);
    QueueFirst(oldState, wait, next, handled + 1, Some(a.state), continues);
    assert next.(queue := []) == EventScript([], arr[1..], script.timeoutReport);
    assert d == DrainFrom(oldState, wait, next.(queue := []), h1, ns1, c1);
    WaitingDrainFrom(oldState, wait, next.(queue := []), h1, ns1, c1);
    TakenStep(arr);
    ContinuesAppend(oldState, a.burst, Bursts(arr[1..][..Taken(arr[1..])]));
  }

  /** The closed form of a drain that may wait: queued events first, then
      the waits and the events queued behind the arrivals they take. */
  lemma WaitingDrain(oldState: StateType, wait: int, script: EventScript)
    requires wait > 0
    ensures var d := Drain(oldState, wait, script);
      var t := Taken(script.arrivals);
      var b := Bursts(script.arrivals[..t]);
      && d.handled == |script.queue| + Waits(script.arrivals) + |b|
      && d.continues == Continues(oldState, script.queue + b)
      && d.rest == EventScript([], script.arrivals[t..], script.timeoutReport)
  {
    QueueFirst(oldState, wait, script, 0, None, 0);
    WaitingDrainFrom(oldState, wait, script.(queue := []), |script.queue|,
                     LastOf(script.queue, None), Continues(oldState, script.queue));
    ContinuesAppend(oldState, script.queue, Bursts(script.arrivals[..Taken(script.arrivals)]));
  }

  /** A drain handles nothing exactly when it may not wait and nothing is
      queued; in particular a drain allowed to wait always handles one. */
  lemma DrainIdle(oldState: StateType, wait: int, script: EventScript)
    ensures Drain(oldState, wait, script).handled == 0 <==> wait <= 0 && script.queue == []
    ensures wait > 0 ==> Drain(oldState, wait, script).handled >= |script.queue| + 1
  {
    if wait <= 0 {
      NoWaitDrain(oldState, wait, script);
    } else {
      WaitingDrain(oldState, wait, script);
    }
  }

  /** Only a drain that began in Attaching ever continues the process, and
      never more often than it handled events. */
  lemma DrainContinuesOnlyAfterAttach(oldState: StateType, wait: int, script: EventScript)
    ensures var d := Drain(oldState, wait, script);
      && (oldState != Attaching ==> d.continues == 0)
      && d.continues <= d.handled
  {
    var d := Drain(oldState, wait, script);
    if wait <= 0 {
      NoWaitDrain(oldState, wait, script);
      assert multiset(script.queue)[Stopped] <= |multiset(script.queue)|;
    } else {
      WaitingDrain(oldState, wait, script);
      var b := Bursts(script.arrivals[..Taken(script.arrivals)]);
      assert multiset(script.queue + b)[Stopped] <= |multiset(script.queue + b)|;
    }
  }

  /** processPendingEvents never updates the UI when there is no process,
      when the process is Invalid or Exited, when there is no listener, or
      when it may not wait and nothing is queued; otherwise it updates once. */
  lemma ReconcileSilent(oldState: Option<StateType>, listening: bool, wait: int, script: EventScript)
    ensures NoticeOf(oldState, Reconcile(oldState, listening, wait, script)).Silent?
        <==> (|| oldState.None? || oldState.value == Invalid || oldState.value == Exited
              || !listening || (wait <= 0 && script.queue == []))
  {
    if oldState.Some? {
      DrainIdle(oldState.value, wait, script);
    }
  }

  /** When the UI is updated, the status is "" exactly when the last state
      read is the state the drain began in, and None otherwise. */
  lemma ReconcileStatus(oldState: Option<StateType>, listening: bool, wait: int, script: EventScript)
    requires NoticeOf(oldState, Reconcile(oldState, listening, wait, script)).Refresh?
    ensures var d := Reconcile(oldState, listening, wait, script);
      && oldState.Some? && d.newState.Some?
      && NoticeOf(oldState, d).status == (if d.newState.value == oldState.value then Some("") else None)
  {
  }
}

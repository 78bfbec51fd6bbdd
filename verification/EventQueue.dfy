/**
 The event queue as a concurrent protocol: any number of enqueuers, blocking waiters and pollers, and one
 asynchronous waiter, interleaved step by step. The queue's mutex is held over one step, except by a poll that
 finds the queue empty: it keeps the mutex until it has left its waker.
 */
module EventQueues {
  import opened Types

  /** Variants of the protocol; the source's is `Protocol(true, true)`. */
  datatype Protocol = Protocol(
    registersUnderLock: bool, // a poll leaves its waker before it lets go of the queue
    notifiesRest: bool)       // a blocking waiter that leaves events behind passes the notification on

  datatype Thread<E> =
    | Pushing(event: E) // in `enqueue`, before the push
    | WakingTask        // before taking the waker, with a notification to follow
    | Notifying         // before notifying the condition variable
    | Waiting           // in `wait_next_event`, before the first look at the queue
    | Asleep            // blocked on the condition variable
    | Woken             // notified, or woken for no reason; about to look at the queue again

  datatype Task = Idle | Polling | Registering | Parked

  datatype Kind = APushing | AWaking | ANotifying | AWaiting | AnAsleep | AWoken

  function KindOf<E>(thread: Thread<E>): Kind {
    match thread
    case Pushing(_) => APushing
    case WakingTask => AWaking
    case Notifying => ANotifying
    case Waiting => AWaiting
    case Asleep => AnAsleep
    case Woken => AWoken
  }

  type ThreadId = nat

  datatype State<E> = State(
    queue: seq<E>,
    threads: map<ThreadId, Thread<E>>,
    task: Task,
    future: nat,        // which call of `next_event_async` the task is
    woken: bool,        // this future has been woken since it was last polled
    waker: Option<nat>, // the future whose waker is in the slot; it may have been cancelled
    pushed: seq<E>,     // everything enqueued so far
    received: seq<E>)   // everything handed out so far, to whomever

  function Start<E>(): State<E> { State([], map[], Idle, 0, false, None, [], []) }

  datatype Step<E> =
    // calls from outside
    | Enqueue(thread: ThreadId, event: E)
    | WaitNextEvent(thread: ThreadId)
    | NextEvent
    | GetAndClear
    | NextEventAsync
    | Cancel
    // for no reason
    | SpuriousWakeup(thread: ThreadId)
    | SpuriousPoll
    // the protocol itself
    | Push(thread: ThreadId)
    | TakeWaker(thread: ThreadId)
    | NotifyOne(thread: ThreadId, sleeper: Option<ThreadId>)
    | Look(thread: ThreadId)
    | Repoll
    | Poll
    | Register

  predicate Internal<E>(step: Step<E>) {
    step.Push? || step.TakeWaker? || step.NotifyOne? || step.Look? || step.Repoll? || step.Poll? || step.Register?
  }

  predicate LockFree<E>(p: Protocol, s: State<E>) { !(p.registersUnderLock && s.task.Registering?) }

  predicate At<E>(s: State<E>, t: ThreadId, kind: Kind) { t in s.threads && KindOf(s.threads[t]) == kind }

  predicate NoSleeper<E>(s: State<E>) { forall t :: t in s.threads ==> KindOf(s.threads[t]) != AnAsleep }

  predicate Enabled<E>(p: Protocol, s: State<E>, step: Step<E>) {
    match step
    case Enqueue(t, _) => t !in s.threads
    case WaitNextEvent(t) => t !in s.threads
    case NextEvent => LockFree(p, s)
    case GetAndClear => LockFree(p, s)
    case NextEventAsync => s.task.Idle?
    case Cancel => s.task.Parked?
    case SpuriousWakeup(t) => At(s, t, AnAsleep)
    case SpuriousPoll => s.task.Parked?
    case Push(t) => At(s, t, APushing) && LockFree(p, s)
    case TakeWaker(t) => At(s, t, AWaking)
    case NotifyOne(t, None) => At(s, t, ANotifying) && NoSleeper(s)
    case NotifyOne(t, Some(u)) => At(s, t, ANotifying) && At(s, u, AnAsleep)
    case Look(t) => (At(s, t, AWaiting) || At(s, t, AWoken)) && LockFree(p, s)
    case Repoll => s.task.Parked? && s.woken
    case Poll => s.task.Polling? && LockFree(p, s)
    case Register => s.task.Registering?
  }

  /** The first event is handed out. */
  function Popped<E>(s: State<E>): State<E>
    requires s.queue != []
  {
    s.(queue := s.queue[1..], received := s.received + [s.queue[0]])
  }

  function Do<E>(p: Protocol, s: State<E>, step: Step<E>): State<E>
    requires Enabled(p, s, step)
  {
    match step
    case Enqueue(t, event) => s.(threads := s.threads[t := Pushing(event)])
    case WaitNextEvent(t) => s.(threads := s.threads[t := Waiting])
    case NextEvent => if s.queue == [] then s else Popped(s)
    case GetAndClear => s.(queue := [], received := s.received + s.queue)
    case NextEventAsync => s.(task := Polling, future := s.future + 1, woken := false)
    case Cancel => s.(task := Idle)
    case SpuriousWakeup(t) => s.(threads := s.threads[t := Woken])
    case SpuriousPoll => s.(task := Polling, woken := false)
    case Push(t) =>
      var event := s.threads[t].event;
      s.(queue := s.queue + [event], pushed := s.pushed + [event], threads := s.threads[t := WakingTask])
    case TakeWaker(t) =>
      s.(waker := None, woken := s.woken || s.waker == Some(s.future), threads := s.threads[t := Notifying])
    case NotifyOne(t, None) => s.(threads := s.threads - {t})
    case NotifyOne(t, Some(u)) => s.(threads := s.threads[u := Woken] - {t})
    case Look(t) =>
      if s.queue == [] then s.(threads := s.threads[t := Asleep])
      else if p.notifiesRest && |s.queue| > 1 then Popped(s).(threads := s.threads[t := WakingTask])
      else Popped(s).(threads := s.threads - {t})
    case Repoll => s.(task := Polling, woken := false)
    case Poll => if s.queue == [] then s.(task := Registering) else Popped(s).(task := Idle)
    case Register => s.(waker := Some(s.future), task := Parked)
  }

  /** The state that a sequence of steps leads to, if each of them was enabled. */
  function Run<E>(p: Protocol, steps: seq<Step<E>>): Option<State<E>> {
    if steps == [] then Some(Start())
    else
      var s := Run(p, steps[..|steps| - 1]);
      if s.Some? && Enabled(p, s.value, steps[|steps| - 1]) then Some(Do(p, s.value, steps[|steps| - 1])) else None
  }

  // ---- Counting threads ----

  function Those<E>(threads: map<ThreadId, Thread<E>>, kind: Kind): set<ThreadId> {
    set t | t in threads && KindOf(threads[t]) == kind
  }

  function Count<E>(threads: map<ThreadId, Thread<E>>, kind: Kind): nat { |Those(threads, kind)| }

  function Is(a: Kind, b: Kind): nat { if a == b then 1 else 0 }

  lemma {:induction false} CountAdded<E>(threads: map<ThreadId, Thread<E>>, t: ThreadId, thread: Thread<E>, kind: Kind)
    requires t !in threads
    ensures Count(threads[t := thread], kind) == Count(threads, kind) + Is(KindOf(thread), kind)
  {
    var before, after := Those(threads, kind), Those(threads[t := thread], kind);
    assert after == before + if KindOf(thread) == kind then {t} else {};
  }

  lemma {:induction false} CountRemoved<E>(threads: map<ThreadId, Thread<E>>, t: ThreadId, kind: Kind)
    requires t in threads
    ensures Count(threads - {t}, kind) == Count(threads, kind) - Is(KindOf(threads[t]), kind)
  {
    var rest := threads - {t};
    assert rest[t := threads[t]] == threads;
    CountAdded(rest, t, threads[t], kind);
  }

  lemma {:induction false} CountChanged<E>(
    threads: map<ThreadId, Thread<E>>, t: ThreadId, thread: Thread<E>, kind: Kind)
    requires t in threads
    ensures Count(threads[t := thread], kind) ==
            Count(threads, kind) - Is(KindOf(threads[t]), kind) + Is(KindOf(thread), kind)
  {
    CountRemoved(threads, t, kind);
    CountAdded(threads - {t}, t, thread, kind);
    assert (threads - {t})[t := thread] == threads[t := thread];
  }

  lemma {:induction false} CountPositive<E>(s: State<E>, t: ThreadId, kind: Kind)
    requires At(s, t, kind)
    ensures Count(s.threads, kind) > 0
  {
    assert t in Those(s.threads, kind);
  }

  lemma {:induction false} NobodyAt<E>(s: State<E>, kind: Kind)
    ensures Count(s.threads, kind) == 0 <==> forall t :: !At(s, t, kind)
  {
    if Count(s.threads, kind) == 0 {
      forall t
        ensures !At(s, t, kind)
      {
        assert t !in Those(s.threads, kind);
      }
    } else {
      var t :| t in Those(s.threads, kind);
      assert At(s, t, kind);
    }
  }

  /** How a step changes the number of threads of every kind. */
  function Change<E>(s: State<E>, next: State<E>, kind: Kind): int {
    Count(next.threads, kind) - Count(s.threads, kind)
  }

  lemma {:induction false} EnqueueCounts<E>(p: Protocol, s: State<E>, step: Step<E>, kind: Kind)
    requires Enabled(p, s, step) && (step.Enqueue? || step.WaitNextEvent?)
    ensures Change(s, Do(p, s, step), kind) == Is(if step.Enqueue? then APushing else AWaiting, kind)
  {
    CountAdded(s.threads, step.thread, if step.Enqueue? then Pushing(step.event) else Waiting, kind);
  }

  lemma {:induction false} PushCounts<E>(p: Protocol, s: State<E>, step: Step<E>, kind: Kind)
    requires Enabled(p, s, step) && (step.Push? || step.TakeWaker? || step.SpuriousWakeup?)
    ensures Change(s, Do(p, s, step), kind) ==
            if step.Push? then Is(AWaking, kind) - Is(APushing, kind)
            else if step.TakeWaker? then Is(ANotifying, kind) - Is(AWaking, kind)
            else Is(AWoken, kind) - Is(AnAsleep, kind)
  {
    var thread := if step.Push? then WakingTask else if step.TakeWaker? then Notifying else Woken;
    CountChanged(s.threads, step.thread, thread, kind);
  }

  lemma {:induction false} NotifyCounts<E>(p: Protocol, s: State<E>, step: Step<E>, kind: Kind)
    requires Enabled(p, s, step) && step.NotifyOne?
    ensures Change(s, Do(p, s, step), kind) ==
            (if step.sleeper.Some? then Is(AWoken, kind) - Is(AnAsleep, kind) else 0) - Is(ANotifying, kind)
  {
    if step.sleeper.Some? {
      CountChanged(s.threads, step.sleeper.value, Woken, kind);
      CountRemoved(s.threads[step.sleeper.value := Woken], step.thread, kind);
    } else {
      CountRemoved(s.threads, step.thread, kind);
    }
  }

  lemma {:induction false} LookCounts<E>(p: Protocol, s: State<E>, step: Step<E>, kind: Kind)
    requires Enabled(p, s, step) && step.Look?
    ensures Change(s, Do(p, s, step), kind) ==
            (if s.queue == [] then Is(AnAsleep, kind)
             else if p.notifiesRest && |s.queue| > 1 then Is(AWaking, kind) else 0)
            - Is(KindOf(s.threads[step.thread]), kind)
  {
    if s.queue == [] {
      CountChanged(s.threads, step.thread, Asleep, kind);
    } else if p.notifiesRest && |s.queue| > 1 {
      CountChanged(s.threads, step.thread, WakingTask, kind);
    } else {
      CountRemoved(s.threads, step.thread, kind);
    }
  }

  /** What the step does to the number of threads of one kind. */
  function Effect<E>(p: Protocol, s: State<E>, step: Step<E>, kind: Kind): int
    requires Enabled(p, s, step)
  {
    match step
    case Enqueue(_, _) => Is(APushing, kind)
    case WaitNextEvent(_) => Is(AWaiting, kind)
    case SpuriousWakeup(_) => Is(AWoken, kind) - Is(AnAsleep, kind)
    case Push(_) => Is(AWaking, kind) - Is(APushing, kind)
    case TakeWaker(_) => Is(ANotifying, kind) - Is(AWaking, kind)
    case NotifyOne(_, u) => (if u.Some? then Is(AWoken, kind) - Is(AnAsleep, kind) else 0) - Is(ANotifying, kind)
    case Look(t) =>
      (if s.queue == [] then Is(AnAsleep, kind)
       else if p.notifiesRest && |s.queue| > 1 then Is(AWaking, kind) else 0)
      - Is(KindOf(s.threads[t]), kind)
    case _ => 0
  }

  lemma {:induction false} StepCounts<E>(p: Protocol, s: State<E>, step: Step<E>, kind: Kind)
    requires Enabled(p, s, step)
    ensures Change(s, Do(p, s, step), kind) == Effect(p, s, step, kind)
  {
    match step
    case Enqueue(_, _) => EnqueueCounts(p, s, step, kind);
    case WaitNextEvent(_) => EnqueueCounts(p, s, step, kind);
    case SpuriousWakeup(_) => PushCounts(p, s, step, kind);
    case Push(_) => PushCounts(p, s, step, kind);
    case TakeWaker(_) => PushCounts(p, s, step, kind);
    case NotifyOne(_, _) => NotifyCounts(p, s, step, kind);
    case Look(_) => LookCounts(p, s, step, kind);
    case _ =>
  }

  // ---- The invariants ----

  /** Nothing is lost, duplicated or reordered. */
  predicate HistoryKept<E(==)>(s: State<E>) { s.pushed == s.received + s.queue }

  /** The notifications on their way, and the waiters awake after one. */
  function OnTheirWay<E>(threads: map<ThreadId, Thread<E>>): nat {
    Count(threads, AWaking) + Count(threads, ANotifying) + Count(threads, AWoken)
  }

  /** As long as a waiter sleeps, somebody is on the way for every queued event. */
  predicate SleepersCovered<E>(s: State<E>) {
    Count(s.threads, AnAsleep) > 0 ==> |s.queue| <= OnTheirWay(s.threads)
  }

  /** A parked task that was not woken has left its waker, and somebody is about to take it if there is an event. */
  predicate TaskCovered<E>(s: State<E>) {
    && (s.task.Registering? ==> s.queue == [])
    && (s.task.Parked? && !s.woken ==> s.waker == Some(s.future) && (s.queue != [] ==> Count(s.threads, AWaking) > 0))
  }

  lemma {:induction false} StepKeepsHistory<E>(p: Protocol, s: State<E>, step: Step<E>)
    requires Enabled(p, s, step) && HistoryKept(s)
    ensures HistoryKept(Do(p, s, step))
  {
    if s.queue != [] {
      assert s.queue == [s.queue[0]] + s.queue[1..];
    }
  }

  lemma {:induction false} AllCounts<E>(p: Protocol, s: State<E>, step: Step<E>, next: State<E>)
    requires Enabled(p, s, step) && next == Do(p, s, step)
    ensures forall kind :: Count(next.threads, kind) == Count(s.threads, kind) + Effect(p, s, step, kind)
  {
    forall kind
      ensures Count(next.threads, kind) == Count(s.threads, kind) + Effect(p, s, step, kind)
    {
      StepCounts(p, s, step, kind);
    }
  }

  lemma {:induction false} StepKeepsSleepersCovered<E>(p: Protocol, s: State<E>, step: Step<E>)
    requires Enabled(p, s, step) && SleepersCovered(s)
    ensures SleepersCovered(Do(p, s, step))
  {
    var next := Do(p, s, step);
    AllCounts(p, s, step, next);
    if step.NotifyOne? && step.sleeper.None? {
      NobodyAt(s, AnAsleep);
    }
    if step.NotifyOne? && step.sleeper.Some? {
      CountPositive(s, step.sleeper.value, AnAsleep);
    }
    if step.SpuriousWakeup? {
      CountPositive(s, step.thread, AnAsleep);
    }
  }

  lemma {:induction false} StepKeepsTaskCovered<E>(p: Protocol, s: State<E>, step: Step<E>)
    requires Enabled(p, s, step) && p.registersUnderLock && TaskCovered(s)
    ensures TaskCovered(Do(p, s, step))
  {
    var next := Do(p, s, step);
    AllCounts(p, s, step, next);
  }

  lemma {:induction false} RunInvariant<E>(p: Protocol, steps: seq<Step<E>>)
    requires Run(p, steps).Some?
    ensures HistoryKept(Run(p, steps).value)
    ensures SleepersCovered(Run(p, steps).value)
    ensures p.registersUnderLock ==> TaskCovered(Run(p, steps).value)
  {
    if steps == [] {
      NobodyAt(Start<E>(), AnAsleep);
    } else {
      var s, step := Run(p, steps[..|steps| - 1]).value, steps[|steps| - 1];
      RunInvariant(p, steps[..|steps| - 1]);
      StepKeepsHistory(p, s, step);
      StepKeepsSleepersCovered(p, s, step);
      if p.registersUnderLock {
        StepKeepsTaskCovered(p, s, step);
      }
    }
  }

  /** The events handed out are the first ones enqueued, each once and in order. */
  lemma {:induction false} FirstInFirstOut<E>(p: Protocol, steps: seq<Step<E>>)
    requires Run(p, steps).Some?
    ensures Run(p, steps).value.received <= Run(p, steps).value.pushed
    ensures Run(p, steps).value.queue == Run(p, steps).value.pushed[|Run(p, steps).value.received|..]
  {
    RunInvariant(p, steps);
  }

  // ---- Who gets which event ----

  /** The next event that nobody was given yet is handed out, if there is one. */
  predicate HandsOutNext<E(==)>(s: State<E>, next: State<E>) {
    if |s.received| < |s.pushed| then next.received == s.received + [s.pushed[|s.received|]]
    else next.received == s.received
  }

  /** A thread that is no longer there, or on its way to notify others, has returned from `wait_next_event`. */
  predicate Returned<E>(s: State<E>, t: ThreadId) { t !in s.threads || s.threads[t].WakingTask? }

  lemma {:induction false} OneMoreStep<E>(p: Protocol, steps: seq<Step<E>>, step: Step<E>)
    requires Run(p, steps + [step]).Some?
    ensures Run(p, steps).Some? && Enabled(p, Run(p, steps).value, step)
    ensures Run(p, steps + [step]).value == Do(p, Run(p, steps).value, step)
  {
    assert (steps + [step])[..|steps|] == steps;
  }

  /**
   Over every run: a consumer is given exactly the next event that was enqueued and not handed out; a waiter and a
   task return exactly if there is one; draining hands out everything; and no other step hands anything out.
   */
  lemma {:induction false} ConsumersGetTheNext<E>(p: Protocol, steps: seq<Step<E>>, step: Step<E>)
    requires Run(p, steps + [step]).Some?
    ensures Run(p, steps).Some?
    ensures var (s, next) := (Run(p, steps).value, Run(p, steps + [step]).value);
            match step
            case NextEvent => HandsOutNext(s, next)
            case Poll => HandsOutNext(s, next) && (next.task.Idle? <==> |s.received| < |s.pushed|)
            case Look(t) => HandsOutNext(s, next) && (Returned(next, t) <==> |s.received| < |s.pushed|)
            case GetAndClear => next.received == s.pushed
            case _ => next.received == s.received
  {
    OneMoreStep(p, steps, step);
    RunInvariant(p, steps);
  }

  /** The event of the last call of `enqueue` by this thread. */
  function Offered<E>(steps: seq<Step<E>>, t: ThreadId): Option<E> {
    if steps == [] then None
    else
      var last := steps[|steps| - 1];
      if last.Enqueue? && last.thread == t then Some(last.event) else Offered(steps[..|steps| - 1], t)
  }

  lemma {:induction false} PushingOffered<E>(p: Protocol, steps: seq<Step<E>>, t: ThreadId)
    requires Run(p, steps).Some? && At(Run(p, steps).value, t, APushing)
    ensures Offered(steps, t) == Some(Run(p, steps).value.threads[t].event)
  {
    if steps != [] {
      var init, last := steps[..|steps| - 1], steps[|steps| - 1];
      var s := Run(p, init).value;
      if !(last.Enqueue? && last.thread == t) {
        assert t in s.threads && Do(p, s, last).threads[t] == s.threads[t];
        PushingOffered(p, init, t);
      }
    }
  }

  /** What is enqueued is what the pushing thread was called with, and nothing else is. */
  lemma {:induction false} PushesWhatWasOffered<E>(p: Protocol, steps: seq<Step<E>>, step: Step<E>)
    requires Run(p, steps + [step]).Some?
    ensures Run(p, steps).Some?
    ensures var (was, now) := (Run(p, steps).value.pushed, Run(p, steps + [step]).value.pushed);
            if step.Push? then Offered(steps, step.thread).Some? && now == was + [Offered(steps, step.thread).value]
            else now == was
  {
    OneMoreStep(p, steps, step);
    if step.Push? {
      PushingOffered(p, steps, step.thread);
    }
  }

  // ---- No lost wakeup ----

  /** Nothing moves any more unless a call arrives from outside. */
  ghost predicate Quiescent<E(!new)>(p: Protocol, s: State<E>) {
    forall step :: Internal(step) ==> !Enabled(p, s, step)
  }

  /** The protocol never gets stuck: when nothing moves, whoever is still there sleeps. */
  lemma {:induction false} QuiescentMeansAsleep<E(!new)>(p: Protocol, s: State<E>)
    requires Quiescent(p, s)
    ensures forall t :: t in s.threads ==> KindOf(s.threads[t]) == AnAsleep
    ensures s.task.Idle? || (s.task.Parked? && !s.woken)
  {
    assert !Enabled(p, s, Register) && !Enabled(p, s, Poll) && !Enabled(p, s, Repoll);
    forall t | t in s.threads
      ensures KindOf(s.threads[t]) == AnAsleep
    {
      assert !Enabled(p, s, Push(t)) && !Enabled(p, s, TakeWaker(t)) && !Enabled(p, s, Look(t));
      if KindOf(s.threads[t]) == ANotifying {
        assert !Enabled(p, s, NotifyOne(t, None));
        var u :| u in s.threads && KindOf(s.threads[u]) == AnAsleep;
        assert Enabled(p, s, NotifyOne(t, Some(u)));
      }
    }
  }

  /**
   In every reachable state in which nothing moves and events are queued, no blocking waiter sleeps and no task is
   parked. A blocking waiter need not even pass its notification on; the task must leave its waker under the lock.
   */
  lemma {:induction false} NoLostWakeup<E(!new)>(p: Protocol, steps: seq<Step<E>>)
    requires Run(p, steps).Some? && Quiescent(p, Run(p, steps).value) && Run(p, steps).value.queue != []
    ensures Run(p, steps).value.threads == map[]
    ensures p.registersUnderLock ==> Run(p, steps).value.task.Idle?
  {
    var s := Run(p, steps).value;
    RunInvariant(p, steps);
    QuiescentMeansAsleep(p, s);
    NobodyAt(s, AWaking);
    NobodyAt(s, ANotifying);
    NobodyAt(s, AWoken);
    NobodyAt(s, AnAsleep);
    assert forall t :: t in s.threads ==> At(s, t, AnAsleep);
  }

  // ---- Everything comes to rest ----

  function TaskWeight<E>(s: State<E>): nat {
    (match s.task
     case Idle => 0
     case Parked => 0
     case Registering => 1
     case Polling => 2)
    + if s.woken then 3 else 0
  }

  function ThreadWeight<E>(threads: map<ThreadId, Thread<E>>): nat {
    13 * Count(threads, APushing) + 6 * Count(threads, AWaking) + 2 * Count(threads, ANotifying)
    + Count(threads, AWaiting) + Count(threads, AWoken)
  }

  function Weight<E>(s: State<E>): nat { 6 * |s.queue| + ThreadWeight(s.threads) + TaskWeight(s) }

  function EffectWeight<E>(p: Protocol, s: State<E>, step: Step<E>): int
    requires Enabled(p, s, step)
  {
    13 * Effect(p, s, step, APushing) + 6 * Effect(p, s, step, AWaking) + 2 * Effect(p, s, step, ANotifying)
    + Effect(p, s, step, AWaiting) + Effect(p, s, step, AWoken)
  }

  lemma {:induction false} EffectWeights<E>(p: Protocol, s: State<E>, step: Step<E>)
    requires Enabled(p, s, step) && Internal(step)
    ensures EffectWeight(p, s, step) ==
            match step
            case Push(_) => -7
            case TakeWaker(_) => -4
            case NotifyOne(_, u) => if u.Some? then -1 else -2
            case Look(_) => if s.queue != [] && p.notifiesRest && |s.queue| > 1 then 5 else -1
            case _ => 0
  {
  }

  lemma {:induction false} ThreadWeightChange<E>(p: Protocol, s: State<E>, step: Step<E>, next: State<E>)
    requires Enabled(p, s, step) && next == Do(p, s, step)
    ensures ThreadWeight(next.threads) - ThreadWeight(s.threads) == EffectWeight(p, s, step)
  {
    StepCounts(p, s, step, APushing);
    StepCounts(p, s, step, AWaking);
    StepCounts(p, s, step, ANotifying);
    StepCounts(p, s, step, AWaiting);
    StepCounts(p, s, step, AWoken);
  }

  lemma {:induction false} InternalStepsDescend<E>(p: Protocol, s: State<E>, step: Step<E>)
    requires Enabled(p, s, step) && Internal(step)
    ensures Weight(Do(p, s, step)) < Weight(s)
  {
    var next := Do(p, s, step);
    ThreadWeightChange(p, s, step, next);
    EffectWeights(p, s, step);
  }

  /** Without calls from outside or spurious wakeups, the protocol comes to rest within a bounded number of steps. */
  lemma {:induction false} ComesToRest<E>(p: Protocol, steps: seq<Step<E>>, more: seq<Step<E>>)
    requires Run(p, steps + more).Some? && forall i :: 0 <= i < |more| ==> Internal(more[i])
    ensures Run(p, steps).Some?
    ensures Weight(Run(p, steps + more).value) + |more| <= Weight(Run(p, steps).value)
    decreases |more|
  {
    if more == [] {
      assert steps + more == steps;
    } else {
      var n := |more| - 1;
      assert (steps + more)[..|steps + more| - 1] == steps + more[..n];
      ComesToRest(p, steps, more[..n]);
      InternalStepsDescend(p, Run(p, steps + more[..n]).value, more[n]);
    }
  }

  // ---- Why the waker is left under the lock ----

  /** The poll sees an empty queue, lets go of it, and leaves its waker only after an enqueuer looked for it. */
  function LosingRun<E>(event: E): seq<Step<E>> {
    [NextEventAsync, Poll, Enqueue(0, event), Push(0), TakeWaker(0), NotifyOne(0, None), Register]
  }

  lemma {:induction false} Then<E>(p: Protocol, steps: seq<Step<E>>, s: State<E>, step: Step<E>, next: State<E>)
    requires Run(p, steps) == Some(s) && Enabled(p, s, step) && Do(p, s, step) == next
    ensures Run(p, steps + [step]) == Some(next)
  {
    assert (steps + [step])[..|steps|] == steps;
  }

  lemma {:induction false} LosingStart<E>(p: Protocol, event: E)
    requires !p.registersUnderLock
    ensures Run(p, LosingRun(event)[..4]) ==
            Some(State([event], map[0 := WakingTask], Registering, 1, false, None, [event], []))
  {
    var run := LosingRun(event);
    var s0 := Start<E>();
    var s1 := s0.(task := Polling, future := 1);
    var s2 := s1.(task := Registering);
    var s3 := s2.(threads := map[0 := Pushing(event)]);
    var s4 := State([event], map[0 := WakingTask], Registering, 1, false, None, [event], []);
    assert [] + [event] == [event] && s3.threads[0 := WakingTask] == s4.threads;
    Then(p, [], s0, run[0], s1);
    Then(p, [] + [run[0]], s1, run[1], s2);
    Then(p, [] + [run[0]] + [run[1]], s2, run[2], s3);
    Then(p, [] + [run[0]] + [run[1]] + [run[2]], s3, run[3], s4);
    assert run[..4] == [] + [run[0]] + [run[1]] + [run[2]] + [run[3]];
  }

  lemma {:induction false} LosingEnd<E>(p: Protocol, event: E)
    requires !p.registersUnderLock
    ensures Run(p, LosingRun(event)) == Some(State([event], map[], Parked, 1, false, Some(1), [event], []))
  {
    var run := LosingRun(event);
    var s4 := State([event], map[0 := WakingTask], Registering, 1, false, None, [event], []);
    var s5 := s4.(threads := map[0 := Notifying]);
    var s6 := s4.(threads := map[]);
    LosingStart(p, event);
    assert s4.threads[0 := Notifying] == s5.threads && s5.threads - {0} == s6.threads;
    Then(p, run[..4], s4, run[4], s5);
    Then(p, run[..4] + [run[4]], s5, run[5], s6);
    Then(p, run[..4] + [run[4]] + [run[5]], s6, run[6], s6.(waker := Some(1), task := Parked));
    assert run == run[..4] + [run[4]] + [run[5]] + [run[6]];
  }

  /** A reachable state in which an event is queued, the task is parked and nothing moves. */
  lemma {:induction false} WakeupLostWithoutLock<E(!new)>(event: E, notifiesRest: bool)
    ensures var p := Protocol(false, notifiesRest);
            var s := State([event], map[], Parked, 1, false, Some(1), [event], []);
            Run(p, LosingRun(event)) == Some(s) && Quiescent(p, s)
  {
    LosingEnd(Protocol(false, notifiesRest), event);
  }
}

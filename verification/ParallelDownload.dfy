/** _fast_telethon_iter in src/anbar/telegram_ingest.py: workers take part numbers from a shared
  * counter and put the fetched parts on a bounded queue; a sentinel follows the last worker; the
  * consumer restores the order in a buffer and yields.  The event loop may run any enabled step
  * next, so a run is any sequence of steps. */
module ParallelDownload {
  import opened Bytes

  const QUEUE_SIZE: nat := 16
  const MAX_RETRIES: nat := 10

  datatype Item = Part(idx: nat, data: seq<Byte>) | Failure(part: nat) | Sentinel

  datatype Worker =
    | Idle                                      // at the top of the outer loop
    | Fetching(part: nat, retries: nat)         // in the retry loop of one part
    | Offering(part: nat, data: seq<Byte>)      // waiting in queue.put with the data
    | Reporting(part: nat)                      // waiting in queue.put with the exception
    | Stopped                                   // returned

  datatype Status = Running | Finished | Raised | Closed

  /** got and failed record what the workers were told; the program has no such variables. */
  datatype State = State(
    next: nat,
    workers: seq<Worker>,
    queue: seq<Item>,
    sentinelSent: bool,
    expected: nat,
    reorder: map<nat, seq<Byte>>,
    yielded: seq<seq<Byte>>,
    status: Status,
    got: map<nat, seq<Byte>>,
    failed: set<nat>)

  datatype Step =
    | Take(w: nat)                       // take the next part number under the lock
    | Leave(w: nat)                      // no part left: the worker returns
    | FetchOk(w: nat, data: seq<Byte>)   // the server answered
    | Wait(w: nat)                       // a flood wait or a switch of sender: try again, uncounted
    | Retry(w: nat)                      // another error with retries left
    | GiveUp(w: nat)                     // the error that exceeds MAX_RETRIES
    | Put(w: nat)                        // queue.put of the data completes
    | Report(w: nat)                     // queue.put of the exception completes; the worker returns
    | SendSentinel                       // all workers returned
    | Get                                // the consumer takes one queue item
    | Yield                              // the consumer yields the expected part
    | Finish                             // the consumer has yielded every part
    | Close                              // the caller closes the generator

  function Init(numWorkers: nat): State {
    State(0, seq(numWorkers, _ => Idle), [], false, 0, map[], [], Running, map[], {})
  }

  /** The worker a step belongs to. */
  function WorkerOf(a: Step): Option<nat> {
    match a
    case Take(w) => Some(w)
    case Leave(w) => Some(w)
    case FetchOk(w, _) => Some(w)
    case Wait(w) => Some(w)
    case Retry(w) => Some(w)
    case GiveUp(w) => Some(w)
    case Put(w) => Some(w)
    case Report(w) => Some(w)
    case _ => None
  }

  function SetWorker(s: State, w: nat, x: Worker): State
    requires w < |s.workers|
  {
    s.(workers := s.workers[w := x])
  }

  predicate Enabled(total: nat, s: State, a: Step) {
    && s.status == Running
    && (WorkerOf(a).Some? ==> WorkerOf(a).value < |s.workers|)
    && match a
       case Take(w) => s.workers[w] == Idle && s.next < total
       case Leave(w) => s.workers[w] == Idle && s.next >= total
       case FetchOk(w, _) => s.workers[w].Fetching?
       case Wait(w) => s.workers[w].Fetching?
       case Retry(w) => s.workers[w].Fetching? && s.workers[w].retries + 1 <= MAX_RETRIES
       case GiveUp(w) => s.workers[w].Fetching? && s.workers[w].retries + 1 > MAX_RETRIES
       case Put(w) => s.workers[w].Offering? && |s.queue| < QUEUE_SIZE
       case Report(w) => s.workers[w].Reporting? && |s.queue| < QUEUE_SIZE
       case SendSentinel =>
         !s.sentinelSent && (forall w :: 0 <= w < |s.workers| ==> s.workers[w] == Stopped) && |s.queue| < QUEUE_SIZE
       case Get => s.expected < total && s.expected !in s.reorder && s.queue != []
       case Yield => s.expected in s.reorder
       case Finish => s.expected >= total && s.expected !in s.reorder
       case Close => true
  }

  function Apply(total: nat, s: State, a: Step): State
    requires Enabled(total, s, a)
  {
    match a
    case Take(w) => SetWorker(s, w, Fetching(s.next, 0)).(next := s.next + 1)
    case Leave(w) => SetWorker(s, w, Stopped)
    case FetchOk(w, data) =>
      var p := s.workers[w].part;
      SetWorker(s, w, Offering(p, data)).(got := s.got[p := data])
    case Wait(w) => s
    case Retry(w) => SetWorker(s, w, Fetching(s.workers[w].part, s.workers[w].retries + 1))
    case GiveUp(w) => SetWorker(s, w, Reporting(s.workers[w].part)).(failed := s.failed + {s.workers[w].part})
    case Put(w) => SetWorker(s, w, Idle).(queue := s.queue + [Part(s.workers[w].part, s.workers[w].data)])
    case Report(w) => SetWorker(s, w, Stopped).(queue := s.queue + [Failure(s.workers[w].part)])
    case SendSentinel => s.(sentinelSent := true, queue := s.queue + [Sentinel])
    case Get =>
      var rest := s.(queue := s.queue[1..]);
      (match s.queue[0]
       case Part(p, data) => rest.(reorder := s.reorder[p := data])
       case Failure(_) => rest.(status := Raised)
       case Sentinel => rest.(status := Finished))
    case Yield =>
      s.(yielded := s.yielded + [s.reorder[s.expected]], reorder := s.reorder - {s.expected},
          expected := s.expected + 1)
    case Finish => s.(status := Finished)
    case Close => s.(status := Closed)
  }

  /** The state after the given steps, if every one of them was enabled. */
  function Run(total: nat, numWorkers: nat, steps: seq<Step>): Option<State> {
    if steps == [] then Some(Init(numWorkers))
    else
      var before := Run(total, numWorkers, steps[..|steps| - 1]);
      if before.Some? && Enabled(total, before.value, steps[|steps| - 1])
      then Some(Apply(total, before.value, steps[|steps| - 1]))
      else None
  }

  // ----- where a part is -----

  function InQueue(queue: seq<Item>, p: nat): nat {
    if queue == [] then 0
    else InQueue(queue[1..], p) + if queue[0].Part? && queue[0].idx == p then 1 else 0
  }

  predicate Holds(w: Worker, p: nat) {
    (w.Fetching? && w.part == p) || (w.Offering? && w.part == p)
  }

  function HeldBy(workers: seq<Worker>, p: nat): nat {
    if workers == [] then 0
    else HeldBy(workers[1..], p) + if Holds(workers[0], p) then 1 else 0
  }

  /** How many of the five places hold part p: yielded, reorder buffer, queue, a worker, given up. */
  function Places(s: State, p: nat): nat {
    (if p < s.expected then 1 else 0) + (if p in s.reorder then 1 else 0) + InQueue(s.queue, p)
    + HeldBy(s.workers, p) + (if p in s.failed then 1 else 0)
  }

  lemma {:induction false} InQueueAppend(queue: seq<Item>, x: Item, p: nat)
    ensures InQueue(queue + [x], p) == InQueue(queue, p) + if x.Part? && x.idx == p then 1 else 0
  {
    if queue != [] {
      assert (queue + [x])[1..] == queue[1..] + [x];
      InQueueAppend(queue[1..], x, p);
    }
  }

  lemma {:induction false} InQueueAt(queue: seq<Item>, k: nat)
    requires k < |queue| && queue[k].Part?
    ensures InQueue(queue, queue[k].idx) > 0
  {
    if k > 0 {
      InQueueAt(queue[1..], k - 1);
    }
  }

  lemma {:induction false} HeldByUpdate(workers: seq<Worker>, w: nat, x: Worker, p: nat)
    requires w < |workers|
    ensures HeldBy(workers[w := x], p) + (if Holds(workers[w], p) then 1 else 0)
         == HeldBy(workers, p) + if Holds(x, p) then 1 else 0
  {
    if w > 0 {
      assert workers[w := x][1..] == workers[1..][w - 1 := x];
      HeldByUpdate(workers[1..], w - 1, x, p);
    }
  }

  lemma {:induction false} HeldByStopped(workers: seq<Worker>, p: nat)
    requires forall w :: 0 <= w < |workers| ==> !Holds(workers[w], p)
    ensures HeldBy(workers, p) == 0
  {
    if workers != [] {
      HeldByStopped(workers[1..], p);
    }
  }

  lemma {:induction false} HeldByAt(workers: seq<Worker>, w: nat, p: nat)
    requires w < |workers| && Holds(workers[w], p)
    ensures HeldBy(workers, p) > 0
  {
    if w > 0 {
      HeldByAt(workers[1..], w - 1, p);
    }
  }

  // ----- what every step keeps -----

  /** Every part handed out is in exactly one place, and no other part is anywhere. */
  ghost predicate Conserved(total: nat, s: State) {
    && s.expected <= total && s.next <= total && |s.queue| <= QUEUE_SIZE
    && forall p: nat :: Places(s, p) == if p < s.next then 1 else 0
  }

  /** Buffered, queued and yielded data is what the server answered for that part. */
  ghost predicate Faithful(s: State) {
    && |s.yielded| == s.expected
    && (forall p :: 0 <= p < s.expected ==> p in s.got && s.yielded[p] == s.got[p])
    && (forall p :: p in s.reorder ==> p in s.got && s.reorder[p] == s.got[p])
    && (forall k :: 0 <= k < |s.queue| && s.queue[k].Part? ==>
          s.queue[k].idx in s.got && s.queue[k].data == s.got[s.queue[k].idx])
    && (forall w :: 0 <= w < |s.workers| && s.workers[w].Offering? ==>
          s.workers[w].part in s.got && s.workers[w].data == s.got[s.workers[w].part])
  }

  ghost predicate Announced(s: State, p: nat) {
    || (exists w :: 0 <= w < |s.workers| && s.workers[w] == Reporting(p))
    || (exists k :: 0 <= k < |s.queue| && s.queue[k] == Failure(p))
  }

  /** While the consumer runs, a part given up is on its way to the consumer, a worker returns only
    * when no part is left or after a report, and the sentinel is the last item ever queued. */
  ghost predicate Signalled(total: nat, s: State) {
    && (s.status == Running ==> forall p :: p in s.failed ==> Announced(s, p))
    && (forall w :: 0 <= w < |s.workers| && s.workers[w].Reporting? ==> s.workers[w].part in s.failed)
    && (forall k :: 0 <= k < |s.queue| && s.queue[k].Failure? ==> s.queue[k].part in s.failed)
    && (forall w :: 0 <= w < |s.workers| && s.workers[w] == Stopped ==> s.next == total || s.failed != {})
    && (s.sentinelSent ==> forall w :: 0 <= w < |s.workers| ==> s.workers[w] == Stopped)
    && (forall k :: 0 <= k < |s.queue| && s.queue[k] == Sentinel ==> s.sentinelSent && k == |s.queue| - 1)
    && (s.status == Running && s.sentinelSent ==> s.queue != [] && s.queue[|s.queue| - 1] == Sentinel)
    && (s.status == Finished ==> s.expected == total)
    && (s.status == Raised ==> s.failed != {})
  }

  ghost predicate RetriesBounded(s: State) {
    forall w :: 0 <= w < |s.workers| && s.workers[w].Fetching? ==> s.workers[w].retries <= MAX_RETRIES
  }

  ghost predicate Inv(total: nat, s: State) {
    Conserved(total, s) && Faithful(s) && Signalled(total, s) && RetriesBounded(s) && |s.workers| > 0
  }

  lemma InitInv(total: nat, numWorkers: nat)
    requires numWorkers > 0
    ensures Inv(total, Init(numWorkers)) && |Init(numWorkers).workers| == numWorkers
  {
    forall p: nat
      ensures Places(Init(numWorkers), p) == 0
    {
      HeldByStopped(Init(numWorkers).workers, p);
    }
  }

  lemma WorkerStepPlaces(total: nat, s: State, a: Step, p: nat)
    requires Inv(total, s) && Enabled(total, s, a) && WorkerOf(a).Some?
    ensures Places(Apply(total, s, a), p) == if p < Apply(total, s, a).next then 1 else 0
  {
    hide Faithful, Signalled, InQueue, HeldBy;
    var t, w := Apply(total, s, a), WorkerOf(a).value;
    assert Places(s, p) == if p < s.next then 1 else 0;
    assert t.workers == s.workers[w := t.workers[w]];
    HeldByUpdate(s.workers, w, t.workers[w], p);
    if Holds(s.workers[w], p) {
      HeldByAt(s.workers, w, p);
    }
    if a.Put? || a.Report? {
      InQueueAppend(s.queue, t.queue[|s.queue|], p);
    }
  }

  lemma ConsumerStepPlaces(total: nat, s: State, a: Step, p: nat)
    requires Inv(total, s) && Enabled(total, s, a) && WorkerOf(a).None?
    ensures Places(Apply(total, s, a), p) == if p < Apply(total, s, a).next then 1 else 0
  {
    hide Faithful, Signalled, HeldBy;
    assert Places(s, p) == if p < s.next then 1 else 0;
    if a.SendSentinel? {
      InQueueAppend(s.queue, Sentinel, p);
    }
  }

  lemma StepConserved(total: nat, s: State, a: Step)
    requires Inv(total, s) && Enabled(total, s, a)
    ensures Conserved(total, Apply(total, s, a))
  {
    hide Places, Faithful, Signalled;
    forall p: nat
      ensures Places(Apply(total, s, a), p) == if p < Apply(total, s, a).next then 1 else 0
    {
      if WorkerOf(a).Some? { WorkerStepPlaces(total, s, a, p); } else { ConsumerStepPlaces(total, s, a, p); }
    }
    if a == Yield {
      assert Places(s, s.expected) > 0 by { BufferedIsPlaced(s, s.expected); }
    }
  }

  lemma BufferedIsPlaced(s: State, p: nat)
    requires p in s.reorder
    ensures Places(s, p) > 0
  {
  }

  lemma WorkerStepFaithful(total: nat, s: State, a: Step)
    requires Inv(total, s) && Enabled(total, s, a) && WorkerOf(a).Some?
    ensures Faithful(Apply(total, s, a))
  {
    hide Places, Signalled;
    if a.FetchOk? {
      OthersElsewhere(total, s, a.w, s.workers[a.w].part);
    }
  }

  lemma ConsumerStepFaithful(total: nat, s: State, a: Step)
    requires Inv(total, s) && Enabled(total, s, a) && WorkerOf(a).None?
    ensures Faithful(Apply(total, s, a))
  {
    hide Places, Signalled, Conserved;
    if a.Get? && s.queue[0].Part? {
      assert s.queue[0].idx in s.got;
    }
  }

  /** The part a worker is fetching is nowhere else. */
  lemma OthersElsewhere(total: nat, s: State, w: nat, p: nat)
    requires Conserved(total, s) && w < |s.workers| && s.workers[w].Fetching? && s.workers[w].part == p
    ensures p >= s.expected && p !in s.reorder && p !in s.failed
    ensures forall k :: 0 <= k < |s.queue| && s.queue[k].Part? ==> s.queue[k].idx != p
    ensures forall v :: 0 <= v < |s.workers| && s.workers[v].Offering? ==> s.workers[v].part != p
  {
    assert Places(s, p) <= 1;
    HeldByAt(s.workers, w, p);
    forall k | 0 <= k < |s.queue| && s.queue[k].Part?
      ensures s.queue[k].idx != p
    {
      InQueueAt(s.queue, k);
    }
    forall v | 0 <= v < |s.workers| && s.workers[v].Offering?
      ensures s.workers[v].part != p
    {
      if s.workers[v].part == p {
        HeldByUpdate(s.workers, w, Idle, p);
        HeldByAt(s.workers[w := Idle], v, p);
      }
    }
  }

  /** How a step changes what has been announced. */
  lemma StepFrame(total: nat, s: State, a: Step)
    requires Enabled(total, s, a)
    ensures var t := Apply(total, s, a);
            && (if a.Get? then t.workers == s.workers && t.queue == s.queue[1..] else s.queue <= t.queue)
            && |t.workers| == |s.workers|
            && (forall w :: 0 <= w < |s.workers| && s.workers[w].Reporting? && a != Report(w) ==>
               t.workers[w] == s.workers[w])
            && (a.Report? ==> t.queue == s.queue + [Failure(s.workers[a.w].part)])
            && (if a.GiveUp? then t.failed == s.failed + {s.workers[a.w].part}
                                && t.workers[a.w] == Reporting(s.workers[a.w].part)
                else t.failed == s.failed)
            && (a.Get? && s.queue[0].Failure? ==> t.status == Raised)
  {
  }

  lemma StepAnnounced(total: nat, s: State, a: Step, p: nat)
    requires Inv(total, s) && Enabled(total, s, a)
    requires Apply(total, s, a).status == Running && p in Apply(total, s, a).failed
    ensures Announced(Apply(total, s, a), p)
  {
    hide Conserved, Faithful, Apply;
    StepFrame(total, s, a);
    var t := Apply(total, s, a);
    if a.GiveUp? && p == s.workers[a.w].part {
      assert t.workers[a.w] == Reporting(p);
    } else {
      assert Announced(s, p);
      if w :| 0 <= w < |s.workers| && s.workers[w] == Reporting(p) {
        if a == Report(w) {
          assert t.queue[|s.queue|] == Failure(p);
        } else {
          assert t.workers[w] == Reporting(p);
        }
      } else {
        var k :| 0 <= k < |s.queue| && s.queue[k] == Failure(p);
        if a.Get? {
          assert t.queue[k - 1] == Failure(p);
        } else {
          assert t.queue[k] == Failure(p);
        }
      }
    }
  }

  /** The sentinel comes first only if every part was yielded: nothing is queued behind it, held or
    * given up, and the worker that returned last saw the counter exhausted. */
  lemma NoEarlySentinel(total: nat, s: State)
    requires Inv(total, s) && s.status == Running
    requires s.queue != [] && s.queue[0] == Sentinel && s.expected !in s.reorder
    ensures s.expected == total
  {
    assert s.queue == [Sentinel] && s.workers[0] == Stopped;
    assert forall p :: !Announced(s, p);
    assert s.failed == {} && s.next == total;
    HeldByStopped(s.workers, s.expected);
    assert InQueue(s.queue, s.expected) == 0 by { assert s.queue[1..] == []; }
    assert Places(s, s.expected) == 0;
  }

  lemma StepSignalled(total: nat, s: State, a: Step)
    requires Inv(total, s) && Enabled(total, s, a)
    ensures Signalled(total, Apply(total, s, a))
  {
    hide Places, Faithful, Announced;
    var t := Apply(total, s, a);
    if t.status == Running {
      forall p | p in t.failed
        ensures Announced(t, p)
      {
        StepAnnounced(total, s, a, p);
      }
    }
    if a.Get? && s.queue[0] == Sentinel {
      NoEarlySentinel(total, s);
    }
  }

  /** Every reachable state satisfies the invariant. */
  lemma {:induction false} RunInv(total: nat, numWorkers: nat, steps: seq<Step>)
    requires numWorkers > 0 && Run(total, numWorkers, steps).Some?
    ensures Inv(total, Run(total, numWorkers, steps).value)
    ensures |Run(total, numWorkers, steps).value.workers| == numWorkers
  {
    hide Inv, Apply, Enabled, Init;
    if steps == [] {
      InitInv(total, numWorkers);
    } else {
      var before, a := steps[..|steps| - 1], steps[|steps| - 1];
      RunInv(total, numWorkers, before);
      StepInv(total, Run(total, numWorkers, before).value, a);
    }
  }

  lemma StepInv(total: nat, s: State, a: Step)
    requires Inv(total, s) && Enabled(total, s, a)
    ensures Inv(total, Apply(total, s, a)) && |Apply(total, s, a).workers| == |s.workers|
  {
    hide Conserved, Faithful, Signalled;
    StepConserved(total, s, a);
    StepSignalled(total, s, a);
    if WorkerOf(a).Some? {
      WorkerStepFaithful(total, s, a);
    } else {
      ConsumerStepFaithful(total, s, a);
    }
  }

  // ----- main results -----

  /** Safety in every interleaving: what has been yielded is the parts 0, 1, 2, ... in order, each as
    * the server answered it; a run that ends normally has yielded every part; a part given up makes
    * a normal end impossible, and neither it nor any later part is ever yielded. */
  lemma Safety(total: nat, numWorkers: nat, steps: seq<Step>)
    requires numWorkers > 0 && Run(total, numWorkers, steps).Some?
    ensures var s := Run(total, numWorkers, steps).value;
            && |s.yielded| <= total
            && (forall p :: 0 <= p < |s.yielded| ==> p in s.got && s.yielded[p] == s.got[p])
            && (s.status == Finished ==> |s.yielded| == total && s.failed == {})
            && (forall p :: p in s.failed ==> |s.yielded| <= p)
            && (s.status == Raised ==> s.failed != {})
  {
    RunInv(total, numWorkers, steps);
    var s := Run(total, numWorkers, steps).value;
    hide Run;
    forall p | p in s.failed
      ensures |s.yielded| <= p < total
    {
      assert Places(s, p) == if p < s.next then 1 else 0;
    }
  }

  /** Conservation: the parts handed out so far are the disjoint union of the five places. */
  lemma Conservation(total: nat, numWorkers: nat, steps: seq<Step>, p: nat)
    requires numWorkers > 0 && Run(total, numWorkers, steps).Some?
    ensures var s := Run(total, numWorkers, steps).value; Places(s, p) == if p < s.next then 1 else 0
  {
    RunInv(total, numWorkers, steps);
  }

  /** The queue never holds more than sixteen items, and a worker waits to put one only while it does. */
  lemma QueueOfSixteen(total: nat, numWorkers: nat, steps: seq<Step>, w: nat)
    requires numWorkers > 0 && Run(total, numWorkers, steps).Some? && w < numWorkers
    ensures var s := Run(total, numWorkers, steps).value;
            && |s.queue| <= 16 && w < |s.workers|
            && (s.status == Running && s.workers[w].Offering? ==> (Enabled(total, s, Put(w)) <==> |s.queue| < 16))
            && (s.status == Running && s.workers[w].Reporting? ==> (Enabled(total, s, Report(w)) <==> |s.queue| < 16))
  {
    RunInv(total, numWorkers, steps);
  }

  /** The errors counted against part p: a flood wait or a switch of sender is none. */
  function Errors(total: nat, numWorkers: nat, steps: seq<Step>, p: nat): nat {
    if steps == [] then 0
    else
      var before, a := Run(total, numWorkers, steps[..|steps| - 1]), steps[|steps| - 1];
      Errors(total, numWorkers, steps[..|steps| - 1], p) +
      if before.Some? && (a.Retry? || a.GiveUp?) && a.w < |before.value.workers| &&
         before.value.workers[a.w].Fetching? && before.value.workers[a.w].part == p then 1 else 0
  }

  ghost predicate Counted(s: State, p: nat, errors: nat) {
    && errors <= 11 && (p in s.failed <==> errors == 11) && (p >= s.next ==> errors == 0)
    && forall w :: 0 <= w < |s.workers| && s.workers[w].Fetching? && s.workers[w].part == p ==>
         s.workers[w].retries == errors
  }

  /** After an error the worker that fetches p tries again up to the tenth time, and then gives up. */
  ghost predicate TriedAgain(total: nat, s: State, p: nat, errors: nat) {
    s.status == Running ==>
      forall w :: 0 <= w < |s.workers| && s.workers[w].Fetching? && s.workers[w].part == p ==>
        (Enabled(total, s, Retry(w)) <==> errors < 10) && (Enabled(total, s, GiveUp(w)) <==> errors == 10)
  }

  lemma OneFetcher(total: nat, s: State, w: nat, v: nat)
    requires Conserved(total, s) && w < |s.workers| && v < |s.workers| && w != v
    requires s.workers[w].Fetching? && s.workers[v].Fetching?
    ensures s.workers[w].part != s.workers[v].part
  {
    var p := s.workers[w].part;
    if s.workers[v].part == p {
      assert Places(s, p) <= 1;
      HeldByUpdate(s.workers, w, Idle, p);
      HeldByAt(s.workers[w := Idle], v, p);
    }
  }

  lemma StepCounted(total: nat, s: State, a: Step, p: nat, errors: nat)
    requires Inv(total, s) && Enabled(total, s, a) && Counted(s, p, errors)
    ensures Counted(Apply(total, s, a), p,
      errors + if (a.Retry? || a.GiveUp?) && s.workers[a.w].part == p then 1 else 0)
  {
    hide Conserved, Faithful, Signalled;
    if a.Retry? || a.GiveUp? {
      OthersElsewhere(total, s, a.w, s.workers[a.w].part);
      assert s.workers[a.w].part < s.next by { HandedOut(total, s, a.w); }
      forall v | 0 <= v < |s.workers| && v != a.w && s.workers[v].Fetching?
        ensures s.workers[v].part != s.workers[a.w].part
      {
        OneFetcher(total, s, a.w, v);
      }
    }
  }

  lemma HandedOut(total: nat, s: State, w: nat)
    requires Conserved(total, s) && w < |s.workers| && s.workers[w].Fetching?
    ensures s.workers[w].part < s.next
  {
    HeldByAt(s.workers, w, s.workers[w].part);
    assert Places(s, s.workers[w].part) > 0;
  }

  /** A part is given up exactly at its eleventh counted error: before that each error is followed by
    * another attempt. */
  lemma {:induction false} GivenUpAtTheEleventhError(total: nat, numWorkers: nat, steps: seq<Step>, p: nat)
    requires numWorkers > 0 && Run(total, numWorkers, steps).Some?
    ensures var s, errors := Run(total, numWorkers, steps).value, Errors(total, numWorkers, steps, p);
            && errors <= 11 && (p in s.failed <==> errors == 11) && Counted(s, p, errors)
            && TriedAgain(total, s, p, errors)
  {
    hide Inv, Apply, Counted, TriedAgain;
    if steps == [] {
      NoErrors(numWorkers, p);
    } else {
      var before, a := steps[..|steps| - 1], steps[|steps| - 1];
      RunInv(total, numWorkers, before);
      GivenUpAtTheEleventhError(total, numWorkers, before, p);
      StepCounted(total, Run(total, numWorkers, before).value, a, p, Errors(total, numWorkers, before, p));
    }
    RunInv(total, numWorkers, steps);
    CountedMeans(total, Run(total, numWorkers, steps).value, p, Errors(total, numWorkers, steps, p));
  }

  lemma NoErrors(numWorkers: nat, p: nat)
    ensures Counted(Init(numWorkers), p, 0)
  {
  }

  lemma CountedMeans(total: nat, s: State, p: nat, errors: nat)
    requires Counted(s, p, errors) && Inv(total, s)
    ensures errors <= 11 && (p in s.failed <==> errors == 11)
    ensures TriedAgain(total, s, p, errors)
  {
  }

  /** The caller can close a run at any time, and then nothing more happens; once all parts are yielded the
    * consumer takes nothing more from the queue and the run can end. */
  lemma Ends(total: nat, numWorkers: nat, steps: seq<Step>, a: Step)
    requires numWorkers > 0 && Run(total, numWorkers, steps).Some?
    ensures var s := Run(total, numWorkers, steps).value;
            && (s.status == Running ==>
                 && Enabled(total, s, Close)
                 && var t := Apply(total, s, Close);
                    t.status == Closed && t.yielded == s.yielded && !Enabled(total, t, a))
            && (s.status != Running ==> !Enabled(total, s, a))
            && (s.status == Running && |s.yielded| == total ==> Enabled(total, s, Finish) && !Enabled(total, s, Get))
  {
    RunInv(total, numWorkers, steps);
    var s := Run(total, numWorkers, steps).value;
    hide Run;
    if |s.yielded| == total {
      assert Places(s, total) == 0;
    }
  }

  /** A step that is neither a repeated attempt without cost nor the caller walking away. */
  predicate Progress(a: Step) {
    !a.Wait? && !a.Close?
  }

  /** Deadlock freedom: a run that has not ended can always make progress, even with a full queue. */
  lemma DeadlockFree(total: nat, numWorkers: nat, steps: seq<Step>, answer: seq<Byte>) returns (a: Step)
    requires numWorkers > 0 && Run(total, numWorkers, steps).Some?
    requires Run(total, numWorkers, steps).value.status == Running
    ensures Progress(a) && Enabled(total, Run(total, numWorkers, steps).value, a)
  {
    RunInv(total, numWorkers, steps);
    var s := Run(total, numWorkers, steps).value;
    hide Run, Places;
    if s.expected in s.reorder {
      a := Yield;
    } else if s.expected >= total {
      a := Finish;
    } else if s.queue != [] {
      a := Get;
    } else if w :| 0 <= w < |s.workers| && s.workers[w] != Stopped {
      a := match s.workers[w]
        case Idle => if s.next < total then Take(w) else Leave(w)
        case Fetching(_, _) => FetchOk(w, answer)
        case Offering(_, _) => Put(w)
        case Reporting(_) => Report(w);
    } else {
      a := SendSentinel;
    }
  }

  // ----- the file -----

  const PART_SIZE: nat := 512 * 1024

  function TotalParts(size: nat): nat {
    (size + PART_SIZE - 1) / PART_SIZE
  }

  /** As many parts as are needed to cover the file, and no more. */
  lemma PartsNeeded(size: nat)
    ensures size <= TotalParts(size) * 524288 < size + 524288
  {
  }

  /** The bytes the server holds for part p. */
  function Slice(file: seq<Byte>, p: nat): seq<Byte> {
    file[Min(p * PART_SIZE, |file|)..Min((p + 1) * PART_SIZE, |file|)]
  }

  /** Every answer in the run carried the bytes of the part that was asked for. */
  ghost predicate Honest(total: nat, numWorkers: nat, steps: seq<Step>, file: seq<Byte>) {
    steps == [] ||
    var before, a := steps[..|steps| - 1], steps[|steps| - 1];
    && Honest(total, numWorkers, before, file)
    && (var s := Run(total, numWorkers, before);
        a.FetchOk? && s.Some? && Enabled(total, s.value, a) ==> a.data == Slice(file, s.value.workers[a.w].part))
  }

  lemma {:induction false} HonestGot(total: nat, numWorkers: nat, steps: seq<Step>, file: seq<Byte>)
    requires Run(total, numWorkers, steps).Some? && Honest(total, numWorkers, steps, file)
    ensures forall p :: p in Run(total, numWorkers, steps).value.got ==>
      Run(total, numWorkers, steps).value.got[p] == Slice(file, p)
  {
    hide Slice;
    if steps != [] {
      HonestGot(total, numWorkers, steps[..|steps| - 1], file);
    }
  }

  lemma {:induction false} ConcatSlices(parts: seq<seq<Byte>>, file: seq<Byte>)
    requires forall p :: 0 <= p < |parts| ==> parts[p] == Slice(file, p)
    ensures Concat(parts) == file[..Min(|parts| * PART_SIZE, |file|)]
  {
    if parts != [] {
      ConcatSlices(parts[..|parts| - 1], file);
    }
  }

  /** With a server that answers each request with the bytes of that part, the bytes yielded so far are
    * always a prefix of the file, and a run that ends normally has yielded the whole file. */
  lemma YieldsTheFile(numWorkers: nat, steps: seq<Step>, file: seq<Byte>)
    requires numWorkers > 0 && Run(TotalParts(|file|), numWorkers, steps).Some?
    requires Honest(TotalParts(|file|), numWorkers, steps, file)
    ensures var s := Run(TotalParts(|file|), numWorkers, steps).value;
            && Concat(s.yielded) == file[..Min(|s.yielded| * 524288, |file|)]
            && (s.status == Finished ==> Concat(s.yielded) == file)
  {
    hide Slice, Run;
    Safety(TotalParts(|file|), numWorkers, steps);
    HonestGot(TotalParts(|file|), numWorkers, steps, file);
    ConcatSlices(Run(TotalParts(|file|), numWorkers, steps).value.yielded, file);
    assert file[..|file|] == file;
  }

  // ----- termination -----

  function WorkerRank(w: Worker): int {
    match w
    case Stopped => 0
    case Idle => 1
    case Reporting(_) => 3
    case Offering(_, _) => 4
    case Fetching(_, r) => 15 - r
  }

  function WorkersRank(workers: seq<Worker>): int {
    if workers == [] then 0 else WorkersRank(workers[1..]) + WorkerRank(workers[0])
  }

  lemma {:induction false} WorkersRankUpdate(workers: seq<Worker>, w: nat, x: Worker)
    requires w < |workers|
    ensures WorkersRank(workers[w := x]) == WorkersRank(workers) - WorkerRank(workers[w]) + WorkerRank(x)
  {
    if w > 0 {
      assert workers[w := x][1..] == workers[1..][w - 1 := x];
      WorkersRankUpdate(workers[1..], w - 1, x);
    }
  }

  /** An upper bound on the progress steps still to come. */
  function Rank(total: nat, s: State): int {
    15 * (total - s.next) + WorkersRank(s.workers) + 2 * |s.queue| + (if s.sentinelSent then 0 else 3)
    + |s.reorder| + (if s.status == Running then 1 else 0)
  }

  lemma WorkerStepRank(total: nat, s: State, a: Step)
    requires RetriesBounded(s) && Enabled(total, s, a) && WorkerOf(a).Some?
    ensures Rank(total, Apply(total, s, a)) <= Rank(total, s) - if Progress(a) then 1 else 0
  {
    hide WorkersRank;
    var t, w := Apply(total, s, a), WorkerOf(a).value;
    assert t.workers == s.workers[w := t.workers[w]];
    WorkersRankUpdate(s.workers, w, t.workers[w]);
  }

  lemma GetRank(total: nat, s: State)
    requires Enabled(total, s, Get)
    ensures Rank(total, Apply(total, s, Get)) < Rank(total, s)
  {
    hide WorkersRank;
    if s.queue[0].Part? {
      GrowSize(s.reorder, s.queue[0].idx, s.queue[0].data);
    }
  }

  lemma ConsumerStepRank(total: nat, s: State, a: Step)
    requires Enabled(total, s, a) && WorkerOf(a).None?
    ensures Rank(total, Apply(total, s, a)) <= Rank(total, s) - if Progress(a) then 1 else 0
  {
    hide WorkersRank;
    match a
    case Get => GetRank(total, s);
    case Yield => ShrinkSize(s.reorder, s.expected);
    case _ =>
  }

  lemma GrowSize(m: map<nat, seq<Byte>>, k: nat, v: seq<Byte>)
    ensures |m[k := v]| <= |m| + 1
  {
    assert m[k := v].Keys == m.Keys + {k};
  }

  lemma ShrinkSize(m: map<nat, seq<Byte>>, k: nat)
    requires k in m
    ensures |m - {k}| == |m| - 1
  {
    assert (m - {k}).Keys == m.Keys - {k};
  }

  function ProgressCount(steps: seq<Step>): nat {
    if steps == [] then 0
    else ProgressCount(steps[..|steps| - 1]) + if Progress(steps[|steps| - 1]) then 1 else 0
  }

  lemma {:induction false} WorkersRankNonnegative(workers: seq<Worker>)
    requires forall w :: 0 <= w < |workers| && workers[w].Fetching? ==> workers[w].retries <= MAX_RETRIES
    ensures WorkersRank(workers) >= 0
  {
    if workers != [] {
      WorkersRankNonnegative(workers[1..]);
    }
  }

  lemma {:induction false} InitWorkersRank(n: nat)
    ensures WorkersRank(seq(n, _ => Idle)) == n
  {
    if n > 0 {
      assert seq(n, _ => Idle)[1..] == seq(n - 1, _ => Idle);
      InitWorkersRank(n - 1);
    }
  }

  lemma RankNonnegative(total: nat, s: State)
    requires Inv(total, s)
    ensures Rank(total, s) >= 0
  {
    hide Faithful, Signalled, Places;
    WorkersRankNonnegative(s.workers);
  }

  /** Termination: without endless flood waits every run is finite; it makes at most
    * 15 * total + workers + 4 progress steps. */
  lemma {:induction false} ProgressBounded(total: nat, numWorkers: nat, steps: seq<Step>)
    requires numWorkers > 0 && Run(total, numWorkers, steps).Some?
    ensures ProgressCount(steps) + Rank(total, Run(total, numWorkers, steps).value) <= 15 * total + numWorkers + 4
    ensures ProgressCount(steps) <= 15 * total + numWorkers + 4
  {
    RunInv(total, numWorkers, steps);
    RankNonnegative(total, Run(total, numWorkers, steps).value);
    if steps == [] {
      InitWorkersRank(numWorkers);
    } else {
      hide Rank, Inv, Apply, Enabled, Progress;
      var before, a := steps[..|steps| - 1], steps[|steps| - 1];
      ProgressBounded(total, numWorkers, before);
      RunInv(total, numWorkers, before);
      StepRank(total, Run(total, numWorkers, before).value, a);
    }
  }

  lemma StepRank(total: nat, s: State, a: Step)
    requires Inv(total, s) && Enabled(total, s, a)
    ensures Rank(total, Apply(total, s, a)) <= Rank(total, s) - if Progress(a) then 1 else 0
  {
    hide Rank, Apply, Conserved, Faithful, Signalled;
    if WorkerOf(a).Some? { WorkerStepRank(total, s, a); } else { ConsumerStepRank(total, s, a); }
  }
}

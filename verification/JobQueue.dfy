/** The durable job queue of src/anbar/jobqueue.py over the rows of src/anbar/jobstore.py.  Each step is
  * what runs between two awaits; the clock is a parameter. */
module JobQueues {
  import opened Bytes

  /** KIND_CONCURRENCY. */
  const CAPS: map<string, nat> := map["ingest_url" := 2, "backup_now" := 1, "channel_rebuild" := 1]

  datatype JobState = Queued | Running | Done | Error | Interrupted

  datatype Job = Job(kind: string, state: JobState, createdAt: nat)

  /** A dispatcher task that has not ended. */
  datatype Task = Task(kind: string, id: string)

  /** The rows, the counters, the live tasks, and the history of ids submitted and of tasks started. */
  datatype Queue = Queue(jobs: map<string, Job>, running: map<string, nat>, tasks: seq<Task>, stopped: bool,
                         submitted: set<string>, started: seq<Task>)

  // ----- ORDER BY created_at, id -----

  /** The order of TEXT columns. */
  predicate Less(a: string, b: string) {
    b != [] && (a == [] || a[0] < b[0] || (a[0] == b[0] && Less(a[1..], b[1..])))
  }

  lemma {:induction false} LessTotal(a: string, b: string)
    ensures (Less(a, b) || a == b || Less(b, a)) && !(Less(a, b) && Less(b, a)) && !Less(a, a)
  {
    LessIrreflexive(a);
    if a != [] && b != [] && a[0] == b[0] {
      LessTotal(a[1..], b[1..]);
      if a[1..] == b[1..] {
        assert a == [a[0]] + a[1..] && b == [b[0]] + b[1..];
      }
    }
  }

  lemma {:induction false} LessIrreflexive(a: string)
    ensures !Less(a, a)
  {
    if a != [] {
      LessIrreflexive(a[1..]);
    }
  }

  lemma {:induction false} LessTransitive(a: string, b: string, c: string)
    requires Less(a, b) && Less(b, c)
    ensures Less(a, c)
  {
    if a != [] && a[0] == b[0] == c[0] {
      LessTransitive(a[1..], b[1..], c[1..]);
    }
  }

  /** The order of texts: the shorter of a prefix first, else by the first character that differs. */
  ghost predicate FirstDiffers(a: string, b: string, k: nat) {
    && k <= |a| && k < |b| && a[..k] == b[..k] && (k == |a| || a[k] < b[k])
  }

  lemma {:induction false} LessIsLexicographic(a: string, b: string)
    ensures Less(a, b) <==> exists k: nat :: FirstDiffers(a, b, k)
  {
    if b != [] && (a == [] || a[0] < b[0]) {
      assert FirstDiffers(a, b, 0);
    } else if a != [] && b != [] && a[0] == b[0] {
      LessIsLexicographic(a[1..], b[1..]);
      if Less(a, b) {
        var k: nat :| FirstDiffers(a[1..], b[1..], k);
        assert a[..k + 1] == [a[0]] + a[1..][..k] && b[..k + 1] == [b[0]] + b[1..][..k];
        assert FirstDiffers(a, b, k + 1);
      }
    }
    if k: nat :| k > 0 && FirstDiffers(a, b, k) {
      SameHead(a, b, k);
    }
  }

  lemma SameHead(a: string, b: string, k: nat)
    requires k > 0 && FirstDiffers(a, b, k)
    ensures a[0] == b[0] && FirstDiffers(a[1..], b[1..], k - 1)
  {
    assert a[0] == a[..k][0] && b[0] == b[..k][0];
    assert a[1..][..k - 1] == a[..k][1..] && b[1..][..k - 1] == b[..k][1..];
  }

  predicate IsQueued(jobs: map<string, Job>, kind: string, id: string) {
    id in jobs && jobs[id].kind == kind && jobs[id].state == Queued
  }

  function QueuedIds(jobs: map<string, Job>, kind: string): set<string> {
    set id | id in jobs && IsQueued(jobs, kind, id)
  }

  /** a's row comes before b's. */
  predicate Before(jobs: map<string, Job>, a: string, b: string)
    requires a in jobs && b in jobs
  {
    jobs[a].createdAt < jobs[b].createdAt || (jobs[a].createdAt == jobs[b].createdAt && Less(a, b))
  }

  lemma BeforeOrder(jobs: map<string, Job>, a: string, b: string, c: string)
    requires a in jobs && b in jobs && c in jobs
    ensures (Before(jobs, a, b) || a == b || Before(jobs, b, a)) && !(Before(jobs, a, b) && Before(jobs, b, a))
    ensures !Before(jobs, a, a)
    ensures Before(jobs, a, b) && Before(jobs, b, c) ==> Before(jobs, a, c)
  {
    LessTotal(a, b);
    LessTotal(a, a);
    if Less(a, b) && Less(b, c) {
      LessTransitive(a, b, c);
    }
  }

  /** The row the query returns. */
  ghost predicate IsNext(jobs: map<string, Job>, kind: string, id: string) {
    IsQueued(jobs, kind, id) && forall other :: IsQueued(jobs, kind, other) && other != id ==> Before(jobs, id, other)
  }

  lemma NextUnique(jobs: map<string, Job>, kind: string, a: string, b: string)
    requires IsNext(jobs, kind, a) && IsNext(jobs, kind, b)
    ensures a == b
  {
    BeforeOrder(jobs, a, b, b);
  }

  /** next_queued: the first queued row of the kind. */
  method NextQueued(jobs: map<string, Job>, kind: string) returns (r: Option<string>)
    ensures r == None <==> QueuedIds(jobs, kind) == {}
    ensures r.Some? ==> IsNext(jobs, kind, r.value)
  {
    var left := QueuedIds(jobs, kind);
    r := None;
    while left != {}
      invariant left <= QueuedIds(jobs, kind)
      invariant r == None ==> left == QueuedIds(jobs, kind)
      invariant r.Some? ==> IsQueued(jobs, kind, r.value) &&
                            forall other :: IsQueued(jobs, kind, other) && other !in left && other != r.value ==>
                                              Before(jobs, r.value, other)
      decreases left
    {
      var id :| id in left;
      if r == None {
        r := Some(id);
      } else {
        BeforeOrder(jobs, id, r.value, id);
        if Before(jobs, id, r.value) {
          forall other | IsQueued(jobs, kind, other) && other !in left
            ensures Before(jobs, id, other)
          {
            BeforeOrder(jobs, id, r.value, other);
          }
          r := Some(id);
        }
      }
      left := left - {id};
    }
    assert r.Some? ==> r.value in QueuedIds(jobs, kind);
  }

  lemma HasNext(jobs: map<string, Job>, kind: string)
    requires QueuedIds(jobs, kind) != {}
    ensures exists id :: IsNext(jobs, kind, id)
  {
    var left, best := QueuedIds(jobs, kind), "";
    var id0 :| id0 in left;
    best, left := id0, left - {id0};
    while left != {}
      invariant left <= QueuedIds(jobs, kind) && IsQueued(jobs, kind, best)
      invariant forall other :: IsQueued(jobs, kind, other) && other !in left && other != best ==>
        Before(jobs, best, other)
      decreases left
    {
      var id :| id in left;
      BeforeOrder(jobs, id, best, id);
      if Before(jobs, id, best) {
        forall other | IsQueued(jobs, kind, other) && other !in left
          ensures Before(jobs, id, other)
        {
          BeforeOrder(jobs, id, best, other);
        }
        best := id;
      }
      left := left - {id};
    }
    assert IsNext(jobs, kind, best);
  }

  /** The row next_queued returns, when there is one. */
  ghost function Next(jobs: map<string, Job>, kind: string): (id: string)
    requires QueuedIds(jobs, kind) != {}
    ensures IsNext(jobs, kind, id)
  {
    HasNext(jobs, kind);
    var id :| IsNext(jobs, kind, id);
    id
  }

  // ----- transitions -----

  function Live(tasks: seq<Task>, kind: string): nat {
    if tasks == [] then 0 else Live(tasks[1..], kind) + if tasks[0].kind == kind then 1 else 0
  }

  function Without(tasks: seq<Task>, i: nat): seq<Task>
    requires i < |tasks|
  {
    tasks[..i] + tasks[i + 1..]
  }

  /** UPDATE jobs SET state. */
  function SetState(jobs: map<string, Job>, id: string, state: JobState): map<string, Job> {
    if id in jobs then jobs[id := jobs[id].(state := state)] else jobs
  }

  /** One turn of the loop in _wake. */
  function Start(s: Queue, kind: string, id: string): Queue
    requires kind in s.running
  {
    s.(jobs := SetState(s.jobs, id, Running), running := s.running[kind := s.running[kind] + 1],
       tasks := s.tasks + [Task(kind, id)], started := s.started + [Task(kind, id)])
  }

  predicate CanStart(s: Queue, kind: string) {
    kind in CAPS && kind in s.running && !s.stopped && s.running[kind] < CAPS[kind] && QueuedIds(s.jobs, kind) != {}
  }

  /** _wake: start the first queued jobs of the kind until its cap is reached or none is left. */
  ghost function Woken(s: Queue, kind: string): Queue
    decreases if CanStart(s, kind) then CAPS[kind] - s.running[kind] else 0
  {
    if CanStart(s, kind) then Woken(Start(s, kind, Next(s.jobs, kind)), kind) else s
  }

  function Insert(s: Queue, id: string, kind: string, now: nat): Queue {
    s.(jobs := s.jobs[id := Job(kind, Queued, now)], submitted := s.submitted + {id})
  }

  /** How a handler's task ends. */
  datatype End = Returned | Raised(message: string) | Cancelled

  /** What _run_one writes to the row: an exception with an empty message counts as no error. */
  function Closed(jobs: map<string, Job>, id: string, end: End): map<string, Job> {
    match end
    case Returned => if id in jobs && jobs[id].state == Running then SetState(jobs, id, Done) else jobs
    case Raised(message) => SetState(jobs, id, if message != "" then Error else Done)
    case Cancelled => if id in jobs && jobs[id].state in {Queued, Running} then SetState(jobs, id, Error) else jobs
  }

  /** The task has written its row and left; its counter slot is free again. */
  function Ended(s: Queue, i: nat, end: End): Queue
    requires i < |s.tasks| && s.tasks[i].kind in s.running && s.running[s.tasks[i].kind] > 0
  {
    var t := s.tasks[i];
    s.(jobs := Closed(s.jobs, t.id, end), running := s.running[t.kind := s.running[t.kind] - 1],
        tasks := Without(s.tasks, i))
  }

  /** A restart: every task and counter is gone, unfinished rows become interrupted. */
  function Rebooted(s: Queue): Queue {
    Queue(map id | id in s.jobs ::
            if s.jobs[id].state in {Queued, Running} then s.jobs[id].(state := Interrupted) else s.jobs[id],
          map kind | kind in CAPS :: 0, [], false, s.submitted, s.started)
  }

  datatype Step =
    | Submit(id: string, kind: string, now: nat)
    | Finish(i: nat, failed: bool)          // a handler closes its own row
    | Complete(i: nat, end: End)            // a handler's task ends
    | Cancel(id: string)
    | Delete(id: string)
    | Stop
    | Lose(i: nat)                          // a task cancelled before it began: its finally never runs
    | Reboot

  predicate Enabled(s: Queue, step: Step) {
    match step
    case Submit(_, _, _) => true
    case Finish(i, _) => i < |s.tasks|
    case Complete(i, end) => i < |s.tasks| && (end == Cancelled ==> s.stopped)
    case Lose(i) => i < |s.tasks| && s.stopped
    case _ => true
  }

  ghost function Apply(s: Queue, step: Step): Queue
    requires Inv(s) && Enabled(s, step)
  {
    match step
    case Submit(id, kind, now) => if kind in CAPS then Woken(Insert(s, id, kind, now), kind) else s
    case Finish(i, failed) => s.(jobs := SetState(s.jobs, s.tasks[i].id, if failed then Error else Done))
    case Complete(i, end) => CountsAt(s, i); Woken(Ended(s, i, end), s.tasks[i].kind)
    case Cancel(id) => if id in s.jobs && s.jobs[id].state == Queued then s.(jobs := SetState(s.jobs, id, Error)) else s
    case Delete(id) => if id in s.jobs && s.jobs[id].state in {Done, Error, Interrupted}
        then s.(jobs := s.jobs - {id}) else s
    case Stop => s.(stopped := true)
    case Lose(i) => s.(tasks := Without(s.tasks, i))
    case Reboot => Rebooted(s)
  }

  // ----- what every step keeps, whatever ids callers choose -----

  /** The counter of a kind, its cap, and its queued rows. */
  ghost predicate KindInv(s: Queue, kind: string)
    requires kind in CAPS
  {
    && kind in s.running && Live(s.tasks, kind) <= s.running[kind] <= CAPS[kind]
    && (!s.stopped ==> Live(s.tasks, kind) == s.running[kind])
  }

  ghost predicate Busy(s: Queue, kind: string)
    requires kind in CAPS
  {
    !s.stopped && QueuedIds(s.jobs, kind) != {} ==> kind in s.running && s.running[kind] == CAPS[kind]
  }

  ghost predicate Inv(s: Queue) {
    && (forall kind :: kind in CAPS ==> KindInv(s, kind) && Busy(s, kind))
    && forall i :: 0 <= i < |s.tasks| ==> s.tasks[i].kind in CAPS
  }

  lemma {:induction false} LiveWithout(tasks: seq<Task>, i: nat, kind: string)
    requires i < |tasks|
    ensures Live(Without(tasks, i), kind) == Live(tasks, kind) - if tasks[i].kind == kind then 1 else 0
  {
    if i == 0 {
      assert Without(tasks, 0) == tasks[1..];
    } else {
      LiveWithout(tasks[1..], i - 1, kind);
      assert Without(tasks, i)[1..] == Without(tasks[1..], i - 1);
    }
  }

  lemma {:induction false} LiveAppend(tasks: seq<Task>, t: Task, kind: string)
    ensures Live(tasks + [t], kind) == Live(tasks, kind) + if t.kind == kind then 1 else 0
  {
    if tasks != [] {
      LiveAppend(tasks[1..], t, kind);
      assert (tasks + [t])[1..] == tasks[1..] + [t];
    }
  }

  lemma CountsAt(s: Queue, i: nat)
    requires Inv(s) && i < |s.tasks|
    ensures s.tasks[i].kind in s.running && s.running[s.tasks[i].kind] > 0
  {
    LiveWithout(s.tasks, i, s.tasks[i].kind);
    assert KindInv(s, s.tasks[i].kind);
  }

  lemma KnownKind(s: Queue, i: nat)
    requires Inv(s) && i < |s.tasks|
    ensures s.tasks[i].kind in CAPS
  {
  }

  /** All of Inv except that one kind may have room for its queued rows. */
  ghost predicate InvBut(s: Queue, room: string) {
    && (forall kind :: kind in CAPS ==> KindInv(s, kind) && (kind != room ==> Busy(s, kind)))
    && forall i :: 0 <= i < |s.tasks| ==> s.tasks[i].kind in CAPS
  }

  lemma {:induction false} WokenInv(s: Queue, kind: string)
    requires InvBut(s, kind) && kind in CAPS
    ensures Inv(Woken(s, kind))
    decreases CAPS[kind] - if kind in s.running then s.running[kind] else 0
  {
    assert KindInv(s, kind);
    if CanStart(s, kind) {
      var id := Next(s.jobs, kind);
      var t := Start(s, kind, id);
      forall k | k in CAPS
        ensures KindInv(t, k) && (k != kind ==> Busy(t, k))
      {
        assert KindInv(s, k);
        LiveAppend(s.tasks, Task(kind, id), k);
        if k != kind {
          assert QueuedIds(t.jobs, k) == QueuedIds(s.jobs, k);
          assert Busy(s, k);
        }
      }
      WokenInv(t, kind);
    }
  }

  lemma StepInv(s: Queue, step: Step)
    requires Inv(s) && Enabled(s, step)
    ensures Inv(Apply(s, step))
  {
    hide Woken, Live;
    match step
    case Submit(id, kind, now) =>
      if kind in CAPS {
        InsertInv(s, id, kind, now);
        WokenInv(Insert(s, id, kind, now), kind);
      }
    case Finish(i, failed) => ClosingInv(s, s.tasks[i].id, if failed then Error else Done);
    case Complete(i, end) =>
      CountsAt(s, i);
      EndedInv(s, i, end);
      WokenInv(Ended(s, i, end), s.tasks[i].kind);
    case Cancel(id) => ClosingInv(s, id, Error);
    case Delete(id) =>
      forall kind | kind in CAPS
        ensures KindInv(Apply(s, step), kind) && Busy(Apply(s, step), kind)
      {
        assert KindInv(s, kind) && Busy(s, kind);
        assert QueuedIds(Apply(s, step).jobs, kind) <= QueuedIds(s.jobs, kind);
      }
    case Stop => assert forall kind :: kind in CAPS ==> KindInv(s, kind);
    case Lose(i) =>
      forall kind | kind in CAPS
        ensures KindInv(Apply(s, step), kind)
      {
        assert KindInv(s, kind);
        LiveWithout(s.tasks, i, kind);
      }
    case Reboot =>
      forall kind | kind in CAPS
        ensures KindInv(Rebooted(s), kind) && Busy(Rebooted(s), kind)
      {
        NoneLive(kind);
        assert QueuedIds(Rebooted(s).jobs, kind) == {};
      }
  }

  lemma NoneLive(kind: string)
    ensures Live([], kind) == 0
  {
  }

  /** Closing a row queues nothing. */
  lemma ClosingInv(s: Queue, id: string, state: JobState)
    requires Inv(s) && state != Queued
    ensures Inv(s.(jobs := SetState(s.jobs, id, state)))
  {
    var t := s.(jobs := SetState(s.jobs, id, state));
    forall kind | kind in CAPS
      ensures KindInv(t, kind) && Busy(t, kind)
    {
      assert KindInv(s, kind) && Busy(s, kind);
      assert QueuedIds(t.jobs, kind) <= QueuedIds(s.jobs, kind);
    }
  }

  lemma InsertInv(s: Queue, id: string, kind: string, now: nat)
    requires Inv(s)
    ensures InvBut(Insert(s, id, kind, now), kind)
  {
    var t := Insert(s, id, kind, now);
    forall k | k in CAPS
      ensures KindInv(t, k) && (k != kind ==> Busy(t, k))
    {
      assert KindInv(s, k) && Busy(s, k);
      if k != kind {
        assert QueuedIds(t.jobs, k) <= QueuedIds(s.jobs, k);
      }
    }
  }

  lemma EndedInv(s: Queue, i: nat, end: End)
    requires Inv(s) && i < |s.tasks| && s.tasks[i].kind in s.running && s.running[s.tasks[i].kind] > 0
    ensures InvBut(Ended(s, i, end), s.tasks[i].kind)
  {
    var t := Ended(s, i, end);
    forall k | k in CAPS
      ensures KindInv(t, k) && (k != s.tasks[i].kind ==> Busy(t, k))
    {
      assert KindInv(s, k) && Busy(s, k);
      LiveWithout(s.tasks, i, k);
      assert QueuedIds(t.jobs, k) <= QueuedIds(s.jobs, k);
    }
  }

  // ----- runs -----

  ghost predicate Legal(s: Queue, steps: seq<Step>)
    requires Inv(s)
    decreases |steps|
  {
    steps == [] || (Enabled(s, steps[0]) && (StepInv(s, steps[0]); Legal(Apply(s, steps[0]), steps[1..])))
  }

  ghost function Run(s: Queue, steps: seq<Step>): Queue
    requires Inv(s) && Legal(s, steps)
    decreases |steps|
  {
    if steps == [] then s else StepInv(s, steps[0]); Run(Apply(s, steps[0]), steps[1..])
  }

  const FRESH: Queue := Queue(map[], map kind | kind in CAPS :: 0, [], false, {}, [])

  /** Scheduler safety and work conservation: in every interleaving from a fresh process, with any ids,
    * each kind's counter is within its cap; and while the queue is not stopped the counter is the number
    * of live tasks and a queued job means that its kind is at its cap. */
  lemma {:induction false} RunInv(s: Queue, steps: seq<Step>)
    requires Inv(s) && Legal(s, steps)
    ensures Inv(Run(s, steps))
    decreases |steps|
  {
    if steps != [] {
      StepInv(s, steps[0]);
      RunInv(Apply(s, steps[0]), steps[1..]);
    }
  }

  /** Tasks of a kind never exceed its cap, and reach it whenever a job of the kind has to wait. */
  ghost predicate AtCap(s: Queue, kind: string, cap: nat) {
    var live := set i | 0 <= i < |s.tasks| && s.tasks[i].kind == kind;
    && |live| <= cap
    && ((exists id :: id in s.jobs && s.jobs[id].kind == kind && s.jobs[id].state == Queued) && !s.stopped ==>
         |live| == cap)
  }

  lemma {:induction false} LiveCounts(tasks: seq<Task>, kind: string)
    ensures Live(tasks, kind) == |set i | 0 <= i < |tasks| && tasks[i].kind == kind|
  {
    if tasks != [] {
      hide Live;
      var last := |tasks| - 1;
      LiveCounts(tasks[..last], kind);
      LiveAppend(tasks[..last], tasks[last], kind);
      assert tasks[..last] + [tasks[last]] == tasks;
      OneMoreIndex(tasks, kind);
    }
  }

  lemma OneMoreIndex(tasks: seq<Task>, kind: string)
    requires tasks != []
    ensures var last := |tasks| - 1;
            |set i | 0 <= i < |tasks| && tasks[i].kind == kind| ==
            |set i | 0 <= i < last && tasks[..last][i].kind == kind| + if tasks[last].kind == kind then 1 else 0
  {
    var last := |tasks| - 1;
    var front := set i | 0 <= i < last && tasks[..last][i].kind == kind;
    var all := set i | 0 <= i < |tasks| && tasks[i].kind == kind;
    if tasks[last].kind == kind {
      assert all == front + {last};
    } else {
      assert all == front;
    }
  }

  lemma OneAtCap(s: Queue, kind: string)
    requires Inv(s) && kind in CAPS
    ensures AtCap(s, kind, CAPS[kind])
  {
    hide Live;
    LiveCounts(s.tasks, kind);
    assert KindInv(s, kind) && Busy(s, kind);
    forall id | id in s.jobs && s.jobs[id].kind == kind && s.jobs[id].state == Queued
      ensures id in QueuedIds(s.jobs, kind)
    {
    }
  }

  /** In every run two URL ingests, one backup and one rebuild may be under way, and that many are whenever
    * one of the kind has to wait and the queue is not stopped. */
  lemma CapsKept(s: Queue, steps: seq<Step>)
    requires Inv(s) && Legal(s, steps)
    ensures var t := Run(s, steps);
            AtCap(t, "ingest_url", 2) && AtCap(t, "backup_now", 1) && AtCap(t, "channel_rebuild", 1)
  {
    hide AtCap, Run, Inv;
    RunInv(s, steps);
    OneAtCap(Run(s, steps), "ingest_url");
    OneAtCap(Run(s, steps), "backup_now");
    OneAtCap(Run(s, steps), "channel_rebuild");
  }

  lemma FreshInv()
    ensures Inv(FRESH)
  {
  }

  // ----- with ids never used before -----

  ghost predicate Ids(s: Queue) {
    && (forall i, j :: 0 <= i < j < |s.tasks| ==> s.tasks[i].id != s.tasks[j].id)
    && (forall i, j :: 0 <= i < j < |s.started| ==> s.started[i].id != s.started[j].id)
    && (forall t :: t in s.tasks ==> t in s.started)
    && (forall t :: t in s.started ==> t.id in s.submitted)
    && (forall id :: id in s.jobs ==> id in s.submitted)
    && (forall t :: t in s.started && t.id in s.jobs ==> s.jobs[t.id].state != Queued)
  }

  predicate NewIds(s: Queue, step: Step) {
    step.Submit? ==> step.id !in s.submitted
  }

  lemma StartIds(s: Queue, kind: string, id: string)
    requires Ids(s) && kind in s.running && IsQueued(s.jobs, kind, id)
    ensures Ids(Start(s, kind, id))
  {
    var t := Start(s, kind, id);
    forall x | x in t.started && x.id in t.jobs
      ensures t.jobs[x.id].state != Queued
    {
      if x.id != id {
        assert x in s.started;
      }
    }
    assert forall i :: 0 <= i < |s.started| ==> s.started[i] in s.started;
    assert forall i :: 0 <= i < |s.tasks| ==> s.tasks[i] in s.started;
  }

  lemma {:induction false} WokenIds(s: Queue, kind: string)
    requires Ids(s)
    ensures Ids(Woken(s, kind))
    decreases if CanStart(s, kind) then CAPS[kind] - s.running[kind] else 0
  {
    hide Ids;
    if CanStart(s, kind) {
      StartIds(s, kind, Next(s.jobs, kind));
      WokenIds(Start(s, kind, Next(s.jobs, kind)), kind);
    }
  }

  lemma InsertIds(s: Queue, id: string, kind: string, now: nat)
    requires Ids(s) && id !in s.submitted
    ensures Ids(Insert(s, id, kind, now))
  {
    assert forall t :: t in s.started ==> t.id != id;
  }

  /** Neither closing rows nor dropping them or tasks can make an id live or queued again. */
  lemma ShrinkIds(s: Queue, t: Queue)
    requires Ids(s) && t.started == s.started && t.submitted == s.submitted
    requires forall id :: id in t.jobs ==> id in s.jobs && (t.jobs[id].state == Queued ==> s.jobs[id].state == Queued)
    requires t.tasks == s.tasks || t.tasks == [] || exists i :: 0 <= i < |s.tasks| && t.tasks == Without(s.tasks, i)
    ensures Ids(t)
  {
    if t.tasks != s.tasks && t.tasks != [] {
      var i :| 0 <= i < |s.tasks| && t.tasks == Without(s.tasks, i);
      assert forall k :: 0 <= k < |t.tasks| ==> t.tasks[k] == s.tasks[if k < i then k else k + 1];
    }
  }

  lemma StepIds(s: Queue, step: Step)
    requires Inv(s) && Ids(s) && Enabled(s, step) && NewIds(s, step)
    ensures Ids(Apply(s, step))
  {
    hide Woken, Live, Inv, Ids;
    match step
    case Submit(id, kind, now) =>
      if kind in CAPS {
        InsertIds(s, id, kind, now);
        WokenIds(Insert(s, id, kind, now), kind);
      }
    case Complete(i, end) =>
      CountsAt(s, i);
      ShrinkIds(s, Ended(s, i, end));
      WokenIds(Ended(s, i, end), s.tasks[i].kind);
    case _ => ShrinkIds(s, Apply(s, step));
  }

  ghost predicate AllNew(s: Queue, steps: seq<Step>)
    requires Inv(s) && Legal(s, steps)
    decreases |steps|
  {
    steps == [] || (NewIds(s, steps[0]) && (StepInv(s, steps[0]); AllNew(Apply(s, steps[0]), steps[1..])))
  }

  /** No job starts twice, in any run, restarts included, in which every submitted id is new. */
  lemma {:induction false} NeverStartsTwice(s: Queue, steps: seq<Step>)
    requires Inv(s) && Ids(s) && Legal(s, steps) && AllNew(s, steps)
    ensures Ids(Run(s, steps))
    ensures var h := Run(s, steps).started; forall i, j :: 0 <= i < j < |h| ==> h[i].id != h[j].id
    decreases |steps|
  {
    if steps != [] {
      StepInv(s, steps[0]);
      StepIds(s, steps[0]);
      NeverStartsTwice(Apply(s, steps[0]), steps[1..]);
    }
  }

  /** A row that was waiting may be running after a wake; no other row has changed. */
  ghost predicate OnlyStarted(before: map<string, Job>, after: map<string, Job>, id: string)
    requires id in before
  {
    && id in after
    && (after[id] == before[id] ||
        (before[id].state == Queued && after[id] == Job(before[id].kind, Running, before[id].createdAt)))
  }

  lemma {:induction false} WokenRows(s: Queue, kind: string)
    ensures Woken(s, kind).jobs.Keys == s.jobs.Keys
    ensures forall id :: id in s.jobs ==> OnlyStarted(s.jobs, Woken(s, kind).jobs, id)
    decreases if CanStart(s, kind) then CAPS[kind] - s.running[kind] else 0
  {
    if CanStart(s, kind) {
      var t := Start(s, kind, Next(s.jobs, kind));
      WokenRows(t, kind);
      forall id | id in s.jobs
        ensures OnlyStarted(s.jobs, Woken(s, kind).jobs, id)
      {
        assert OnlyStarted(t.jobs, Woken(t, kind).jobs, id);
      }
    }
  }

  /** How the row of an ended task is left: a normal return makes a running row done and leaves a row that
    * the handler closed; an exception makes it an error unless its message is empty, whatever it was; a
    * cancellation makes an unfinished row an error and leaves a finished one. */
  predicate LeftBy(end: End, before: JobState, after: JobState) {
    match end
    case Returned =>
      if before == Running then after == Done else after == before || (before == Queued && after == Running)
    case Raised(message) => if message == "" then after == Done else after == Error
    case Cancelled => if before == Queued || before == Running then after == Error else after == before
  }

  /** The end of a task: its own row is left as its end says, waiting rows may have started, and the other
    * rows are as they were. */
  lemma EndedRows(s: Queue, i: nat, end: End)
    requires Inv(s) && Enabled(s, Complete(i, end))
    ensures var t, id := Apply(s, Complete(i, end)), s.tasks[i].id;
            && t.jobs.Keys == s.jobs.Keys
            && (forall other :: other in s.jobs && other != id ==> OnlyStarted(s.jobs, t.jobs, other))
            && (id in s.jobs ==>
                 && t.jobs[id] == s.jobs[id].(state := t.jobs[id].state)
                 && LeftBy(end, s.jobs[id].state, t.jobs[id].state))
  {
    hide Woken;
    CountsAt(s, i);
    var u, kind, id := Ended(s, i, end), s.tasks[i].kind, s.tasks[i].id;
    WokenRows(u, kind);
    forall other | other in s.jobs
      ensures OnlyStarted(u.jobs, Apply(s, Complete(i, end)).jobs, other)
    {
      assert other in u.jobs;
    }
  }

  /** A submission adds or replaces its own row, which may start at once, as may others that wait. */
  lemma SubmittedRows(s: Queue, id: string, kind: string, now: nat)
    ensures var t := Woken(Insert(s, id, kind, now), kind);
            && t.jobs.Keys == s.jobs.Keys + {id}
            && t.jobs[id] in {Job(kind, Queued, now), Job(kind, Running, now)}
            && forall other :: other in s.jobs && other != id ==> OnlyStarted(s.jobs, t.jobs, other)
  {
    hide Woken;
    var u := Insert(s, id, kind, now);
    WokenRows(u, kind);
    assert OnlyStarted(u.jobs, Woken(u, kind).jobs, id);
    forall other | other in s.jobs && other != id
      ensures OnlyStarted(s.jobs, Woken(u, kind).jobs, other)
    {
      assert OnlyStarted(u.jobs, Woken(u, kind).jobs, other);
    }
  }

  /** Where ids are new, an ended task's row was running or closed by its handler, and is closed now. */
  lemma EndedRowIsTerminal(s: Queue, i: nat, end: End)
    requires Inv(s) && Ids(s) && Enabled(s, Complete(i, end))
    requires s.tasks[i].id in s.jobs
    ensures var t, id := Apply(s, Complete(i, end)), s.tasks[i].id;
            && id in t.jobs && t.jobs[id].state in {Done, Error, Interrupted}
            && (end == Returned && s.jobs[id].state == Running ==> t.jobs[id].state == Done)
            && (end == Cancelled && s.jobs[id].state == Running ==> t.jobs[id].state == Error)
            && (end.Raised? ==> t.jobs[id].state == if end.message == "" then Done else Error)
  {
    hide Woken;
    EndedRows(s, i, end);
    assert s.tasks[i] in s.tasks;
  }

  // ----- draining a kind -----

  /** Jobs of a kind that are waiting or under way. */
  function Work(s: Queue, kind: string): nat {
    |QueuedIds(s.jobs, kind)| + Live(s.tasks, kind)
  }

  lemma StartWork(s: Queue, kind: string, id: string, k: string)
    requires kind in s.running && IsQueued(s.jobs, kind, id)
    ensures Work(Start(s, kind, id), k) == Work(s, k)
  {
    LiveAppend(s.tasks, Task(kind, id), k);
    var t := Start(s, kind, id);
    if k == kind {
      assert QueuedIds(s.jobs, k) == QueuedIds(t.jobs, k) + {id};
      assert id !in QueuedIds(t.jobs, k);
    } else {
      assert QueuedIds(t.jobs, k) == QueuedIds(s.jobs, k);
    }
  }

  lemma {:induction false} WokenWork(s: Queue, kind: string, k: string)
    ensures Work(Woken(s, kind), k) == Work(s, k)
    decreases if CanStart(s, kind) then CAPS[kind] - s.running[kind] else 0
  {
    hide Work;
    if CanStart(s, kind) {
      StartWork(s, kind, Next(s.jobs, kind), k);
      WokenWork(Start(s, kind, Next(s.jobs, kind)), kind, k);
    }
  }

  /** Starting a job moves it from waiting to under way; each completion takes exactly one away. */
  lemma StepWork(s: Queue, step: Step, k: string)
    requires Inv(s) && Ids(s) && Enabled(s, step) && (step.Complete? || step.Finish?)
    ensures Work(Apply(s, step), k) == Work(s, k) - if step.Complete? && s.tasks[step.i].kind == k then 1 else 0
  {
    hide Woken, Live;
    var i := step.i;
    var t := s.tasks[i];
    assert t in s.started;
    if step.Complete? {
      CountsAt(s, i);
      LiveWithout(s.tasks, i, k);
      assert QueuedIds(Ended(s, i, step.end).jobs, k) == QueuedIds(s.jobs, k);
      WokenWork(Ended(s, i, step.end), t.kind, k);
    } else {
      assert QueuedIds(Apply(s, step).jobs, k) == QueuedIds(s.jobs, k);
    }
  }

  /** The completions of a kind among the steps. */
  ghost function Completions(s: Queue, steps: seq<Step>, kind: string): nat
    requires Inv(s) && Legal(s, steps)
    decreases |steps|
  {
    if steps == [] then 0
    else
      StepInv(s, steps[0]);
      Completions(Apply(s, steps[0]), steps[1..], kind)
      + if steps[0].Complete? && s.tasks[steps[0].i].kind == kind then 1 else 0
  }

  /** Without further submits or cancels, exactly as many completions as there are jobs waiting or under
    * way empty a kind, in whatever order and however the handlers end. */
  lemma {:induction false} Drains(s: Queue, steps: seq<Step>, kind: string)
    requires Inv(s) && Ids(s) && Legal(s, steps)
    requires forall i :: 0 <= i < |steps| ==> steps[i].Complete? || steps[i].Finish?
    ensures Work(Run(s, steps), kind) == Work(s, kind) - Completions(s, steps, kind)
    ensures Inv(Run(s, steps))
    decreases |steps|
  {
    hide Work, Inv;
    if steps != [] {
      StepInv(s, steps[0]);
      StepIds(s, steps[0]);
      StepWork(s, steps[0], kind);
      Drains(Apply(s, steps[0]), steps[1..], kind);
    }
  }

  /** ... and there is always a task left to complete until then. */
  lemma NeverStuck(s: Queue, kind: string)
    requires Inv(s) && kind in CAPS && !s.stopped && Work(s, kind) > 0
    ensures Live(s.tasks, kind) > 0
  {
    assert KindInv(s, kind) && Busy(s, kind);
  }

  // ----- order -----

  /** The queued jobs of j's kind in front of it. */
  function Ahead(jobs: map<string, Job>, j: string): set<string>
    requires j in jobs
  {
    set id | id in jobs && IsQueued(jobs, jobs[j].kind, id) && Before(jobs, id, j)
  }

  /** Whoever starts before a waiting job is in front of it: it was submitted in an earlier second, or in
    * the same second with a smaller id. */
  lemma StartShrinksAhead(s: Queue, kind: string, j: string)
    requires CanStart(s, kind) && IsQueued(s.jobs, kind, j) && Next(s.jobs, kind) != j
    ensures var n := Next(s.jobs, kind);
            && n in Ahead(s.jobs, j) && IsQueued(Start(s, kind, n).jobs, kind, j)
            && Ahead(Start(s, kind, n).jobs, j) == Ahead(s.jobs, j) - {n}
  {
  }

  /** The jobs of a kind started since an earlier history. */
  function StartedSince(before: seq<Task>, after: seq<Task>, kind: string): set<string> {
    set k | |before| <= k < |after| && after[k].kind == kind :: after[k].id
  }

  lemma StartedSplit(a: seq<Task>, b: seq<Task>, c: seq<Task>, kind: string)
    requires a <= b <= c
    ensures StartedSince(a, c, kind) == StartedSince(a, b, kind) + StartedSince(b, c, kind)
  {
    forall x | x in StartedSince(a, b, kind)
      ensures x in StartedSince(a, c, kind)
    {
      var k :| |a| <= k < |b| && b[k].kind == kind && b[k].id == x;
      assert c[k] == b[k];
    }
    forall x | x in StartedSince(a, c, kind)
      ensures x in StartedSince(a, b, kind) + StartedSince(b, c, kind)
    {
      var k :| |a| <= k < |c| && c[k].kind == kind && c[k].id == x;
      assert k < |b| ==> b[k] == c[k];
    }
  }

  lemma StartedOne(before: seq<Task>, t: Task, kind: string)
    ensures StartedSince(before, before + [t], kind) == if t.kind == kind then {t.id} else {}
    ensures StartedSince(before, before, kind) == {}
  {
    assert t.kind == kind ==> (before + [t])[|before|].id in StartedSince(before, before + [t], kind);
  }

  /** Each start of its kind takes a job that was in front of the waiting one, and brings that one place
    * forward. */
  lemma {:induction false} WokenAhead(s: Queue, kind: string, j: string)
    requires IsWaiting(s, j) && IsWaiting(Woken(s, kind), j)
    ensures var t, k := Woken(s, kind), s.jobs[j].kind;
            && t.jobs[j] == s.jobs[j] && s.started <= t.started
            && Ahead(t.jobs, j) <= Ahead(s.jobs, j) && StartedSince(s.started, t.started, k) <= Ahead(s.jobs, j)
            && |Ahead(t.jobs, j)| + Live(t.started, k) == |Ahead(s.jobs, j)| + Live(s.started, k)
    decreases if CanStart(s, kind) then CAPS[kind] - s.running[kind] else 0
  {
    hide Live, StartedSince, Ahead;
    var k := s.jobs[j].kind;
    if CanStart(s, kind) {
      var n := Next(s.jobs, kind);
      var u := Start(s, kind, n);
      OneStart(s, kind, j);
      if n == j {
        StaysStarted(u, kind, j);
        assert false;
      }
      WokenAhead(u, kind, j);
      StartedSplit(s.started, u.started, Woken(u, kind).started, k);
    } else {
      StartedOne(s.started, Task(kind, j), k);
    }
  }

  lemma OneStart(s: Queue, kind: string, j: string)
    requires IsWaiting(s, j) && CanStart(s, kind)
    ensures var n, k := Next(s.jobs, kind), s.jobs[j].kind;
            var u := Start(s, kind, n);
            n != j ==>
              && u.jobs[j] == s.jobs[j] && s.started <= u.started
              && Ahead(u.jobs, j) <= Ahead(s.jobs, j) && StartedSince(s.started, u.started, k) <= Ahead(s.jobs, j)
              && |Ahead(u.jobs, j)| + Live(u.started, k) == |Ahead(s.jobs, j)| + Live(s.started, k)
  {
    hide Live, StartedSince;
    var n, k := Next(s.jobs, kind), s.jobs[j].kind;
    LiveAppend(s.started, Task(kind, n), k);
    StartedOne(s.started, Task(kind, n), k);
    if n != j {
      if kind == k {
        StartShrinksAhead(s, kind, j);
      } else {
        assert Ahead(Start(s, kind, n).jobs, j) == Ahead(s.jobs, j);
      }
    }
  }

  lemma {:induction false} StaysStarted(s: Queue, kind: string, j: string)
    requires j in s.jobs && s.jobs[j].state != Queued
    ensures j in Woken(s, kind).jobs && Woken(s, kind).jobs[j].state != Queued
    decreases if CanStart(s, kind) then CAPS[kind] - s.running[kind] else 0
  {
    if CanStart(s, kind) {
      StaysStarted(Start(s, kind, Next(s.jobs, kind)), kind, j);
    }
  }

  predicate IsWaiting(s: Queue, j: string) {
    j in s.jobs && s.jobs[j].state == Queued
  }

  /** Submissions that get in front of j although they come later: the same kind in the same second with
    * a smaller id. */
  predicate Overtakes(step: Step, job: Job, j: string) {
    step.Submit? && step.kind in CAPS && step.kind == job.kind && step.now == job.createdAt && Less(step.id, j)
  }

  function Overtaker(step: Step, job: Job, j: string): set<string> {
    if Overtakes(step, job, j) then {step.id} else {}
  }

  lemma InsertAhead(s: Queue, step: Step, j: string)
    requires step.Submit? && IsWaiting(s, j) && step.id != j && s.jobs[j].createdAt <= step.now && step.kind in CAPS
    ensures var u := Insert(s, step.id, step.kind, step.now);
            u.jobs[j] == s.jobs[j] && Ahead(u.jobs, j) <= Ahead(s.jobs, j) + Overtaker(step, s.jobs[j], j)
  {
  }

  lemma StepAhead(s: Queue, step: Step, j: string)
    requires Inv(s) && Enabled(s, step) && IsWaiting(s, j) && IsWaiting(Apply(s, step), j)
    requires step.Submit? ==> step.id != j && s.jobs[j].createdAt <= step.now
    ensures var t, kind, more := Apply(s, step), s.jobs[j].kind, Overtaker(step, s.jobs[j], j);
            && t.jobs[j] == s.jobs[j] && s.started <= t.started
            && Ahead(t.jobs, j) <= Ahead(s.jobs, j) + more
            && StartedSince(s.started, t.started, kind) <= Ahead(s.jobs, j) + more
            && |Ahead(t.jobs, j)| + Live(t.started, kind) <= |Ahead(s.jobs, j)| + Live(s.started, kind) + |more|
  {
    hide Woken, Live, Inv, StartedSince;
    var t, kind, more := Apply(s, step), s.jobs[j].kind, Overtaker(step, s.jobs[j], j);
    StartedOne(s.started, Task(kind, j), kind);
    match step
    case Submit(id, k, now) =>
      if k in CAPS {
        SubmitAhead(s, step, j);
      }
    case Complete(i, end) =>
      CountsAt(s, i);
      var u := Ended(s, i, end);
      EndedKeeps(s, i, end, j);
      WokenAhead(u, s.tasks[i].kind, j);
      Fewer(Ahead(u.jobs, j), Ahead(s.jobs, j));
    case Reboot =>
    case _ => Fewer(Ahead(t.jobs, j), Ahead(s.jobs, j));
  }

  lemma SubmitAhead(s: Queue, step: Step, j: string)
    requires step.Submit? && IsWaiting(s, j) && step.id != j && s.jobs[j].createdAt <= step.now && step.kind in CAPS
    requires IsWaiting(Woken(Insert(s, step.id, step.kind, step.now), step.kind), j)
    ensures var u := Insert(s, step.id, step.kind, step.now);
            var t, kind, more := Woken(u, step.kind), s.jobs[j].kind, Overtaker(step, s.jobs[j], j);
            && t.jobs[j] == s.jobs[j] && s.started <= t.started
            && Ahead(t.jobs, j) <= Ahead(s.jobs, j) + more
            && StartedSince(s.started, t.started, kind) <= Ahead(s.jobs, j) + more
            && |Ahead(t.jobs, j)| + Live(t.started, kind) <= |Ahead(s.jobs, j)| + Live(s.started, kind) + |more|
  {
    hide Woken, Live, StartedSince;
    var u, more := Insert(s, step.id, step.kind, step.now), Overtaker(step, s.jobs[j], j);
    InsertAhead(s, step, j);
    WokenAhead(u, step.kind, j);
    Fewer(Ahead(u.jobs, j), Ahead(s.jobs, j) + more);
    AtMostBoth(Ahead(s.jobs, j), more);
  }

  lemma AtMostBoth(a: set<string>, b: set<string>)
    ensures |a + b| <= |a| + |b|
  {
    assert a + b == a + (b - a);
    Fewer(b - a, b);
  }

  lemma EndedKeeps(s: Queue, i: nat, end: End, j: string)
    requires Inv(s) && Enabled(s, Complete(i, end)) && IsWaiting(s, j) && IsWaiting(Apply(s, Complete(i, end)), j)
    requires s.tasks[i].kind in s.running && s.running[s.tasks[i].kind] > 0
    ensures IsWaiting(Ended(s, i, end), j)
    ensures Ended(s, i, end).jobs[j] == s.jobs[j] && Ahead(Ended(s, i, end).jobs, j) <= Ahead(s.jobs, j)
  {
    OnlyWaiting(Ended(s, i, end), s.tasks[i].kind, j);
  }

  lemma OnlyWaiting(s: Queue, kind: string, j: string)
    requires j in s.jobs
    ensures IsWaiting(Woken(s, kind), j) ==> IsWaiting(s, j)
  {
    if s.jobs[j].state != Queued {
      StaysStarted(s, kind, j);
    }
  }

  /** j is waiting at the start, at the end and at every point between, under no new submission of its own. */
  ghost predicate Waits(s: Queue, steps: seq<Step>, j: string)
    requires Inv(s) && Legal(s, steps)
    decreases |steps|
  {
    && IsWaiting(s, j)
    && (steps == [] ||
        ((steps[0].Submit? ==> steps[0].id != j) && (StepInv(s, steps[0]); Waits(Apply(s, steps[0]), steps[1..], j))))
  }

  /** The clock never goes back: submissions carry non-decreasing times from now on ... */
  predicate Clocked(steps: seq<Step>, now: nat)
    decreases |steps|
  {
    steps == [] || (if steps[0].Submit? then now <= steps[0].now && Clocked(steps[1..], steps[0].now)
                    else Clocked(steps[1..], now))
  }

  /** ... and no row is from the future. */
  predicate Past(s: Queue, now: nat) {
    forall id :: id in s.jobs ==> s.jobs[id].createdAt <= now
  }

  lemma {:induction false} WokenPast(s: Queue, kind: string, now: nat)
    requires Past(s, now)
    ensures Past(Woken(s, kind), now)
    decreases if CanStart(s, kind) then CAPS[kind] - s.running[kind] else 0
  {
    if CanStart(s, kind) {
      WokenPast(Start(s, kind, Next(s.jobs, kind)), kind, now);
    }
  }

  lemma StepPast(s: Queue, step: Step, now: nat)
    requires Inv(s) && Enabled(s, step) && Past(s, now) && (step.Submit? ==> now <= step.now)
    ensures Past(Apply(s, step), if step.Submit? then step.now else now)
  {
    hide Woken, Live, Inv;
    match step
    case Submit(id, kind, at) =>
      if kind in CAPS {
        WokenPast(Insert(s, id, kind, at), kind, at);
      }
    case Complete(i, end) =>
      CountsAt(s, i);
      WokenPast(Ended(s, i, end), s.tasks[i].kind, now);
    case _ =>
  }

  function LastClock(steps: seq<Step>, now: nat): nat
    decreases |steps|
  {
    if steps == [] then now else LastClock(steps[1..], if steps[0].Submit? then steps[0].now else now)
  }

  /** Under such a clock no row is ever from the future. */
  lemma {:induction false} RunPast(s: Queue, steps: seq<Step>, now: nat)
    requires Inv(s) && Legal(s, steps) && Clocked(steps, now) && Past(s, now)
    ensures Past(Run(s, steps), LastClock(steps, now))
    decreases |steps|
  {
    hide Past, Inv;
    if steps != [] {
      StepInv(s, steps[0]);
      StepPast(s, steps[0], now);
      RunPast(Apply(s, steps[0]), steps[1..], if steps[0].Submit? then steps[0].now else now);
    }
  }

  /** The jobs that a run of steps submits in front of j, and how many times. */
  function Overtakers(steps: seq<Step>, job: Job, j: string): set<string>
    decreases |steps|
  {
    if steps == [] then {} else Overtaker(steps[0], job, j) + Overtakers(steps[1..], job, j)
  }

  function OvertakingCount(steps: seq<Step>, job: Job, j: string): nat
    decreases |steps|
  {
    if steps == [] then 0 else |Overtaker(steps[0], job, j)| + OvertakingCount(steps[1..], job, j)
  }

  /** Order over runs.  While j waits, under a clock that does not go back, every job of its kind that is
    * started was in front of j at the beginning, or was submitted later in j's own second with a smaller
    * id; the same holds of every job in front of j at the end.  No more jobs start than those. */
  lemma {:induction false} OvertakenOnlyInItsSecond(s: Queue, steps: seq<Step>, j: string, now: nat)
    requires Inv(s) && Legal(s, steps) && Waits(s, steps, j) && Clocked(steps, now) && Past(s, now)
    ensures var t, job := Run(s, steps), s.jobs[j];
            && s.started <= t.started && IsWaiting(t, j)
            && StartedSince(s.started, t.started, job.kind) <= Ahead(s.jobs, j) + Overtakers(steps, job, j)
            && Ahead(t.jobs, j) <= Ahead(s.jobs, j) + Overtakers(steps, job, j)
            && |Ahead(t.jobs, j)| + Live(t.started, job.kind)
               <= |Ahead(s.jobs, j)| + Live(s.started, job.kind) + OvertakingCount(steps, job, j)
    decreases |steps|
  {
    hide Live, Inv, Ahead, Overtaker, Past, StartedSince;
    var job := s.jobs[j];
    StartedOne(s.started, Task(job.kind, j), job.kind);
    if steps != [] {
      var u := Apply(s, steps[0]);
      StepInv(s, steps[0]);
      JobPast(s, j, now);
      assert IsWaiting(u, j);
      StepAhead(s, steps[0], j);
      StepPast(s, steps[0], now);
      OvertakenOnlyInItsSecond(u, steps[1..], j, if steps[0].Submit? then steps[0].now else now);
      StartedSplit(s.started, u.started, Run(u, steps[1..]).started, job.kind);
    }
  }

  lemma JobPast(s: Queue, j: string, now: nat)
    requires Past(s, now) && j in s.jobs
    ensures s.jobs[j].createdAt <= now
  {
  }

  lemma {:induction false} NoneOvertake(steps: seq<Step>, job: Job, j: string, now: nat)
    requires Clocked(steps, now) && job.createdAt < now
    ensures Overtakers(steps, job, j) == {} && OvertakingCount(steps, job, j) == 0
    decreases |steps|
  {
    if steps != [] {
      NoneOvertake(steps[1..], job, j, if steps[0].Submit? then steps[0].now else now);
    }
  }

  /** Once the clock has passed j's second the jobs in front of it only grow fewer, and at most those
    * start before it. */
  lemma BoundedWaiting(s: Queue, steps: seq<Step>, j: string, now: nat)
    requires Inv(s) && Legal(s, steps) && Waits(s, steps, j) && Clocked(steps, now) && Past(s, now)
    requires s.jobs[j].createdAt < now
    ensures var t, job := Run(s, steps), s.jobs[j];
            && s.started <= t.started && IsWaiting(t, j)
            && Ahead(t.jobs, j) <= Ahead(s.jobs, j)
            && StartedSince(s.started, t.started, job.kind) <= Ahead(s.jobs, j)
            && Live(t.started, job.kind) - Live(s.started, job.kind) <= |Ahead(s.jobs, j)| - |Ahead(t.jobs, j)|
  {
    hide Live, Inv, Ahead, Run, StartedSince, Past;
    OvertakenOnlyInItsSecond(s, steps, j, now);
    NoneOvertake(steps, s.jobs[j], j, now);
  }

  /** An exception with an empty message closes its job as done. */
  lemma EmptyMessageIsDone()
    ensures Closed(map["j" := Job("ingest_url", Running, 0)], "j", Raised("")) == map["j" := Job("ingest_url", Done, 0)]
  {
  }

  // ----- the queue object -----

  class JobQueue {
    var jobs: map<string, Job>
    var running: map<string, nat>
    var tasks: seq<Task>
    var stopped: bool
    ghost var submitted: set<string>
    ghost var started: seq<Task>

    ghost function Now(): Queue
      reads this
    {
      Queue(jobs, running, tasks, stopped, submitted, started)
    }

    constructor ()
      ensures Now() == FRESH
    {
      jobs, running, tasks, stopped := map[], map kind | kind in CAPS :: 0, [], false;
      submitted, started := {}, [];
    }

    /** submit: false for an unknown kind (the source's ValueError). */
    method SubmitJob(id: string, kind: string, now: nat) returns (ok: bool)
      requires Inv(Now())
      modifies this
      ensures Now() == Apply(old(Now()), Submit(id, kind, now)) && Inv(Now())
      ensures ok <==> kind in {"ingest_url", "backup_now", "channel_rebuild"}
      ensures !ok ==> jobs == old(jobs)
      ensures ok ==>
        && jobs.Keys == old(jobs).Keys + {id}
        && jobs[id] in {Job(kind, Queued, now), Job(kind, Running, now)}
        && forall other :: other in old(jobs) && other != id ==> OnlyStarted(old(jobs), jobs, other)
    {
      SubmittedRows(Now(), id, kind, now);
      StepInv(Now(), Submit(id, kind, now));
      if kind !in CAPS {
        return false;
      }
      assert KindInv(Now(), kind);
      jobs := jobs[id := Job(kind, Queued, now)];
      submitted := submitted + {id};
      Wake(kind);
      ok := true;
    }

    method Wake(kind: string)
      requires kind in CAPS && kind in running
      modifies this`jobs, this`running, this`tasks, this`started
      ensures Now() == Woken(old(Now()), kind)
    {
      if stopped {
        return;
      }
      while running[kind] < CAPS[kind]
        invariant kind in running && stopped == old(stopped) && submitted == old(submitted)
        invariant Woken(Now(), kind) == Woken(old(Now()), kind)
        decreases (CAPS[kind] as int) - (running[kind] as int)
      {
        var row := NextQueued(jobs, kind);
        if row == None {
          break;
        }
        NextUnique(jobs, kind, row.value, Next(jobs, kind));
        assert CanStart(Now(), kind);
        running := running[kind := running[kind] + 1];
        jobs := SetState(jobs, row.value, Running);
        tasks := tasks + [Task(kind, row.value)];
        started := started + [Task(kind, row.value)];
      }
    }

    /** The end of _run_one for the i-th live task. */
    method EndTask(i: nat, end: End)
      requires Inv(Now()) && Enabled(Now(), Complete(i, end))
      modifies this
      ensures Now() == Apply(old(Now()), Complete(i, end)) && Inv(Now())
      ensures jobs.Keys == old(jobs).Keys
      ensures var id := old(tasks)[i].id;
              id in old(jobs) ==>
                && jobs[id] == old(jobs)[id].(state := jobs[id].state)
                && LeftBy(end, old(jobs)[id].state, jobs[id].state)
      ensures forall id :: id in old(jobs) && id != old(tasks)[i].id ==> OnlyStarted(old(jobs), jobs, id)
    {
      hide Closed, Woken, Live, OnlyStarted, LeftBy, Inv;
      EndedRows(Now(), i, end);
      KnownKind(Now(), i);
      StepInv(Now(), Complete(i, end));
      CountsAt(Now(), i);
      var t := tasks[i];
      CloseRow(t.id, end);
      tasks := Without(tasks, i);
      running := running[t.kind := running[t.kind] - 1];
      assert Now() == Ended(old(Now()), i, end);
      Wake(t.kind);
    }

    /** How _run_one leaves the row. */
    method CloseRow(id: string, end: End)
      modifies this`jobs
      ensures jobs == Closed(old(jobs), id, end)
    {
      match end
      case Returned =>
        if id in jobs && jobs[id].state == Running {
          FinishRow(id, "");
        }
      case Raised(message) => FinishRow(id, message);
      case Cancelled =>
        if id in jobs && jobs[id].state in {Queued, Running} {
          FinishRow(id, "server shutting down");
        }
    }

    /** finish: an error message, unless empty, makes the row an error. */
    method FinishRow(id: string, error: string)
      modifies this`jobs
      ensures jobs == SetState(old(jobs), id, if error != "" then Error else Done)
      ensures jobs == if id in old(jobs)
                      then old(jobs)[id := old(jobs)[id].(state := if error != "" then Error else Done)]
                      else old(jobs)
    {
      jobs := SetState(jobs, id, if error != "" then Error else Done);
    }

    /** finish, called by the handler of the i-th live task. */
    method HandlerFinishes(i: nat, error: string)
      requires Inv(Now()) && i < |tasks|
      modifies this`jobs
      ensures Now() == Apply(old(Now()), Finish(i, error != "")) && Inv(Now())
      ensures var id := tasks[i].id;
              id in old(jobs) ==> jobs == old(jobs)[id := old(jobs)[id].(state := if error == "" then Done else Error)]
    {
      StepInv(Now(), Finish(i, error != ""));
      FinishRow(tasks[i].id, error);
    }

    /** cancel: only a queued job. */
    method CancelJob(id: string) returns (ok: bool)
      requires Inv(Now())
      modifies this`jobs
      ensures Now() == Apply(old(Now()), Cancel(id)) && Inv(Now())
      ensures ok <==> id in old(jobs) && old(jobs)[id].state == Queued
      ensures jobs == if ok then old(jobs)[id := old(jobs)[id].(state := Error)] else old(jobs)
    {
      StepInv(Now(), Cancel(id));
      ok := id in jobs && jobs[id].state == Queued;
      if ok {
        FinishRow(id, "cancelled");
      }
    }

    /** delete: only a finished row. */
    method DeleteJob(id: string) returns (ok: bool)
      requires Inv(Now())
      modifies this`jobs
      ensures Now() == Apply(old(Now()), Delete(id)) && Inv(Now())
      ensures ok <==> id in old(jobs) && old(jobs)[id].state in {Done, Error, Interrupted}
      ensures jobs == if ok then old(jobs) - {id} else old(jobs)
    {
      StepInv(Now(), Delete(id));
      ok := id in jobs && jobs[id].state in {Done, Error, Interrupted};
      if ok {
        jobs := jobs - {id};
      }
    }

    /** stop, as far as it runs before its first await. */
    method StopQueue()
      requires Inv(Now())
      modifies this`stopped
      ensures Now() == Apply(old(Now()), Stop) && Inv(Now())
      ensures stopped
    {
      StepInv(Now(), Stop);
      stopped := true;
    }

    /** mark_interrupted_on_boot, in a new process over the old rows. */
    method Boot()
      requires Inv(Now())
      modifies this
      ensures Now() == Apply(old(Now()), Reboot) && Inv(Now())
      ensures tasks == [] && !stopped && jobs.Keys == old(jobs).Keys
      ensures forall id :: id in old(jobs) ==>
        var row := old(jobs)[id];
        jobs[id] == if row.state == Queued || row.state == Running
                    then Job(row.kind, Interrupted, row.createdAt) else row
    {
      StepInv(Now(), Reboot);
      jobs := map id | id in jobs :: if jobs[id].state in {Queued, Running} then jobs[id].(state := Interrupted)
          else jobs[id];
      running, tasks, stopped := map kind | kind in CAPS :: 0, [], false;
    }
  }
}

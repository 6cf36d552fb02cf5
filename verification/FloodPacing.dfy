/** Sending to Telegram in src/anbar/storage/bot_backend.py: the flood-wait loop of one store call, and the
  * send lock with its gap, shared by concurrent calls on one pool member.  Times are seconds; asyncio.sleep
  * never wakes early. */
module FloodPacing {
  import opened Bytes

  // ----- one store call -----

  /** How one paced post ends. */
  datatype Reply = Posted | Rejected(code: int, retryAfter: Option<nat>)

  /** One turn of the loop: the post takes this long, and a sleep after it this much too long. */
  datatype Attempt = Attempt(took: real, reply: Reply, overslept: real)

  datatype Result = Stored | FloodBudgetExceeded | Fatal(code: int) | StillWaiting

  predicate Possible(attempts: seq<Attempt>) {
    forall i :: 0 <= i < |attempts| ==> attempts[i].took >= 0.0 && attempts[i].overslept >= 0.0
  }

  /** _is_rate_limited. */
  predicate RateLimited(code: int) {
    code in {429, 402, 500, 502}
  }

  /** (retry_after or 3) + 0.5. */
  function WaitFor(retryAfter: Option<nat>): (w: real)
    ensures w >= 1.5
  {
    (if retryAfter == None || retryAfter.value == 0 then 3 else retryAfter.value) as real + 0.5
  }

  /** The sleeps a call performs, given how its posts go. */
  function Sleeps(now: real, deadline: real, attempts: seq<Attempt>): seq<real>
    decreases |attempts|
  {
    if attempts == [] || attempts[0].reply.Posted? || !RateLimited(attempts[0].reply.code) then []
    else
      var a := attempts[0];
      var wait := WaitFor(a.reply.retryAfter);
      if now + a.took + wait > deadline then []
      else [wait] + Sleeps(now + a.took + wait + a.overslept, deadline, attempts[1..])
  }

  /** The time from the start of the call to its k-th post. */
  function Elapsed(attempts: seq<Attempt>, slept: seq<real>, k: nat): real
    requires k <= |slept| <= |attempts|
  {
    if k == 0 then 0.0
    else Elapsed(attempts, slept, k - 1) + attempts[k - 1].took + slept[k - 1] + attempts[k - 1].overslept
  }

  lemma {:induction false} ElapsedPrefix(attempts: seq<Attempt>, slept: seq<real>, more: seq<real>, k: nat)
    requires k <= |slept| && |slept + more| <= |attempts|
    ensures Elapsed(attempts, slept + more, k) == Elapsed(attempts, slept, k)
  {
    if k > 0 {
      ElapsedPrefix(attempts, slept, more, k - 1);
    }
  }

  /** A reply that is waited out, the wait it asks for, and whether the wait ends in time. */
  ghost predicate Waited(attempts: seq<Attempt>, slept: seq<real>, i: nat, wait: real, budget: real)
    requires i <= |slept| <= |attempts| && i < |attempts|
  {
    var reply := attempts[i].reply;
    && reply.Rejected? && reply.code in {429, 402, 500, 502}
    && wait == (if reply.retryAfter in {None, Some(0)} then 3.5 else reply.retryAfter.value as real + 0.5)
    && Elapsed(attempts, slept, i) + attempts[i].took + wait <= budget
  }

  lemma WaitedStill(attempts: seq<Attempt>, slept: seq<real>, more: seq<real>, i: nat, wait: real, budget: real)
    requires i <= |slept| <= |attempts| && i < |attempts| && |slept + more| <= |attempts|
    ensures Waited(attempts, slept + more, i, wait, budget) <==> Waited(attempts, slept, i, wait, budget)
  {
    ElapsedPrefix(attempts, slept, more, i);
  }

  function Total(waits: seq<real>): real {
    if waits == [] then 0.0 else waits[0] + Total(waits[1..])
  }

  /** The flood waits of one call fit in its budget, so there are at most budget / 1.5 of them. */
  lemma {:induction false} SleepsFitBudget(now: real, deadline: real, attempts: seq<Attempt>)
    requires Possible(attempts) && now <= deadline
    ensures 1.5 * |Sleeps(now, deadline, attempts)| as real <= Total(Sleeps(now, deadline, attempts)) <= deadline - now
    ensures |Sleeps(now, deadline, attempts)| <= ((deadline - now) / 1.5).Floor
    decreases |attempts|
  {
    if attempts != [] && attempts[0].reply.Rejected? && RateLimited(attempts[0].reply.code) {
      var a := attempts[0];
      var wait := WaitFor(a.reply.retryAfter);
      if now + a.took + wait <= deadline {
        var later := now + a.took + wait + a.overslept;
        var rest := Sleeps(later, deadline, attempts[1..]);
        assert ([wait] + rest)[1..] == rest;
        if later <= deadline {
          SleepsFitBudget(later, deadline, attempts[1..]);
        } else {
          LateIsLast(later, deadline, attempts[1..]);
        }
      }
    }
  }

  lemma LateIsLast(now: real, deadline: real, attempts: seq<Attempt>)
    requires Possible(attempts) && now > deadline
    ensures Sleeps(now, deadline, attempts) == []
  {
  }

  /** One turn of the loop. */
  lemma Turn(now: real, deadline: real, attempts: seq<Attempt>, k: nat, slept: seq<real>)
    requires k <= |attempts|
    ensures k == |attempts| ==> slept + Sleeps(now, deadline, attempts[k..]) == slept
    ensures k < |attempts| ==>
      var reply := attempts[k].reply;
      if reply.Posted? || !RateLimited(reply.code) || now + attempts[k].took + WaitFor(reply.retryAfter) > deadline then
        slept + Sleeps(now, deadline, attempts[k..]) == slept
      else
        var wait := WaitFor(reply.retryAfter);
        slept + Sleeps(now, deadline, attempts[k..]) ==
          (slept + [wait]) + Sleeps(now + attempts[k].took + wait + attempts[k].overslept, deadline, attempts[k + 1..])
  {
    hide WaitFor, RateLimited;
    if k < |attempts| {
      assert attempts[k..][0] == attempts[k] && attempts[k..][1..] == attempts[k + 1..];
    }
  }

  lemma OneWait(attempts: seq<Attempt>, slept: seq<real>, wait: real, start: real, now: real, budget: real)
    requires |slept| < |attempts| && now == start + Elapsed(attempts, slept, |slept|)
    requires attempts[|slept|].reply.Rejected? && RateLimited(attempts[|slept|].reply.code)
    requires wait == WaitFor(attempts[|slept|].reply.retryAfter)
    ensures var a := attempts[|slept|];
            if now + a.took + wait > start + budget then forall w :: !Waited(attempts, slept, |slept|, w, budget)
            else
              && Waited(attempts, slept + [wait], |slept|, wait, budget)
              && now + a.took + wait + a.overslept == start + Elapsed(attempts, slept + [wait], |slept| + 1)
              && forall i :: 0 <= i < |slept| && Waited(attempts, slept, i, slept[i], budget) ==>
                   Waited(attempts, slept + [wait], i, slept[i], budget)
  {
    ElapsedPrefix(attempts, slept, [wait], |slept|);
    forall i | 0 <= i < |slept|
      ensures Waited(attempts, slept + [wait], i, slept[i], budget) <==> Waited(attempts, slept, i, slept[i], budget)
    {
      WaitedStill(attempts, slept, [wait], i, slept[i], budget);
    }
  }

  /** store's loop: it posts until a post succeeds, is refused for good, or a flood wait would pass the
    * deadline.  Every sleep but none other follows a rate-limited reply. */
  method Store(start: real, budget: real, attempts: seq<Attempt>) returns (r: Result, posts: nat, slept: seq<real>)
    requires Possible(attempts) && budget >= 0.0
    ensures slept == Sleeps(start, start + budget, attempts)
    ensures Total(slept) <= budget && |slept| <= (budget / 1.5).Floor
    ensures posts <= |attempts| && |slept| <= posts <= |slept| + 1
    ensures forall i :: 0 <= i < |slept| ==> Waited(attempts, slept, i, slept[i], budget)
    ensures r == StillWaiting <==> posts == |slept| == |attempts|
    ensures r == Stored <==> posts == |slept| + 1 && attempts[|slept|].reply.Posted?
    ensures forall code :: r == Fatal(code) <==>
      posts == |slept| + 1 && attempts[|slept|].reply.Rejected? && attempts[|slept|].reply.code == code &&
          code !in {429, 402, 500, 502}
    ensures r == FloodBudgetExceeded ==>
      && posts == |slept| + 1 && attempts[|slept|].reply.Rejected?
      && attempts[|slept|].reply.code in {429, 402, 500, 502}
      && forall wait :: !Waited(attempts, slept, |slept|, wait, budget)
    ensures |attempts| > (budget / 1.5).Floor ==> r != StillWaiting
  {
    hide Total, Sleeps, Waited;
    var deadline := start + budget;
    var now := start;
    posts, slept := 0, [];
    assert attempts[0..] == attempts;
    SleepsFitBudget(start, deadline, attempts);
    while true
      invariant posts == |slept| <= |attempts|
      invariant slept + Sleeps(now, deadline, attempts[posts..]) == Sleeps(start, deadline, attempts)
      invariant now == start + Elapsed(attempts, slept, |slept|)
      invariant forall i :: 0 <= i < |slept| ==> Waited(attempts, slept, i, slept[i], budget)
      decreases |attempts| - posts
    {
      Turn(now, deadline, attempts, posts, slept);
      if posts == |attempts| {
        return StillWaiting, posts, slept;
      }
      var a := attempts[posts];
      now := now + a.took;
      posts := posts + 1;
      match a.reply
      case Posted => return Stored, posts, slept;
      case Rejected(code, retryAfter) =>
        if !RateLimited(code) {
          return Fatal(code), posts, slept;
        }
        var wait := WaitFor(retryAfter);
        OneWait(attempts, slept, wait, start, now - a.took, budget);
        if now + wait > deadline {
          return FloodBudgetExceeded, posts, slept;
        }
        slept := slept + [wait];
        now := now + wait + a.overslept;
    }
  }

  // ----- the send lock -----

  /** A finished post. */
  datatype Send = Send(start: real, end: real)

  datatype Phase = Free | Sleeping(caller: nat, until: real) | Sending(caller: nat, start: real)

  /** One member's lock and _last_send_at, with the posts made so far. */
  datatype Member = Member(clock: real, lastSendAt: real, phase: Phase, sends: seq<Send>)

  datatype Step =
    | Acquire(caller: nat, t: real)   // takes the lock and computes its sleep
    | Begin(caller: nat, t: real)     // wakes and starts to post
    | End(caller: nat, t: real)       // the post returns, raises or is cancelled: the finally clause
    | GiveUp(caller: nat, t: real)    // cancelled while sleeping

  predicate Enabled(m: Member, step: Step) {
    step.t >= m.clock
    && match step
       case Acquire(_, _) => m.phase.Free?
       case Begin(c, t) => m.phase.Sleeping? && m.phase.caller == c && t >= m.phase.until
       case End(c, _) => m.phase.Sending? && m.phase.caller == c
       case GiveUp(c, _) => m.phase.Sleeping? && m.phase.caller == c
  }

  function Apply(m: Member, step: Step, gap: real): Member
    requires Enabled(m, step)
  {
    match step
    case Acquire(c, t) =>
      var wait := m.lastSendAt + gap - t;
      m.(clock := t, phase := Sleeping(c, if wait > 0.0 then t + wait else t))
    case Begin(c, t) => m.(clock := t, phase := Sending(c, t))
    case End(c, t) => m.(clock := t, phase := Free, lastSendAt := t, sends := m.sends + [Send(m.phase.start, t)])
    case GiveUp(c, t) => m.(clock := t, phase := Free)
  }

  /** Posts do not overlap and each starts at least the gap after the one before it ended. */
  predicate Spaced(sends: seq<Send>, gap: real) {
    && (forall i :: 0 <= i < |sends| ==> sends[i].start <= sends[i].end)
    && forall i :: 0 <= i < |sends| - 1 ==> sends[i].end + gap <= sends[i + 1].start
  }

  ghost predicate Inv(m: Member, gap: real) {
    && Spaced(m.sends, gap)
    && (m.sends != [] ==> m.lastSendAt == m.sends[|m.sends| - 1].end)
    && (m.phase.Sleeping? ==> m.lastSendAt + gap <= m.phase.until)
    && (m.phase.Sending? ==> m.lastSendAt + gap <= m.phase.start <= m.clock)
  }

  predicate Legal(m: Member, steps: seq<Step>, gap: real)
    decreases |steps|
  {
    steps == [] || (Enabled(m, steps[0]) && Legal(Apply(m, steps[0], gap), steps[1..], gap))
  }

  function Run(m: Member, steps: seq<Step>, gap: real): Member
    requires Legal(m, steps, gap)
    decreases |steps|
  {
    if steps == [] then m else Run(Apply(m, steps[0], gap), steps[1..], gap)
  }

  /** Pacing: whatever callers share a member, and however their posts end, every post starts at least the
    * gap after the previous one ended. */
  lemma {:induction false} Paced(m: Member, steps: seq<Step>, gap: real)
    requires Inv(m, gap) && Legal(m, steps, gap)
    ensures Inv(Run(m, steps, gap), gap) && Spaced(Run(m, steps, gap).sends, gap)
    decreases |steps|
  {
    if steps != [] {
      var next := Apply(m, steps[0], gap);
      assert Inv(next, gap) by {
        assert forall i :: 0 <= i < |m.sends| ==> next.sends[i] == m.sends[i];
      }
      Paced(next, steps[1..], gap);
    }
  }

  /** While one caller has the lock, no other caller's step can happen. */
  lemma OnlyTheHolder(m: Member, step: Step)
    requires Enabled(m, step) && !m.phase.Free?
    ensures step.caller == m.phase.caller && !step.Acquire?
  {
  }

  /** A caller that has the lock may post from the moment the gap has passed, and no later. */
  lemma BeginsExactly(m: Member, caller: nat, t: real, gap: real, at: real)
    requires Inv(m, gap) && m.sends != [] && Enabled(m, Acquire(caller, t))
    ensures Enabled(Apply(m, Acquire(caller, t), gap), Begin(caller, at)) <==>
      at >= t && at >= m.sends[|m.sends| - 1].end + gap
  {
  }

  /** Posts i..j that all start in a window of length w number at most w / gap + 1. */
  lemma {:induction false} RateBound(sends: seq<Send>, gap: real, i: nat, j: nat, w: real)
    requires Spaced(sends, gap) && gap > 0.0 && i <= j < |sends|
    requires sends[j].start - sends[i].start <= w
    ensures (j - i) as real * gap <= w
    decreases j - i
  {
    if i < j {
      assert sends[j - 1].end + gap <= sends[j - 1 + 1].start;
      RateBound(sends, gap, i, j - 1, w - gap);
      assert (j - i) as real * gap == (j - 1 - i) as real * gap + gap;
    }
  }
}

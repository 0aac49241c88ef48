/**
 Admission control of the Sona inference gateway (gpu/src/autplay_gpu/sona_http.py): at most `max`
 requests hold a slot, one executor runs their jobs in order, and a request that times out or is
 cancelled hands its slot to a background task that waits for the job.

 Neither `reserve` nor `release` suspends while it holds the lock, so both are atomic; a step of the
 protocol is what the event loop, or the executor thread, does between two suspension points.
 */
module SonaAdmission {
  import opened Outcomes

  /** `Leaked` is a reservation whose submission to the executor raised: nothing will release it, though its
      job may still be run. */
  datatype Phase = Refused | Waiting | Deferred | Released | Leaked

  /** `Finished` in the executor's thread, `Signalled` once the event loop knows. */
  datatype Stage = NoJob | Queued | Running | Finished | Signalled

  datatype Request = Request(phase: Phase, job: Stage)

  /** The protocol without its counter: who is where. */
  datatype Pool = Pool(max: nat, requests: seq<Request>, queue: seq<nat>, running: Option<nat>)

  /** Handing a job to the executor: it is taken, or the call raises. A call that fails to start a thread
      has queued the job before it raises, a call after the executor is shut down has not. */
  datatype Handing = Taken | Stray | Lost

  datatype Event =
    | Arrive(handing: Handing)
    | Start
    | Finish
    | Signal(id: nat)
    | Complete(id: nat)
    | Expire(id: nat)
    | Background(id: nat)

  // ---------------------------------------------------------------- counting requests

  function Total(s: seq<Request>, weight: Request -> nat): nat {
    if s == [] then 0 else Total(s[..|s| - 1], weight) + weight(s[|s| - 1])
  }

  lemma {:induction false} TotalUpdate(s: seq<Request>, weight: Request -> nat, i: nat, r: Request)
    requires i < |s|
    ensures Total(s[i := r], weight) == Total(s, weight) - weight(s[i]) + weight(r)
    ensures weight(s[i]) <= Total(s, weight)
  {
    var n := |s| - 1;
    if i < n {
      TotalUpdate(s[..n], weight, i, r);
      assert s[i := r][..n] == s[..n][i := r];
    } else {
      assert s[i := r][..n] == s[..n];
    }
  }

  lemma TotalAppend(s: seq<Request>, weight: Request -> nat, r: Request)
    ensures Total(s + [r], weight) == Total(s, weight) + weight(r)
  {
    assert (s + [r])[..|s|] == s;
  }

  lemma {:induction false} TotalLess(s: seq<Request>, light: Request -> nat, heavy: Request -> nat)
    requires forall i :: 0 <= i < |s| ==> light(s[i]) <= heavy(s[i])
    ensures Total(s, light) <= Total(s, heavy)
  {
    if s != [] {
      TotalLess(s[..|s| - 1], light, heavy);
    }
  }

  predicate HasSlot(r: Request) {
    r.phase in {Waiting, Deferred, Leaked}
  }

  const HELD: Request -> nat := (r: Request) => if HasSlot(r) then 1 else 0
  const LEAKED: Request -> nat := (r: Request) => if r.phase == Leaked then 1 else 0
  const BUSY: Request -> nat := (r: Request) => if r.job in {Queued, Running} then 1 else 0
  const AWAITED: Request -> nat := (r: Request) => if r.job in {Queued, Running} && r.phase != Leaked then 1 else 0
  const RELEASED: Request -> nat := (r: Request) => if r.phase == Released then 1 else 0

  /** How many more steps a request can take. */
  const RANK: Request -> nat := (r: Request) =>
    (match r.phase case Waiting => 2 case Deferred => 1 case _ => 0)
    + (match r.job case Queued => 3 case Running => 2 case Finished => 1 case _ => 0)

  // ---------------------------------------------------------------- the steps

  predicate Enabled(p: Pool, e: Event) {
    match e
    case Arrive(_) => true
    case Start => p.queue != [] && p.running.None? && p.queue[0] < |p.requests|
    case Finish => p.running.Some? && p.running.value < |p.requests|
    case Signal(i) => i < |p.requests| && p.requests[i].job == Finished && p.requests[i].phase != Leaked
    case Complete(i) => i < |p.requests| && p.requests[i].phase == Waiting && p.requests[i].job == Signalled
    case Expire(i) => i < |p.requests| && p.requests[i].phase == Waiting
    case Background(i) => i < |p.requests| && p.requests[i].phase == Deferred && p.requests[i].job == Signalled
  }

  function WithJob(p: Pool, i: nat, job: Stage): Pool
    requires i < |p.requests|
  {
    p.(requests := p.requests[i := p.requests[i].(job := job)])
  }

  function WithPhase(p: Pool, i: nat, phase: Phase): Pool
    requires i < |p.requests|
  {
    p.(requests := p.requests[i := p.requests[i].(phase := phase)])
  }

  function Arrived(granted: bool, handing: Handing): Request {
    if !granted then Request(Refused, NoJob)
    else Request(if handing == Taken then Waiting else Leaked, if handing == Lost then NoJob else Queued)
  }

  /** A slot is granted when fewer than `max` are held; the rest is what each party does next. */
  function After(p: Pool, e: Event): Pool
    requires Enabled(p, e)
  {
    match e
    case Arrive(handing) =>
      var r := Arrived(Total(p.requests, HELD) < p.max, handing);
      p.(requests := p.requests + [r], queue := if r.job == Queued then p.queue + [|p.requests|] else p.queue)
    case Start => WithJob(p, p.queue[0], Running).(queue := p.queue[1..], running := Some(p.queue[0]))
    case Finish => WithJob(p, p.running.value, Finished).(running := None)
    case Signal(i) => WithJob(p, i, Signalled)
    case Complete(i) => WithPhase(p, i, Released)
    case Expire(i) => WithPhase(p, i, if p.requests[i].job == Signalled then Released else Deferred)
    case Background(i) => WithPhase(p, i, Released)
  }

  /** The states a run of events goes through. */
  predicate Run(states: seq<Pool>, events: seq<Event>, max: nat) {
    && |states| == |events| + 1
    && states[0] == Pool(max, [], [], None)
    && forall n :: 0 <= n < |events| ==> Enabled(states[n], events[n]) && states[n + 1] == After(states[n], events[n])
  }

  // ---------------------------------------------------------------- what every run keeps

  /** A job that the event loop has not seen end belongs to a request that holds its slot. */
  predicate RequestOk(r: Request) {
    match r.phase
    case Refused => r.job == NoJob
    case Leaked => r.job != Signalled
    case Waiting => r.job != NoJob
    case Deferred => r.job != NoJob
    case Released => r.job == Signalled
  }

  /** The queue holds exactly the queued jobs in the order of arrival, the executor the one before. */
  predicate ExecutorOk(p: Pool) {
    && (forall k :: 0 <= k < |p.queue| ==> p.queue[k] < |p.requests| && p.requests[p.queue[k]].job == Queued)
    && (forall j, k :: 0 <= j < k < |p.queue| ==> p.queue[j] < p.queue[k])
    && (p.running.Some? ==>
          && p.running.value < |p.requests| && p.requests[p.running.value].job == Running
          && forall k :: 0 <= k < |p.queue| ==> p.running.value < p.queue[k])
    && (forall i :: 0 <= i < |p.requests| && p.requests[i].job == Queued ==> i in p.queue)
    && (forall i :: 0 <= i < |p.requests| && p.requests[i].job == Running ==> p.running == Some(i))
  }

  predicate AllOk(s: seq<Request>) {
    forall i :: 0 <= i < |s| ==> RequestOk(s[i])
  }

  predicate PoolOk(p: Pool) {
    && Total(p.requests, HELD) <= p.max
    && Total(p.requests, BUSY) == |p.queue| + (if p.running.Some? then 1 else 0)
    && AllOk(p.requests) && ExecutorOk(p)
  }

  lemma IdleExecutor(p: Pool, r: Request)
    requires ExecutorOk(p) && r.job == NoJob
    ensures ExecutorOk(p.(requests := p.requests + [r]))
  {
    var q := p.(requests := p.requests + [r]);
    assert forall i :: 0 <= i < |p.requests| ==> q.requests[i] == p.requests[i];
  }

  lemma EnqueueExecutor(p: Pool, r: Request)
    requires ExecutorOk(p) && r.job == Queued
    ensures ExecutorOk(p.(requests := p.requests + [r], queue := p.queue + [|p.requests|]))
  {
    var q := p.(requests := p.requests + [r], queue := p.queue + [|p.requests|]);
    assert forall i :: 0 <= i < |p.requests| ==> q.requests[i] == p.requests[i];
    assert forall k :: 0 <= k < |p.queue| ==> q.queue[k] == p.queue[k];
    assert q.queue[|p.queue|] == |p.requests|;
  }

  lemma StartExecutor(p: Pool)
    requires ExecutorOk(p) && Enabled(p, Start)
    ensures ExecutorOk(After(p, Start))
  {
    var q := After(p, Start);
    var first := p.queue[0];
    assert forall k :: 0 <= k < |q.queue| ==> q.queue[k] == p.queue[k + 1] && q.queue[k] != first;
    assert forall i :: 0 <= i < |p.requests| && i != first ==> q.requests[i] == p.requests[i];
    forall i | 0 <= i < |q.requests| && q.requests[i].job == Queued ensures i in q.queue {
      assert i != first && i in p.queue;
      var k :| 0 <= k < |p.queue| && p.queue[k] == i;
      assert q.queue[k - 1] == i;
    }
  }

  /** Finish and Signal change a job that is in neither the queue nor, afterwards, the executor. */
  lemma EndExecutor(p: Pool, e: Event)
    requires ExecutorOk(p) && Enabled(p, e) && (e.Finish? || e.Signal?)
    ensures ExecutorOk(After(p, e))
  {
    var q := After(p, e);
    var i := if e.Finish? then p.running.value else e.id;
    assert q.queue == p.queue;
    assert forall k :: 0 <= k < |p.queue| ==> p.queue[k] != i;
    assert forall j :: 0 <= j < |p.requests| && j != i ==> q.requests[j] == p.requests[j];
  }

  lemma PhaseExecutor(p: Pool, e: Event)
    requires ExecutorOk(p) && Enabled(p, e) && (e.Complete? || e.Expire? || e.Background?)
    ensures ExecutorOk(After(p, e))
  {
    var q := After(p, e);
    assert forall j :: 0 <= j < |p.requests| ==> q.requests[j].job == p.requests[j].job;
  }

  /** The request whose turn it is. */
  function Actor(p: Pool, e: Event): nat
    requires Enabled(p, e) && !e.Arrive?
  {
    if e.Start? then p.queue[0] else if e.Finish? then p.running.value else e.id
  }

  lemma RequestsGrow(s: seq<Request>, r: Request)
    requires AllOk(s) && RequestOk(r)
    ensures AllOk(s + [r])
    ensures Total(s + [r], HELD) == Total(s, HELD) + HELD(r)
    ensures Total(s + [r], BUSY) == Total(s, BUSY) + BUSY(r)
  {
    TotalAppend(s, HELD, r);
    TotalAppend(s, BUSY, r);
  }

  lemma ArriveKeeps(p: Pool, handing: Handing)
    requires PoolOk(p)
    ensures PoolOk(After(p, Arrive(handing)))
  {
    hide ExecutorOk, AllOk, Total;
    var r := After(p, Arrive(handing)).requests[|p.requests|];
    if r.job == Queued {
      EnqueueExecutor(p, r);
    } else {
      IdleExecutor(p, r);
    }
    RequestsGrow(p.requests, r);
  }

  lemma StepExecutor(p: Pool, e: Event)
    requires ExecutorOk(p) && Enabled(p, e) && !e.Arrive?
    ensures ExecutorOk(After(p, e))
    ensures e.Start? ==> p.requests[Actor(p, e)].job == Queued
    ensures e.Finish? ==> p.requests[Actor(p, e)].job == Running
  {
    if e.Start? {
      StartExecutor(p);
    } else if e.Finish? || e.Signal? {
      EndExecutor(p, e);
    } else {
      PhaseExecutor(p, e);
    }
  }

  /** What a step does to the request whose turn it is. */
  function Acted(r: Request, e: Event): Request {
    match e
    case Arrive(_) => r
    case Start => r.(job := Running)
    case Finish => r.(job := Finished)
    case Signal(_) => r.(job := Signalled)
    case Expire(_) => r.(phase := if r.job == Signalled then Released else Deferred)
    case _ => r.(phase := Released)
  }

  lemma ActorStep(p: Pool, e: Event)
    requires PoolOk(p) && Enabled(p, e) && !e.Arrive?
    ensures var r := p.requests[Actor(p, e)];
      && After(p, e).requests == p.requests[Actor(p, e) := Acted(r, e)]
      && RequestOk(r) && RequestOk(Acted(r, e))
      && HELD(Acted(r, e)) <= HELD(r) && RANK(Acted(r, e)) < RANK(r) && LEAKED(Acted(r, e)) == LEAKED(r)
      && BUSY(Acted(r, e)) == BUSY(r) - (if e.Finish? then 1 else 0)
  {
    assert RequestOk(p.requests[Actor(p, e)]);
  }

  lemma RequestsKeep(s: seq<Request>, i: nat, r: Request)
    requires i < |s| && AllOk(s)
    requires RequestOk(r) && HELD(r) <= HELD(s[i])
    ensures AllOk(s[i := r])
    ensures Total(s[i := r], HELD) <= Total(s, HELD)
    ensures Total(s[i := r], BUSY) == Total(s, BUSY) - BUSY(s[i]) + BUSY(r)
  {
    hide RequestOk;
    TotalUpdate(s, HELD, i, r);
    TotalUpdate(s, BUSY, i, r);
  }

  lemma OthersKeep(p: Pool, e: Event)
    requires PoolOk(p) && Enabled(p, e) && !e.Arrive?
    ensures PoolOk(After(p, e))
  {
    hide ExecutorOk, After, AllOk, Acted, Total;
    StepExecutor(p, e);
    ActorStep(p, e);
    QueueStep(p, e);
    RequestsKeep(p.requests, Actor(p, e), Acted(p.requests[Actor(p, e)], e));
  }

  lemma QueueStep(p: Pool, e: Event)
    requires PoolOk(p) && Enabled(p, e) && !e.Arrive?
    ensures var q := After(p, e);
      && q.max == p.max
      && |q.queue| + (if q.running.Some? then 1 else 0)
         == |p.queue| + (if p.running.Some? then 1 else 0) - (if e.Finish? then 1 else 0)
  {
  }

  lemma StepKeeps(p: Pool, e: Event)
    requires PoolOk(p) && Enabled(p, e)
    ensures PoolOk(After(p, e)) && After(p, e).max == p.max
  {
    if e.Arrive? {
      ArriveKeeps(p, e.handing);
    } else {
      OthersKeep(p, e);
    }
  }

  lemma {:induction false} RunKeeps(states: seq<Pool>, events: seq<Event>, max: nat, n: nat)
    requires Run(states, events, max) && n <= |events|
    ensures PoolOk(states[n]) && states[n].max == max
  {
    hide PoolOk, After, Enabled;
    if n == 0 {
      EmptyOk(max);
    } else {
      RunKeeps(states, events, max, n - 1);
      StepKeeps(states[n - 1], events[n - 1]);
    }
  }

  lemma EmptyOk(max: nat)
    ensures PoolOk(Pool(max, [], [], None))
  {
  }

  // ---------------------------------------------------------------- admission is safe

  lemma JobsHoldSlots(p: Pool)
    requires PoolOk(p)
    ensures Total(p.requests, BUSY) <= Total(p.requests, HELD)
    ensures Total(p.requests, AWAITED) + Total(p.requests, LEAKED) <= Total(p.requests, HELD)
  {
    BusyOrLeaked(p.requests);
  }

  lemma {:induction false} BusyOrLeaked(s: seq<Request>)
    requires AllOk(s)
    ensures Total(s, BUSY) <= Total(s, HELD)
    ensures Total(s, AWAITED) + Total(s, LEAKED) <= Total(s, HELD)
  {
    if s != [] {
      BusyOrLeaked(s[..|s| - 1]);
    }
  }

  /** Over every interleaving, at most `max` jobs are queued or running, and each leak takes one from those
      that a request waits for; the one that runs arrived before all that are queued; and a request keeps its
      slot until the loop has seen its job end, even when it has timed out or was cancelled. */
  lemma Safety(states: seq<Pool>, events: seq<Event>, max: nat, n: nat)
    requires Run(states, events, max) && n <= |events|
    ensures var p := states[n];
      && Total(p.requests, HELD) <= max
      && |p.queue| + (if p.running.Some? then 1 else 0) <= max
      && Total(p.requests, AWAITED) <= max - Total(p.requests, LEAKED)
      && (forall k :: 0 <= k < |p.queue| && p.running.Some? ==> p.running.value < p.queue[k])
      && (forall i :: 0 <= i < |p.requests| && p.requests[i].job in {Queued, Running, Finished} ==>
            p.requests[i].phase in {Waiting, Deferred, Leaked})
  {
    RunKeeps(states, events, max, n);
    JobsHoldSlots(states[n]);
    assert forall i :: 0 <= i < |states[n].requests| ==> RequestOk(states[n].requests[i]);
  }

  // ---------------------------------------------------------------- released exactly once

  /** Does this step give back the slot of request `i`? */
  predicate Releases(p: Pool, e: Event, i: nat) {
    (e.Complete? && e.id == i) || (e.Background? && e.id == i)
    || (e.Expire? && e.id == i && i < |p.requests| && p.requests[i].job == Signalled)
  }

  function ReleaseCount(states: seq<Pool>, events: seq<Event>, i: nat): nat
    requires |states| == |events| + 1
  {
    if events == [] then 0
    else ReleaseCount(states[..|events|], events[..|events| - 1], i)
         + (if Releases(states[|events| - 1], events[|events| - 1], i) then 1 else 0)
  }

  lemma RunPrefix(states: seq<Pool>, events: seq<Event>, max: nat)
    requires Run(states, events, max) && events != []
    ensures Run(states[..|events|], events[..|events| - 1], max)
  {
  }

  /** A reservation is given back at most once, and it has been given back exactly when the request is
      `Released`: on success, on timeout, on cancellation and in the background alike. */
  lemma {:induction false} ReleasedOnce(states: seq<Pool>, events: seq<Event>, max: nat, i: nat)
    requires Run(states, events, max)
    ensures var last := states[|events|].requests;
      ReleaseCount(states, events, i) == if i < |last| && last[i].phase == Released then 1 else 0
  {
    if events != [] {
      RunPrefix(states, events, max);
      ReleasedOnce(states[..|events|], events[..|events| - 1], max, i);
      RunKeeps(states, events, max, |events| - 1);
      var p, e := states[|events| - 1], events[|events| - 1];
      assert Enabled(p, e) && states[|events|] == After(p, e);
      OneRelease(p, e, i);
    }
  }

  lemma OneRelease(p: Pool, e: Event, i: nat)
    requires PoolOk(p) && Enabled(p, e)
    ensures var before, after := p.requests, After(p, e).requests;
      && |before| <= |after|
      && (Releases(p, e, i) ==> i < |before| && HasSlot(before[i]) && after[i].phase == Released)
      && (!Releases(p, e, i) && i < |before| ==> (after[i].phase == Released <==> before[i].phase == Released))
      && (|before| <= i < |after| ==> after[i].phase != Released)
  {
  }

  // ---------------------------------------------------------------- conservation

  const GRANTED: Request -> nat := (r: Request) => if r.phase == Refused then 0 else 1

  /** Does this step take a slot? */
  predicate Grants(p: Pool, e: Event) {
    e.Arrive? && Total(p.requests, HELD) < p.max
  }

  function GrantCount(states: seq<Pool>, events: seq<Event>): nat
    requires |states| == |events| + 1
  {
    if events == [] then 0
    else GrantCount(states[..|events|], events[..|events| - 1])
         + (if Grants(states[|events| - 1], events[|events| - 1]) then 1 else 0)
  }

  /** The releases of the first `n` requests together. */
  function ReleaseSum(states: seq<Pool>, events: seq<Event>, n: nat): nat
    requires |states| == |events| + 1
  {
    if n == 0 then 0 else ReleaseSum(states, events, n - 1) + ReleaseCount(states, events, n - 1)
  }

  lemma GrantStep(p: Pool, e: Event)
    requires PoolOk(p) && Enabled(p, e)
    ensures Total(After(p, e).requests, GRANTED) == Total(p.requests, GRANTED) + (if Grants(p, e) then 1 else 0)
  {
    if e.Arrive? {
      TotalAppend(p.requests, GRANTED, After(p, e).requests[|p.requests|]);
    } else {
      ActorStep(p, e);
      TotalUpdate(p.requests, GRANTED, Actor(p, e), Acted(p.requests[Actor(p, e)], e));
    }
  }

  lemma {:induction false} GrantsCounted(states: seq<Pool>, events: seq<Event>, max: nat)
    requires Run(states, events, max)
    ensures GrantCount(states, events) == Total(states[|events|].requests, GRANTED)
  {
    if events != [] {
      hide After, Enabled, PoolOk, Grants;
      RunPrefix(states, events, max);
      GrantsCounted(states[..|events|], events[..|events| - 1], max);
      RunKeeps(states, events, max, |events| - 1);
      GrantStep(states[|events| - 1], events[|events| - 1]);
    }
  }

  lemma {:induction false} ReleasesCounted(states: seq<Pool>, events: seq<Event>, max: nat, n: nat)
    requires Run(states, events, max) && n <= |states[|events|].requests|
    ensures ReleaseSum(states, events, n) == Total(states[|events|].requests[..n], RELEASED)
  {
    if n > 0 {
      hide Run, ReleaseCount;
      var last := states[|events|].requests;
      ReleasesCounted(states, events, max, n - 1);
      ReleasedOnce(states, events, max, n - 1);
      assert last[..n][..n - 1] == last[..n - 1] && last[..n][n - 1] == last[n - 1];
    }
  }

  lemma {:induction false} GrantedIsHeldOrReleased(s: seq<Request>)
    ensures Total(s, GRANTED) == Total(s, HELD) + Total(s, RELEASED)
  {
    if s != [] {
      GrantedIsHeldOrReleased(s[..|s| - 1]);
    }
  }

  /** Conservation: in every run the slots taken are those given back and those still held. */
  lemma SlotsConserved(states: seq<Pool>, events: seq<Event>, max: nat)
    requires Run(states, events, max)
    ensures var last := states[|events|].requests;
      GrantCount(states, events) == ReleaseSum(states, events, |last|) + Total(last, HELD)
  {
    var last := states[|events|].requests;
    GrantsCounted(states, events, max);
    ReleasesCounted(states, events, max, |last|);
    GrantedIsHeldOrReleased(last);
    assert last[..|last|] == last;
  }

  // ---------------------------------------------------------------- the pool drains

  /** Without arrivals only finitely many steps remain. */
  lemma StepsRunOut(p: Pool, e: Event)
    requires PoolOk(p) && Enabled(p, e) && !e.Arrive?
    ensures Total(After(p, e).requests, RANK) < Total(p.requests, RANK)
  {
    ActorStep(p, e);
    hide PoolOk, After;
    TotalUpdate(p.requests, RANK, Actor(p, e), Acted(p.requests[Actor(p, e)], e));
  }

  /** And when none is left, the only slots still held are the leaked ones. */
  lemma QuiescentIsEmpty(p: Pool)
    requires PoolOk(p)
    requires forall e: Event :: Enabled(p, e) ==> e.Arrive?
    ensures Total(p.requests, HELD) == Total(p.requests, LEAKED)
    ensures p.queue == [] && p.running == None
  {
    assert !Enabled(p, Finish) && !Enabled(p, Start);
    forall i | 0 <= i < |p.requests| ensures HELD(p.requests[i]) == LEAKED(p.requests[i]) {
      assert !Enabled(p, Signal(i)) && !Enabled(p, Complete(i)) && !Enabled(p, Expire(i)) && !Enabled(p, Background(i));
      assert RequestOk(p.requests[i]);
    }
    TotalLess(p.requests, HELD, LEAKED);
    TotalLess(p.requests, LEAKED, HELD);
  }

  /** A run from any state; events that are not enabled do nothing. */
  function Play(p: Pool, events: seq<Event>): Pool
    decreases |events|
  {
    if events == [] then p
    else Play(if Enabled(p, events[0]) then After(p, events[0]) else p, events[1..])
  }

  /** Slots leak exactly where a granted request could not be handed to the executor. */
  lemma LeaksStay(p: Pool, e: Event)
    requires PoolOk(p) && Enabled(p, e)
    ensures Total(After(p, e).requests, LEAKED) == Total(p.requests, LEAKED)
      + (if e.Arrive? && e.handing != Taken && Total(p.requests, HELD) < p.max then 1 else 0)
  {
    if e.Arrive? {
      TotalAppend(p.requests, LEAKED, After(p, e).requests[|p.requests|]);
    } else {
      ActorStep(p, e);
      TotalUpdate(p.requests, LEAKED, Actor(p, e), Acted(p.requests[Actor(p, e)], e));
    }
  }

  /** A run of steps of the requests already there. */
  predicate Draining(p: Pool, events: seq<Event>)
    decreases |events|
  {
    events != [] ==>
      Enabled(p, events[0]) && !events[0].Arrive? && Draining(After(p, events[0]), events[1..])
  }

  /** From every reachable state the pool drains, in whatever order the steps are taken: such a run is
      finite, and where it cannot go on no slot is held but those that had leaked before. */
  lemma {:induction false} Drains(p: Pool, events: seq<Event>)
    requires PoolOk(p) && Draining(p, events)
    ensures |events| <= Total(p.requests, RANK)
    ensures var q := Play(p, events);
      (forall e: Event :: Enabled(q, e) ==> e.Arrive?) ==>
        Total(q.requests, HELD) == Total(p.requests, LEAKED) && q.queue == [] && q.running == None
    decreases |events|
  {
    hide PoolOk, After, Enabled;
    if events == [] {
      if forall e: Event :: Enabled(p, e) ==> e.Arrive? {
        QuiescentIsEmpty(p);
      }
    } else {
      StepKeeps(p, events[0]);
      StepsRunOut(p, events[0]);
      LeaksStay(p, events[0]);
      Drains(After(p, events[0]), events[1..]);
    }
  }

  lemma SlotsBounded(p: Pool)
    requires PoolOk(p)
    ensures Total(p.requests, LEAKED) <= Total(p.requests, HELD) <= p.max
  {
    JobsHoldSlots(p);
  }

  lemma MustRefuse(p: Pool)
    requires PoolOk(p) && Total(p.requests, LEAKED) == p.max
    ensures After(p, Arrive(Taken)).requests == p.requests + [Request(Refused, NoJob)]
  {
    JobsHoldSlots(p);
  }

  /** Once `max` slots have leaked, every later request is refused. */
  lemma {:induction false} LeaksExhaust(p: Pool, events: seq<Event>)
    requires PoolOk(p) && Total(p.requests, LEAKED) == p.max
    ensures var q := Play(p, events);
      && PoolOk(q) && q.max == p.max && Total(q.requests, LEAKED) == q.max
      && After(q, Arrive(Taken)).requests == q.requests + [Request(Refused, NoJob)]
    decreases |events|
  {
    hide PoolOk, After, Enabled;
    MustRefuse(p);
    if events != [] {
      if Enabled(p, events[0]) {
        StepKeeps(p, events[0]);
        LeaksStay(p, events[0]);
        SlotsBounded(p);
        LeaksExhaust(After(p, events[0]), events[1..]);
      } else {
        LeaksExhaust(p, events[1..]);
      }
    }
  }

  // ---------------------------------------------------------------- the gateway with its counter

  /** The closure variables of the application. */
  class Gateway {
    const max: nat
    var admitted: int
    var background: set<nat>
    var requests: seq<Request>
    var queue: seq<nat>
    var running: Option<nat>

    ghost function State(): Pool
      reads this
    {
      Pool(max, requests, queue, running)
    }

    ghost predicate Valid()
      reads this
    {
      && PoolOk(State())
      && admitted == Total(requests, HELD)
      && background == set i | 0 <= i < |requests| && requests[i].phase == Deferred
    }

    constructor (max: nat)
      requires 1 <= max <= 64
      ensures Valid() && fresh(this) && State() == Pool(max, [], [], None)
    {
      this.max, admitted, background := max, 0, {};
      requests, queue, running := [], [], None;
    }

    method Reserve() returns (granted: bool)
      modifies this`admitted
      ensures granted <==> old(admitted) < max
      ensures admitted == old(admitted) + (if granted then 1 else 0)
    {
      if admitted >= max {
        return false;
      }
      admitted := admitted + 1;
      return true;
    }

    method Release()
      modifies this`admitted
      ensures admitted == old(admitted) - 1
    {
      admitted := admitted - 1;
    }

    /** A request that reaches `reserve`: refused as busy, or handed to the executor. */
    method Arriving(handing: Handing)
      requires Valid()
      modifies this
      ensures Valid() && State() == After(old(State()), Arrive(handing))
    {
      hide PoolOk, ExecutorOk;
      ghost var before := requests;
      ArriveKeeps(State(), handing);
      var granted := Reserve();
      var request := Request(Refused, NoJob);
      if granted {
        request := Request(if handing == Taken then Waiting else Leaked, if handing == Lost then NoJob else Queued);
        if handing != Lost {
          queue := queue + [|requests|];
        }
      }
      requests := requests + [request];
      TotalAppend(before, HELD, request);
    }

    /** The executor takes the oldest job. */
    method Starting()
      requires Valid() && Enabled(State(), Start)
      modifies this`requests, this`queue, this`running
      ensures Valid() && State() == After(old(State()), Start)
    {
      hide PoolOk, ExecutorOk;
      OthersKeep(State(), Start);
      TotalUpdate(requests, HELD, queue[0], requests[queue[0]].(job := Running));
      requests := requests[queue[0] := requests[queue[0]].(job := Running)];
      running, queue := Some(queue[0]), queue[1..];
    }

    method Finishing()
      requires Valid() && Enabled(State(), Finish)
      modifies this`requests, this`running
      ensures Valid() && State() == After(old(State()), Finish)
    {
      hide PoolOk, ExecutorOk;
      OthersKeep(State(), Finish);
      TotalUpdate(requests, HELD, running.value, requests[running.value].(job := Finished));
      requests := requests[running.value := requests[running.value].(job := Finished)];
      running := None;
    }

    method Signalling(i: nat)
      requires Valid() && Enabled(State(), Signal(i))
      modifies this`requests
      ensures Valid() && State() == After(old(State()), Signal(i))
    {
      hide PoolOk, ExecutorOk;
      OthersKeep(State(), Signal(i));
      TotalUpdate(requests, HELD, i, requests[i].(job := Signalled));
      requests := requests[i := requests[i].(job := Signalled)];
    }

    /** The handler after its wait: the result, a timeout or a cancellation. Only an unfinished job
        defers the release to a background task. */
    method Resuming(i: nat, expired: bool)
      requires Valid() && Enabled(State(), if expired then Expire(i) else Complete(i))
      modifies this`requests, this`background, this`admitted
      ensures Valid() && State() == After(old(State()), if expired then Expire(i) else Complete(i))
    {
      hide PoolOk, ExecutorOk;
      ghost var before := requests;
      OthersKeep(State(), if expired then Expire(i) else Complete(i));
      var releaseDeferred := false;
      if expired && requests[i].job != Signalled {
        releaseDeferred := true;
        background := background + {i};
        requests := requests[i := requests[i].(phase := Deferred)];
      }
      if !releaseDeferred {
        Release();
        requests := requests[i := requests[i].(phase := Released)];
      }
      TotalUpdate(before, HELD, i, requests[i]);
    }

    /** The background task once the job is done. */
    method Waking(i: nat)
      requires Valid() && i in background && requests[i].job == Signalled
      modifies this`requests, this`background, this`admitted
      ensures Valid() && State() == After(old(State()), Background(i))
    {
      hide PoolOk, ExecutorOk;
      OthersKeep(State(), Background(i));
      TotalUpdate(requests, HELD, i, requests[i].(phase := Released));
      Release();
      background := background - {i};
      requests := requests[i := requests[i].(phase := Released)];
    }
  }
}

/** The methods of the client and the worker, run without interruption, are runs of the bus; and from any
    reachable state the worker can finish all that was sent. */
module BusLinks {
  import opened Prelude
  import opened Schema
  import opened RateLimits
  import opened Retries
  import opened Processing
  import opened RetryRuns
  import opened Tables
  import opened Workers
  import opened Clients
  import opened Buses
  import opened BusInvariants
  import opened BusOutcomes
  import opened BusRuns

  /** Several steps in a row, if each is enabled when its turn comes. */
  function DoAll(b: Bus, steps: seq<Step>): Option<Bus>
    decreases |steps|
  {
    if steps == [] then Some(b)
    else
      var next := Do(b, steps[0]);
      if next.None? then None else DoAll(next.value, steps[1..])
  }

  lemma {:induction false} DoAllConcat(b: Bus, first: seq<Step>, later: seq<Step>)
    requires DoAll(b, first).Some?
    ensures DoAll(b, first + later) == DoAll(DoAll(b, first).value, later)
    decreases |first|
  {
    hide Do;
    if first == [] {
      assert first + later == later;
    } else {
      assert (first + later)[0] == first[0] && (first + later)[1..] == first[1..] + later;
      DoAllConcat(Do(b, first[0]).value, first[1..], later);
    }
  }

  lemma DoOne(b: Bus, step: Step)
    ensures DoAll(b, [step]) == Do(b, step)
  {
  }

  /** Two more steps than a run has, one after the other. */
  lemma Extend(b: Bus, steps: seq<Step>, more: Step)
    requires DoAll(b, steps).Some?
    ensures DoAll(b, steps + [more]) == Do(DoAll(b, steps).value, more)
  {
    hide Do;
    DoAllConcat(b, steps, [more]);
    DoOne(DoAll(b, steps).value, more);
  }

  // ----- submit -----

  /** The steps of a submit that nothing interrupts. */
  function SubmitSteps(b: Bus, s: SubmitId, job: Job, fate: SendFate): seq<Step> {
    var resolved := ResolvedJob(job, b.policies);
    var last := LastStep(s, fate);
    if resolved.Raised? then [Begin(s, job), Resolve(s)]
    else if !Routable(resolved.value.model.value) then [Begin(s, job), Resolve(s), Check(s)]
    else if job.id in b.jobs then [Begin(s, job), Resolve(s), Check(s), Insert(s), ReRead(s), last]
    else [Begin(s, job), Resolve(s), Check(s), Insert(s), last]
  }

  lemma DoThree(b: Bus, x: Step, y: Step, z: Step, steps: seq<Step>)
    requires steps == [x, y, z]
    requires Do(b, x).Some? && Do(Do(b, x).value, y).Some?
    ensures DoAll(b, steps) == Do(Do(Do(b, x).value, y).value, z)
  {
    hide Do;
    Extend(b, [], x);
    Extend(b, [x], y);
    Extend(b, [x, y], z);
    assert [] + [x] == [x] && [x] + [y] == [x, y] && [x, y] + [z] == steps;
  }

  /** Where the route check leaves a submit with a resolved job. */
  function AfterCheck(resolved: Job): SubmitPc
    requires resolved.model.Some?
  {
    if Routable(resolved.model.value) then Inserting(resolved) else Refused(resolved)
  }

  /** Up to the route check, on the bus. */
  lemma SubmitChecked(b: Bus, s: SubmitId, job: Job) returns (checked: Bus)
    requires s !in b.submits && ResolvedJob(job, b.policies).Returned?
    ensures DoAll(b, [Begin(s, job), Resolve(s), Check(s)]) == Some(checked)
    ensures var resolved := ResolvedJob(job, b.policies).value;
            checked == b.(submits := b.submits[s := AfterCheck(resolved)])
  {
    hide Routable;
    var resolved := ResolvedJob(job, b.policies).value;
    var b1 := Do(b, Begin(s, job)).value;
    var b2 := Do(b1, Resolve(s)).value;
    checked := Do(b2, Check(s)).value;
    assert b2.submits == b.submits[s := Checking(resolved)];
    assert checked.submits == b.submits[s := AfterCheck(resolved)];
    DoThree(b, Begin(s, job), Resolve(s), Check(s), [Begin(s, job), Resolve(s), Check(s)]);
  }

  function LastStep(s: SubmitId, fate: SendFate): Step {
    if fate.Lands? then Send(s) else SendFails(s, fate.FailsLanded?)
  }

  lemma InsertNew(b: Bus, s: SubmitId, job: Job)
    requires s in b.submits && b.submits[s] == Inserting(job) && job.model.Some? && job.id !in b.jobs
    ensures Do(b, Insert(s)).Some?
    ensures var b' := Do(b, Insert(s)).value;
            && s in b'.submits && b'.submits[s] == Sending(job) && b'.topic == b.topic
            && b'.jobs == b.jobs[job.id := PendingRow(job, job.model.value)]
    ensures Aligned(b.jobs, job) == job
  {
  }

  lemma InsertAgain(b: Bus, s: SubmitId, job: Job)
    requires s in b.submits && b.submits[s] == Inserting(job) && job.model.Some? && job.id in b.jobs
    ensures Do(b, Insert(s)).Some? && Do(Do(b, Insert(s)).value, ReRead(s)).Some?
    ensures var b' := Do(Do(b, Insert(s)).value, ReRead(s)).value;
            && s in b'.submits && b'.submits[s] == Sending(Aligned(b.jobs, job))
            && b'.topic == b.topic && b'.jobs == b.jobs
  {
    hide Aligned;
  }

  lemma SendOnce(b: Bus, s: SubmitId, job: Job, fate: SendFate)
    requires s in b.submits && b.submits[s] == Sending(job)
    ensures Do(b, LastStep(s, fate)).Some?
    ensures var b' := Do(b, LastStep(s, fate)).value;
            && s in b'.submits && b'.jobs == b.jobs
            && b'.topic == (if fate.Fails? then b.topic else b.topic + [Submitted(job)])
            && (if fate.Lands? then b'.submits[s] == Sent(job, |b.topic|) else b'.submits[s].SendFailed?)
  {
  }

  /** From the insert on, on the bus. */
  lemma SubmitTail(b: Bus, s: SubmitId, job: Job, fate: SendFate)
    requires s in b.submits && b.submits[s] == Inserting(job) && job.model.Some?
    ensures var last := LastStep(s, fate);
            var tail := if job.id in b.jobs then [Insert(s), ReRead(s), last] else [Insert(s), last];
            var sent := Aligned(b.jobs, job);
            && DoAll(b, tail).Some?
            && var b' := DoAll(b, tail).value;
            && s in b'.submits
            && b'.topic == (if fate.Fails? then b.topic else b.topic + [Submitted(sent)])
            && b'.jobs == (if job.id in b.jobs then b.jobs else b.jobs[job.id := PendingRow(job, sent.model.value)])
            && (if fate.Lands? then b'.submits[s] == Sent(sent, |b.topic|) else b'.submits[s].SendFailed?)
  {
    hide Do, DoAll, Aligned, LastStep;
    var last := LastStep(s, fate);
    if job.id in b.jobs {
      InsertAgain(b, s, job);
      SendOnce(Do(Do(b, Insert(s)).value, ReRead(s)).value, s, Aligned(b.jobs, job), fate);
      DoThree(b, Insert(s), ReRead(s), last, [Insert(s), ReRead(s), last]);
    } else {
      InsertNew(b, s, job);
      SendOnce(Do(b, Insert(s)).value, s, job, fate);
      DoTwo(b, Insert(s), last);
    }
  }

  lemma DoTwo(b: Bus, x: Step, y: Step)
    requires Do(b, x).Some?
    ensures DoAll(b, [x]) == Do(b, x)
    ensures DoAll(b, [x, y]) == Do(Do(b, x).value, y)
  {
    hide Do;
    DoOne(b, x);
    Extend(b, [x], y);
    assert [x] + [y] == [x, y];
  }

  lemma UnresolvedSteps(b: Bus, s: SubmitId, job: Job)
    requires s !in b.submits && ResolvedJob(job, b.policies).Raised?
    ensures DoAll(b, [Begin(s, job), Resolve(s)]) == Some(b.(submits := b.submits[s := Refused(job)]))
  {
    var b1 := Do(b, Begin(s, job)).value;
    assert Do(b1, Resolve(s)).value.submits == b.submits[s := Refused(job)];
    DoTwo(b, Begin(s, job), Resolve(s));
  }

  /** A submit whose job is resolved and routed sends it, on its row's model. */
  lemma RoutedSteps(b: Bus, s: SubmitId, job: Job, fate: SendFate)
    requires s !in b.submits && Outgoing(b.jobs, b.policies, job).Returned?
    ensures DoAll(b, SubmitSteps(b, s, job, fate)).Some?
    ensures var b', sent := DoAll(b, SubmitSteps(b, s, job, fate)).value, Outgoing(b.jobs, b.policies, job).value;
            && s in b'.submits
            && b'.topic == (if fate.Fails? then b.topic else b.topic + [Submitted(sent)])
            && b'.jobs == (if job.id in b.jobs then b.jobs else b.jobs[job.id := PendingRow(job, sent.model.value)])
            && (if fate.Lands? then b'.submits[s] == Sent(sent, |b.topic|) else b'.submits[s].SendFailed?)
  {
    hide Do, DoAll, LastStep, Aligned;
    var resolved := ResolvedJob(job, b.policies).value;
    var checked := SubmitChecked(b, s, job);
    SubmitTail(checked, s, resolved, fate);
    var steps := SubmitSteps(b, s, job, fate);
    assert steps[..3] == [Begin(s, job), Resolve(s), Check(s)] && steps[..3] + steps[3..] == steps;
    DoAllConcat(b, steps[..3], steps[3..]);
  }

  /** An uninterrupted submit does to the store and the topic what its steps on the bus do. */
  lemma SubmitIsItsSteps(b: Bus, s: SubmitId, job: Job, fate: SendFate)
    requires s !in b.submits
    ensures DoAll(b, SubmitSteps(b, s, job, fate)).Some?
    ensures var b', outgoing := DoAll(b, SubmitSteps(b, s, job, fate)).value, Outgoing(b.jobs, b.policies, job);
            && s in b'.submits
            && if outgoing.Raised? then b'.submits[s].Refused? && b'.jobs == b.jobs && b'.topic == b.topic
            else
              && b'.topic == (if fate.Fails? then b.topic else b.topic + [Submitted(outgoing.value)])
              && b'.jobs == (if job.id in b.jobs then b.jobs
                             else b.jobs[job.id := PendingRow(job, outgoing.value.model.value)])
              && (if fate.Lands? then b'.submits[s] == Sent(outgoing.value, |b.topic|) else b'.submits[s].SendFailed?)
  {
    hide Do, DoAll, ResolvedJob, Aligned, LastStep;
    if Outgoing(b.jobs, b.policies, job).Returned? {
      RoutedSteps(b, s, job, fate);
    } else if ResolvedJob(job, b.policies).Raised? {
      UnresolvedSteps(b, s, job);
    } else {
      var checked := SubmitChecked(b, s, job);
    }
  }

  /** What a submit moves: itself, its row and its message. */
  lemma {:induction false} SubmitFrame(b: Bus, steps: seq<Step>, s: SubmitId)
    requires DoAll(b, steps).Some? && forall k :: 0 <= k < |steps| ==> Mover(steps[k]) == Some(s)
    ensures var b' := DoAll(b, steps).value;
            && b'.worker == b.worker && b'.committed == b.committed && b'.wired == b.wired && b'.limited == b.limited
            && b'.policies == b.policies && b'.submits.Keys <= b.submits.Keys + {s} && b'.sent == b.sent
    decreases |steps|
  {
    hide Do;
    if steps != [] {
      SubmitLeavesWorker(b, steps[0]);
      OneMoves(b, steps[0], s);
      SubmitFrame(Do(b, steps[0]).value, steps[1..], s);
    }
  }

  lemma SubmitMovesItself(b: Bus, s: SubmitId, job: Job, fate: SendFate)
    ensures forall k :: 0 <= k < |SubmitSteps(b, s, job, fate)| ==> Mover(SubmitSteps(b, s, job, fate)[k]) == Some(s)
  {
  }

  lemma OneMoves(b: Bus, step: Step, s: SubmitId)
    requires Do(b, step).Some? && Mover(step) == Some(s)
    ensures var b' := Do(b, step).value;
            b'.policies == b.policies && b'.submits.Keys <= b.submits.Keys + {s}
  {
  }

  // ----- the worker -----

  function Repeat(id: JobId, n: nat): seq<JobId> {
    if n == 0 then [] else Repeat(id, n - 1) + [id]
  }

  function Again(n: nat): seq<Step> {
    if n == 0 then [] else Again(n - 1) + [CallAgain]
  }

  /** The same bus with `n` more calls for a job. */
  function Called(b: Bus, id: JobId, n: nat): Bus {
    b.(calls := b.calls + Repeat(id, n))
  }

  lemma CalledOnceMore(b: Bus, id: JobId, n: nat)
    ensures Called(b, id, n + 1) == Called(b, id, n).(calls := Called(b, id, n).calls + [id])
    ensures Called(b, id, 0) == b
  {
    assert b.calls + (Repeat(id, n) + [id]) == (b.calls + Repeat(id, n)) + [id];
    assert b.calls + [] == b.calls;
  }

  lemma {:induction false} CallsAgain(b: Bus, n: nat)
    requires b.worker.Running? && (n == 0 || b.worker.provider in b.limited)
    ensures DoAll(b, Again(n)) == Some(Called(b, b.worker.job.id, n))
  {
    hide DoAll;
    if n == 0 {
      CalledOnceMore(b, b.worker.job.id, 0);
      DoNone(b);
    } else {
      CallsAgain(b, n - 1);
      Extend(b, Again(n - 1), CallAgain);
      CalledOnceMore(b, b.worker.job.id, n - 1);
    }
  }

  lemma DoNone(b: Bus)
    ensures DoAll(b, []) == Some(b)
  {
  }

  /** From a conclusion, finalize, call back if due, and commit. */
  lemma ConclusionIsItsSteps(b: Bus, when: real) returns (steps: seq<Step>)
    requires b.worker.Concluded?
    ensures var (jobs, sent) := Notified(b.jobs, b.sent, b.worker.job, b.worker.result, when);
            && DoAll(b, steps).Some?
            && var b' := DoAll(b, steps).value;
            && b'.jobs == jobs && b'.sent == sent && b'.worker == Idle && b'.committed == b.committed + 1
            && b'.topic == b.topic && b'.submits == b.submits && b'.origin == b.origin && b'.calls == b.calls
            && b'.wired == b.wired && b'.limited == b.limited
  {
    hide Finalized, Do, DoAll;
    FinalizeMoves(b, when);
    var b1 := Do(b, Step.Finalize(when)).value;
    if b1.worker.Notifying? {
      CallBackMoves(b1);
      CommitMoves(Do(b1, CallBack).value);
      steps := [Step.Finalize(when), CallBack, Commit];
      DoThree(b, Step.Finalize(when), CallBack, Commit, steps);
    } else {
      CommitMoves(b1);
      steps := [Step.Finalize(when), Commit];
      DoTwo(b, Step.Finalize(when), Commit);
    }
  }

  lemma FinalizeMoves(b: Bus, when: real)
    requires b.worker.Concluded?
    ensures var (jobs, won) := Finalized(b.jobs, b.worker.result, when);
            var done := Do(b, Step.Finalize(when));
            && done.Some?
            && done.value == b.(jobs := jobs, wins := done.value.wins, worker := done.value.worker)
            && done.value.worker == if won && b.worker.job.callback.Some? then Notifying(b.worker.job, b.worker.result)
                                    else WorkerPc.Settled
  {
    hide Finalized;
  }

  lemma CallBackMoves(b: Bus)
    requires b.worker.Notifying? && b.worker.job.callback.Some?
    ensures Do(b, CallBack)
         == Some(b.(sent := b.sent + [Delivery(b.worker.job.callback.value, b.worker.result)],
                    worker := WorkerPc.Settled))
  {
  }

  /** The step with which the retry loop stops. */
  function StopStep(c: Call, stop: Stop, last: nat): Step {
    match stop
    case ExpiredBefore => Expires
    case ExpiredWaiting => Expires
    case Unthrottled => LimiterRefuses
    case Answered => CallEnds(c.script(last).reply)
  }

  /** The retry loop, on the bus: its calls, and where it leaves the worker. */
  lemma LoopIsItsSteps(b: Bus, c: Call, registry: Registry, clock: real) returns (steps: seq<Step>)
    requires c.Valid() && ValidRegistry(registry) && c.estimate >= 0
    requires b.worker == Running(c.job, c.provider) && b.limited == registry.Keys
    ensures var r := Attempts(c, registry, clock, 0);
            && DoAll(b, steps)
               == Some(Called(b, c.job.id, |Numbers(Calling, r.trace)|)
                       .(worker := if r.end.Raised? then Broken else Concluded(c.job, r.end.value)))
  {
    hide Attempts, Priced;
    var last, stop, refusal := LoopShape(c, registry, clock, 0);
    if c.provider !in registry {
      WithoutLimiter(c, registry, clock);
      assert |Range(0, last)| == last;
    }
    hide DoAll, Do, Numbers;
    CallsAgain(b, last);
    steps := Again(last) + [StopStep(c, stop, last)];
    Extend(b, Again(last), StopStep(c, stop, last));
    CalledOnceMore(b, c.job.id, last);
    StopsAs(Called(b, c.job.id, last), c, stop, refusal, last);
    CallsMade(Attempts(c, registry, clock, 0).trace, 0, if stop == Answered then last + 1 else last);
  }

  lemma CallsMade(trace: seq<Event>, low: nat, high: nat)
    requires low <= high && Numbers(Calling, trace) == Range(low, high)
    ensures |Numbers(Calling, trace)| == high - low
  {
  }

  lemma StopsAs(b: Bus, c: Call, stop: Stop, refusal: Error, last: nat)
    requires c.Valid() && b.worker == Running(c.job, c.provider)
    requires stop == ExpiredBefore || stop == ExpiredWaiting ==> c.job.ttl.Some?
    requires stop == Unthrottled ==> c.provider !in b.limited
    requires stop == Answered ==> c.provider in b.limited
    ensures Do(b, StopStep(c, stop, last))
         == Some(b.(calls := if stop == Answered then b.calls + [c.job.id] else b.calls,
                    worker := var end := EndOf(c, stop, refusal, last);
                              if end.Raised? then Broken else Concluded(c.job, end.value)))
  {
    hide Priced;
  }

  lemma CommitMoves(b: Bus)
    requires b.worker.Settled?
    ensures Do(b, Commit) == Some(b.(committed := b.committed + 1, worker := Idle))
  {
  }

  lemma CallsOnly(b: Bus, id: JobId, n: nat)
    ensures Called(b, id, n) == b.(calls := Called(b, id, n).calls)
  {
  }

  lemma DeliverTakesUp(b: Bus)
    requires b.worker.Idle? && b.committed < |b.topic|
    ensures var job := Decode(b.topic[b.committed]);
            Do(b, Deliver) == Some(b.(worker := if job.None? then WorkerPc.Settled else TakenUp(b.wired, job.value)))
    ensures DoAll(b, [Deliver]) == Do(b, Deliver)
  {
    DoOne(b, Deliver);
  }

  /** From taking a job up to its conclusion. */
  lemma HandledIsItsSteps(taken: Bus, config: Config, job: Job, script: Script, registry: Registry, clock: real)
      returns (steps: seq<Step>)
    requires config.policy.Valid() && ValidRegistry(registry) && ValidJob(job)
    requires taken.wired == config.wired && taken.limited == registry.Keys && taken.worker == TakenUp(taken.wired, job)
    ensures var end := Handled(config, job, script, registry, clock).end;
            && DoAll(taken, steps).Some?
            && DoAll(taken, steps).value
               == taken.(calls := DoAll(taken, steps).value.calls,
                         worker := if end.Raised? then Broken else Concluded(job, end.value))
  {
    hide Attempts, EstimateTokens, Numbers, Do, DoAll, Called;
    if taken.worker.Running? {
      var c := CallFor(config, job, taken.worker.provider, script);
      EstimateIsNonNegative(job, config.policy);
      steps := LoopIsItsSteps(taken, c, registry, clock);
      CallsOnly(taken, job.id, |Numbers(Calling, Attempts(c, registry, clock, 0).trace)|);
    } else {
      DoNone(taken);
      steps := [];
    }
  }

  /** Consuming one message without interruption does to the store and the callbacks what steps of the bus do. */
  lemma ConsumedIsItsSteps(b: Bus, config: Config, w: World, m: Moment) returns (steps: seq<Step>)
    requires config.policy.Valid() && ValidRegistry(w.registry)
    requires b.worker.Idle? && b.committed < |b.topic|
    requires b.jobs == w.jobs && b.sent == w.sent && b.wired == config.wired && b.limited == w.registry.Keys
    requires b.topic[b.committed].Poison? || ValidJob(b.topic[b.committed].job)
    ensures var (after, returned) := Consumed(config, w, b.topic[b.committed], m);
            && DoAll(b, steps).Some?
            && var b' := DoAll(b, steps).value;
            && b'.jobs == after.jobs && b'.sent == after.sent && b'.topic == b.topic && b'.submits == b.submits
            && b'.wired == b.wired && b'.limited == b.limited
            && (if returned then b'.worker == Idle && b'.committed == b.committed + 1
                else b'.worker == Broken && b'.committed == b.committed)
  {
    hide Handled, Notified, Do, DoAll, TakenUp;
    DeliverTakesUp(b);
    var taken := Do(b, Deliver).value;
    if b.topic[b.committed].Poison? {
      steps := [Deliver, Commit];
      DoTwo(b, Deliver, Commit);
      CommitMoves(taken);
    } else {
      var job := b.topic[b.committed].job;
      var handled := HandledIsItsSteps(taken, config, job, m.script, w.registry, w.clock);
      DoAllConcat(b, [Deliver], handled);
      steps := [Deliver] + handled;
      var concluded := DoAll(taken, handled).value;
      if concluded.worker.Concluded? {
        var rest := ConclusionIsItsSteps(concluded, m.when);
        DoAllConcat(b, steps, rest);
        steps := steps + rest;
      }
    }
  }

  /** The consume loop as a whole is a run of the bus: from the committed offset up to offset `k`, as long as
      nothing raises, and committing exactly what was processed before. */
  lemma {:induction false} ProgressIsItsSteps(b: Bus, config: Config, w: World, env: Environment, k: nat)
      returns (steps: seq<Step>)
    requires config.policy.Valid() && ValidRegistry(w.registry)
    requires b.worker.Idle? && b.committed <= k <= |b.topic|
    requires b.jobs == w.jobs && b.sent == w.sent && b.wired == config.wired && b.limited == w.registry.Keys
    requires forall n :: b.committed <= n < k ==> b.topic[n].Poison? || ValidJob(b.topic[n].job)
    ensures var (after, going) := Progress(config, w, b.topic, env, b.committed, k);
            && DoAll(b, steps).Some?
            && var b' := DoAll(b, steps).value;
            && b'.jobs == after.jobs && b'.sent == after.sent && b'.topic == b.topic && b'.submits == b.submits
            && b'.wired == b.wired && b'.limited == b.limited
            && (if going then b'.worker == Idle && b'.committed == k
                else b'.worker == Broken && b.committed <= b'.committed < k)
    decreases k
  {
    hide Do, DoAll, Consumed, ValidRegistry;
    if k == b.committed {
      DoNone(b);
      steps := [];
    } else {
      steps := ProgressIsItsSteps(b, config, w, env, k - 1);
      var (before, going) := Progress(config, w, b.topic, env, b.committed, k - 1);
      if going {
        var more := ConsumedIsItsSteps(DoAll(b, steps).value, config, before, env(k - 1));
        DoAllConcat(b, steps, more);
        steps := steps + more;
      }
    }
  }

  // ----- nothing that was sent is stuck -----

  lemma {:induction false} DoAllSound(b: Bus, steps: seq<Step>)
    requires Sound(b) && DoAll(b, steps).Some?
    ensures Sound(DoAll(b, steps).value)
    decreases |steps|
  {
    hide Do, Sound;
    if steps != [] {
      StepSound(b, steps[0]);
      DoAllSound(Do(b, steps[0]).value, steps[1..]);
    }
  }

  /** A call that fails for good concludes the job. */
  lemma FailedConcludes(b: Bus)
    requires b.worker.Running? && b.worker.provider in b.limited
    ensures var job, provider := b.worker.job, b.worker.provider;
            Do(b, CallEnds(Failed(Failure(false, None, ""), "")))
            == Some(b.(calls := b.calls + [job.id], worker := Concluded(job, ResultError(job, Some(provider), ""))))
  {
  }

  /** One message, taken up and committed. */
  lemma OneMessage(b: Bus) returns (steps: seq<Step>)
    requires b.worker.Idle? && b.committed < |b.topic| && b.wired <= b.limited
    ensures DoAll(b, steps).Some?
    ensures var b' := DoAll(b, steps).value;
            && b'.worker.Idle? && b'.committed == b.committed + 1 && b'.topic == b.topic && b'.submits == b.submits
            && b'.wired == b.wired && b'.limited == b.limited && b'.origin == b.origin
  {
    hide Do, DoAll, TakenUp, SoundResult, ProviderFor, Notified;
    DeliverTakesUp(b);
    var taken := Do(b, Deliver).value;
    if taken.worker.Settled? {
      DoTwo(b, Deliver, Commit);
      CommitMoves(taken);
      steps := [Deliver, Commit];
    } else {
      steps := [Deliver];
      var concluded := taken;
      TakenUpSound(b.wired, b.topic[b.committed].job);
      if taken.worker.Running? {
        var failed := CallEnds(Failed(Failure(false, None, ""), ""));
        FailedConcludes(taken);
        DoTwo(b, Deliver, failed);
        concluded := Do(taken, failed).value;
        steps := [Deliver, failed];
      }
      var rest := ConclusionIsItsSteps(concluded, 0.0);
      DoAllConcat(b, steps, rest);
      steps := steps + rest;
    }
  }

  lemma {:induction false} Drain(b: Bus) returns (steps: seq<Step>)
    requires b.worker.Idle? && b.committed <= |b.topic| && b.wired <= b.limited
    ensures DoAll(b, steps).Some?
    ensures var b' := DoAll(b, steps).value;
            b'.committed == |b'.topic| && b'.topic == b.topic && b'.submits == b.submits && b'.origin == b.origin
    decreases |b.topic| - b.committed
  {
    hide Do, DoAll;
    if b.committed == |b.topic| {
      DoNone(b);
      steps := [];
    } else {
      var first := OneMessage(b);
      var rest := Drain(DoAll(b, first).value);
      DoAllConcat(b, first, rest);
      steps := first + rest;
    }
  }

  lemma RestartIdles(b: Bus)
    ensures DoAll(b, [Restart]) == Some(b.(worker := Idle)) == Do(b, Restart)
  {
    DoOne(b, Restart);
  }

  /** Every message that a submit sent is finished, and a pending row is that of a submit that never sent. */
  ghost predicate OnlyUnsentPending(b: Bus) {
    && (forall k :: 0 <= k < |b.topic| && b.topic[k].Submitted? ==> Finished(b.jobs, b.topic[k].job.id))
    && (forall id :: id in b.jobs && b.jobs[id].status.Pending? ==>
          && id in b.origin && b.origin[id] in b.submits
          && var pc := b.submits[b.origin[id]];
             pc.job.id == id && (pc.Sending? || pc.SendFailed? || pc.Died?))
  }

  lemma DrainedIsFinished(b: Bus)
    requires Agreement(b) && Origins(b) && NothingSkipped(b) && b.committed == |b.topic|
    ensures OnlyUnsentPending(b)
  {
    hide OnRecord, Routable;
    forall id | id in b.jobs && b.jobs[id].status.Pending?
      ensures id in b.origin && b.origin[id] in b.submits
      ensures var pc := b.submits[b.origin[id]];
              pc.job.id == id && (pc.Sending? || pc.SendFailed? || pc.Died?)
    {
      assert InsertedBy(b.submits[b.origin[id]], id);
      assert SubmitAgrees(b, b.submits[b.origin[id]]);
    }
  }

  /** However a run got there: once the whole topic is committed, everything that was sent is finished. */
  lemma CommittedIsFinished(run: seq<Bus>, steps: seq<Step>, i: nat)
    requires IsRun(run, steps) && i < |run| && run[i].committed == |run[i].topic|
    ensures OnlyUnsentPending(run[i])
  {
    RunSound(run, steps, i);
    DrainedIsFinished(run[i]);
  }

  /** From every state of every run, crashed workers included, if every wired provider has a limiter then
      the bus can go on to finish all that was sent; only jobs whose submit never sent stay pending. */
  lemma SentCanAlwaysFinish(run: seq<Bus>, steps: seq<Step>, i: nat) returns (more: seq<Step>)
    requires IsRun(run, steps) && i < |run| && run[i].wired <= run[i].limited
    ensures DoAll(run[i], more).Some?
    ensures var b := DoAll(run[i], more).value;
            b.topic == run[i].topic && b.submits == run[i].submits && OnlyUnsentPending(b)
  {
    hide Do, DoAll, OnlyUnsentPending;
    hide Agreement, Origins, WorkerSound, NothingSkipped, WinsSound, CallbacksSound, Balanced;
    RunSound(run, steps, i);
    RestartIdles(run[i]);
    StepSound(run[i], Restart);
    CommittedWithin(run[i]);
    var idle := run[i].(worker := Idle);
    var rest := Drain(idle);
    DoAllConcat(run[i], [Restart], rest);
    more := [Restart] + rest;
    DoAllSound(idle, rest);
    DrainedIsFinished(DoAll(idle, rest).value);
  }

  lemma CommittedWithin(b: Bus)
    requires NothingSkipped(b)
    ensures b.committed <= |b.topic|
  {
  }
}

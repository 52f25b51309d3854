/** What a callback says and what a poll says. */
module BusCallbacks {
  import opened Prelude
  import opened Schema
  import opened Retries
  import opened Processing
  import opened Tables
  import opened Workers
  import opened Clients
  import opened Buses
  import opened BusInvariants
  import opened BusOutcomes
  import opened BusRuns
  import opened BusPostings
  import opened BusLinks

  /** Whatever a poll returned, every later poll returns. */
  lemma PollIsStable(run: seq<Bus>, steps: seq<Step>, i: nat, j: nat, id: JobId)
    requires IsRun(run, steps) && i <= j < |run| && Finished(run[i].jobs, id)
    ensures Finished(run[j].jobs, id)
    ensures ResultFromStored(id, run[j].jobs[id]) == ResultFromStored(id, run[i].jobs[id])
    ensures ResultFromStored(id, run[i].jobs[id]).Some?
  {
    OutcomeIsFinal(run, steps, i, j, id);
  }

  // ----- every callback answers a message -----

  /** The callback goes where the message asks, for its job and with its metadata. */
  predicate Answers(d: Delivery, posting: Posting) {
    && !posting.Poison?
    && posting.job.id == d.result.id && posting.job.meta == d.result.meta && posting.job.callback == Some(d.url)
  }

  ghost predicate AllAnswer(b: Bus) {
    forall d :: d in b.sent ==> exists k :: 0 <= k < |b.topic| && Answers(d, b.topic[k])
  }

  lemma AllAnswerKept(b: Bus, step: Step)
    requires AllAnswer(b) && WorkerSound(b) && Do(b, step).Some?
    ensures AllAnswer(Do(b, step).value)
  {
    hide Do;
    StepGrows(b, step);
    CallbackMoves(b, step);
    var b' := Do(b, step).value;
    forall d | d in b'.sent
      ensures exists k :: 0 <= k < |b'.topic| && Answers(d, b'.topic[k])
    {
      if d in b.sent {
        var k :| 0 <= k < |b.topic| && Answers(d, b.topic[k]);
        assert b'.topic[k] == b.topic[k];
      } else {
        assert AtHead(b, b.worker.job) && SoundResult(b.worker.job, b.worker.result);
        assert Answers(d, b'.topic[b.committed]);
      }
    }
  }

  lemma {:induction false} RunAnswers(run: seq<Bus>, steps: seq<Step>, i: nat)
    requires IsRun(run, steps) && i < |run|
    ensures AllAnswer(run[i])
  {
    hide Do;
    if i > 0 {
      RunAnswers(run, steps, i - 1);
      RunSound(run, steps, i - 1);
      assert Do(run[i - 1], steps[i - 1]) == Some(run[i]);
      AllAnswerKept(run[i - 1], steps[i - 1]);
    }
  }

  /** Every callback answers a message of the topic. It says what a poll of the job returns exactly when that
      message repeats the metadata of the submit that inserted the row; metadata aside it always does. */
  lemma CallbackIsPolled(run: seq<Bus>, steps: seq<Step>, i: nat, d: Delivery) returns (k: nat, first: SubmitId)
    requires IsRun(run, steps) && i < |run| && d in run[i].sent
    ensures k < |run[i].topic| && Answers(d, run[i].topic[k])
    ensures Finished(run[i].jobs, d.result.id) && d.result.id in run[i].origin
    ensures first == run[i].origin[d.result.id] && first in run[i].submits
    ensures var polled := ResultFromStored(d.result.id, run[i].jobs[d.result.id]);
            && polled.Some? && polled.value.(meta := d.result.meta) == d.result
            && (polled.value == d.result <==> run[i].topic[k].job.meta == run[i].submits[first].job.meta)
  {
    CallbackOnce(run, steps, i);
    RunAnswers(run, steps, i);
    RunSound(run, steps, i);
    k :| 0 <= k < |run[i].topic| && Answers(d, run[i].topic[k]);
    first := run[i].origin[d.result.id];
    assert FromJob(run[i].jobs[d.result.id], run[i].submits[first].job);
  }

  function WithMeta(meta: Meta): Property {
    (t: Timestamp, m: Meta) => m == meta
  }

  /** If all submits of this id carry one metadata and nobody else posts it, its callback says what a poll returns. */
  lemma OneMetaOneStory(run: seq<Bus>, steps: seq<Step>, i: nat, d: Delivery, meta: Meta)
    requires IsRun(run, steps) && i < |run| && d in run[i].sent
    requires forall n :: 0 <= n < |steps| ==>
               BeginSays(steps[n], d.result.id, WithMeta(meta)) && OnlySubmitted(steps[n], d.result.id)
    ensures d.result.id in run[i].jobs && ResultFromStored(d.result.id, run[i].jobs[d.result.id]) == Some(d.result)
  {
    hide Do, BeginSays, OnlySubmitted, SubmitsSay, NoneForeign;
    var k, first := CallbackIsPolled(run, steps, i, d);
    RunSays(run, steps, d.result.id, WithMeta(meta), i);
    RunForeign(run, steps, d.result.id, i);
    RunSound(run, steps, i);
    RowSays(run[i], d.result.id, WithMeta(meta));
    MessageSays(run[i], k, d.result.id, WithMeta(meta));
  }

  /** A message with this id is a submit's, and has the property. */
  lemma MessageSays(b: Bus, k: nat, id: JobId, fits: Property)
    requires SubmitsSay(b, id, fits) && NoneForeign(b, id)
    requires k < |b.topic| && !b.topic[k].Poison? && b.topic[k].job.id == id
    ensures fits(b.topic[k].job.submittedAt, b.topic[k].job.meta)
  {
    assert b.topic[k].Submitted?;
    assert Says(b.topic[k].job, id, fits);
  }

  // ----- a callback that says something else -----

  function TaggedJob(tag: string): Job {
    Job("j", "p", "k", Some("gpt-5"), [], None, Some("url"), map["tag" := tag], Timestamp(0.0, 0), None)
  }

  lemma TaggedFailure(b: Bus)
    requires b.worker == Running(TaggedJob("second"), "openai") && "openai" in b.limited
    ensures Do(b, CallEnds(Failed(Failure(false, None, ""), "text")))
         == Some(b.(calls := b.calls + ["j"],
                    worker := Concluded(TaggedJob("second"), ResultError(TaggedJob("second"), Some("openai"), "text"))))
  {
  }

  /** The worker's part: the message is taken up, fails, is finalized and called back. */
  lemma TaggedWork(b: Bus) returns (steps: seq<Step>)
    requires b.worker.Idle? && b.committed == 0 && b.wired == b.limited == {"openai"} && b.sent == []
    requires b.topic == [Submitted(TaggedJob("second"))]
    requires b.jobs == map["j" := PendingRow(TaggedJob("first"), "gpt-5")]
    ensures DoAll(b, steps).Some?
    ensures var b' := DoAll(b, steps).value;
            && |b'.sent| == 1 && b'.sent[0].result.id == "j" && b'.sent[0].result.meta == map["tag" := "second"]
            && b'.jobs.Keys == {"j"} && b'.jobs["j"].status == Terminal(Error)
            && b'.jobs["j"].meta == map["tag" := "first"]
  {
    hide Do, DoAll;
    var failed := CallEnds(Failed(Failure(false, None, ""), "text"));
    DeliverTakesUp(b);
    var b1 := Do(b, Deliver).value;
    TaggedFailure(b1);
    DoTwo(b, Deliver, failed);
    var rest := ConclusionIsItsSteps(Do(b1, failed).value, 0.0);
    DoAllConcat(b, [Deliver, failed], rest);
    steps := [Deliver, failed] + rest;
  }

  /** The send of a first submit fails and the job is submitted again with other metadata: the callback
      carries the second metadata, every poll returns the first. */
  lemma CallbackDrifts(b: Bus) returns (steps: seq<Step>)
    requires Initial(b) && b.wired == b.limited == {"openai"}
    ensures DoAll(b, steps).Some?
    ensures var b' := DoAll(b, steps).value;
            && |b'.sent| == 1 && b'.sent[0].result.id == "j" && Finished(b'.jobs, "j")
            && b'.sent[0].result.meta == map["tag" := "second"] && b'.jobs["j"].meta == map["tag" := "first"]
            && ResultFromStored("j", b'.jobs["j"]) != Some(b'.sent[0].result)
  {
    hide DoAll, SubmitSteps;
    SubmitIsItsSteps(b, 0, TaggedJob("first"), Fails);
    SubmitMovesItself(b, 0, TaggedJob("first"), Fails);
    var first := SubmitSteps(b, 0, TaggedJob("first"), Fails);
    SubmitFrame(b, first, 0);
    var b1 := DoAll(b, first).value;
    SubmitIsItsSteps(b1, 1, TaggedJob("second"), Lands);
    SubmitMovesItself(b1, 1, TaggedJob("second"), Lands);
    var second := SubmitSteps(b1, 1, TaggedJob("second"), Lands);
    SubmitFrame(b1, second, 1);
    var work := TaggedWork(DoAll(b1, second).value);
    DoAllConcat(b1, second, work);
    DoAllConcat(b, first, second + work);
    steps := first + (second + work);
    TagsDiffer();
  }

  lemma TagsDiffer()
    ensures map["tag" := "first"] != map["tag" := "second"]
  {
    assert map["tag" := "first"]["tag"][0] != map["tag" := "second"]["tag"][0];
  }
}

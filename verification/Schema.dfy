/** The message contract (src/llmbus/schema.py) and the routing table (src/llmbus/providers/base.py). */
module Schema {
  import opened Prelude

  type JobId = string
  type Day = int

  /** An aware timestamp: its instant in seconds, and the calendar day it is written with in its own offset. */
  datatype Timestamp = Timestamp(instant: real, day: Day)

  type Meta = map<string, string>

  /** One prompt message. */
  datatype Message = Message(role: string, content: string)

  datatype Job = Job(
    id: JobId,
    project: string,
    kind: string,
    model: Option<string>,
    messages: seq<Message>,
    maxTokens: Option<int>,
    callback: Option<string>,
    meta: Meta,
    submittedAt: Timestamp,
    ttl: Option<real>)

  const MAX_TTL_S := 86400.0

  /** The ranges that the contract enforces on a job when it is built or decoded. */
  predicate ValidJob(job: Job) {
    && (job.maxTokens.Some? ==> job.maxTokens.value > 0)
    && (job.ttl.Some? ==> 0.0 < job.ttl.value <= MAX_TTL_S)
  }

  datatype Usage = Usage(input: int, output: int, cost: real)

  const NO_USAGE := Usage(0, 0, 0.0)

  datatype Verdict = Ok | Error

  /** What the bus says about a job it has finished. */
  datatype Result = Result(
    id: JobId,
    verdict: Verdict,
    completion: Option<string>,
    usage: Usage,
    provider: Option<string>,
    error: Option<string>,
    meta: Meta)

  /** An explicit model wins; otherwise the policy decides, and without one the job is refused. */
  function ResolveModel(job: Job, policy: Option<string>): Outcome<string> {
    if job.model.Some? then Returned(job.model.value)
    else if policy.Some? then Returned(policy.value)
    else Raised(NoModelPolicy(job.project, job.kind))
  }

  const PROVIDERS: map<string, string> := map[
    "gpt-5" := "openai",
    "gpt-5-mini" := "openai",
    "gpt-5-nano" := "openai",
    "gpt-5.4-mini" := "openai",
    "gpt-5.2" := "openai",
    "gpt-5.4" := "openai",
    "gpt-5.5" := "openai",
    "claude-opus-4-8" := "anthropic",
    "claude-sonnet-5" := "anthropic",
    "claude-haiku-4-5" := "anthropic"]

  function ProviderFor(model: string): Outcome<string> {
    if model in PROVIDERS then Returned(PROVIDERS[model]) else Raised(UnknownModel(model))
  }

  predicate Routable(model: string) {
    ProviderFor(model).Returned?
  }

  /** A message on the topic: a body that does not decode, a job that `submit` sent, or a job put there some
      other way. */
  datatype Posting = Poison | Submitted(job: Job) | Foreign(job: Job)

  function Decode(posting: Posting): Option<Job> {
    if posting.Poison? then None else Some(posting.job)
  }
}

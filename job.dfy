/**
 * The job tracker: a `Job` holds a server-assigned id and the latest job state
 * it has seen; `Poll` fetches the state once, `Wait` polls until the job is in
 * a terminal state or a deadline passes.
 *
 * Time and the network are a `World`: an abstract clock that only sleeping
 * advances, the replies the job-status endpoint gives to successive fetches,
 * and a trace of the sleeps and fetches performed, in order.
 */
module Jobs {
  import opened Wrappers
  import opened Js
  import opened Client
  import Uri

  const DEFAULT_TIMEOUT_MS: int := 120_000
  const DEFAULT_INTERVAL_MS: int := 2_000

  /** Node's largest timer delay; a delay outside `1..TIMEOUT_MAX` is replaced by 1. */
  const TIMEOUT_MAX: int := 2_147_483_647

  datatype JobStatus = Queued | Running | Completed | Failed

  datatype JobType = MediaIngest | AiDetect | MembershipInference

  datatype Progress = Progress(completed: int, total: int)

  /** `JobData`: the state of a job as the service reports it. */
  datatype JobData = JobData(
    id: string,
    jobType: Option<JobType>,
    status: JobStatus,
    preset: Maybe<string>,
    progress: Maybe<Progress>,
    result: Maybe<map<string, Json>>,
    error: Maybe<string>,
    createdAt: Option<string>,
    updatedAt: Option<string>)

  /** What a job-creating endpoint answers: `{ job_id, status_url? }`. */
  datatype JobCreated = JobCreated(jobId: string, statusUrl: Option<string>)

  /** `WaitOptions`; both fields may also be `null` at run time. */
  datatype WaitOptions = WaitOptions(timeoutMs: Maybe<int>, intervalMs: Maybe<int>)

  /** `completed` and `failed` are the terminal states. */
  predicate IsTerminal(s: JobStatus) {
    s == Completed || s == Failed
  }

  function StatusName(s: JobStatus): string {
    match s
    case Queued => "queued"
    case Running => "running"
    case Completed => "completed"
    case Failed => "failed"
  }

  /** The state a new `Job` assumes before its first poll: only `id` and `status: "queued"`. */
  function InitialData(jobId: string): (d: JobData)
    ensures d.id == jobId && d.status == Queued && !IsTerminal(d.status)
  {
    JobData(jobId, None, Queued, Absent, Absent, Absent, Absent, None, None)
  }

  /** `opts?.timeoutMs ?? DEFAULT_TIMEOUT_MS`. */
  function TimeoutOf(opts: Option<WaitOptions>): (t: int)
    ensures opts.Some? && opts.value.timeoutMs.Present? ==> t == opts.value.timeoutMs.value
    ensures opts.None? || !opts.value.timeoutMs.Present? ==> t == DEFAULT_TIMEOUT_MS
  {
    if opts.Some? then opts.value.timeoutMs.Coalesce(DEFAULT_TIMEOUT_MS) else DEFAULT_TIMEOUT_MS
  }

  /** `opts?.intervalMs ?? DEFAULT_INTERVAL_MS`. */
  function IntervalOf(opts: Option<WaitOptions>): (i: int)
    ensures opts.Some? && opts.value.intervalMs.Present? ==> i == opts.value.intervalMs.value
    ensures opts.None? || !opts.value.intervalMs.Present? ==> i == DEFAULT_INTERVAL_MS
  {
    if opts.Some? then opts.value.intervalMs.Coalesce(DEFAULT_INTERVAL_MS) else DEFAULT_INTERVAL_MS
  }

  /** How long `setTimeout(resolve, ms)` waits under Node: `ms` when in range, else 1. */
  function TimerDelay(ms: int): (d: int)
    ensures d >= 1
    ensures 1 <= ms <= TIMEOUT_MAX ==> d == ms
  {
    if 1 <= ms <= TIMEOUT_MAX then ms else 1
  }

  /** `/api/v1/jobs/${encodeURIComponent(id)}`. */
  function JobPath(id: string): (p: string)
    ensures |p| >= |"/api/v1/jobs/"| + |id|
    ensures p[..|"/api/v1/jobs/"|] == "/api/v1/jobs/"
  {
    "/api/v1/jobs/" + Uri.EncodeUriComponent(id)
  }

  /** An id of unreserved characters appears in the job path as it is. */
  lemma JobPathPlainId(id: string)
    requires forall i :: 0 <= i < |id| ==> Uri.ComponentUnreserved(id[i])
    ensures JobPath(id) == "/api/v1/jobs/" + id
  {
    Uri.EncodeUriComponentIdentity(id);
  }

  /** The message of the error `wait` throws on timeout. */
  function TimeoutMessage(id: string, timeout: int, status: JobStatus): string {
    ("Job " + id) + (" did not complete within " + Decimal(timeout) + "ms (last status: ") + (StatusName(status) + ")")
  }

  lemma Slices<T>(head: seq<T>, middle: seq<T>, tail: seq<T>)
    ensures (head + middle + tail)[..|head|] == head
    ensures (head + middle + tail)[|head| + |middle|..] == tail
  {
    assert (head + middle + tail)[..|head|] == head;
    assert (head + middle + tail)[|head| + |middle|..] == tail;
  }

  /** The timeout message starts with the job id and ends with the last status seen. */
  lemma TimeoutMessageShape(id: string, timeout: int, status: JobStatus)
    ensures var m := TimeoutMessage(id, timeout, status);
      |m| > |id| + |Decimal(timeout)| + |StatusName(status)|
      && m[..4 + |id|] == "Job " + id
      && m[|m| - |StatusName(status)| - 1..] == StatusName(status) + ")"
  {
    Slices("Job " + id, " did not complete within " + Decimal(timeout) + "ms (last status: ", StatusName(status) + ")");
  }

  // ── The world a job runs in ──────────────────────────────────────────────

  datatype Event = Slept(ms: int) | Fetched(request: Request)

  /** `n` rounds of the wait loop: each one sleep of `interval` and then one fetch of `req`. */
  function Rounds(n: nat, interval: int, req: Request): (r: seq<Event>)
    ensures |r| == 2 * n
  {
    if n == 0 then [] else Rounds(n - 1, interval, req) + [Slept(interval), Fetched(req)]
  }

  /** The rounds alternate: a sleep at every even position, a fetch at every odd one, so no fetch comes first. */
  lemma {:induction false} RoundsAlternate(n: nat, interval: int, req: Request)
    ensures forall j :: 0 <= j < 2 * n ==>
      Rounds(n, interval, req)[j] == if j % 2 == 0 then Slept(interval) else Fetched(req)
  {
    if n > 0 {
      RoundsAlternate(n - 1, interval, req);
      var r := Rounds(n, interval, req);
      var prev := Rounds(n - 1, interval, req);
      assert r == prev + [Slept(interval), Fetched(req)];
      forall j | 0 <= j < |r|
        ensures r[j] == if j % 2 == 0 then Slept(interval) else Fetched(req)
      {
        if j < |prev| {
          assert r[j] == prev[j];
        } else if j == |prev| {
          assert j % 2 == 0 && r[j] == Slept(interval);
        } else {
          assert j % 2 == 1 && r[j] == Fetched(req);
        }
      }
    }
  }

  class World {
    /** What `Date.now()` reads. */
    var now: int
    /** How many job-status fetches have been made. */
    var fetches: nat
    /** The sleeps and fetches performed so far, oldest first. */
    var trace: seq<Event>
    /** The outcome of `getOne<JobData>` on the job-status path for each successive fetch. */
    const replies: nat -> Result<JobData, Error>

    constructor (start: int, replies: nat -> Result<JobData, Error>)
      ensures now == start && fetches == 0 && trace == [] && this.replies == replies
    {
      now := start;
      fetches := 0;
      trace := [];
      this.replies := replies;
    }

    /** `await sleep(ms)`: the clock moves on by the timer's delay. */
    method Sleep(ms: int)
      modifies this
      ensures now == old(now) + TimerDelay(ms)
      ensures fetches == old(fetches) && trace == old(trace) + [Slept(ms)]
    {
      now := now + TimerDelay(ms);
      trace := trace + [Slept(ms)];
    }

    /** One job-status fetch: the next reply in line. */
    method Fetch(req: Request) returns (r: Result<JobData, Error>)
      modifies this
      ensures r == replies(old(fetches))
      ensures now == old(now) && fetches == old(fetches) + 1 && trace == old(trace) + [Fetched(req)]
    {
      r := replies(fetches);
      fetches := fetches + 1;
      trace := trace + [Fetched(req)];
    }
  }

  // ── What `wait` does, as a function of where it starts ──────────────────

  /** Where a run of the wait loop ends: its result, the job's latest state, the clock, and the fetch count. */
  datatype WaitOutcome = WaitOutcome(result: Result<JobData, Error>, latest: JobData, now: int, fetched: nat)

  /**
   * The wait loop from a state in which the job's latest state is `latest`, the
   * clock reads `now` and `k` fetches have been made: return when terminal,
   * throw when past the deadline, otherwise sleep, poll and go round again.
   */
  function WaitFrom(id: string, latest: JobData, now: int, deadline: int, timeout: int, interval: int,
                    replies: nat -> Result<JobData, Error>, k: nat): (o: WaitOutcome)
    ensures o.fetched >= k && o.now >= now
    decreases if now < deadline then deadline - now else 0
  {
    if IsTerminal(latest.status) then
      WaitOutcome(Success(latest), latest, now, k)
    else if now >= deadline then
      WaitOutcome(Failure(TimeoutError(TimeoutMessage(id, timeout, latest.status))), latest, now, k)
    else
      var later := now + TimerDelay(interval);
      match replies(k)
      case Failure(e) => WaitOutcome(Failure(e), latest, later, k + 1)
      case Success(d) => WaitFrom(id, d, later, deadline, timeout, interval, replies, k + 1)
  }

  /** One round of the loop, from a state that is neither terminal nor past the deadline. */
  lemma WaitStep(id: string, latest: JobData, now: int, deadline: int, timeout: int, interval: int,
                 replies: nat -> Result<JobData, Error>, k: nat)
    requires !IsTerminal(latest.status) && now < deadline
    ensures replies(k).Failure? ==>
      WaitFrom(id, latest, now, deadline, timeout, interval, replies, k)
      == WaitOutcome(replies(k), latest, now + TimerDelay(interval), k + 1)
    ensures replies(k).Success? ==>
      WaitFrom(id, latest, now, deadline, timeout, interval, replies, k)
      == WaitFrom(id, replies(k).value, now + TimerDelay(interval), deadline, timeout, interval, replies, k + 1)
  {
  }

  /** A successful wait returns the job's latest state, and that state is terminal (`failed` included). */
  lemma {:induction false} WaitReturnsTerminal(id: string, latest: JobData, now: int, deadline: int, timeout: int,
                                               interval: int, replies: nat -> Result<JobData, Error>, k: nat)
    ensures var o := WaitFrom(id, latest, now, deadline, timeout, interval, replies, k);
      o.result.Success? ==> o.result.value == o.latest && IsTerminal(o.latest.status)
    decreases if now < deadline then deadline - now else 0
  {
    if !IsTerminal(latest.status) && now < deadline && replies(k).Success? {
      WaitReturnsTerminal(id, replies(k).value, now + TimerDelay(interval), deadline, timeout, interval, replies, k + 1);
    }
  }

  /** The replies of the job-status endpoint are values or API-level errors, never the wait's own timeout. */
  ghost predicate NoTimeoutReplies(replies: nat -> Result<JobData, Error>) {
    forall j: nat :: replies(j).Failure? ==> !replies(j).error.TimeoutError?
  }

  /**
   * Wait throws its timeout error only for a job that is not terminal once the
   * clock has reached the deadline; the message names the id, the timeout and
   * the last status seen.
   */
  lemma {:induction false} WaitTimesOutOnlyPastDeadline(id: string, latest: JobData, now: int, deadline: int,
                                                        timeout: int, interval: int,
                                                        replies: nat -> Result<JobData, Error>, k: nat)
    requires NoTimeoutReplies(replies)
    ensures var o := WaitFrom(id, latest, now, deadline, timeout, interval, replies, k);
      o.result.Failure? && o.result.error.TimeoutError? ==>
        !IsTerminal(o.latest.status) && o.now >= deadline
        && o.result.error.message == TimeoutMessage(id, timeout, o.latest.status)
        && (o.fetched > k ==> replies(o.fetched - 1) == Success(o.latest))
        && (o.fetched == k ==> o.latest == latest)
    decreases if now < deadline then deadline - now else 0
  {
    if !IsTerminal(latest.status) && now < deadline {
      match replies(k)
      case Failure(e) =>
        assert !e.TimeoutError?;
      case Success(d) =>
        WaitTimesOutOnlyPastDeadline(id, d, now + TimerDelay(interval), deadline, timeout, interval, replies, k + 1);
    }
  }

  /** The time `n` timer delays of `d` ms take, one after the other. */
  function Delays(n: nat, d: int): (t: int)
    ensures d >= 0 ==> t >= 0
  {
    if n == 0 then 0 else Delays(n - 1, d) + d
  }

  /** So `n` delays take `n * d`. */
  lemma {:induction false} DelaysProduct(n: nat, d: int)
    ensures Delays(n, d) == n * d
  {
    if n > 0 {
      DelaysProduct(n - 1, d);
      assert (n - 1) * d + d == n * d;
    }
  }

  /**
   * Pacing: every fetch is preceded by exactly one timer delay, so the clock ends
   * at `now` plus one delay per fetch, and each fetch's sleep began before the deadline.
   */
  lemma {:induction false} WaitPacing(id: string, latest: JobData, now: int, deadline: int, timeout: int,
                                      interval: int, replies: nat -> Result<JobData, Error>, k: nat)
    ensures var o := WaitFrom(id, latest, now, deadline, timeout, interval, replies, k);
      o.now == now + Delays(o.fetched - k, TimerDelay(interval))
      && (o.fetched > k ==> now + Delays(o.fetched - k - 1, TimerDelay(interval)) < deadline)
    decreases if now < deadline then deadline - now else 0
  {
    if !IsTerminal(latest.status) && now < deadline && replies(k).Success? {
      WaitPacing(id, replies(k).value, now + TimerDelay(interval), deadline, timeout, interval, replies, k + 1);
    }
  }

  /** A fetch that throws ends the wait with that error, and leaves the latest state as the last good poll set it. */
  lemma {:induction false} WaitPropagatesPollErrors(id: string, latest: JobData, now: int, deadline: int,
                                                    timeout: int, interval: int,
                                                    replies: nat -> Result<JobData, Error>, k: nat)
    requires NoTimeoutReplies(replies)
    ensures var o := WaitFrom(id, latest, now, deadline, timeout, interval, replies, k);
      o.result.Failure? && !o.result.error.TimeoutError? ==>
        o.fetched > k && replies(o.fetched - 1) == o.result
        && (o.fetched - 1 > k ==> replies(o.fetched - 2) == Success(o.latest))
        && (o.fetched - 1 == k ==> o.latest == latest)
    decreases if now < deadline then deadline - now else 0
  {
    if !IsTerminal(latest.status) && now < deadline && replies(k).Success? {
      WaitPropagatesPollErrors(id, replies(k).value, now + TimerDelay(interval), deadline, timeout, interval,
                               replies, k + 1);
    }
  }

  // ── The job handle ───────────────────────────────────────────────────────

  class Job {
    const id: string
    const http: HttpClient
    var latest: JobData

    /** `new Job(http, data)`: the status URL is ignored and the job is assumed queued. */
    constructor (http: HttpClient, data: JobCreated)
      ensures this.http == http && id == data.jobId
      ensures latest == InitialData(data.jobId) && !Done()
    {
      this.http := http;
      id := data.jobId;
      latest := InitialData(data.jobId);
    }

    /** `done`. */
    predicate Done()
      reads this
      ensures Done() <==> StatusName(latest.status) == "completed" || StatusName(latest.status) == "failed"
    {
      IsTerminal(latest.status)
    }

    /** The request `poll` sends: a GET of the job-status path, without parameters. */
    function PollRequest(): Request {
      http.GetRequest(JobPath(id), None)
    }

    /** `poll`: one fetch; on success its value replaces the latest state wholesale and is returned. */
    method Poll(world: World) returns (r: Result<JobData, Error>)
      modifies this, world
      ensures r == world.replies(old(world.fetches))
      ensures latest == if r.Success? then r.value else old(latest)
      ensures r.Success? ==> r.value == latest
      ensures world.now == old(world.now) && world.fetches == old(world.fetches) + 1
      ensures world.trace == old(world.trace) + [Fetched(PollRequest())]
    {
      r := world.Fetch(PollRequest());
      if r.Success? {
        latest := r.value;
      }
    }

    /**
     * One round of `wait`, from a state that is neither terminal nor past the
     * deadline: sleep for the interval, then poll. Where it leaves the job and
     * the world is where `WaitFrom` goes next.
     */
    method Round(deadline: int, timeout: int, interval: int, world: World, ghost trace0: seq<Event>, ghost k0: nat)
      returns (polled: Result<JobData, Error>)
      requires !Done() && world.now < deadline
      requires world.fetches >= k0 && world.trace == trace0 + Rounds(world.fetches - k0, interval, PollRequest())
      modifies this, world
      ensures world.now > old(world.now) && world.fetches == old(world.fetches) + 1
      ensures world.trace == trace0 + Rounds(world.fetches - k0, interval, PollRequest())
      ensures polled.Failure? ==>
        WaitFrom(id, old(latest), old(world.now), deadline, timeout, interval, world.replies, old(world.fetches))
        == WaitOutcome(polled, latest, world.now, world.fetches)
      ensures polled.Success? ==>
        WaitFrom(id, old(latest), old(world.now), deadline, timeout, interval, world.replies, old(world.fetches))
        == WaitFrom(id, latest, world.now, deadline, timeout, interval, world.replies, world.fetches)
    {
      WaitStep(id, latest, world.now, deadline, timeout, interval, world.replies, world.fetches);
      ghost var n := world.fetches - k0;
      world.Sleep(interval);
      polled := Poll(world);
      assert Rounds(n + 1, interval, PollRequest()) == Rounds(n, interval, PollRequest()) + [Slept(interval), Fetched(PollRequest())];
    }

    /** `wait`: the loop `WaitFrom` describes, run against the world. */
    method Wait(opts: Option<WaitOptions>, world: World) returns (r: Result<JobData, Error>)
      modifies this, world
      ensures var o := WaitFrom(id, old(latest), old(world.now), old(world.now) + TimeoutOf(opts), TimeoutOf(opts),
                                IntervalOf(opts), world.replies, old(world.fetches));
        r == o.result && latest == o.latest && world.now == o.now && world.fetches == o.fetched
        && world.trace == old(world.trace) + Rounds(o.fetched - old(world.fetches), IntervalOf(opts), PollRequest())
      ensures r.Success? ==> Done() && r.value == latest
      ensures old(Done()) ==> r == Success(old(latest)) && world.trace == old(world.trace)
    {
      var timeout := TimeoutOf(opts);
      var interval := IntervalOf(opts);
      var deadline := world.now + timeout;
      ghost var k0 := world.fetches;
      ghost var trace0 := world.trace;
      ghost var whole := WaitFrom(id, latest, world.now, deadline, timeout, interval, world.replies, k0);
      while !Done()
        invariant world.fetches >= k0
        invariant WaitFrom(id, latest, world.now, deadline, timeout, interval, world.replies, world.fetches) == whole
        invariant world.trace == trace0 + Rounds(world.fetches - k0, interval, PollRequest())
        decreases if world.now < deadline then deadline - world.now else 0
      {
        if world.now >= deadline {
          return Failure(TimeoutError(TimeoutMessage(id, timeout, latest.status)));
        }
        var polled := Round(deadline, timeout, interval, world, trace0, k0);
        if polled.Failure? {
          return polled;
        }
      }
      return Success(latest);
    }
  }

  // ── Scenarios ────────────────────────────────────────────────────────────

  function StateWith(id: string, s: JobStatus): JobData {
    JobData(id, None, s, Absent, Absent, Absent, Absent, None, None)
  }

  /**
   * With a 5000 ms timeout and a 1000 ms interval, an endpoint answering
   * queued, queued, completed is polled exactly three times and the wait
   * returns the completed state after three intervals.
   */
  lemma ThreePollsToCompletion(id: string, start: int)
    ensures var replies := (j: nat) => if j < 2 then Success(StateWith(id, Queued)) else Success(StateWith(id, Completed));
      WaitFrom(id, InitialData(id), start, start + 5000, 5000, 1000, replies, 0)
      == WaitOutcome(Success(StateWith(id, Completed)), StateWith(id, Completed), start + 3000, 3)
  {
    var replies := (j: nat) => if j < 2 then Success(StateWith(id, Queued)) else Success(StateWith(id, Completed));
    var q, c := StateWith(id, Queued), StateWith(id, Completed);
    var done := WaitFrom(id, c, start + 3000, start + 5000, 5000, 1000, replies, 3);
    assert done == WaitOutcome(Success(c), c, start + 3000, 3);
    assert WaitFrom(id, q, start + 2000, start + 5000, 5000, 1000, replies, 2) == done;
    assert WaitFrom(id, q, start + 1000, start + 5000, 5000, 1000, replies, 1) == done;
  }

  /**
   * With a 1500 ms timeout and a 1000 ms interval, an endpoint that never
   * reaches a terminal state is polled twice (at 1000 ms and 2000 ms: the
   * deadline is checked before each sleep), and the wait then times out.
   */
  lemma TwoPollsThenTimeout(id: string, start: int)
    ensures var replies := (j: nat) => Success(StateWith(id, Running));
      WaitFrom(id, InitialData(id), start, start + 1500, 1500, 1000, replies, 0)
      == WaitOutcome(Failure(TimeoutError(TimeoutMessage(id, 1500, Running))), StateWith(id, Running), start + 2000, 2)
  {
    var replies := (j: nat) => Success(StateWith(id, Running));
    var r := StateWith(id, Running);
    var last := WaitFrom(id, r, start + 2000, start + 1500, 1500, 1000, replies, 2);
    assert last == WaitOutcome(Failure(TimeoutError(TimeoutMessage(id, 1500, Running))), r, start + 2000, 2);
    assert WaitFrom(id, r, start + 1000, start + 1500, 1500, 1000, replies, 1) == last;
  }

  /** An explicit `timeoutMs: 0` is honoured: a job that is not done times out at once, without sleeping or polling. */
  lemma ZeroTimeoutThrowsAtOnce(id: string, latest: JobData, now: int, interval: Maybe<int>,
                                replies: nat -> Result<JobData, Error>, k: nat)
    requires !IsTerminal(latest.status)
    ensures var opts := Some(WaitOptions(Present(0), interval));
      TimeoutOf(opts) == 0
      && WaitFrom(id, latest, now, now + TimeoutOf(opts), TimeoutOf(opts), IntervalOf(opts), replies, k)
         == WaitOutcome(Failure(TimeoutError(TimeoutMessage(id, 0, latest.status))), latest, now, k)
  {
  }
}

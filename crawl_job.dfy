/**
 A batch crawl job: its status, its per-item counters and its timestamps.
 Recording one item's outcome only moves a counter; the status changes only
 when the job is started, completed or failed, and none of those transitions
 looks at the current status or at the counters.
 */
module CrawlJobs {
  import opened Types

  datatype JobStatus = Pending | Running | Success | Failed

  /** The kind of job; the code names none of its constants. */
  datatype CrawlJobType = CrawlJobType(name: string)

  /** Every field of a crawl job at one moment. */
  datatype JobState = JobState(
    jobType: CrawlJobType,
    shopType: ShopType,
    status: JobStatus,
    totalCount: Option<int>,
    successCount: int,
    failCount: int,
    startedAt: Option<DateTime>,
    completedAt: Option<DateTime>,
    errorMessage: Option<string>,
    createdAt: DateTime)

  /** `create`: a pending job with every counter at zero, stamped with its creation time. */
  function Created(jobType: CrawlJobType, shopType: ShopType, now: DateTime): (s: JobState)
    ensures s.jobType == jobType && s.shopType == shopType
    ensures s.status == Pending
    ensures s.totalCount == Some(0) && s.successCount == 0 && s.failCount == 0
    ensures s.createdAt == now
    ensures s.startedAt == None && s.completedAt == None && s.errorMessage == None
  {
    JobState(jobType, shopType, Pending, Some(0), 0, 0, None, None, None, now)
  }

  /** `start`: running from `now`, whatever the status was; nothing else changes. */
  function Started(s: JobState, now: DateTime): (r: JobState)
    ensures r.status == Running && r.startedAt == Some(now)
    ensures r.(status := s.status, startedAt := s.startedAt) == s
  {
    s.(status := Running, startedAt := Some(now))
  }

  /** `complete`: successful from `now`, whatever the status and the counts; nothing else changes. */
  function Completed(s: JobState, now: DateTime): (r: JobState)
    ensures r.status == Success && r.completedAt == Some(now)
    ensures r.(status := s.status, completedAt := s.completedAt) == s
  {
    s.(status := Success, completedAt := Some(now))
  }

  /** `fail`: failed from `now` with the message stored as given, null included; the counters and the start stay. */
  function FailedWith(s: JobState, message: Option<string>, now: DateTime): (r: JobState)
    ensures r.status == JobStatus.Failed && r.errorMessage == message && r.completedAt == Some(now)
    ensures r.(status := s.status, errorMessage := s.errorMessage, completedAt := s.completedAt) == s
  {
    s.(status := JobStatus.Failed, errorMessage := message, completedAt := Some(now))
  }

  /** `incrementSuccess`: one more successful item; the status and the other counters stay. */
  function SuccessCounted(s: JobState): (r: JobState)
    ensures r.successCount == s.successCount + 1
    ensures r.(successCount := s.successCount) == s
  {
    s.(successCount := s.successCount + 1)
  }

  /** `incrementFail`: one more failed item; the status and the other counters stay. */
  function FailureCounted(s: JobState): (r: JobState)
    ensures r.failCount == s.failCount + 1
    ensures r.(failCount := s.failCount) == s
  {
    s.(failCount := s.failCount + 1)
  }

  /** `setTotalCount`: the total is replaced, at any status and also by null (`None`); nothing else changes. */
  function TotalSet(s: JobState, totalCount: Option<int>): (r: JobState)
    ensures r.totalCount == totalCount
    ensures r.(totalCount := s.totalCount) == s
  {
    s.(totalCount := totalCount)
  }

  /** The outcome of crawling one item of the job. */
  datatype ItemOutcome = ItemSucceeded | ItemFailed

  function OutcomeCounted(s: JobState, outcome: ItemOutcome): JobState {
    match outcome
    case ItemSucceeded => SuccessCounted(s)
    case ItemFailed => FailureCounted(s)
  }

  /** The state after the outcomes are counted one by one, in order. */
  function OutcomesCounted(s: JobState, outcomes: seq<ItemOutcome>): JobState
    decreases |outcomes|
  {
    if outcomes == [] then s else OutcomesCounted(OutcomeCounted(s, outcomes[0]), outcomes[1..])
  }

  /** How many of the outcomes are `outcome`. */
  function Occurrences(outcomes: seq<ItemOutcome>, outcome: ItemOutcome): nat {
    multiset(outcomes)[outcome]
  }

  /**
   Failure isolation: counting any sequence of item outcomes raises the success
   counter by the number of successes and the fail counter by the number of
   failures, one per item, and leaves the status and every other field as they were.
   */
  lemma {:induction false} OutcomesOnlyMoveCounters(s: JobState, outcomes: seq<ItemOutcome>)
    ensures OutcomesCounted(s, outcomes).successCount == s.successCount + Occurrences(outcomes, ItemSucceeded)
    ensures OutcomesCounted(s, outcomes).failCount == s.failCount + Occurrences(outcomes, ItemFailed)
    ensures OutcomesCounted(s, outcomes).successCount + OutcomesCounted(s, outcomes).failCount
         == s.successCount + s.failCount + |outcomes|
    ensures OutcomesCounted(s, outcomes).(successCount := s.successCount, failCount := s.failCount) == s
    decreases |outcomes|
  {
    if outcomes != [] {
      var next := OutcomeCounted(s, outcomes[0]);
      OutcomesOnlyMoveCounters(next, outcomes[1..]);
      assert outcomes == [outcomes[0]] + outcomes[1..];
      assert multiset(outcomes) == multiset{outcomes[0]} + multiset(outcomes[1..]);
    }
  }

  /** From `create`, k successes and m failures in any order leave the counters at exactly k and m, still pending. */
  lemma CountersFromCreate(jobType: CrawlJobType, shopType: ShopType, now: DateTime, outcomes: seq<ItemOutcome>)
    ensures var s := OutcomesCounted(Created(jobType, shopType, now), outcomes);
      && s.status == Pending
      && s.successCount == Occurrences(outcomes, ItemSucceeded)
      && s.failCount == Occurrences(outcomes, ItemFailed)
      && s.successCount + s.failCount == |outcomes|
  {
    OutcomesOnlyMoveCounters(Created(jobType, shopType, now), outcomes);
  }

  /**
   The code does not guard `complete`; a caller that sets the total to the
   number of items, starts the job, counts exactly one outcome per item and
   only then completes it ends with a successful job whose counters add up
   to its total.
   */
  lemma OrderedRunBalances(jobType: CrawlJobType, shopType: ShopType, outcomes: seq<ItemOutcome>,
                           created: DateTime, started: DateTime, completed: DateTime)
    ensures var s := Completed(
                       OutcomesCounted(Started(TotalSet(Created(jobType, shopType, created), Some(|outcomes|)), started), outcomes),
                       completed);
      && s.status == Success
      && s.totalCount == Some(s.successCount + s.failCount)
      && s.startedAt == Some(started) && s.completedAt == Some(completed)
  {
    OutcomesOnlyMoveCounters(Started(TotalSet(Created(jobType, shopType, created), Some(|outcomes|)), started), outcomes);
  }

  /** One call on a job, as its caller makes it. */
  datatype JobCommand =
    | Start(now: DateTime)
    | Complete(now: DateTime)
    | Fail(message: Option<string>, now: DateTime)
    | IncrementSuccess
    | IncrementFail
    | SetTotalCount(totalCount: Option<int>)

  /** The calls that move a job through its lifecycle rather than its counters. */
  predicate IsLifecycle(c: JobCommand) {
    c.Start? || c.Complete? || c.Fail?
  }

  function Applied(s: JobState, c: JobCommand): JobState {
    match c
    case Start(now) => Started(s, now)
    case Complete(now) => Completed(s, now)
    case Fail(message, now) => FailedWith(s, message, now)
    case IncrementSuccess => SuccessCounted(s)
    case IncrementFail => FailureCounted(s)
    case SetTotalCount(totalCount) => TotalSet(s, totalCount)
  }

  /** The state after the calls are made one by one, in order. */
  function Run(s: JobState, cs: seq<JobCommand>): JobState
    decreases |cs|
  {
    if cs == [] then s else Run(Applied(s, cs[0]), cs[1..])
  }

  /** No sequence of calls changes a job's type, its shop or its creation time. */
  lemma {:induction false} IdentityNeverChanges(s: JobState, cs: seq<JobCommand>)
    ensures Run(s, cs).jobType == s.jobType && Run(s, cs).shopType == s.shopType
    ensures Run(s, cs).createdAt == s.createdAt
    decreases |cs|
  {
    if cs != [] {
      IdentityNeverChanges(Applied(s, cs[0]), cs[1..]);
    }
  }

  /**
   Calls that only count items or set the total leave the status, both
   timestamps and the error message as they were: only `start`, `complete`
   and `fail` move the lifecycle.
   */
  lemma {:induction false} CountingKeepsLifecycle(s: JobState, cs: seq<JobCommand>)
    requires forall i :: 0 <= i < |cs| ==> !IsLifecycle(cs[i])
    ensures Run(s, cs).status == s.status
    ensures Run(s, cs).startedAt == s.startedAt && Run(s, cs).completedAt == s.completedAt
    ensures Run(s, cs).errorMessage == s.errorMessage
    decreases |cs|
  {
    if cs != [] {
      assert !IsLifecycle(cs[0]);
      CountingKeepsLifecycle(Applied(s, cs[0]), cs[1..]);
    }
  }

  class CrawlJob {
    var jobType: CrawlJobType
    var shopType: ShopType
    var status: JobStatus
    var totalCount: Option<int>
    var successCount: int
    var failCount: int
    var startedAt: Option<DateTime>
    var completedAt: Option<DateTime>
    var errorMessage: Option<string>
    var createdAt: DateTime

    /** The job's fields as one value. */
    function State(): JobState
      reads this
    {
      JobState(jobType, shopType, status, totalCount, successCount, failCount,
               startedAt, completedAt, errorMessage, createdAt)
    }

    constructor Create(jobType: CrawlJobType, shopType: ShopType, now: DateTime)
      ensures State() == Created(jobType, shopType, now)
    {
      this.jobType := jobType;
      this.shopType := shopType;
      status := Pending;
      totalCount := Some(0);
      successCount := 0;
      failCount := 0;
      startedAt := None;
      completedAt := None;
      errorMessage := None;
      createdAt := now;
    }

    method Start(now: DateTime)
      modifies this
      ensures State() == Started(old(State()), now)
    {
      status := Running;
      startedAt := Some(now);
    }

    method Complete(now: DateTime)
      modifies this
      ensures State() == Completed(old(State()), now)
    {
      status := Success;
      completedAt := Some(now);
    }

    method Fail(message: Option<string>, now: DateTime)
      modifies this
      ensures State() == FailedWith(old(State()), message, now)
    {
      status := JobStatus.Failed;
      errorMessage := message;
      completedAt := Some(now);
    }

    method IncrementSuccess()
      modifies this
      ensures State() == SuccessCounted(old(State()))
    {
      successCount := successCount + 1;
    }

    method IncrementFail()
      modifies this
      ensures State() == FailureCounted(old(State()))
    {
      failCount := failCount + 1;
    }

    method SetTotalCount(totalCount: Option<int>)
      modifies this
      ensures State() == TotalSet(old(State()), totalCount)
    {
      this.totalCount := totalCount;
    }
  }
}

/** The import of a geodatabase: one job at a time, with eight steps, a pause for review, and a worker that runs beside
    the callers. Every critical section of the original is one event here. */
module ImportJob {
  import opened Listings

  datatype StepStatus = Pending | Running | Done | Failed | Skipped

  datatype JobStatus = JobRunning | JobReview | JobDone | JobFailed | JobCancelled

  datatype Options = Options(assignUnits: bool, keepStaging: bool)

  datatype Job = Job(id: nat, status: JobStatus, options: Options, steps: seq<StepStatus>) {
    predicate Live() {
      status == JobRunning || status == JobReview
    }
  }

  const EXTRACT: nat := 0
  const STAGE: nat := 1
  const MAP: nat := 2
  const DIFF: nat := 3
  const APPLY: nat := 4
  const UNITS: nat := 5
  const CLEANUP: nat := 6
  const RELOAD: nat := 7
  const STEPS: nat := 8

  // ------------------------------------------------------------------ critical sections on the job

  function SetStep(j: Job, k: nat, status: StepStatus): Job
    requires k < |j.steps|
  {
    j.(steps := j.steps[k := status])
  }

  /** Closing a job: steps that have not begun are skipped. */
  function Finished(j: Job, status: JobStatus): (r: Job)
    ensures r.id == j.id && r.status == status && r.options == j.options && |r.steps| == |j.steps|
    ensures forall k :: 0 <= k < |j.steps| ==> r.steps[k] == if j.steps[k] == Pending then Skipped else j.steps[k]
  {
    j.(status := status,
       steps := seq(|j.steps|, k requires 0 <= k < |j.steps| => if j.steps[k] == Pending then Skipped else j.steps[k]))
  }

  function NewJob(id: nat, options: Options): Job {
    Job(id, JobRunning, options, seq(STEPS, _ => Pending))
  }

  // ------------------------------------------------------------------ the machine

  /** Where the worker is: about to begin a step, inside it, between marking it failed and closing the job,
      about to ask for review, about to close the job. `Recording` is the caller of Start waiting for the database. */
  datatype Worker = Nobody | Recording | Before(k: nat) | Inside(k: nat) | Failing(k: nat) | Reviewing | Finishing

  /** `cancels` counts calls of Cancel that passed their check and have not closed the job yet;
      `reviewed` and `written` hold the ids of the jobs that were applied and of those that changed the network. */
  datatype State = State(job: Option<Job>, worker: Worker, cancels: nat, nextId: nat,
                         reviewed: set<nat>, written: set<nat>, crashed: bool)

  const INITIAL := State(None, Nobody, 0, 1, {}, {}, false)

  datatype Event =
    | Start(options: Options) | Recorded(ok: bool)
    | Begin | End | Fail(wrote: bool) | Proceed
    | Apply
    | CancelCheck | CancelFinish

  function AfterStep(k: nat): Worker {
    if k == DIFF then Reviewing else if k == RELOAD then Finishing else Before(k + 1)
  }

  /** One event; an event that is not possible, or a call that is refused, changes nothing. */
  function Next(s: State, e: Event): State {
    match e
    case Start(options) =>
      if (s.job.Some? && s.job.value.Live()) || s.worker != Nobody then s
      else s.(job := Some(NewJob(s.nextId, options)), worker := Recording, nextId := s.nextId + 1)
    case Recorded(ok) =>
      if s.worker != Recording then s
      else if ok then s.(worker := Before(EXTRACT))
      else s.(job := None, worker := Nobody)
    case Begin =>
      if s.job.None? || !s.worker.Before? || s.worker.k >= |s.job.value.steps| then s
      else if s.worker.k == UNITS && !s.job.value.options.assignUnits then
        s.(job := Some(SetStep(s.job.value, UNITS, Skipped)), worker := Before(CLEANUP))
      else s.(job := Some(SetStep(s.job.value, s.worker.k, Running)), worker := Inside(s.worker.k))
    case End =>
      if s.job.None? || !s.worker.Inside? || s.worker.k >= |s.job.value.steps| then s
      else
        var k := s.worker.k;
        var status := if k == CLEANUP && s.job.value.options.keepStaging then Skipped else Done;
        s.(job := Some(SetStep(s.job.value, k, status)), worker := AfterStep(k),
           written := if k == APPLY then s.written + {s.job.value.id} else s.written)
    case Fail(wrote) =>
      if s.job.None? || !s.worker.Inside? || s.worker.k >= |s.job.value.steps| then s
      else
        var k := s.worker.k;
        s.(job := Some(SetStep(s.job.value, k, Failed)), worker := Failing(k),
           written := if k == APPLY && wrote then s.written + {s.job.value.id} else s.written)
    case Proceed =>
      if s.job.None? then s
      else
        (match s.worker
         case Failing(k) => s.(job := Some(Finished(s.job.value, JobFailed)), worker := Nobody)
         case Reviewing => s.(job := Some(s.job.value.(status := JobReview)), worker := Nobody)
         case Finishing => s.(job := Some(Finished(s.job.value, JobDone)), worker := Nobody)
         case _ => s)
    case Apply =>
      if s.job.None? || s.job.value.status != JobReview || s.worker != Nobody then s
      else s.(job := Some(s.job.value.(status := JobRunning)), worker := Before(APPLY),
              reviewed := s.reviewed + {s.job.value.id})
    case CancelCheck =>
      if s.job.Some? && s.job.value.status == JobReview then s.(cancels := s.cancels + 1) else s
    case CancelFinish =>
      if s.cancels == 0 then s
      else if s.job.None? then s.(cancels := s.cancels - 1, crashed := true)
      else s.(cancels := s.cancels - 1, job := Some(Finished(s.job.value, JobCancelled)))
  }

  // ------------------------------------------------------------------ what holds at every moment

  /** The first `n` steps are over without failure. */
  ghost predicate Settled(steps: seq<StepStatus>, n: nat) {
    n <= |steps| && forall k :: 0 <= k < n ==> steps[k] == Done || steps[k] == Skipped
  }

  ghost predicate AllFrom(steps: seq<StepStatus>, n: nat, status: StepStatus) {
    forall k :: n <= k < |steps| ==> steps[k] == status
  }

  /** Steps over, then one in the given state, then steps not begun. */
  ghost predicate At(steps: seq<StepStatus>, k: nat, status: StepStatus) {
    k < |steps| && Settled(steps, k) && steps[k] == status && AllFrom(steps, k + 1, Pending)
  }

  ghost predicate JobFits(j: Job, worker: Worker) {
    && |j.steps| == STEPS
    && match worker
       case Recording => j.status == JobRunning && AllFrom(j.steps, 0, Pending)
       case Before(k) => j.status == JobRunning && Settled(j.steps, k) && AllFrom(j.steps, k, Pending) && k < STEPS
       case Inside(k) => j.status == JobRunning && At(j.steps, k, Running)
       case Failing(k) => j.status == JobRunning && At(j.steps, k, Failed)
       case Reviewing => j.status == JobRunning && Settled(j.steps, APPLY) && AllFrom(j.steps, APPLY, Pending)
       case Finishing => j.status == JobRunning && Settled(j.steps, STEPS)
       case Nobody =>
         match j.status
         case JobRunning => false
         case JobReview => Settled(j.steps, APPLY) && AllFrom(j.steps, APPLY, Pending)
         case JobDone => Settled(j.steps, STEPS) && j.steps[APPLY] == Done
         case JobCancelled => Settled(j.steps, APPLY) && j.steps[DIFF] == Done && AllFrom(j.steps, APPLY, Skipped)
         case JobFailed =>
           exists k :: 0 <= k < STEPS && Settled(j.steps, k) && j.steps[k] == Failed && AllFrom(j.steps, k + 1, Skipped)
  }

  /** A worker past the review. */
  predicate Applying(worker: Worker) {
    match worker
    case Before(k) => k >= APPLY
    case Inside(k) => k >= APPLY
    case Failing(k) => k >= APPLY
    case Finishing => true
    case _ => false
  }

  /** A worker past the step that changes the network. */
  predicate PastApply(worker: Worker) {
    match worker
    case Before(k) => k > APPLY
    case Inside(k) => k > APPLY
    case Failing(k) => k > APPLY
    case Finishing => true
    case _ => false
  }

  ghost predicate Inv(s: State) {
    && !s.crashed
    && (s.job.None? ==> s.worker == Nobody)
    && (s.job.Some? ==> JobFits(s.job.value, s.worker) && s.job.value.id < s.nextId)
    && (s.job.Some? && Applying(s.worker) ==> s.job.value.id in s.reviewed)
    && (s.job.Some? && PastApply(s.worker) ==> s.job.value.steps[APPLY] == Done)
    && (s.job.Some? && (PastApply(s.worker) || s.job.value.status == JobDone) ==> s.job.value.id in s.written)
    && (s.job.Some? && s.worker.Reviewing? ==> s.job.value.steps[DIFF] == Done)
    && (s.job.Some? && s.job.value.status == JobReview ==> s.job.value.steps[DIFF] == Done)
    && (s.job.Some? && s.job.value.status in {JobReview, JobCancelled} ==> s.job.value.id !in s.reviewed)
    && (s.job.Some? && !Applying(s.worker) && s.job.value.Live() ==> s.job.value.id !in s.reviewed)
    && (forall id :: id in s.written ==> id in s.reviewed)
    && (forall id :: id in s.reviewed ==> id < s.nextId)
  }

  /** The call of Cancel that closes the job finds it as its check left it, or already cancelled. */
  predicate CancelInTime(s: State, e: Event) {
    e == CancelFinish && s.cancels > 0 ==> s.job.Some? && s.job.value.status in {JobReview, JobCancelled}
  }

  lemma StepKeeps(s: State, e: Event)
    requires Inv(s) && (e == Begin || e == End)
    ensures Inv(Next(s, e))
  {
  }

  lemma FailKeeps(s: State, wrote: bool)
    requires Inv(s)
    ensures Inv(Next(s, Fail(wrote)))
  {
  }

  lemma ProceedKeeps(s: State)
    requires Inv(s)
    ensures Inv(Next(s, Proceed))
  {
    if s.job.Some? && s.worker.Failing? {
      var r := Next(s, Proceed).job.value;
      var k := s.worker.k;
      assert Settled(r.steps, k) && r.steps[k] == Failed && AllFrom(r.steps, k + 1, Skipped);
    }
  }

  lemma CallKeeps(s: State, e: Event)
    requires Inv(s) && (e.Start? || e.Recorded? || e == Apply || e == CancelCheck)
    ensures Inv(Next(s, e))
  {
  }

  lemma CancelKeepsIff(s: State)
    requires Inv(s)
    ensures Inv(Next(s, CancelFinish)) <==> CancelInTime(s, CancelFinish)
  {
    if s.cancels > 0 && s.job.Some? {
      var j, r := s.job.value, Next(s, CancelFinish).job.value;
      if j.status == JobCancelled {
        assert r.steps == j.steps;
      } else if j.status == JobFailed {
        var k :| 0 <= k < STEPS && Settled(j.steps, k) && j.steps[k] == Failed && AllFrom(j.steps, k + 1, Skipped);
        assert r.steps[k] == Failed;
      }
    }
  }

  /** One event keeps the invariant, exactly when it is not a cancellation that comes too late. */
  lemma NextKeepsIff(s: State, e: Event)
    requires Inv(s)
    ensures Inv(Next(s, e)) <==> CancelInTime(s, e)
  {
    hide Inv;
    match e
    case CancelFinish => CancelKeepsIff(s);
    case Begin => StepKeeps(s, e);
    case End => StepKeeps(s, e);
    case Proceed => ProceedKeeps(s);
    case Fail(wrote) => FailKeeps(s, wrote);
    case _ => CallKeeps(s, e);
  }

  function Run(s: State, events: seq<Event>): State {
    if events == [] then s else Next(Run(s, events[..|events| - 1]), events[|events| - 1])
  }

  lemma RunSnoc(s: State, events: seq<Event>, e: Event)
    ensures Run(s, events + [e]) == Next(Run(s, events), e)
  {
    assert (events + [e])[..|events|] == events;
  }

  /** The invariant holds in every state of the run. */
  ghost predicate HoldsThroughout(s: State, events: seq<Event>) {
    forall n :: 0 <= n <= |events| ==> Inv(Run(s, events[..n]))
  }

  ghost predicate CancelsInTime(s: State, events: seq<Event>) {
    forall n :: 0 <= n < |events| ==> CancelInTime(Run(s, events[..n]), events[n])
  }

  lemma HoldsSnoc(s: State, events: seq<Event>, e: Event)
    ensures HoldsThroughout(s, events + [e]) <==> HoldsThroughout(s, events) && Inv(Run(s, events + [e]))
  {
    hide Inv, Run;
    var all := events + [e];
    assert all[..|all|] == all;
    assert forall n :: 0 <= n <= |events| ==> all[..n] == events[..n];
  }

  lemma InTimeSnoc(s: State, events: seq<Event>, e: Event)
    ensures CancelsInTime(s, events + [e]) <==> CancelsInTime(s, events) && CancelInTime(Run(s, events), e)
  {
    hide CancelInTime, Run;
    var all := events + [e];
    assert all[..|events|] == events && all[|events|] == e;
    assert forall n :: 0 <= n < |events| ==> all[..n] == events[..n];
  }

  /** The invariant holds throughout a run exactly when no cancellation of the run comes too late. */
  lemma {:induction false} RunKeepsIff(s: State, events: seq<Event>)
    requires Inv(s)
    ensures HoldsThroughout(s, events) <==> CancelsInTime(s, events)
  {
    hide Inv, Next, Run, CancelInTime, HoldsThroughout, CancelsInTime;
    NothingHappens(s);
    if events != [] {
      var init, e := events[..|events| - 1], events[|events| - 1];
      assert events == init + [e];
      RunKeepsIff(s, init);
      HoldsSnoc(s, init, e);
      InTimeSnoc(s, init, e);
      RunSnoc(s, init, e);
      if HoldsThroughout(s, init) {
        HoldsAtTheEnd(s, init);
        NextKeepsIff(Run(s, init), e);
      }
    }
  }

  lemma NothingHappens(s: State)
    requires Inv(s)
    ensures Run(s, []) == s && HoldsThroughout(s, []) && CancelsInTime(s, [])
  {
    hide Inv;
    var none: seq<Event> := [];
    assert none[..0] == none;
  }

  lemma HoldsAtTheEnd(s: State, events: seq<Event>)
    requires HoldsThroughout(s, events)
    ensures Inv(Run(s, events))
  {
    hide Inv, Run;
    assert events[..|events|] == events;
  }

  lemma InitialFits()
    ensures Inv(INITIAL)
  {
  }

  // ------------------------------------------------------------------ what callers see

  function CountOf(steps: seq<StepStatus>, status: StepStatus): nat {
    if steps == [] then 0 else CountOf(steps[..|steps| - 1], status) + if steps[|steps| - 1] == status then 1 else 0
  }

  lemma {:induction false} CountNone(steps: seq<StepStatus>, status: StepStatus)
    requires forall k :: 0 <= k < |steps| ==> steps[k] != status
    ensures CountOf(steps, status) == 0
  {
    if steps != [] { CountNone(steps[..|steps| - 1], status); }
  }

  lemma {:induction false} CountOne(steps: seq<StepStatus>, status: StepStatus, k: nat)
    requires k < |steps| && forall i :: 0 <= i < |steps| ==> (steps[i] == status <==> i == k)
    ensures CountOf(steps, status) == 1
  {
    var n := |steps| - 1;
    if k == n { CountNone(steps[..n], status); } else { CountOne(steps[..n], status, k); }
  }

  /** Some steps over, then at most one running (or marked failed, just before the job is closed), then some not
      begun. */
  ghost predicate LiveSteps(steps: seq<StepStatus>, worker: Worker) {
    exists k :: 0 <= k <= STEPS && Settled(steps, k)
      && (AllFrom(steps, k, Pending)
          || (k < STEPS && |steps| == STEPS && steps[k] == Running && AllFrom(steps, k + 1, Pending))
          || (worker == Failing(k) && k < STEPS && |steps| == STEPS && steps[k] == Failed
            && AllFrom(steps, k + 1, Pending)))
  }

  /** No step left to do or under way, and exactly one failed step if the job failed, else none. */
  predicate OverSteps(j: Job) {
    && CountOf(j.steps, Pending) == 0 && CountOf(j.steps, Running) == 0
    && CountOf(j.steps, Failed) == if j.status == JobFailed then 1 else 0
  }

  /** While a job is live, its steps are: some over, then at most one running (or marked failed, just before the job
      is closed), then some not begun. */
  lemma LiveShape(s: State)
    requires Inv(s) && s.job.Some? && s.job.value.Live()
    ensures LiveSteps(s.job.value.steps, s.worker)
  {
    var steps := s.job.value.steps;
    match s.worker
    case Before(k) => assert Settled(steps, k);
    case Inside(k) => assert Settled(steps, k);
    case Failing(k) => assert Settled(steps, k);
    case Recording => assert Settled(steps, 0);
    case Finishing => assert Settled(steps, STEPS);
    case _ => assert Settled(steps, APPLY);
  }

  /** A job that is over has no step left to do or under way, and exactly one failed step if it failed, else none. */
  lemma TerminalShape(s: State)
    requires Inv(s) && s.job.Some? && !s.job.value.Live()
    ensures OverSteps(s.job.value)
  {
    var steps := s.job.value.steps;
    if s.job.value.status == JobFailed {
      var k :| 0 <= k < STEPS && Settled(steps, k) && steps[k] == Failed && AllFrom(steps, k + 1, Skipped);
      forall i | 0 <= i < |steps| ensures steps[i] != Pending && steps[i] != Running
        && (steps[i] == Failed <==> i == k) {
      }
      CountOne(steps, Failed, k);
    } else {
      CountNone(steps, Failed);
    }
    CountNone(steps, Pending);
    CountNone(steps, Running);
  }

  /** What every state of every run shows, as long as cancellations come in time. */
  lemma {:induction false} EveryRunIsOrderly(events: seq<Event>, n: nat)
    requires CancelsInTime(INITIAL, events) && n <= |events|
    ensures var s := Run(INITIAL, events[..n]);
      s.job.Some? ==> if s.job.value.Live() then LiveSteps(s.job.value.steps, s.worker) else OverSteps(s.job.value)
  {
    InitialFits();
    RunKeepsIff(INITIAL, events);
    var s := Run(INITIAL, events[..n]);
    hide Run, Next, Inv;
    assert Inv(s);
    if s.job.Some? {
      if s.job.value.Live() { LiveShape(s); } else { TerminalShape(s); }
    }
  }

  /** Whatever changed the network was applied from review at some earlier moment of the run. */
  lemma {:induction false} WriterWasReviewed(events: seq<Event>, id: nat)
    requires CancelsInTime(INITIAL, events) && id in Run(INITIAL, events).written
    ensures exists m :: 0 <= m < |events| && AppliedAt(events, m, id)
  {
    InitialFits();
    RunKeepsIff(INITIAL, events);
    assert events[..|events|] == events;
    assert Inv(Run(INITIAL, events));
    ReviewedWasApplied(events, id);
  }

  /** The m-th event applies the job while it is in review. */
  ghost predicate AppliedAt(events: seq<Event>, m: nat, id: nat)
    requires m < |events|
  {
    var s := Run(INITIAL, events[..m]);
    events[m] == Apply && s.job.Some? && s.job.value.id == id && s.job.value.status == JobReview
  }

  lemma {:induction false} ReviewedWasApplied(events: seq<Event>, id: nat)
    requires id in Run(INITIAL, events).reviewed
    ensures exists m :: 0 <= m < |events| && AppliedAt(events, m, id)
    decreases |events|
  {
    if events != [] {
      var init, e := events[..|events| - 1], events[|events| - 1];
      assert events == init + [e];
      RunSnoc(INITIAL, init, e);
      var s := Run(INITIAL, init);
      hide Run, Next;
      if id in s.reviewed {
        ReviewedWasApplied(init, id);
        var m :| 0 <= m < |init| && AppliedAt(init, m, id);
        assert init[..m] == events[..m];
        assert AppliedAt(events, m, id);
      } else {
        AppliedFromReview(s, e, id);
        assert AppliedAt(events, |init|, id);
      }
    }
  }

  /** A live job is never replaced: only its own Start can take it back, when it could not be recorded. */
  lemma LiveJobIsKept(s: State, e: Event)
    requires Inv(s) && s.job.Some? && s.job.value.Live()
    ensures var s' := Next(s, e);
      (s'.job.Some? && s'.job.value.id == s.job.value.id) || (e == Recorded(false) && s.worker == Recording)
  {
  }

  /** The network changes only by a job that was under review and then applied, and a job is applied only from
      review. */
  lemma OnlyReviewedWrites(s: State, e: Event, id: nat)
    requires Inv(s) && id in Next(s, e).written && id !in s.written
    ensures s.job.Some? && s.job.value.id == id && id in s.reviewed && s.worker == Inside(APPLY)
  {
  }

  lemma AppliedFromReview(s: State, e: Event, id: nat)
    requires id in Next(s, e).reviewed && id !in s.reviewed
    ensures e == Apply && s.job.Some? && s.job.value.id == id && s.job.value.status == JobReview
  {
  }

  /** A cancelled job has not changed the network. */
  lemma CancelledDidNotWrite(s: State)
    requires Inv(s) && s.job.Some? && s.job.value.status == JobCancelled
    ensures s.job.value.id !in s.written && s.job.value.steps[APPLY] == Skipped
  {
  }

  // ------------------------------------------------------------------ a cancellation that comes too late

  /** Cancel checks, Apply comes in between, Cancel closes: the job counts as cancelled while its worker goes on and
      changes the network. */
  lemma LateCancelBreaks(s: State)
    requires Inv(s) && s.job.Some? && s.job.value.status == JobReview && s.worker == Nobody
    ensures var s1 := Next(Next(Next(Next(s, CancelCheck), Apply), Begin), CancelFinish);
      && s1.job.Some? && s1.job.value.status == JobCancelled && s1.job.value.steps[APPLY] == Running
      && !Inv(s1)
      && s.job.value.id in Next(s1, End).written
  {
  }

  /** What the import promises of a state: nothing has crashed; the steps of a live job and of a closed one have their
      shapes; a cancelled job has not changed the network; whatever changed it was under review. */
  ghost predicate Kept(s: State) {
    && !s.crashed
    && (s.job.Some? ==> if s.job.value.Live() then LiveSteps(s.job.value.steps, s.worker) else OverSteps(s.job.value))
    && (s.job.Some? && s.job.value.status == JobCancelled ==> s.job.value.id !in s.written)
    && s.written <= s.reviewed
  }

  lemma InvKept(s: State)
    requires Inv(s)
    ensures Kept(s)
  {
    if s.job.Some? {
      if s.job.value.Live() { LiveShape(s); } else { TerminalShape(s); }
    }
  }

  /** Whatever happens from here, without a cancellation that comes too late, keeps the promises. */
  ghost predicate Trustworthy(s: State) {
    forall more | CancelsInTime(s, more) :: Kept(Run(s, more))
  }

  lemma {:induction false} InvIsTrustworthy(s: State)
    requires Inv(s)
    ensures Trustworthy(s)
  {
    hide Inv, Kept, Next, CancelInTime;
    forall more | CancelsInTime(s, more) ensures Kept(Run(s, more)) {
      RunKeepsIff(s, more);
      HoldsAtTheEnd(s, more);
      InvKept(Run(s, more));
    }
  }

  lemma {:induction false} CountSome(steps: seq<StepStatus>, status: StepStatus, k: nat)
    requires k < |steps| && steps[k] == status
    ensures CountOf(steps, status) > 0
  {
    var n := |steps| - 1;
    if k < n { CountSome(steps[..n], status, k); }
  }

  /** A step left to do, under way or failed does not go with a cancelled job. */
  lemma NotOver(j: Job, k: nat)
    requires j.status == JobCancelled && k < |j.steps| && j.steps[k] in {Pending, Running, Failed}
    ensures !OverSteps(j)
  {
    CountSome(j.steps, j.steps[k], k);
  }

  /** A running step before one that is over is no step of a live job. */
  lemma OutOfOrder(steps: seq<StepStatus>, worker: Worker, k: nat)
    requires k + 1 < |steps| && steps[k] == Running && steps[k + 1] == Skipped
    ensures !LiveSteps(steps, worker)
  {
  }

  lemma RunOfThree(s: State, a: Event, b: Event, c: Event)
    ensures Run(s, []) == s && Run(s, [a]) == Next(s, a) && Run(s, [a, b]) == Next(Next(s, a), b)
    ensures Run(s, [a, b, c]) == Next(Next(Next(s, a), b), c)
  {
    hide Next;
    assert [] + [a] == [a] && [a] + [b] == [a, b] && [a, b] + [c] == [a, b, c];
    RunSnoc(s, [], a);
    RunSnoc(s, [a], b);
    RunSnoc(s, [a, b], c);
  }

  /** What may follow a cancellation that came too late, so that it shows. */
  function Telltale(s: State): seq<Event> {
    if s.job.None? then []
    else
      match s.worker
      case Recording => [Recorded(true), Begin]
      case Before(k) => if k == UNITS && !s.job.value.options.assignUnits then [Begin, Begin] else [Begin]
      case Reviewing => [Proceed, Apply, Begin]
      case _ => []
  }

  lemma TelltaleOfBegin(s: State)
    requires Inv(s) && s.cancels > 0 && s.job.Some? && s.worker.Before?
    ensures !Kept(Run(Next(s, CancelFinish), Telltale(s)))
  {
    var s1 := Next(s, CancelFinish);
    RunOfThree(s1, Begin, Begin, Begin);
    var k := s.worker.k;
    if k == UNITS && !s.job.value.options.assignUnits {
      NotOver(Next(Next(s1, Begin), Begin).job.value, CLEANUP);
    } else {
      NotOver(Next(s1, Begin).job.value, k);
    }
  }

  lemma TelltaleOfRecording(s: State)
    requires Inv(s) && s.cancels > 0 && s.job.Some? && s.worker.Recording?
    ensures !Kept(Run(Next(s, CancelFinish), Telltale(s)))
  {
    var s1 := Next(s, CancelFinish);
    RunOfThree(s1, Recorded(true), Begin, Begin);
    NotOver(Next(Next(s1, Recorded(true)), Begin).job.value, EXTRACT);
  }

  lemma TelltaleOfReview(s: State)
    requires Inv(s) && s.cancels > 0 && s.job.Some? && s.worker.Reviewing?
    ensures !Kept(Run(Next(s, CancelFinish), Telltale(s)))
  {
    var s1 := Next(s, CancelFinish);
    RunOfThree(s1, Proceed, Event.Apply, Begin);
    var s4 := Next(Next(Next(s1, Proceed), Event.Apply), Begin);
    OutOfOrder(s4.job.value.steps, s4.worker, APPLY);
  }

  /** With the worker inside a step, about to close the job, or gone, a late cancellation shows at once. */
  lemma TelltaleAtOnce(s: State)
    requires Inv(s) && s.job.Some? && !CancelInTime(s, CancelFinish)
    requires !s.worker.Recording? && !s.worker.Before? && !s.worker.Reviewing?
    ensures !Kept(Next(s, CancelFinish))
  {
    var j, j1 := s.job.value, Next(s, CancelFinish).job.value;
    if s.worker.Inside? || s.worker.Failing? {
      NotOver(j1, s.worker.k);
    } else if s.worker == Nobody && j.status == JobFailed {
      var k :| 0 <= k < STEPS && Settled(j.steps, k) && j.steps[k] == Failed && AllFrom(j.steps, k + 1, Skipped);
      NotOver(j1, k);
    }
  }

  /** A cancellation that comes too late shows at once, or after at most three more events none of which is a call of
      Cancel. */
  lemma LateCancelShows(s: State)
    requires Inv(s) && !CancelInTime(s, CancelFinish)
    ensures |Telltale(s)| <= 3 && CancelCheck !in Telltale(s) && CancelFinish !in Telltale(s)
    ensures !Kept(Run(Next(s, CancelFinish), Telltale(s)))
  {
    hide Inv, LiveSteps, OverSteps;
    if s.job.Some? {
      match s.worker
      case Before(k) => TelltaleOfBegin(s);
      case Recording => TelltaleOfRecording(s);
      case Reviewing => TelltaleOfReview(s);
      case _ => TelltaleAtOnce(s);
    }
  }

  /** One event leaves a state one can rely on, exactly when it is not a cancellation that comes too late. */
  lemma {:induction false} TrustworthyIff(s: State, e: Event)
    requires Inv(s)
    ensures Trustworthy(Next(s, e)) <==> CancelInTime(s, e)
  {
    hide Inv, Kept, Next, Run;
    if CancelInTime(s, e) {
      NextKeepsIff(s, e);
      InvIsTrustworthy(Next(s, e));
    } else {
      LateCancelShows(s);
      var more := Telltale(s);
      assert CancelsInTime(Next(s, e), more) && !Kept(Run(Next(s, e), more));
    }
  }

  ghost predicate TrustworthyThroughout(s: State, events: seq<Event>) {
    forall n :: 0 <= n <= |events| ==> Trustworthy(Run(s, events[..n]))
  }

  lemma TrustworthySnoc(s: State, events: seq<Event>, e: Event)
    ensures TrustworthyThroughout(s, events + [e])
       <==> TrustworthyThroughout(s, events) && Trustworthy(Run(s, events + [e]))
  {
    hide Trustworthy, Run;
    var all := events + [e];
    assert all[..|all|] == all;
    assert forall n :: 0 <= n <= |events| ==> all[..n] == events[..n];
  }

  /** What the import promises holds at every moment of a run, and of every way in which the run could have gone on from
      any of its moments without a further late cancellation, exactly when no cancellation of the run came too late. */
  lemma {:induction false} PromisesKeptIff(events: seq<Event>)
    ensures TrustworthyThroughout(INITIAL, events) <==> CancelsInTime(INITIAL, events)
  {
    hide Inv, Next, CancelInTime, Trustworthy, CancelsInTime, HoldsThroughout;
    InitialFits();
    NothingHappens(INITIAL);
    if events == [] {
      InvIsTrustworthy(INITIAL);
      assert events[..0] == [];
    } else {
      var init, e := events[..|events| - 1], events[|events| - 1];
      assert events == init + [e];
      PromisesKeptIff(init);
      RunKeepsIff(INITIAL, init);
      TrustworthySnoc(INITIAL, init, e);
      InTimeSnoc(INITIAL, init, e);
      RunSnoc(INITIAL, init, e);
      if CancelsInTime(INITIAL, init) {
        HoldsAtTheEnd(INITIAL, init);
        TrustworthyIff(Run(INITIAL, init), e);
      }
    }
  }

  /** A late cancellation need not show by itself: when it closes an applied job whose worker has not begun, every
      state so far keeps the promises, and only what follows breaks them. */
  lemma LateCancelMayHide(s: State)
    requires Inv(s) && s.job.Some? && s.job.value.status == JobReview && s.worker == Nobody
    ensures var s1 := Next(s, CancelCheck);
            var s2 := Next(s1, Event.Apply);
            var s3 := Next(s2, CancelFinish);
      && !CancelInTime(s2, CancelFinish)
      && Kept(s) && Kept(s1) && Kept(s2) && Kept(s3) && !Kept(Next(s3, Begin))
  {
    hide Settled, AllFrom, LiveSteps, OverSteps, CountOf;
    var s1 := Next(s, CancelCheck);
    var s2 := Next(s1, Event.Apply);
    HidingIsInv(s);
    InvKept(s);
    InvKept(s1);
    InvKept(s2);
    HiddenIsOver(s2);
  }

  lemma HidingIsInv(s: State)
    requires Inv(s) && s.job.Some? && s.job.value.status == JobReview && s.worker == Nobody
    ensures Inv(Next(s, CancelCheck)) && Inv(Next(Next(s, CancelCheck), Event.Apply))
  {
    hide Inv;
    CallKeeps(s, CancelCheck);
    CallKeeps(Next(s, CancelCheck), Event.Apply);
  }

  lemma HiddenIsOver(s: State)
    requires Inv(s) && s.job.Some? && s.worker == Before(APPLY) && s.cancels > 0 && s.job.value.id !in s.written
    ensures var s' := Next(s, CancelFinish); Kept(s') && !Kept(Next(s', Begin))
  {
    var s' := Next(s, CancelFinish);
    var steps := s'.job.value.steps;
    CountNone(steps, Pending);
    CountNone(steps, Running);
    CountNone(steps, Failed);
    NotOver(Next(s', Begin).job.value, APPLY);
  }

  // ------------------------------------------------------------------ the manager as its callers use it

  /** How the steps of one part of an import turn out: whether each succeeds, and whether a failing apply step had
      already changed the network. */
  datatype Outcome = Outcome(ok: nat -> bool, wrote: bool)

  /** The step is not asked for: units are assigned and staging data removed only if the options say so. */
  predicate NotAsked(options: Options, k: nat) {
    (k == 5 && !options.assignUnits) || (k == 6 && options.keepStaging)
  }

  /** The step ends well, or is not asked for. */
  predicate Goes(options: Options, outcome: Outcome, k: nat) {
    outcome.ok(k) || NotAsked(options, k)
  }

  predicate FirstFailure(options: Options, outcome: Outcome, from: nat, k: nat) {
    !Goes(options, outcome, k) && forall i: nat :: from <= i < k ==> Goes(options, outcome, i)
  }

  lemma GoesIfOk(options: Options, outcome: Outcome, k: nat)
    requires k != UNITS && k != CLEANUP
    ensures Goes(options, outcome, k) <==> outcome.ok(k)
  {
  }

  lemma OnlyFirstFailure(options: Options, outcome: Outcome, from: nat, k: nat)
    requires from <= k && FirstFailure(options, outcome, from, k)
    ensures forall i :: from <= i && FirstFailure(options, outcome, from, i) ==> i == k
  {
  }

  /** The steps from `lo` to `hi` ended well, or were skipped because they are not asked for. */
  ghost predicate WentWell(steps: seq<StepStatus>, options: Options, outcome: Outcome, lo: nat, hi: nat) {
    hi <= |steps| && forall i: nat :: lo <= i < hi ==>
      Goes(options, outcome, i) && steps[i] == if NotAsked(options, i) then Skipped else Done
  }

  /** The first step from `lo` on that did not end well failed, and those after it were skipped. */
  ghost predicate BrokeOff(steps: seq<StepStatus>, options: Options, outcome: Outcome, lo: nat) {
    exists k: nat :: lo <= k < |steps| && WentWell(steps, options, outcome, lo, k)
      && !Goes(options, outcome, k) && steps[k] == Failed
      && forall i: nat :: k < i < |steps| ==> steps[i] == Skipped
  }

  /** A step that is not asked for has no result of its own, and in a job that is live or done no other is skipped. */
  ghost predicate AsAsked(s: State) {
    s.job.Some? ==>
      var j := s.job.value;
      && (s.worker == Inside(5) ==> j.options.assignUnits)
      && forall k: nat :: k < |j.steps| ==>
        && (j.steps[k] == Done ==> !NotAsked(j.options, k))
        && (j.steps[k] == Skipped && (j.Live() || j.status == JobDone) ==> NotAsked(j.options, k))
  }

  lemma AskedNext(s: State, e: Event)
    requires Inv(s) && AsAsked(s)
    ensures Inv(Next(s, e)) ==> AsAsked(Next(s, e))
  {
    match e
    case Begin => assert AsAsked(Next(s, e));
    case End => assert AsAsked(Next(s, e));
    case Proceed => assert AsAsked(Next(s, e));
    case _ => assert AsAsked(Next(s, e));
  }

  /** In every run in which cancellations come in time, a job does what its options ask for: once it is done, units have
      been assigned exactly if asked for, and the staging data is gone exactly if it was not to be kept. */
  lemma {:induction false} DoesAsAsked(events: seq<Event>)
    requires CancelsInTime(INITIAL, events)
    ensures AsAsked(Run(INITIAL, events))
    ensures var s := Run(INITIAL, events);
      s.job.Some? && s.job.value.status == JobDone ==>
        && |s.job.value.steps| == 8
        && forall k: nat :: k < 8 ==>
             s.job.value.steps[k] == if NotAsked(s.job.value.options, k) then Skipped else Done
  {
    hide Inv, Next, Run, NotAsked, CancelsInTime, HoldsThroughout;
    FitsAfter(events);
    if events == [] {
      NothingAsked();
    } else {
      var init, e := events[..|events| - 1], events[|events| - 1];
      assert events == init + [e];
      InTimeSnoc(INITIAL, init, e);
      FitsAfter(init);
      DoesAsAsked(init);
      RunSnoc(INITIAL, init, e);
      AskedNext(Run(INITIAL, init), e);
    }
    var s := Run(INITIAL, events);
    if s.job.Some? && s.job.value.status == JobDone { DoneAsAsked(s); }
  }

  lemma NothingAsked()
    ensures AsAsked(Run(INITIAL, []))
  {
  }

  lemma {:induction false} FitsAfter(events: seq<Event>)
    requires CancelsInTime(INITIAL, events)
    ensures Inv(Run(INITIAL, events))
  {
    hide Inv, Next, Run, CancelsInTime, HoldsThroughout;
    InitialFits();
    RunKeepsIff(INITIAL, events);
    HoldsAtTheEnd(INITIAL, events);
  }

  lemma DoneAsAsked(s: State)
    requires Inv(s) && AsAsked(s) && s.job.Some? && s.job.value.status == JobDone
    ensures |s.job.value.steps| == 8
    ensures forall k: nat :: k < 8 ==>
      s.job.value.steps[k] == if NotAsked(s.job.value.options, k) then Skipped else Done
  {
    var steps := s.job.value.steps;
    assert Settled(steps, 8);
    forall k: nat | k < 8 ensures steps[k] == if NotAsked(s.job.value.options, k) then Skipped else Done {
      assert steps[k] == Done || steps[k] == Skipped;
    }
  }

  lemma NotBegun(s: State)
    requires Inv(s) && s.job.Some? && s.worker.Before?
    ensures AllFrom(s.job.value.steps, s.worker.k, Pending) && |s.job.value.steps| == STEPS
    ensures Settled(s.job.value.steps, s.worker.k)
  {
  }

  /** One step more, and the step at which it ends. */
  lemma GoesOn(before: seq<StepStatus>, after: seq<StepStatus>, options: Options, outcome: Outcome, lo: nat, k: nat)
    requires lo <= k < |before| && WentWell(before, options, outcome, lo, k) && AllFrom(before, k, Pending)
    requires Goes(options, outcome, k)
    requires after == before[k := if NotAsked(options, k) then Skipped else Done]
    ensures WentWell(after, options, outcome, lo, k + 1) && AllFrom(after, k + 1, Pending)
    ensures k >= 4 ==> after[..4] == before[..4]
  {
    hide Goes, NotAsked;
  }

  lemma BreaksOff(before: seq<StepStatus>, after: seq<StepStatus>, options: Options, outcome: Outcome, lo: nat, k: nat)
    requires lo <= k < |before| && WentWell(before, options, outcome, lo, k)
    requires !Goes(options, outcome, k) && BrokenAt(before, after, k)
    ensures BrokeOff(after, options, outcome, lo)
    ensures k >= 4 ==> 4 <= |after| && after[..4] == before[..4]
  {
    hide Goes, NotAsked;
    if k >= 4 { assert after[..k][..4] == after[..4] && before[..k][..4] == before[..4]; }
    assert WentWell(after, options, outcome, lo, k) by {
      forall i: nat | lo <= i < k ensures after[i] == before[i] { assert after[..k][i] == before[..k][i]; }
    }
  }

  lemma FailedIsBroken(j: Job, k: nat)
    requires k < |j.steps| && AllFrom(j.steps, k, Pending) && Settled(j.steps, k)
    ensures BrokenAt(j.steps, Finished(SetStep(j, k, Failed), JobFailed).steps, k)
    ensures j.steps[k] == Pending && Finished(SetStep(j, k, Failed), JobFailed).steps[k] == Failed
  {
  }

  lemma NothingYet(steps: seq<StepStatus>, options: Options, outcome: Outcome, lo: nat)
    requires lo <= |steps|
    ensures WentWell(steps, options, outcome, lo, lo)
  {
  }

  lemma NoneLeft(first: seq<StepStatus>, steps: seq<StepStatus>, options: Options, outcome: Outcome)
    requires |steps| == 8 && WentWell(steps, options, outcome, 4, 8)
    requires Settled(first, 4) && first[..4] == steps[..4]
    ensures forall k :: 0 <= k < 8 ==> steps[k] != Pending
  {
    forall k | 0 <= k < 4 ensures steps[k] != Pending { assert first[..4][k] == steps[..4][k]; }
  }

  lemma AllWentWell(steps: seq<StepStatus>, options: Options, outcome: Outcome)
    requires |steps| == 8 && WentWell(steps, options, outcome, 0, 4) && AllFrom(steps, 4, Pending)
    ensures steps == [Done, Done, Done, Done, Pending, Pending, Pending, Pending]
  {
  }

  /** The k-th step failed: those before it are as they were, those after it skipped. */
  ghost predicate BrokenAt(before: seq<StepStatus>, after: seq<StepStatus>, k: nat) {
    && k < |before| == |after| && after[..k] == before[..k] && after[k] == Failed
    && forall i :: k < i < |after| ==> after[i] == Skipped
  }

  /** One import at a time. Each method is one critical section, or a whole part of the worker's program; calls that
      arrive while the worker runs are refused and change nothing. */
  class Manager {
    var job: Option<Job>
    var nextId: nat
    ghost var worker: Worker
    ghost var cancels: nat
    ghost var reviewed: set<nat>
    ghost var written: set<nat>

    ghost function Snapshot(): State
      reads this
    {
      State(job, worker, cancels, nextId, reviewed, written, false)
    }

    ghost predicate Valid()
      reads this
    {
      Inv(Snapshot())
    }

    constructor ()
      ensures Valid() && Snapshot() == INITIAL
    {
      job, nextId, worker, cancels, reviewed, written := None, 1, Nobody, 0, {}, {};
    }

    method Start(options: Options, recorded: bool) returns (accepted: bool)
      requires Valid()
      modifies this
      ensures Valid()
      ensures accepted == (!(old(job).Some? && old(job).value.Live()) && recorded)
      ensures old(job).Some? && old(job).value.Live() ==> Snapshot() == old(Snapshot())
      ensures !(old(job).Some? && old(job).value.Live()) ==>
        Snapshot() == Next(Next(old(Snapshot()), Event.Start(options)), Recorded(recorded))
      ensures accepted ==>
        job == Some(Job(old(nextId), JobRunning, options,
                        [Pending, Pending, Pending, Pending, Pending, Pending, Pending, Pending]))
      ensures !(old(job).Some? && old(job).value.Live()) ==> nextId == old(nextId) + 1
      ensures !(old(job).Some? && old(job).value.Live()) && !recorded ==> job == None
    {
      if job.Some? && job.value.Live() { return false; }
      NextKeepsIff(Snapshot(), Event.Start(options));
      job := Some(NewJob(nextId, options));
      nextId := nextId + 1;
      worker := Recording;
      NextKeepsIff(Snapshot(), Recorded(recorded));
      if !recorded {
        job, worker := None, Nobody;
        return false;
      }
      worker := Before(EXTRACT);
      assert job.value.steps == [Pending, Pending, Pending, Pending, Pending, Pending, Pending, Pending];
      return true;
    }

    method SetStatus(k: nat, status: StepStatus)
      requires job.Some? && k < |job.value.steps|
      modifies this`job
      ensures job == Some(SetStep(old(job).value, k, status))
    {
      job := Some(SetStep(job.value, k, status));
    }

    /** Closes the job: walks over the steps and skips those not begun. */
    method Finish(status: JobStatus)
      requires job.Some?
      modifies this`job
      ensures job == Some(Finished(old(job).value, status))
    {
      ghost var before := job.value;
      var j := job.value;
      var steps := j.steps;
      for k := 0 to |steps|
        invariant |steps| == |before.steps|
        invariant forall i :: 0 <= i < k ==> steps[i] == if before.steps[i] == Pending then Skipped else before.steps[i]
        invariant forall i :: k <= i < |steps| ==> steps[i] == before.steps[i]
      {
        if steps[k] == Pending { steps := steps[k := Skipped]; }
      }
      assert steps == Finished(before, status).steps;
      job := Some(j.(steps := steps, status := status));
    }

    method BeginStep(k: nat)
      requires Valid() && worker == Before(k) && job.Some? && k < |job.value.steps|
      modifies this
      ensures Valid() && Snapshot() == Next(old(Snapshot()), Begin)
      ensures var skips := k == UNITS && !old(job).value.options.assignUnits;
        && job == Some(SetStep(old(job).value, k, if skips then Skipped else Running))
        && worker == (if skips then Before(CLEANUP) else Inside(k)) && written == old(written)
    {
      NextKeepsIff(Snapshot(), Begin);
      if k == UNITS && !job.value.options.assignUnits {
        SetStatus(UNITS, Skipped);
        worker := Before(CLEANUP);
      } else {
        SetStatus(k, Running);
        worker := Inside(k);
      }
    }

    method EndStep(k: nat)
      requires Valid() && worker == Inside(k) && job.Some? && k < |job.value.steps|
      modifies this
      ensures Valid() && Snapshot() == Next(old(Snapshot()), End)
      ensures var kept := k == CLEANUP && old(job).value.options.keepStaging;
        && job == Some(SetStep(old(job).value, k, if kept then Skipped else Done))
        && worker == AfterStep(k) && written == old(written) + (if k == APPLY then {job.value.id} else {})
    {
      NextKeepsIff(Snapshot(), End);
      SetStatus(k, if k == CLEANUP && job.value.options.keepStaging then Skipped else Done);
      worker, written := AfterStep(k), if k == APPLY then written + {job.value.id} else written;
    }

    /** Marks the step failed, then closes the job: two critical sections. */
    method FailStep(k: nat, wrote: bool)
      requires Valid() && worker == Inside(k) && job.Some? && k < |job.value.steps|
      modifies this
      ensures Valid() && Snapshot() == Next(Next(old(Snapshot()), Event.Fail(wrote)), Proceed)
      ensures job == Some(Finished(SetStep(old(job).value, k, Failed), JobFailed)) && worker == Nobody
      ensures written == old(written) + (if k == APPLY && wrote then {job.value.id} else {})
    {
      NextKeepsIff(Snapshot(), Event.Fail(wrote));
      SetStatus(k, Failed);
      worker, written := Failing(k), if k == APPLY && wrote then written + {job.value.id} else written;
      NextKeepsIff(Snapshot(), Proceed);
      Finish(JobFailed);
      worker := Nobody;
    }

    /** One step of the worker: it ends, is skipped, or fails and closes the job. */
    method DoStep(k: nat, outcome: Outcome) returns (ok: bool)
      requires Valid() && worker == Before(k) && k < STEPS && job.Some? && k < |job.value.steps|
      modifies this
      ensures Valid() && job.Some? && |job.value.steps| == STEPS
      ensures old(job).value.id == job.value.id && old(job).value.options == job.value.options
      ensures ok ==> worker == AfterStep(k)
      ensures !ok ==> worker == Nobody && job.value.status == JobFailed && job.value.steps[k] == Failed
      ensures ok == Goes(old(job).value.options, outcome, k)
      ensures |old(job).value.steps| == STEPS && AllFrom(old(job).value.steps, k, Pending)
      ensures var result := if NotAsked(job.value.options, k) then Skipped else Done;
        ok ==> job.value.steps == old(job).value.steps[k := result]
      ensures !ok ==> BrokenAt(old(job).value.steps, job.value.steps, k)
      ensures written == old(written) + (if k == APPLY && (ok || outcome.wrote) then {job.value.id} else {})
    {
      hide Inv, Next, Finished, BrokenAt, AllFrom, Settled;
      NotBegun(Snapshot());
      FailedIsBroken(job.value, k);
      BeginStep(k);
      if job.value.steps[k] == Skipped { return true; }
      if outcome.ok(k) || (k == CLEANUP && job.value.options.keepStaging) {
        EndStep(k);
        return true;
      }
      ghost var j := old(job).value;
      assert SetStep(SetStep(j, k, Running), k, Failed) == SetStep(j, k, Failed) by {
        assert j.steps[k := Running][k := Failed] == j.steps[k := Failed];
      }
      FailStep(k, outcome.wrote);
      return false;
    }

    /** The worker from the upload to the review. */
    method Run(outcome: Outcome)
      requires Valid() && worker == Before(EXTRACT) && job.Some? && |job.value.steps| == STEPS
      modifies this
      ensures Valid() && worker == Nobody && job.Some?
      ensures job.value.status == if forall k :: 0 <= k < APPLY ==> outcome.ok(k) then JobReview else JobFailed
      ensures forall k :: EXTRACT <= k < APPLY && FirstFailure(old(job).value.options, outcome, EXTRACT, k) ==>
        job.value.steps[k] == Failed
      ensures job.value.id == old(job).value.id && written == old(written)
      ensures job.value.options == old(job).value.options && |job.value.steps| == 8
      ensures job.value.status == JobReview ==>
        job.value.steps == [Done, Done, Done, Done, Pending, Pending, Pending, Pending]
      ensures job.value.status == JobFailed ==> BrokeOff(job.value.steps, job.value.options, outcome, 0)
    {
      hide Inv, BrokeOff, WentWell, AllFrom, BrokenAt;
      NothingYet(job.value.steps, job.value.options, outcome, EXTRACT);
      ghost var options := job.value.options;
      NotBegun(Snapshot());
      var k := EXTRACT;
      while k < APPLY
        invariant 0 <= k <= APPLY && Valid() && job.Some? && |job.value.steps| == STEPS
        invariant worker == if k < APPLY then Before(k) else Reviewing
        invariant forall i :: 0 <= i < k ==> outcome.ok(i)
        invariant WentWell(job.value.steps, options, outcome, 0, k) && AllFrom(job.value.steps, k, Pending)
        invariant job.value.id == old(job).value.id && job.value.options == old(job).value.options
        invariant written == old(written)
      {
        ghost var steps := job.value.steps;
        var ok := DoStep(k, outcome);
        if !ok {
          OnlyFirstFailure(options, outcome, EXTRACT, k);
          BreaksOff(steps, job.value.steps, options, outcome, EXTRACT, k);
          return;
        }
        GoesOn(steps, job.value.steps, options, outcome, EXTRACT, k);
        k := k + 1;
      }
      AllWentWell(job.value.steps, options, outcome);
      NextKeepsIff(Snapshot(), Proceed);
      job := Some(job.value.(status := JobReview));
      worker := Nobody;
    }

    method Apply() returns (accepted: bool)
      requires Valid()
      modifies this
      ensures Valid() && Snapshot() == Next(old(Snapshot()), Event.Apply)
      ensures accepted == (old(job).Some? && old(job).value.status == JobReview)
      ensures accepted ==> job == Some(old(job).value.(status := JobRunning)) && worker == Before(4)
      ensures !accepted ==> Snapshot() == old(Snapshot())
    {
      if job.None? || job.value.status != JobReview { return false; }
      NextKeepsIff(Snapshot(), Event.Apply);
      job := Some(job.value.(status := JobRunning));
      worker, reviewed := Before(APPLY), reviewed + {job.value.id};
      return true;
    }

    /** The worker from the decision to the reloaded network. */
    method ApplyRun(outcome: Outcome)
      requires Valid() && worker == Before(APPLY) && job.Some? && |job.value.steps| == STEPS
      modifies this
      ensures Valid() && worker == Nobody && job.Some?
      ensures job.value.status ==
        if forall k :: APPLY <= k < STEPS ==> Goes(old(job).value.options, outcome, k) then JobDone else JobFailed
      ensures forall k :: APPLY <= k < STEPS && FirstFailure(old(job).value.options, outcome, APPLY, k) ==>
        job.value.steps[k] == Failed
      ensures job.value.id == old(job).value.id
      ensures written == old(written) + (if outcome.ok(APPLY) || outcome.wrote then {job.value.id} else {})
      ensures job.value.options == old(job).value.options && |job.value.steps| == 8
      ensures job.value.steps[..4] == old(job).value.steps[..4]
      ensures job.value.status == JobDone ==> WentWell(job.value.steps, job.value.options, outcome, 4, 8)
      ensures job.value.status == JobFailed ==> BrokeOff(job.value.steps, job.value.options, outcome, 4)
    {
      hide Inv, Goes, BrokeOff, WentWell, AllFrom, BrokenAt, NotAsked, Settled;
      NothingYet(job.value.steps, job.value.options, outcome, APPLY);
      NotBegun(Snapshot());
      GoesIfOk(job.value.options, outcome, APPLY);
      ghost var options, id, before := job.value.options, job.value.id, written;
      var k := APPLY;
      while k < STEPS
        invariant APPLY <= k <= STEPS && Valid() && job.Some? && |job.value.steps| == STEPS
        invariant worker == if k < STEPS then Before(k) else Finishing
        invariant forall i :: APPLY <= i < k ==> Goes(options, outcome, i)
        invariant WentWell(job.value.steps, options, outcome, APPLY, k) && AllFrom(job.value.steps, k, Pending)
        invariant job.value.steps[..4] == old(job).value.steps[..4]
        invariant job.value.id == id && job.value.options == options
        invariant written == before + (if k > APPLY then {id} else {})
      {
        ghost var steps := job.value.steps;
        var ok := DoStep(k, outcome);
        if !ok {
          OnlyFirstFailure(options, outcome, APPLY, k);
          BreaksOff(steps, job.value.steps, options, outcome, APPLY, k);
          return;
        }
        GoesOn(steps, job.value.steps, options, outcome, APPLY, k);
        k := k + 1;
      }
      NextKeepsIff(Snapshot(), Proceed);
      ghost var steps := job.value.steps;
      NoneLeft(old(job).value.steps, steps, options, outcome);
      Finish(JobDone);
      assert job.value.steps == steps;
      worker := Nobody;
    }

    /** The first critical section of Cancel. */
    method CheckCancel() returns (accepted: bool)
      requires Valid()
      modifies this`cancels
      ensures Valid() && Snapshot() == Next(old(Snapshot()), CancelCheck)
      ensures accepted == (job.Some? && job.value.status == JobReview)
    {
      if job.None? || job.value.status != JobReview { return false; }
      NextKeepsIff(Snapshot(), CancelCheck);
      cancels := cancels + 1;
      return true;
    }

    /** The second critical section of Cancel, whatever came between. It leaves the job sound if and only if it is in
        time. */
    method CloseCancelled()
      requires Valid() && cancels > 0 && job.Some?
      modifies this
      ensures Snapshot() == Next(old(Snapshot()), CancelFinish)
      ensures Valid() <==> CancelInTime(old(Snapshot()), CancelFinish)
    {
      NextKeepsIff(Snapshot(), CancelFinish);
      Finish(JobCancelled);
      cancels := cancels - 1;
    }

    /** Cancels the review when nothing comes between its two critical sections. */
    method Cancel() returns (accepted: bool)
      requires Valid()
      modifies this
      ensures Valid()
      ensures accepted == (old(job).Some? && old(job).value.status == JobReview)
      ensures Snapshot() == if accepted then Next(Next(old(Snapshot()), CancelCheck), CancelFinish) else old(Snapshot())
      ensures accepted ==> job.Some? && job.value.id == old(job).value.id && job.value.status == JobCancelled
      ensures accepted ==> |job.value.steps| == 8 && job.value.steps[..4] == old(job).value.steps[..4]
      ensures accepted ==> job.value.steps[4..] == [Skipped, Skipped, Skipped, Skipped]
    {
      accepted := CheckCancel();
      if accepted { CloseCancelled(); }
    }
  }
}

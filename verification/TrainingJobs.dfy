// Training jobs: the control transactions that save, enqueue, cancel and complete a job, and
// workers that act on copies of a job read earlier, interleaved in any way.
module TrainingJobs {
  import opened Basics

  datatype State = Queued | Running | Succeeded | Failed | Cancelled

  datatype Job = Job(
    specification: string, architecture: string, version: string,
    state: State, requested: bool, checkpoints: seq<string>, failure: Option<string>)

  datatype Completion = Completion(job: string, status: State)

  // The job table, the model version keys, and the training.completed events enqueued.
  datatype Control = Control(jobs: map<string, Job>, versions: set<string>, completions: seq<Completion>)

  datatype Error = TrainerMismatch | IdConflict | JobNotFound | TrainingCancelled | VersionExists

  // ---- The control transactions ----

  predicate Ended(s: State) { s == Failed || s == Cancelled }

  function Stored(c: Control, id: string, job: Job): Control {
    c.(jobs := c.jobs[id := job],
       completions := if Ended(job.state) then c.completions + [Completion(id, job.state)] else c.completions)
  }

  // _save_job_outcome: a cancelled job is left alone, a requested cancellation sticks, and
  // an ending is recorded once.
  function Saved(c: Control, id: string, job: Job): Control {
    if id !in c.jobs then Stored(c, id, job)
    else
      var was := c.jobs[id];
      if was.state == Cancelled then c
      else if was.state == job.state && Ended(was.state) then c
      else Stored(c, id, job.(requested := was.requested || job.requested))
  }

  function Requeued(was: Job): Job {
    was.(state := Queued, failure := None)
  }

  function Enqueued(c: Control, id: string, proposed: Job): Result<Control, Error> {
    if id !in c.jobs then Success(c.(jobs := c.jobs[id := proposed]))
    else
      var was := c.jobs[id];
      if was.architecture != proposed.architecture then Failure(TrainerMismatch)
      else if was.specification != proposed.specification then Failure(IdConflict)
      else if was.state != Failed then Success(c)
      else Success(c.(jobs := c.jobs[id := Requeued(was)]))
  }

  function CancelledCopy(was: Job): Job {
    was.(requested := true, state := if was.state == Queued then Cancelled else was.state)
  }

  function CancelRequested(c: Control, id: string): Result<Control, Error> {
    if id !in c.jobs then Failure(JobNotFound)
    else
      var was := c.jobs[id];
      if was.state == Succeeded || Ended(was.state) then Success(c) else Success(Saved(c, id, CancelledCopy(was)))
  }

  // complete: the model row, the job row and the event in one transaction, unless a
  // cancellation was requested or the version exists.
  function Completed(c: Control, id: string, job: Job): Result<Control, Error> {
    if id in c.jobs && c.jobs[id].requested then Failure(TrainingCancelled)
    else if job.version in c.versions then Failure(VersionExists)
    else Success(Control(c.jobs[id := job.(state := Succeeded)], c.versions + {job.version},
                         c.completions + [Completion(id, Succeeded)]))
  }

  class JobStore {
    var jobs: map<string, Job>
    var versions: set<string>
    var completions: seq<Completion>

    function Contents(): Control
      reads this
    {
      Control(jobs, versions, completions)
    }

    method SaveJob(id: string, copy: Job)
      modifies this
      ensures Contents() == Saved(old(Contents()), id, copy)
      ensures var kept := id in old(jobs) && (old(jobs)[id].state == Cancelled
                                              || (old(jobs)[id].state == copy.state && copy.state == Failed));
              var asked := (id in old(jobs) && old(jobs)[id].requested) || copy.requested;
              && versions == old(versions)
              && jobs == (if kept then old(jobs) else old(jobs)[id := copy.(requested := asked)])
              && completions == old(completions) + if !kept && copy.state in {Failed, Cancelled}
                                                   then [Completion(id, copy.state)] else []
    {
      var job := copy;
      if id in jobs {
        var was := jobs[id];
        if was.state == Cancelled { return; }
        job := job.(requested := was.requested || job.requested);
        if was.state == job.state && Ended(was.state) { return; }
      }
      jobs := jobs[id := job];
      if Ended(job.state) { completions := completions + [Completion(id, job.state)]; }
    }

    method Enqueue(id: string, proposed: Job) returns (r: Result<Job, Error>)
      modifies this
      ensures match Enqueued(old(Contents()), id, proposed)
              case Failure(e) => r == Failure(e) && Contents() == old(Contents())
              case Success(next) => Contents() == next && id in jobs && r == Success(jobs[id])
      ensures r == Failure(TrainerMismatch) <==> id in old(jobs) && old(jobs)[id].architecture != proposed.architecture
      ensures r == Failure(IdConflict) <==>
                id in old(jobs) && old(jobs)[id].architecture == proposed.architecture
                && old(jobs)[id].specification != proposed.specification
      ensures versions == old(versions) && completions == old(completions)
      ensures r.Success? ==>
                jobs == if id !in old(jobs) then old(jobs)[id := proposed]
                        else if old(jobs)[id].state == Failed
                        then old(jobs)[id := old(jobs)[id].(state := Queued, failure := None)]
                        else old(jobs)
    {
      var job := proposed;
      if id in jobs {
        var was := jobs[id];
        if was.architecture != proposed.architecture { return Failure(TrainerMismatch); }
        if was.specification != proposed.specification { return Failure(IdConflict); }
        if was.state != Failed { return Success(was); }
        job := was.(state := Queued, failure := None);
      }
      jobs := jobs[id := job];
      return Success(job);
    }

    // The returned copy is the stored one, except that a cancellation of an already ended
    // job returns it unchanged.
    method CancelJob(id: string) returns (r: Result<Job, Error>)
      modifies this
      ensures match CancelRequested(old(Contents()), id)
              case Failure(e) => r == Failure(e) && Contents() == old(Contents())
              case Success(next) => Contents() == next && id in jobs && r == Success(jobs[id])
      ensures r == Failure(JobNotFound) <==> id !in old(jobs)
      ensures versions == old(versions)
      ensures id in old(jobs) ==>
                && jobs == (match old(jobs)[id].state
                            case Queued => old(jobs)[id := old(jobs)[id].(state := Cancelled, requested := true)]
                            case Running => old(jobs)[id := old(jobs)[id].(requested := true)]
                            case _ => old(jobs))
                && completions == old(completions) + if old(jobs)[id].state == Queued
                                                     then [Completion(id, Cancelled)] else []
    {
      if id !in jobs { return Failure(JobNotFound); }
      var job := jobs[id];
      if job.state == Succeeded || Ended(job.state) { return Success(job); }
      job := job.(requested := true);
      if job.state == Queued { job := job.(state := Cancelled); }
      SaveJob(id, job);
      return Success(job);
    }

    method Complete(id: string, job: Job) returns (error: Option<Error>)
      modifies this
      ensures match Completed(old(Contents()), id, job)
              case Failure(e) => error == Some(e) && Contents() == old(Contents())
              case Success(next) => error == None && Contents() == next
      ensures error == Some(TrainingCancelled) <==> id in old(jobs) && old(jobs)[id].requested
      ensures error == Some(VersionExists) <==>
                !(id in old(jobs) && old(jobs)[id].requested) && job.version in old(versions)
      ensures error.None? ==>
                && jobs == old(jobs)[id := job.(state := Succeeded)] && versions == old(versions) + {job.version}
                && completions == old(completions) + [Completion(id, Succeeded)]
    {
      if id in jobs && jobs[id].requested { return Some(TrainingCancelled); }
      if job.version in versions { return Some(VersionExists); }
      versions := versions + {job.version};
      jobs := jobs[id := job.(state := Succeeded)];
      completions := completions + [Completion(id, Succeeded)];
      return None;
    }
  }

  // ---- Workers ----

  // A worker between its transactions: it holds a copy it made or read, is training, is about
  // to record how its run ended, or is about to record, in work_once's handler, a failure
  // that came before its run.
  datatype Worker =
    | Made(id: string, job: Job)
    | Loaded(id: string, job: Job)
    | Training(id: string, job: Job)
    | Ending(id: string, job: Job)
    | Handling(id: string, job: Job)

  datatype World = World(control: Control, workers: map<int, Worker>)

  datatype Step =
    | Submit(id: string, proposed: Job)
    | Cancel(id: string)
    | Load(w: int, id: string, proposed: Job)
    | SaveMade(w: int)
    | Begin(w: int)
    | Checkpoint(w: int, reference: string)
    | Check(w: int, stopping: bool)
    | Break(w: int, code: string)
    | Finish(w: int)
    | SaveEnding(w: int)
    | Handle(w: int, id: string)
    | Vanish(w: int)

  predicate NewJob(job: Job) {
    job.state == Queued && !job.requested
  }

  // Eligibility and training can fail from the moment the job is loaded; a worker whose run
  // failed before it loaded anything goes straight to the handler.
  predicate Enabled(s: World, step: Step) {
    match step
    case Submit(_, proposed) => NewJob(proposed)
    case Cancel(_) => true
    case Load(w, _, proposed) => w !in s.workers && NewJob(proposed)
    case SaveMade(w) => w in s.workers && s.workers[w].Made?
    case Begin(w) => w in s.workers && s.workers[w].Loaded?
    case Checkpoint(w, _) => w in s.workers && s.workers[w].Training?
    case Check(w, _) => w in s.workers && s.workers[w].Training?
    case Break(w, _) => w in s.workers && (s.workers[w].Training? || s.workers[w].Loaded?)
    case Finish(w) => w in s.workers && s.workers[w].Training?
    case SaveEnding(w) => w in s.workers && (s.workers[w].Ending? || s.workers[w].Handling?)
    case Handle(w, _) => w !in s.workers
    case Vanish(w) => w in s.workers
  }

  function Ran(job: Job, code: string): Job {
    job.(state := if code == "training_cancelled" then Cancelled
                  else if code == "training_shutdown" then Queued else Failed,
         failure := if code == "training_shutdown" then None else Some(code))
  }

  function Ineligible(job: Job): Job {
    job.(state := Failed, failure := Some("training_eligibility_failed"))
  }

  function WithCheckpoint(job: Job, reference: string): Job {
    if reference in job.checkpoints then job else job.(checkpoints := job.checkpoints + [reference])
  }

  function Saves(s: World, w: int, job: Job, next: Worker): World {
    World(Saved(s.control, next.id, job), s.workers[w := next])
  }

  function Apply(s: World, step: Step): World
    requires Enabled(s, step)
  {
    match step
    case Submit(id, proposed) =>
      (match Enqueued(s.control, id, proposed)
       case Success(next) => s.(control := next)
       case Failure(_) => s)
    case Cancel(id) =>
      (match CancelRequested(s.control, id)
       case Success(next) => s.(control := next)
       case Failure(_) => s)
    case Load(w, id, proposed) =>
      if id !in s.control.jobs then s.(workers := s.workers[w := Made(id, proposed)])
      else
        var job := s.control.jobs[id];
        if job.state == Succeeded || job.state == Cancelled then s else s.(workers := s.workers[w := Loaded(id, job)])
    case SaveMade(w) =>
      var k := s.workers[w];
      Saves(s, w, k.job, Loaded(k.id, k.job))
    case Begin(w) =>
      var k := s.workers[w];
      var job := k.job.(state := Running, failure := None);
      Saves(s, w, job, Training(k.id, job))
    case Checkpoint(w, reference) =>
      var k := s.workers[w];
      var job := WithCheckpoint(k.job, reference);
      Saves(s, w, job, Training(k.id, job))
    case Check(w, stopping) =>
      var k := s.workers[w];
      if k.id in s.control.jobs && s.control.jobs[k.id].requested
      then s.(workers := s.workers[w := Ending(k.id, Ran(k.job, "training_cancelled"))])
      else if stopping then s.(workers := s.workers[w := Ending(k.id, Ran(k.job, "training_shutdown"))])
      else s
    case Break(w, code) =>
      var k := s.workers[w];
      s.(workers := s.workers[w := Ending(k.id, k.job.(state := Failed, failure := Some(code)))])
    case Finish(w) =>
      var k := s.workers[w];
      (match Completed(s.control, k.id, k.job)
       case Success(next) => World(next, s.workers - {w})
       case Failure(TrainingCancelled) => s.(workers := s.workers[w := Ending(k.id, Ran(k.job, "training_cancelled"))])
       case Failure(_) => s.(workers := s.workers[w := Ending(k.id, Ran(k.job, "training_failed"))]))
    case SaveEnding(w) =>
      var k := s.workers[w];
      World(Saved(s.control, k.id, k.job), s.workers - {w})
    case Handle(w, id) =>
      if id !in s.control.jobs || (s.control.jobs[id].state != Queued && s.control.jobs[id].state != Running) then s
      else s.(workers := s.workers[w := Handling(id, Ineligible(s.control.jobs[id]))])
    case Vanish(w) => s.(workers := s.workers - {w})
  }

  // ---- How a run ends ----

  // What worker w leaves stored when it ends at this step and records it next.
  function Concluded(s: World, w: int, step: Step): Control
    requires Enabled(s, step) && Enabled(Apply(s, step), SaveEnding(w))
  {
    Apply(Apply(s, step), SaveEnding(w)).control
  }

  // Worker w trains a stored job that is neither cancelled nor already recorded as ended.
  predicate Trains(s: World, w: int) {
    && w in s.workers && s.workers[w].Training? && s.workers[w].id in s.control.jobs
    && !Ended(s.control.jobs[s.workers[w].id].state)
  }

  // A worker that sees the request records the cancellation; one that only has to stop puts its
  // job back in the queue with the checkpoints it has; one whose version was published by
  // somebody else meanwhile records a failure; one that breaks down records why.
  lemma EndingsAreRecorded(s: World, w: int, stopping: bool, code: string)
    requires Trains(s, w)
    ensures var id, job := s.workers[w].id, s.workers[w].job;
            var asked := s.control.jobs[id].requested || job.requested;
            var saved := (ended: Job) => s.control.jobs[id := ended.(requested := asked)];
            && (s.control.jobs[id].requested ==>
                  && Enabled(Apply(s, Check(w, stopping)), SaveEnding(w))
                  && Concluded(s, w, Check(w, stopping)) == Control(
                    saved(job.(state := Cancelled, failure := Some("training_cancelled"))), s.control.versions,
                    s.control.completions + [Completion(id, Cancelled)]))
            && (!s.control.jobs[id].requested && stopping ==>
                  && Enabled(Apply(s, Check(w, stopping)), SaveEnding(w))
                  && Concluded(s, w, Check(w, stopping)) == Control(
                    saved(job.(state := Queued, failure := None)), s.control.versions, s.control.completions))
            && (!s.control.jobs[id].requested && !stopping ==> Apply(s, Check(w, stopping)) == s)
            && (!s.control.jobs[id].requested && job.version in s.control.versions ==>
                  && Enabled(Apply(s, Finish(w)), SaveEnding(w))
                  && Concluded(s, w, Finish(w)) == Control(
                    saved(job.(state := Failed, failure := Some("training_failed"))), s.control.versions,
                    s.control.completions + [Completion(id, Failed)]))
            && Enabled(Apply(s, Break(w, code)), SaveEnding(w))
            && Concluded(s, w, Break(w, code)) == Control(
              saved(job.(state := Failed, failure := Some(code))), s.control.versions,
              s.control.completions + [Completion(id, Failed)])
  {
  }

  // A run starts over without the failure of an earlier one, keeping its checkpoints; a job that
  // fails before it runs is recorded as not eligible.
  lemma StartsAreRecorded(s: World, w: int, v: int, id: string)
    requires Enabled(s, Begin(w)) && Enabled(s, Handle(v, id))
    ensures var job := s.workers[w].job;
            Apply(s, Begin(w)).workers[w] == Training(s.workers[w].id, job.(state := Running, failure := None))
    ensures id in s.control.jobs && s.control.jobs[id].state in {Queued, Running} ==>
              && Enabled(Apply(s, Handle(v, id)), SaveEnding(v))
              && Concluded(s, v, Handle(v, id)) == Control(
                s.control.jobs[id := s.control.jobs[id].(state := Failed,
                                                         failure := Some("training_eligibility_failed"))],
                s.control.versions, s.control.completions + [Completion(id, Failed)])
    ensures id !in s.control.jobs || s.control.jobs[id].state !in {Queued, Running} ==> Apply(s, Handle(v, id)) == s
  {
  }

  // A checkpoint is added to those the worker has, once, and nothing else of its job changes.
  lemma CheckpointsAccumulate(s: World, w: int, reference: string)
    requires Enabled(s, Checkpoint(w, reference))
    ensures var job, next := s.workers[w].job, Apply(s, Checkpoint(w, reference)).workers[w].job;
            && next == job.(checkpoints := next.checkpoints) && reference in next.checkpoints
            && next.checkpoints == job.checkpoints + if reference in job.checkpoints then [] else [reference]
  {
  }

  // ---- What every interleaving keeps ----

  predicate Requested(c: Control, id: string) {
    id in c.jobs && c.jobs[id].requested
  }

  // Cancelled jobs were asked to be; asked jobs have not succeeded.
  ghost predicate JobsSound(c: Control) {
    forall id :: id in c.jobs ==>
      && (c.jobs[id].state == Cancelled ==> c.jobs[id].requested)
      && (c.jobs[id].requested ==> c.jobs[id].state != Succeeded)
  }

  // A worker that knows of a request, or is about to record a cancellation, is right.
  ghost predicate WorkerSound(c: Control, k: Worker) {
    && (k.job.requested ==> Requested(c, k.id))
    && (k.job.state == Cancelled ==> k.Ending? && Requested(c, k.id))
    && k.job.state != Succeeded
  }

  ghost predicate Sound(s: World) {
    JobsSound(s.control) && forall w :: w in s.workers ==> WorkerSound(s.control, s.workers[w])
  }

  // Requests are never withdrawn, cancelled jobs never change, and asked jobs do not succeed.
  ghost predicate Respects(c: Control, next: Control) {
    forall id :: id in c.jobs ==>
      && id in next.jobs
      && (c.jobs[id].requested ==> next.jobs[id].requested)
      && (c.jobs[id].state == Cancelled ==> next.jobs[id] == c.jobs[id])
  }

  function Count(completions: seq<Completion>, n: nat, id: string, status: State): nat
    requires n <= |completions|
  {
    if n == 0 then 0
    else Count(completions, n - 1, id, status) + if completions[n - 1] == Completion(id, status) then 1 else 0
  }

  function Times(c: Control, id: string, status: State): nat {
    Count(c.completions, |c.completions|, id, status)
  }

  lemma {:induction false} CountPrefix(a: seq<Completion>, b: seq<Completion>, n: nat, id: string, status: State)
    requires n <= |a| && n <= |b| && a[..n] == b[..n]
    ensures Count(a, n, id, status) == Count(b, n, id, status)
  {
    if n > 0 {
      assert a[n - 1] == a[..n][n - 1] == b[n - 1];
      assert a[..n - 1] == a[..n][..n - 1] == b[..n - 1];
      CountPrefix(a, b, n - 1, id, status);
    }
  }

  lemma CountOneMore(completions: seq<Completion>, e: Completion, id: string, status: State)
    ensures var more := completions + [e];
            Count(more, |more|, id, status)
            == Count(completions, |completions|, id, status) + if e == Completion(id, status) then 1 else 0
  {
    CountPrefix(completions, completions + [e], |completions|, id, status);
  }

  // ---- Control transactions, one by one ----

  lemma SavingRespects(c: Control, id: string, job: Job)
    requires JobsSound(c) && job.state != Succeeded
    requires job.state == Cancelled ==> Requested(c, id) || job.requested
    ensures JobsSound(Saved(c, id, job)) && Respects(c, Saved(c, id, job))
  {
  }

  lemma CompletingRespects(c: Control, id: string, job: Job)
    requires JobsSound(c) && Completed(c, id, job).Success? && (job.requested ==> Requested(c, id))
    ensures JobsSound(Completed(c, id, job).value) && Respects(c, Completed(c, id, job).value)
  {
  }

  lemma RespectedWorkers(s: World, next: Control)
    requires Sound(s) && Respects(s.control, next)
    ensures forall w :: w in s.workers ==> WorkerSound(next, s.workers[w])
  {
    forall w | w in s.workers ensures WorkerSound(next, s.workers[w]) {
      assert WorkerSound(s.control, s.workers[w]);
    }
  }

  lemma SubmittingRespects(c: Control, id: string, proposed: Job)
    requires JobsSound(c) && NewJob(proposed) && Enqueued(c, id, proposed).Success?
    ensures JobsSound(Enqueued(c, id, proposed).value) && Respects(c, Enqueued(c, id, proposed).value)
  {
  }

  // ---- Steps and runs ----

  lemma SavingStep(s: World, w: int, job: Job, next: Worker)
    requires Sound(s) && w in s.workers && s.workers[w].id == next.id
    requires !next.Ending? && next.job.state !in {Succeeded, Cancelled} && job.state !in {Succeeded, Cancelled}
    requires next.job.requested == job.requested == s.workers[w].job.requested
    ensures Sound(Saves(s, w, job, next)) && Respects(s.control, Saves(s, w, job, next).control)
  {
    SavingRespects(s.control, next.id, job);
    RespectedWorkers(s, Saved(s.control, next.id, job));
    assert WorkerSound(s.control, s.workers[w]);
  }

  lemma FinishStep(s: World, w: int)
    requires Sound(s) && Enabled(s, Finish(w))
    ensures Sound(Apply(s, Finish(w))) && Respects(s.control, Apply(s, Finish(w)).control)
  {
    var k := s.workers[w];
    assert WorkerSound(s.control, k);
    if Completed(s.control, k.id, k.job).Success? {
      CompletingRespects(s.control, k.id, k.job);
      RespectedWorkers(s, Completed(s.control, k.id, k.job).value);
    }
  }

  lemma EndingStep(s: World, w: int)
    requires Sound(s) && Enabled(s, SaveEnding(w))
    ensures Sound(Apply(s, SaveEnding(w))) && Respects(s.control, Apply(s, SaveEnding(w)).control)
  {
    var k := s.workers[w];
    assert WorkerSound(s.control, k);
    SavingRespects(s.control, k.id, k.job);
    RespectedWorkers(s, Saved(s.control, k.id, k.job));
  }

  lemma OperatorStep(s: World, step: Step)
    requires Sound(s) && Enabled(s, step) && (step.Submit? || step.Cancel?)
    ensures Sound(Apply(s, step)) && Respects(s.control, Apply(s, step).control)
  {
    if step.Submit? && Enqueued(s.control, step.id, step.proposed).Success? {
      SubmittingRespects(s.control, step.id, step.proposed);
    } else if step.Cancel? && step.id in s.control.jobs {
      var was := s.control.jobs[step.id];
      if was.state == Queued || was.state == Running { SavingRespects(s.control, step.id, CancelledCopy(was)); }
    }
    RespectedWorkers(s, Apply(s, step).control);
  }

  lemma StepKeepsSound(s: World, step: Step)
    requires Sound(s) && Enabled(s, step)
    ensures Sound(Apply(s, step)) && Respects(s.control, Apply(s, step).control)
  {
    match step
    case Submit(_, _) => OperatorStep(s, step);
    case Cancel(_) => OperatorStep(s, step);
    case Load(_, _, _) =>
    case SaveMade(w) =>
      assert WorkerSound(s.control, s.workers[w]);
      SavingStep(s, w, s.workers[w].job, Loaded(s.workers[w].id, s.workers[w].job));
    case Begin(w) =>
      var job := s.workers[w].job.(state := Running, failure := None);
      SavingStep(s, w, job, Training(s.workers[w].id, job));
    case Checkpoint(w, reference) =>
      var k := s.workers[w];
      assert WorkerSound(s.control, k);
      var job := WithCheckpoint(k.job, reference);
      SavingStep(s, w, job, Training(k.id, job));
    case Check(w, _) => assert WorkerSound(s.control, s.workers[w]);
    case Break(w, _) => assert WorkerSound(s.control, s.workers[w]);
    case Finish(w) => FinishStep(s, w);
    case SaveEnding(w) => EndingStep(s, w);
    case Handle(_, _) =>
    case Vanish(_) =>
  }

  const Start := World(Control(map[], {}, []), map[])

  ghost predicate Run(ws: seq<World>, steps: seq<Step>) {
    && |ws| == |steps| + 1
    && forall k :: 0 <= k < |steps| ==> Enabled(ws[k], steps[k]) && ws[k + 1] == Apply(ws[k], steps[k])
  }

  lemma {:induction false} RunIsSound(ws: seq<World>, steps: seq<Step>, n: nat)
    requires Run(ws, steps) && ws[0] == Start && n <= |steps|
    ensures Sound(ws[n])
  {
    if n > 0 {
      RunIsSound(ws, steps, n - 1);
      StepKeepsSound(ws[n - 1], steps[n - 1]);
    }
  }

  // ---- Publications ----

  function IsCancelled(c: Control, id: string): nat {
    if id in c.jobs && c.jobs[id].state == Cancelled then 1 else 0
  }

  // A step publishes a model for the job only if no cancellation is requested; a cancellation
  // is recorded exactly when the job becomes cancelled.
  ghost predicate Tallies(c: Control, next: Control, id: string) {
    && (Requested(c, id) ==> Times(next, id, Succeeded) == Times(c, id, Succeeded))
    && Times(next, id, Cancelled) - Times(c, id, Cancelled) == IsCancelled(next, id) - IsCancelled(c, id)
  }

  lemma StoringTallies(c: Control, key: string, job: Job, id: string)
    requires job.state != Succeeded && !(key in c.jobs && c.jobs[key].state == Cancelled)
    ensures Tallies(c, Stored(c, key, job), id)
  {
    CountOneMore(c.completions, Completion(key, job.state), id, Succeeded);
    CountOneMore(c.completions, Completion(key, job.state), id, Cancelled);
  }

  lemma SavingTallies(c: Control, key: string, job: Job, id: string)
    requires job.state != Succeeded
    ensures Tallies(c, Saved(c, key, job), id)
  {
    if key !in c.jobs {
      StoringTallies(c, key, job, id);
    } else {
      var was := c.jobs[key];
      if was.state != Cancelled && !(was.state == job.state && Ended(was.state)) {
        StoringTallies(c, key, job.(requested := was.requested || job.requested), id);
      }
    }
  }

  lemma CompletingTallies(c: Control, key: string, job: Job, id: string)
    requires JobsSound(c) && Completed(c, key, job).Success?
    ensures Tallies(c, Completed(c, key, job).value, id)
  {
    CountOneMore(c.completions, Completion(key, Succeeded), id, Succeeded);
    CountOneMore(c.completions, Completion(key, Succeeded), id, Cancelled);
  }

  lemma StepTallies(s: World, step: Step, id: string)
    requires Sound(s) && Enabled(s, step)
    ensures Tallies(s.control, Apply(s, step).control, id)
  {
    match step
    case Submit(_, _) =>
    case Cancel(key) =>
      if key in s.control.jobs && !(s.control.jobs[key].state == Succeeded || Ended(s.control.jobs[key].state)) {
        SavingTallies(s.control, key, CancelledCopy(s.control.jobs[key]), id);
      }
    case SaveMade(w) =>
      assert WorkerSound(s.control, s.workers[w]);
      SavingTallies(s.control, s.workers[w].id, s.workers[w].job, id);
    case Begin(w) => SavingTallies(s.control, s.workers[w].id, s.workers[w].job.(state := Running, failure := None),
                                   id);
    case Checkpoint(w, reference) =>
      var k := s.workers[w];
      assert WorkerSound(s.control, k);
      SavingTallies(s.control, k.id, WithCheckpoint(k.job, reference), id);
    case Finish(w) =>
      if Completed(s.control, s.workers[w].id, s.workers[w].job).Success? {
        CompletingTallies(s.control, s.workers[w].id, s.workers[w].job, id);
      }
    case SaveEnding(w) =>
      assert WorkerSound(s.control, s.workers[w]);
      SavingTallies(s.control, s.workers[w].id, s.workers[w].job, id);
    case _ =>
  }

  // Once a cancellation is requested: it stays requested, the job never succeeds, and no
  // model is published for it any more. A cancelled job never changes at all.
  lemma {:induction false} CancellationHolds(ws: seq<World>, steps: seq<Step>, m: nat, n: nat, id: string)
    requires Run(ws, steps) && ws[0] == Start && m <= n <= |steps| && Requested(ws[m].control, id)
    ensures Requested(ws[n].control, id) && ws[n].control.jobs[id].state != Succeeded
    ensures Times(ws[n].control, id, Succeeded) == Times(ws[m].control, id, Succeeded)
    ensures ws[m].control.jobs[id].state == Cancelled ==> ws[n].control.jobs[id] == ws[m].control.jobs[id]
  {
    RunIsSound(ws, steps, n);
    if m < n {
      CancellationHolds(ws, steps, m, n - 1, id);
      RunIsSound(ws, steps, n - 1);
      StepKeepsSound(ws[n - 1], steps[n - 1]);
      StepTallies(ws[n - 1], steps[n - 1], id);
    }
  }

  // A cancelled job has exactly one cancellation event, any other job none.
  lemma {:induction false} OneCancellationEvent(ws: seq<World>, steps: seq<Step>, n: nat, id: string)
    requires Run(ws, steps) && ws[0] == Start && n <= |steps|
    ensures Times(ws[n].control, id, Cancelled) == IsCancelled(ws[n].control, id)
  {
    if n > 0 {
      OneCancellationEvent(ws, steps, n - 1, id);
      RunIsSound(ws, steps, n - 1);
      StepTallies(ws[n - 1], steps[n - 1], id);
    }
  }

  // ---- When a success is final ----

  ghost predicate Busy(s: World, id: string) {
    exists w :: w in s.workers && s.workers[w].id == id
  }

  predicate HasSucceeded(s: World, id: string) {
    id in s.control.jobs && s.control.jobs[id].state == Succeeded
  }

  // Whatever happens next, the job stays as it is.
  ghost predicate Final(s: World, id: string)
    requires id in s.control.jobs
  {
    forall ws: seq<World>, steps: seq<Step> :: Run(ws, steps) && ws[0] == s ==>
      id in ws[|steps|].control.jobs && ws[|steps|].control.jobs[id] == s.control.jobs[id]
  }

  // Nobody starts on a succeeded job, and only a worker on it writes it.
  lemma StepLeavesSuccess(s: World, step: Step, id: string)
    requires Enabled(s, step) && HasSucceeded(s, id) && !Busy(s, id)
    ensures id in Apply(s, step).control.jobs && Apply(s, step).control.jobs[id] == s.control.jobs[id]
    ensures !Busy(Apply(s, step), id)
  {
    var next := Apply(s, step);
    forall w | w in next.workers ensures next.workers[w].id != id {
      assert w in s.workers ==> s.workers[w].id != id;
    }
  }

  lemma {:induction false} RunLeavesSuccess(ws: seq<World>, steps: seq<Step>, n: nat, id: string)
    requires Run(ws, steps) && n <= |steps| && HasSucceeded(ws[0], id) && !Busy(ws[0], id)
    ensures id in ws[n].control.jobs && ws[n].control.jobs[id] == ws[0].control.jobs[id] && !Busy(ws[n], id)
  {
    if n > 0 {
      RunLeavesSuccess(ws, steps, n - 1, id);
      StepLeavesSuccess(ws[n - 1], steps[n - 1], id);
    }
  }

  // What a worker writes next.
  function NextSave(k: Worker, w: int): Step {
    match k
    case Made(_, _) => SaveMade(w)
    case Loaded(_, _) => Begin(w)
    case Training(_, _) => Checkpoint(w, "")
    case Ending(_, _) => SaveEnding(w)
    case Handling(_, _) => SaveEnding(w)
  }

  // Nothing in the transaction protects a success: the stored state becomes the copy's.
  lemma SaveOverwritesSuccess(s: World, w: int)
    requires Sound(s) && w in s.workers && HasSucceeded(s, s.workers[w].id)
    ensures Enabled(s, NextSave(s.workers[w], w))
    ensures !HasSucceeded(Apply(s, NextSave(s.workers[w], w)), s.workers[w].id)
  {
    assert WorkerSound(s.control, s.workers[w]);
  }

  // A success is final exactly when no worker is on the job.
  lemma SuccessIsFinalIff(s: World, id: string)
    requires Sound(s) && HasSucceeded(s, id)
    ensures Final(s, id) <==> !Busy(s, id)
  {
    if Busy(s, id) {
      var w :| w in s.workers && s.workers[w].id == id;
      SaveOverwritesSuccess(s, w);
      var next := NextSave(s.workers[w], w);
      assert Run([s, Apply(s, next)], [next]);
      assert [s, Apply(s, next)][|[next]|] == Apply(s, next);
    } else {
      forall ws: seq<World>, steps: seq<Step> | Run(ws, steps) && ws[0] == s
        ensures id in ws[|steps|].control.jobs && ws[|steps|].control.jobs[id] == s.control.jobs[id]
      {
        RunLeavesSuccess(ws, steps, |steps|, id);
      }
    }
  }

  // ---- The worker claim and the job lock ----

  // worker_claim: whoever turns to a job, to run it or to record its failure, is the only one
  // on it.
  ghost predicate Claimed(ws: seq<World>, steps: seq<Step>)
    requires |ws| == |steps| + 1
  {
    forall k :: 0 <= k < |steps| && (steps[k].Load? || steps[k].Handle?) ==> !Busy(ws[k], steps[k].id)
  }

  // The flock of run alone: whoever loads a job is the only one running it; the handler does
  // not take it.
  ghost predicate Flocked(ws: seq<World>, steps: seq<Step>)
    requires |ws| == |steps| + 1
  {
    forall k, w :: 0 <= k < |steps| && steps[k].Load? && w in ws[k].workers && ws[k].workers[w].id == steps[k].id ==>
      ws[k].workers[w].Handling?
  }

  // One worker to a job, and none on a job that has succeeded.
  ghost predicate Exclusive(s: World) {
    && (forall v, w :: v in s.workers && w in s.workers && s.workers[v].id == s.workers[w].id ==> v == w)
    && (forall w :: w in s.workers ==> !HasSucceeded(s, s.workers[w].id))
  }

  ghost predicate AddsNoSuccess(c: Control, next: Control) {
    forall id :: id in next.jobs && next.jobs[id].state == Succeeded ==> id in c.jobs && c.jobs[id].state == Succeeded
  }

  // The worker's own transactions, with the worker moved on or gone.
  lemma WorkerKeepsExclusive(s: World, w: int, next: Control, workers: map<int, Worker>)
    requires Exclusive(s) && w in s.workers && AddsNoSuccess(s.control, next)
    requires || workers == s.workers - {w}
             || (w in workers && workers == s.workers[w := workers[w]] && workers[w].id == s.workers[w].id)
    ensures Exclusive(World(next, workers))
  {
  }

  lemma SaveStepKeepsExclusive(s: World, w: int, job: Job, workers: map<int, Worker>)
    requires Exclusive(s) && w in s.workers && job.state != Succeeded
    requires || workers == s.workers - {w}
             || (w in workers && workers == s.workers[w := workers[w]] && workers[w].id == s.workers[w].id)
    ensures Exclusive(World(Saved(s.control, s.workers[w].id, job), workers))
  {
    WorkerKeepsExclusive(s, w, Saved(s.control, s.workers[w].id, job), workers);
  }

  lemma FinishKeepsExclusive(s: World, w: int)
    requires Sound(s) && Exclusive(s) && Enabled(s, Finish(w))
    ensures Exclusive(Apply(s, Finish(w)))
  {
  }

  lemma OperatorKeepsExclusive(s: World, step: Step)
    requires Exclusive(s) && Enabled(s, step) && (step.Submit? || step.Cancel?)
    ensures Exclusive(Apply(s, step))
  {
    assert AddsNoSuccess(s.control, Apply(s, step).control);
  }

  lemma ArrivalKeepsExclusive(s: World, step: Step)
    requires Exclusive(s) && Enabled(s, step) && (step.Load? || step.Handle?) && !Busy(s, step.id)
    ensures Exclusive(Apply(s, step))
  {
  }

  lemma StepKeepsExclusive(s: World, step: Step)
    requires Sound(s) && Exclusive(s) && Enabled(s, step) && (step.Load? || step.Handle? ==> !Busy(s, step.id))
    ensures Exclusive(Apply(s, step))
  {
    match step
    case Submit(_, _) => OperatorKeepsExclusive(s, step);
    case Cancel(_) => OperatorKeepsExclusive(s, step);
    case Load(_, _, _) => ArrivalKeepsExclusive(s, step);
    case Handle(_, _) => ArrivalKeepsExclusive(s, step);
    case Finish(w) => FinishKeepsExclusive(s, w);
    case Begin(w) => SaveStepKeepsExclusive(s, w, s.workers[w].job.(state := Running, failure := None),
                                            Apply(s, step).workers);
    case SaveMade(w) =>
      assert WorkerSound(s.control, s.workers[w]);
      SaveStepKeepsExclusive(s, w, s.workers[w].job, Apply(s, step).workers);
    case SaveEnding(w) =>
      assert WorkerSound(s.control, s.workers[w]);
      SaveStepKeepsExclusive(s, w, s.workers[w].job, Apply(s, step).workers);
    case Checkpoint(w, reference) =>
      var k := s.workers[w];
      assert WorkerSound(s.control, k);
      SaveStepKeepsExclusive(s, w, WithCheckpoint(k.job, reference), Apply(s, step).workers);
    case Check(w, _) => if Apply(s, step) != s { WorkerKeepsExclusive(s, w, s.control, Apply(s, step).workers); }
    case Break(w, _) => WorkerKeepsExclusive(s, w, s.control, Apply(s, step).workers);
    case Vanish(w) => WorkerKeepsExclusive(s, w, s.control, Apply(s, step).workers);
  }

  lemma {:induction false} ClaimedIsExclusive(ws: seq<World>, steps: seq<Step>, n: nat)
    requires Run(ws, steps) && ws[0] == Start && Claimed(ws, steps) && n <= |steps|
    ensures Exclusive(ws[n])
  {
    if n > 0 {
      ClaimedIsExclusive(ws, steps, n - 1);
      RunIsSound(ws, steps, n - 1);
      StepKeepsExclusive(ws[n - 1], steps[n - 1]);
    }
  }

  // Under the worker claim every success is final.
  lemma SuccessIsFinalUnderClaim(ws: seq<World>, steps: seq<Step>, n: nat, id: string)
    requires Run(ws, steps) && ws[0] == Start && Claimed(ws, steps) && n <= |steps| && HasSucceeded(ws[n], id)
    ensures Final(ws[n], id)
  {
    RunIsSound(ws, steps, n);
    ClaimedIsExclusive(ws, steps, n);
    SuccessIsFinalIff(ws[n], id);
  }

  // ---- Runs that lose a success ----

  const Sample := Job("s", "a", "v", Queued, false, [], None)

  // Two workers on one job: the second begins after the first has published.
  function Racing(): seq<Step> {
    [Submit("j", Sample), Load(1, "j", Sample), Load(2, "j", Sample), Begin(1), Finish(1), Begin(2)]
  }

  function Scene(k: nat): World {
    var running, succeeded := Sample.(state := Running), Sample.(state := Succeeded);
    var published := [Completion("j", Succeeded)];
    match k
    case 0 => Start
    case 1 => World(Control(map["j" := Sample], {}, []), map[])
    case 2 => World(Control(map["j" := Sample], {}, []), map[1 := Loaded("j", Sample)])
    case 3 => World(Control(map["j" := Sample], {}, []), map[1 := Loaded("j", Sample), 2 := Loaded("j", Sample)])
    case 4 => World(Control(map["j" := running], {}, []), map[1 := Training("j", running), 2 := Loaded("j", Sample)])
    case 5 => World(Control(map["j" := succeeded], {"v"}, published), map[2 := Loaded("j", Sample)])
    case _ => World(Control(map["j" := running], {"v"}, published), map[2 := Training("j", running)])
  }

  ghost predicate Follows(k: nat) {
    k < 6 ==> Enabled(Scene(k), Racing()[k]) && Scene(k + 1) == Apply(Scene(k), Racing()[k])
  }

  lemma BothLoad()
    ensures Follows(0) && Follows(1) && Follows(2)
  {
    assert Follows(0);
    assert Follows(1);
    assert Follows(2);
  }

  lemma OneFinishesOtherBegins()
    ensures Follows(3) && Follows(4) && Follows(5)
  {
    assert Follows(3);
    assert Follows(4);
    assert Follows(5);
  }

  lemma EachSceneFollows(k: nat)
    ensures Follows(k)
  {
    BothLoad();
    OneFinishesOtherBegins();
  }

  lemma ScenesAreARun(ws: seq<World>)
    requires |ws| == 7 && forall k :: 0 <= k < 7 ==> ws[k] == Scene(k)
    ensures Run(ws, Racing())
  {
    forall k | 0 <= k < |Racing()| ensures Enabled(ws[k], Racing()[k]) && ws[k + 1] == Apply(ws[k], Racing()[k]) {
      EachSceneFollows(k);
    }
  }

  lemma StaleWorkerHidesSuccess()
    ensures exists ws: seq<World> :: Run(ws, Racing()) && ws[0] == Start
                         && ws[5].control.jobs == map["j" := Sample.(state := Succeeded)]
                         && ws[6].control.jobs == map["j" := Sample.(state := Running)]
                         && ws[6].control.versions == {"v"}
  {
    var ws := seq(7, k requires 0 <= k => Scene(k));
    ScenesAreARun(ws);
    assert ws[5] == Scene(5) && ws[6] == Scene(6) && ws[0] == Start;
  }

  // The flock is not enough: the second worker's eligibility failed before it asked for the
  // lock, and its handler read the running job just before the first one published.
  function Handled(): seq<Step> {
    [Submit("j", Sample), Load(1, "j", Sample), Begin(1), Handle(2, "j"), Finish(1), SaveEnding(2)]
  }

  function HandledScene(k: nat): World {
    var running, succeeded := Sample.(state := Running), Sample.(state := Succeeded);
    var published := [Completion("j", Succeeded)];
    match k
    case 0 => Start
    case 1 => World(Control(map["j" := Sample], {}, []), map[])
    case 2 => World(Control(map["j" := Sample], {}, []), map[1 := Loaded("j", Sample)])
    case 3 => World(Control(map["j" := running], {}, []), map[1 := Training("j", running)])
    case 4 => World(Control(map["j" := running], {}, []),
                    map[1 := Training("j", running), 2 := Handling("j", Ineligible(running))])
    case 5 => World(Control(map["j" := succeeded], {"v"}, published), map[2 := Handling("j", Ineligible(running))])
    case _ => World(Control(map["j" := Ineligible(running)], {"v"}, published + [Completion("j", Failed)]), map[])
  }

  ghost predicate HandledFollows(k: nat) {
    k < 6 ==> Enabled(HandledScene(k), Handled()[k]) && HandledScene(k + 1) == Apply(HandledScene(k), Handled()[k])
  }

  lemma FirstStarts()
    ensures HandledFollows(0) && HandledFollows(1) && HandledFollows(2)
  {
    assert HandledFollows(0);
    assert HandledFollows(1);
    assert HandledFollows(2);
  }

  lemma HandlerReadsFirst()
    ensures HandledFollows(3) && HandledFollows(4) && HandledFollows(5)
  {
    assert HandledFollows(3);
    assert HandledFollows(4);
    assert HandledFollows(5);
  }

  lemma EachHandledSceneFollows(k: nat)
    ensures HandledFollows(k)
  {
    FirstStarts();
    HandlerReadsFirst();
  }

  lemma HandledScenesAreARun(ws: seq<World>)
    requires |ws| == 7 && forall k :: 0 <= k < 7 ==> ws[k] == HandledScene(k)
    ensures Run(ws, Handled()) && Flocked(ws, Handled())
  {
    forall k | 0 <= k < |Handled()| ensures Enabled(ws[k], Handled()[k]) && ws[k + 1] == Apply(ws[k], Handled()[k]) {
      EachHandledSceneFollows(k);
    }
    assert forall k :: 0 <= k < |Handled()| && Handled()[k].Load? ==> k == 1;
    assert ws[1].workers == map[];
  }

  lemma HandlerHidesSuccess()
    ensures exists ws: seq<World> :: Run(ws, Handled()) && ws[0] == Start && Flocked(ws, Handled())
                         && ws[5].control.jobs == map["j" := Sample.(state := Succeeded)]
                         && ws[6].control.jobs == map["j" := Ineligible(Sample)] && ws[6].control.versions == {"v"}
  {
    var ws := seq(7, k requires 0 <= k => HandledScene(k));
    HandledScenesAreARun(ws);
    assert ws[5] == HandledScene(5) && ws[6] == HandledScene(6) && ws[0] == Start;
    assert Ineligible(Sample.(state := Running)) == Ineligible(Sample);
  }
}

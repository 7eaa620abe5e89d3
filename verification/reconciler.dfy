/** The reconciler of preview environment instances, call by call
    (internal/controller/previewenvironmentinstance_{controller,builder,deployer}.go).

    Whatever everyone else does between its calls, and wherever the process dies, an execution of
    `Reconcile` is a run of the machine in module Cluster, so the theorems about runs hold for it. */
module InstanceReconciler {
  import opened Text
  import opened Naming
  import opened Versions
  import opened Cluster
  import opened Safety
  import opened Undisturbed
  import opened ApiServer
  import opened Cleanup

  // ---------------------------------------------------------------- status writes

  method MarkWithStatus(api: Server, n: string, pei: Pei, phase: Phase) returns (r: Reply)
    requires api.Valid() && n in api.st.workers && api.st.workers[n].mem == pei.Value().(phase := phase)
    requires var pc := api.st.workers[n].pc; pc.MarkDeploying? || pc.MarkFailed? || pc.MarkRunning? || pc.MarkPending?
    modifies api`st, api`script, api`trace, api`undisturbed, pei
    ensures api.Valid() && n !in api.st.workers
    ensures old(api.Smooth(n, 1)) ==> r.Fine? && api.Smooth(n, |old(api.script)| - 1)
  {
    hide Calm, FriendlyScript, Run, Step, Server.Valid;
    pei.phase := phase;
    r := api.StatusUpdate(n, pei);
  }

  // ---------------------------------------------------------------- cleanup

  lemma CalmSteps(script: seq<Turn>, k: nat)
    requires Calm(script, k + 1)
    ensures |script| > k && Calm(script, 1) && Calm(script[1..], k)
  {
  }

  /** One delete; what is still to be swept afterwards leaves the same in the end. */
  method DeleteSlot(api: Server, n: string, k: Slot, pei: Pei) returns (r: Reply)
    requires api.Valid() && k < 5 && api.At(n, Del(k), pei.Value(), NO_SPEC)
    modifies api`st, api`script, api`trace, api`undisturbed
    ensures api.Valid()
    ensures if r.Down? then n !in api.st.workers else api.At(n, Del(NextSlot(k, r.Fine?)), pei.Value(), NO_SPEC)
    ensures Calm(old(api.script), 1) ==>
              && !r.Down? && api.script == old(api.script)[1..]
              && Swept(api.st.objects, n, NextSlot(k, r.Fine?)) == Swept(old(api.st.objects), n, k)
  {
    hide Calm, FriendlyScript, Run, Step, Server.Valid, SlotKey, NO_SPEC, Swept;
    SweptOn(api.st.objects, n, k);
    r := api.DeleteObject(n, k);
  }

  method DeleteAuthProxy(api: Server, n: string, pei: Pei) returns (r: Reply)
    requires api.Valid() && api.At(n, Del(2), pei.Value(), NO_SPEC)
    modifies api`st, api`script, api`trace, api`undisturbed
    ensures api.Valid() && if r.Down? then n !in api.st.workers else api.At(n, Del(5), pei.Value(), NO_SPEC)
    ensures Calm(old(api.script), 4) ==>
              !r.Down? && Calm(api.script, 1) && Swept(api.st.objects, n, 5) == Swept(old(api.st.objects), n, 2)
  {
    hide Calm, FriendlyScript, Run, Step, Server.Valid, NO_SPEC, Swept, Is;
    ghost var script := api.script;
    if Calm(script, 4) { CalmSteps(script, 3); CalmSteps(script[1..], 2); CalmSteps(script[2..], 1); }
    r := DeleteSlot(api, n, 2, pei);
    if !r.Fine? { return; }
    r := DeleteSlot(api, n, 3, pei);
    if !r.Fine? { return; }
    r := DeleteSlot(api, n, 4, pei);
  }

  /** Errors are only logged, so the finalizer goes whatever could be deleted. */
  method DeleteResources(api: Server, n: string, pei: Pei) returns (r: Reply)
    requires api.Valid() && api.At(n, Del(0), pei.Value(), NO_SPEC)
    modifies api`st, api`script, api`trace, api`undisturbed
    ensures api.Valid()
    ensures if r.Down? then n !in api.st.workers else r.Fine? && api.At(n, RemoveFinalizer, pei.Value().(finalizer := false), NO_SPEC)
    ensures Calm(old(api.script), 6) ==> r.Fine? && api.st.objects == Swept(old(api.st.objects), n, 0)
  {
    hide Calm, FriendlyScript, Run, Step, Server.Valid, SlotKey, NO_SPEC, Swept, Is;
    ghost var script := api.script;
    if Calm(script, 6) { CalmSteps(script, 5); CalmSteps(script[1..], 4); }
    r := DeleteSlot(api, n, 0, pei);
    if r.Down? { return; }
    r := DeleteSlot(api, n, 1, pei);
    if r.Down? { return; }
    r := DeleteAuthProxy(api, n, pei);
    if r.Down? { return; }
    r := DeleteIngress(api, n, pei);
  }

  method DeleteIngress(api: Server, n: string, pei: Pei) returns (r: Reply)
    requires api.Valid() && api.At(n, Del(5), pei.Value(), NO_SPEC)
    modifies api`st, api`script, api`trace, api`undisturbed
    ensures api.Valid()
    ensures if r.Down? then n !in api.st.workers else r.Fine? && api.At(n, RemoveFinalizer, pei.Value().(finalizer := false), NO_SPEC)
    ensures Calm(old(api.script), 1) ==> r.Fine? && api.st.objects == Swept(old(api.st.objects), n, 5)
  {
    hide Calm, FriendlyScript, Run, Step, Server.Valid, SlotKey, NO_SPEC, Swept;
    SweptOn(api.st.objects, n, 5);
    r := api.DeleteObject(n, 5);
    if r.Down? { return; }
    return Fine;
  }

  // ---------------------------------------------------------------- building

  /** What a method that may fail leaves behind. */
  predicate FailedOrDown(api: Server, n: string, pei: Pei, pe: Spec, r: Reply)
    reads api, pei
  {
    && (r.Error? ==> api.At(n, MarkFailed, pei.Value().(phase := Failed), pe))
    && (r.Down? ==> n !in api.st.workers)
  }

  lemma OldJobGoesOn(s: State, n: string, w: Worker, io: Io)
    ensures var found := io.fault.Done? && JobName(n) in s.jobs; var o := Do(s, n, w, io).1;
            && (w.pc == StartJob ==> o == Goto(s, w, if found then Pc.DeleteJob else Pc.CreateJob).1)
            && (w.pc == Pc.DeleteJob ==> o == if found then Goto(s, w, WaitGone).1 else Fail(s, w).1)
            && (w.pc == WaitGone ==> o == if !io.fault.Done? then Fail(s, w).1 else if found then Some(w) else Goto(s, w, Pc.CreateJob).1)
  {
  }

  method WaitUntilGone(api: Server, n: string, pei: Pei, pe: Spec) returns (r: Reply)
    requires api.Valid() && api.At(n, WaitGone, pei.Value(), pe)
    modifies api`st, api`script, api`trace, api`undisturbed
    ensures api.Valid() && FailedOrDown(api, n, pei, pe, r)
    ensures r.Fine? ==> api.At(n, CreateJob, pei.Value(), pe)
  {
    hide Calm, FriendlyScript, Run, Step, Server.Valid, Do;
    while true
      invariant api.Valid() && api.At(n, WaitGone, pei.Value(), pe)
      decreases |api.script|
    {
      var job, io := api.GetJob(n, JobName(n));
      if job.Gone? { return Down; }
      OldJobGoesOn(api.st, n, api.st.workers[n], io);
      api.Advance(n, io);
      if job.NotFound? { return Fine; }
      if job.Failure? { return Error; }
      r := api.Sleep(n, SECOND);
      if r.Down? { return; }
    }
  }

  lemma NoJobYet(api: Server, n: string)
    requires api.Valid() && api.undisturbed && n == api.subject && n in api.st.workers && api.st.workers[n].pc == StartJob
    ensures JobName(n) !in api.s0.jobs ==> JobName(n) !in api.st.jobs
  {
    hide Server.Valid, Reached, AtPc;
    api.OnTheWay(n);
  }

  method RemoveOldJob(api: Server, n: string, pei: Pei, pe: Spec) returns (r: Reply)
    requires api.Valid() && api.At(n, StartJob, pei.Value(), pe)
    modifies api`st, api`script, api`trace, api`undisturbed
    ensures api.Valid() && FailedOrDown(api, n, pei, pe, r)
    ensures r.Fine? ==> api.At(n, CreateJob, pei.Value(), pe)
    ensures old(api.Smooth(n, 1)) && JobName(n) !in api.s0.jobs ==> r.Fine? && api.Smooth(n, |old(api.script)| - 1)
  {
    hide Calm, FriendlyScript, Run, Step, Server.Valid, Do;
    var job, io := api.GetJob(n, JobName(n));
    if job.Gone? { return Down; }
    if old(api.Smooth(n, 1)) { NoJobYet(api, n); }
    OldJobGoesOn(api.st, n, api.st.workers[n], io);
    api.Advance(n, io);
    if !job.Found? { return Fine; }
    r := DeleteOldJob(api, n, pei, pe);
  }

  method DeleteOldJob(api: Server, n: string, pei: Pei, pe: Spec) returns (r: Reply)
    requires api.Valid() && api.At(n, DeleteJob, pei.Value(), pe)
    modifies api`st, api`script, api`trace, api`undisturbed
    ensures api.Valid() && FailedOrDown(api, n, pei, pe, r)
    ensures r.Fine? ==> api.At(n, CreateJob, pei.Value(), pe)
  {
    hide Calm, FriendlyScript, Run, Step, Server.Valid, Do;
    var io;
    r, io := api.DeleteJob(n, JobName(n));
    if r.Down? { return; }
    OldJobGoesOn(api.st, n, api.st.workers[n], io);
    api.Advance(n, io);
    if r.Error? { return; }
    r := WaitUntilGone(api, n, pei, pe);
  }

  lemma PollGoesOn(s: State, n: string, w: Worker, io: Io)
    requires w.pc.Poll? && w.pc.readyAt <= s.now
    requires !(io.fault.Done? && JobName(n) in s.jobs && s.jobs[JobName(n)].succeeded)
    ensures Do(s, n, w, io).1 ==
            if !io.fault.Done? || JobName(n) !in s.jobs || s.jobs[JobName(n)].failed then Fail(s, w).1 else Some(w)
  {
  }

  lemma CheckGoesOn(s: State, n: string, w: Worker, io: Io)
    ensures w.pc == JobCheck && io.fault.Done? ==>
              Do(s, n, w, io).1 ==
              if n !in s.jobs then Mark(s, w, MarkBuilding, Building).1
              else if s.jobs[n].active then Mark(s, w, MarkDeploying(None), Deploying).1
              else if s.jobs[n].succeeded then Goto(s, w, DeleteBare).1
              else Mark(s, w, MarkBuilding, Building).1
    ensures w.pc == JobCheck && !io.fault.Done? ==> Do(s, n, w, io).1 == Fail(s, w).1
    ensures w.pc == DeleteBare ==>
              Do(s, n, w, io).1 == (if io.fault.Done? && n in s.jobs then Mark(s, w, MarkBuilding, Building) else Fail(s, w)).1
  {
  }

  lemma SuccessGoesOn(s: State, n: string, w: Worker, io: Io)
    requires w.pc.Poll? && w.pc.readyAt <= s.now
    requires io.fault.Done? && JobName(n) in s.jobs && s.jobs[JobName(n)].succeeded
    requires UpdateResult(w.mem.built, BuiltVersion(w.mem.git.commitHash, s.now), KEEP, io.built)
    ensures Do(s, n, w, io).1 ==
            Some(w.(pc := MarkDeploying(Some(BuiltVersion(w.mem.git.commitHash, s.now))),
                    mem := w.mem.(built := io.built, phase := Deploying)))
  {
    hide UpdateResult;
  }

  /** A job is there and has succeeded, at a moment at which the reconcile may look. */
  predicate JobDone(api: Server, n: string, pei: Pei, pe: Spec, io: Io)
    reads api, pei
  {
    && n in api.st.workers && api.st.workers[n].pc.Poll? && api.st.workers[n].pc.readyAt <= api.st.now
    && api.At(n, api.st.workers[n].pc, pei.Value(), pe)
    && io.fault.Done? && JobName(n) in api.st.jobs && api.st.jobs[JobName(n)].succeeded
  }

  lemma JobIsThere(api: Server, n: string)
    requires api.Valid() && api.undisturbed && n == api.subject && n in api.st.workers && api.st.workers[n].pc.Poll?
    ensures JobName(n) in api.st.jobs && (api.st.jobs[JobName(n)].failed ==> api.st.jobs[JobName(n)].succeeded)
  {
    hide Server.Valid, AtPc;
    api.OnTheWay(n);
  }

  method WaitForJob(api: Server, n: string, pei: Pei, pe: Spec) returns (r: Reply, io: Io)
    requires api.Valid() && n in api.st.workers && api.st.workers[n].pc.Poll? && api.st.workers[n].pc.readyAt <= api.st.now
    requires api.At(n, api.st.workers[n].pc, pei.Value(), pe)
    modifies api`st, api`script, api`trace, api`undisturbed
    ensures api.Valid() && FailedOrDown(api, n, pei, pe, r)
    ensures r.Fine? ==> JobDone(api, n, pei, pe, io)
    ensures old(api.Smooth(n, 10)) ==> r.Fine? && io.latest == api.latest && api.Smooth(n, 9)
  {
    hide Calm, FriendlyScript, Run, Step, Server.Valid, Do, Image;
    ghost var pc := api.st.workers[n].pc;
    while true
      invariant api.Valid() && api.At(n, pc, pei.Value(), pe) && pc.readyAt <= api.st.now
      invariant old(api.Smooth(n, 10)) ==> api.Smooth(n, 10)
      decreases |api.script|
    {
      var job;
      job, io := api.GetJob(n, JobName(n));
      if job.Gone? { return Down, io; }
      if old(api.Smooth(n, 10)) { JobIsThere(api, n); }
      if job.Found? && job.value.succeeded { return Fine, io; }
      PollGoesOn(api.st, n, api.st.workers[n], io);
      api.Advance(n, io);
      if !job.Found? || job.value.failed { return Error, io; }
      r := api.Sleep(n, SECOND);
      if r.Down? { return; }
    }
  }

  method AwaitJob(api: Server, n: string, pei: Pei, pe: Spec, ghost readyAt: nat) returns (r: Reply, io: Io)
    requires api.Valid() && Waiting(api, n, pei, pe, readyAt) && readyAt <= api.st.now + 10 * SECOND
    modifies api`st, api`script, api`trace, api`undisturbed
    ensures api.Valid() && FailedOrDown(api, n, pei, pe, r)
    ensures r.Fine? ==> JobDone(api, n, pei, pe, io)
    ensures old(api.Smooth(n, 11)) ==> r.Fine? && io.latest == api.latest && api.Smooth(n, 9)
  {
    hide Calm, FriendlyScript, Run, Step, Server.Valid, Do, JobDone;
    io := Io(Done, "", "", [], [], [], []);
    r := api.Sleep(n, 10 * SECOND);
    if r.Down? { return; }
    r, io := WaitForJob(api, n, pei, pe);
  }

  method CreateBuildJob(api: Server, n: string, pei: Pei, pe: Spec) returns (r: Reply)
    requires api.Valid() && api.At(n, CreateJob, pei.Value(), pe)
    modifies api`st, api`script, api`trace, api`undisturbed
    ensures api.Valid() && FailedOrDown(api, n, pei, pe, r)
    ensures r.Fine? ==> Waiting(api, n, pei, pe, api.st.now + 10 * SECOND)
    ensures old(api.Smooth(n, 1)) ==> r.Fine? && api.Smooth(n, |old(api.script)| - 1)
  {
    hide Calm, FriendlyScript, Run, Step, Server.Valid, Do, Image;
    r := api.CreateJob(n, JobName(n), Image(pe, pei.Value()));
  }

  /** The reconcile waits for its job, and does not look before `readyAt`. */
  predicate Waiting(api: Server, n: string, pei: Pei, pe: Spec, readyAt: nat)
    reads api, pei
  {
    api.At(n, Poll(readyAt), pei.Value(), pe)
  }

  /** Returns with success only when the job this call created has succeeded. */
  method BuildAndWait(api: Server, n: string, pei: Pei, pe: Spec) returns (r: Reply, io: Io)
    requires api.Valid() && api.At(n, StartJob, pei.Value(), pe)
    modifies api`st, api`script, api`trace, api`undisturbed
    ensures api.Valid() && FailedOrDown(api, n, pei, pe, r)
    ensures r.Fine? ==> JobDone(api, n, pei, pe, io)
    ensures old(api.Smooth(n, 20)) && JobName(n) !in api.s0.jobs ==> r.Fine? && io.latest == api.latest && api.Smooth(n, 9)
  {
    hide Calm, FriendlyScript, Run, Step, Server.Valid, Do, Image, FailedOrDown, Waiting, JobDone, Is;
    io := Io(Done, "", "", [], [], [], []);
    r := RemoveOldJob(api, n, pei, pe);
    if !r.Fine? { return; }
    r := CreateBuildJob(api, n, pei, pe);
    if !r.Fine? { return; }
    r, io := AwaitJob(api, n, pei, pe, api.st.now + 10 * SECOND);
  }

  /** The build is over and the write that marks the instance as deploying comes next. */
  predicate Built(api: Server, n: string, pei: Pei, pe: Spec)
    reads api, pei
  {
    n in api.st.workers && api.st.workers[n].pc.MarkDeploying? && api.st.workers[n].spec == pe
    && api.st.workers[n].mem == pei.Value().(phase := Deploying)
  }

  /** Either nothing was built, or the commit of `before` was: its image has been pushed, and the cache in memory is
      that of `before` with the commit recorded in it. */
  predicate Recorded(api: Server, n: string, before: Instance, pei: Pei, pe: Spec)
    reads api, pei
  {
    && n in api.st.workers && api.st.workers[n].pc.MarkDeploying?
    && match api.st.workers[n].pc.added {
      case None => pei.Value() == before
      case Some(added) =>
        && pei.Value() == before.(phase := Building, version := pei.version, built := pei.built)
        && added.tag == before.git.commitHash && UpdateResult(StoredAll(before.built), added, KEEP, pei.built)
        && Image(pe, before) in api.st.pushed
    }
  }

  predicate SameCache(before: Instance, pei: Pei)
    reads pei
  {
    pei.built == before.built || pei.built == StoredAll(before.built)
  }

  /** What a finished build is about to store has been pushed. */
  lemma BuiltIsPushed(api: Server, n: string)
    requires api.Valid() && n in api.st.workers
    ensures var w := api.st.workers[n]; w.pc.MarkDeploying? && w.pc.added.Some? ==> Image(w.spec, w.mem) in api.st.pushed
  {
    hide Run, Inv, OnItsWay, UpdateResult;
    RunOk(api.start, api.trace);
    WorkerFacts(api.st, n);
    var w := api.st.workers[n];
    if w.pc.MarkDeploying? && w.pc.added.Some? { ImageIsFamily(api.st.specs, api.st.pushed, n, w.base); }
  }

  /** The lookup by the bare name of the instance. */
  method LookUpJob(api: Server, n: string, pei: Pei, pe: Spec) returns (job: Found<Job>)
    requires api.Valid() && api.At(n, JobCheck, pei.Value(), pe)
    modifies api`st, api`script, api`trace, api`undisturbed
    ensures api.Valid()
    ensures match job {
              case Gone => n !in api.st.workers
              case Failure => api.At(n, MarkFailed, pei.Value().(phase := Failed), pe)
              case NotFound => api.At(n, MarkBuilding, pei.Value().(phase := Building), pe)
              case Found(found) =>
                if found.active then api.At(n, MarkDeploying(None), pei.Value().(phase := Deploying), pe)
                else if found.succeeded then api.At(n, DeleteBare, pei.Value(), pe)
                else api.At(n, MarkBuilding, pei.Value().(phase := Building), pe)
            }
    ensures old(api.Smooth(n, 1)) ==> job.NotFound? && api.Smooth(n, |old(api.script)| - 1)
  {
    hide Calm, FriendlyScript, Run, Step, Server.Valid, Do;
    var io;
    job, io := api.GetJob(n, n);
    if job.Gone? { return; }
    if old(api.Smooth(n, 1)) { NoBareJob(api, n, pei.Value(), pe); }
    NoteJob(api, n, pei, pe, job, io);
  }

  lemma NoBareJob(api: Server, n: string, i: Instance, pe: Spec)
    requires api.Valid() && api.undisturbed && n == api.subject && api.At(n, JobCheck, i, pe)
    ensures n !in api.st.jobs
  {
    hide Server.Valid;
    api.OnTheWay(n);
  }

  method NoteJob(api: Server, n: string, pei: Pei, pe: Spec, ghost job: Found<Job>, io: Io)
    requires api.Valid() && api.At(n, JobCheck, pei.Value(), pe)
    requires job == if !io.fault.Done? then Failure else if n in api.st.jobs then Found(api.st.jobs[n]) else NotFound
    modifies api`st, api`trace, api`undisturbed
    ensures api.Valid()
    ensures match job {
              case Gone => true
              case Failure => api.At(n, MarkFailed, pei.Value().(phase := Failed), pe)
              case NotFound => api.At(n, MarkBuilding, pei.Value().(phase := Building), pe)
              case Found(found) =>
                if found.active then api.At(n, MarkDeploying(None), pei.Value().(phase := Deploying), pe)
                else if found.succeeded then api.At(n, DeleteBare, pei.Value(), pe)
                else api.At(n, MarkBuilding, pei.Value().(phase := Building), pe)
            }
    ensures old(api.Smooth(n, 0)) && io.fault.Done? && io.latest == api.latest ==> api.Smooth(n, |old(api.script)|)
  {
    hide Calm, FriendlyScript, Run, Step, Server.Valid, Do;
    CheckGoesOn(api.st, n, api.st.workers[n], io);
    api.Advance(n, io);
  }

  lemma NothingBuilt(api: Server, n: string, pei: Pei, pe: Spec)
    requires api.At(n, MarkDeploying(None), pei.Value().(phase := Deploying), pe)
    ensures Built(api, n, pei, pe) && Recorded(api, n, pei.Value(), pei, pe)
  {
    hide UpdateResult, StoredAll;
  }

  /** `running` says that somebody else is building. */
  method CheckForJob(api: Server, n: string, pei: Pei, pe: Spec) returns (r: Reply, running: bool)
    requires api.Valid() && api.At(n, JobCheck, pei.Value(), pe)
    modifies api`st, api`script, api`trace, api`undisturbed
    ensures api.Valid() && FailedOrDown(api, n, pei, pe, r)
    ensures r.Fine? && running ==> Built(api, n, pei, pe) && Recorded(api, n, pei.Value(), pei, pe)
    ensures r.Fine? && !running ==> api.At(n, MarkBuilding, pei.Value().(phase := Building), pe)
    ensures old(api.Smooth(n, 1)) ==> r.Fine? && !running && api.Smooth(n, |old(api.script)| - 1)
  {
    hide Calm, FriendlyScript, Run, Step, Server.Valid, Do, Is, Built, Recorded;
    running := false;
    var job := LookUpJob(api, n, pei, pe);
    if job.Gone? { return Down, false; }
    if job.Failure? { return Error, false; }
    if job.Found? {
      if job.value.active {
        NothingBuilt(api, n, pei, pe);
        return Fine, true;
      }
      if job.value.succeeded {
        r := DeleteFinishedJob(api, n, pei, pe);
        return;
      }
    }
    return Fine, false;
  }

  method DeleteFinishedJob(api: Server, n: string, pei: Pei, pe: Spec) returns (r: Reply)
    requires api.Valid() && api.At(n, DeleteBare, pei.Value(), pe)
    modifies api`st, api`script, api`trace, api`undisturbed
    ensures api.Valid() && FailedOrDown(api, n, pei, pe, r)
    ensures r.Fine? ==> api.At(n, MarkBuilding, pei.Value().(phase := Building), pe)
  {
    hide Calm, FriendlyScript, Run, Step, Server.Valid, Do;
    var io;
    r, io := api.DeleteJob(n, n);
    if r.Down? { return; }
    CheckGoesOn(api.st, n, api.st.workers[n], io);
    api.Advance(n, io);
  }

  /** Adds the built commit to the cache; the time is that of the last look at the job. */
  method RecordBuild(api: Server, n: string, pei: Pei, pe: Spec, io: Io)
    requires api.Valid() && JobDone(api, n, pei, pe, io)
    modifies api`st, api`script, api`trace, api`undisturbed, pei
    ensures api.Valid() && Built(api, n, pei, pe)
    ensures var w := api.st.workers[n];
            && w.pc.added.Some? && w.pc.added.value.tag == pei.git.commitHash
            && UpdateResult(old(pei.built), w.pc.added.value, KEEP, pei.built)
    ensures pei.Value() == old(pei.Value()).(built := pei.built)
    ensures old(api.Smooth(n, 0)) && io.latest == api.latest ==> api.Smooth(n, |old(api.script)|)
  {
    hide Calm, FriendlyScript, Run, Step, Server.Valid, Do, UpdateResult;
    var built := UpdateBuiltVersions(pei.built, pei.git.commitHash, api.st.now, KEEP);
    SuccessGoesOn(api.st, n, api.st.workers[n], io.(built := built));
    api.Advance(n, io.(built := built));
    pei.built := built;
  }

  /** Marks as building, builds, and records the build in memory; until the created job has succeeded the cache is
      what it was. */
  method BuildContainerImage(api: Server, n: string, pei: Pei, pe: Spec) returns (r: Reply)
    requires api.Valid() && api.At(n, JobCheck, pei.Value(), pe)
    modifies api`st, api`script, api`trace, api`undisturbed, pei
    ensures api.Valid() && FailedOrDown(api, n, pei, pe, r)
    ensures r.Fine? ==> Built(api, n, pei, pe) && Recorded(api, n, old(pei.Value()), pei, pe)
    ensures !r.Fine? ==> SameCache(old(pei.Value()), pei)
    ensures old(api.Smooth(n, 22)) && JobName(n) !in api.s0.jobs ==> r.Fine? && api.Smooth(n, 9)
  {
    hide Calm, FriendlyScript, Run, Step, Server.Valid, Do, Built, JobDone, Recorded, StoredAll, UpdateResult, Is;
    ghost var before := pei.Value();
    var running, io;
    r, running := CheckForJob(api, n, pei, pe);
    if !r.Fine? || running { return; }
    r := MarkAsBuilding(api, n, pei, pe);
    if !r.Fine? { return; }
    r, io := BuildAndWait(api, n, pei, pe);
    if r.Fine? {
      RecordBuild(api, n, pei, pe, io);
      RecordedNow(api, n, before, pei, pe);
    }
  }

  method MarkAsBuilding(api: Server, n: string, pei: Pei, pe: Spec) returns (r: Reply)
    requires api.Valid() && api.At(n, MarkBuilding, pei.Value().(phase := Building), pe)
    modifies api`st, api`script, api`trace, api`undisturbed, pei
    ensures api.Valid() && FailedOrDown(api, n, pei, pe, r)
    ensures r.Fine? ==> api.At(n, StartJob, pei.Value(), pe)
    ensures r.Fine? ==> pei.Value() == old(pei.Value()).(phase := Building, version := pei.version, built := StoredAll(old(pei.built)))
    ensures !r.Fine? ==> pei.built == old(pei.built)
    ensures old(api.Smooth(n, 1)) ==> r.Fine? && api.Smooth(n, |old(api.script)| - 1)
  {
    hide Calm, FriendlyScript, Run, Step, Server.Valid, Do, StoredAll;
    pei.phase := Building;
    r := api.StatusUpdate(n, pei);
  }

  lemma RecordedNow(api: Server, n: string, before: Instance, pei: Pei, pe: Spec)
    requires api.Valid() && Built(api, n, pei, pe)
    requires pei.Value() == before.(phase := Building, version := pei.version, built := pei.built)
    requires var pc := api.st.workers[n].pc;
             && pc.added.Some? && pc.added.value.tag == before.git.commitHash
             && UpdateResult(StoredAll(before.built), pc.added.value, KEEP, pei.built)
    ensures Recorded(api, n, before, pei, pe)
  {
    BuiltIsPushed(api, n);
    hide UpdateResult, StoredAll, Server.Valid;
  }

  method BuiltAvailable(pei: Pei) returns (available: bool)
    ensures available <==> HasTag(pei.built, pei.git.commitHash)
  {
    available := false;
    for i := 0 to |pei.built|
      invariant !available && forall j | 0 <= j < i :: pei.built[j].tag != pei.git.commitHash
    {
      if pei.built[i].tag == pei.git.commitHash { return true; }
    }
  }

  /** Where a pending instance goes after its environment was loaded. */
  predicate AtRebuild(api: Server, n: string, pei: Pei, pe: Spec)
    reads api, pei
  {
    && n in api.st.workers
    && var loaded := api.st.workers[n].(pc := LoadEnv, mem := pei.Value(), spec := pe);
       Some(api.st.workers[n]) == StartRebuild(api.st, loaded).1
  }

  method RebuildInstance(api: Server, n: string, pei: Pei, pe: Spec) returns (r: Reply)
    requires api.Valid() && AtRebuild(api, n, pei, pe)
    modifies api`st, api`script, api`trace, api`undisturbed, pei
    ensures api.Valid() && FailedOrDown(api, n, pei, pe, r)
    ensures r.Fine? ==> Built(api, n, pei, pe) && Recorded(api, n, old(pei.Value()), pei, pe)
    ensures !r.Fine? ==> SameCache(old(pei.Value()), pei)
    ensures !Unbuilt(old(pei.Value())) ==> r.Fine? && api.st == old(api.st) && pei.Value() == old(pei.Value())
    ensures old(api.Smooth(n, 22)) && (Unbuilt(old(pei.Value())) ==> JobName(n) !in api.s0.jobs) ==> r.Fine? && api.Smooth(n, 9)
  {
    if pei.git.commitHash == "" { return Fine; }
    var available := BuiltAvailable(pei);
    if available { return Fine; }
    r := BuildContainerImage(api, n, pei, pe);
  }

  // ---------------------------------------------------------------- deploying

  /** Create-or-update of object `k`. */
  method DeployObject(api: Server, n: string, k: Slot, pei: Pei, pe: Spec) returns (r: Reply)
    requires api.Valid() && api.At(n, Put(k), pei.Value(), pe)
    modifies api`st, api`script, api`trace, api`undisturbed
    ensures api.Valid()
    ensures if r.Down? then n !in api.st.workers else HasPut(api.Own(n), k, r.Fine?, pei.Value(), pe)
    ensures old(api.Smooth(n, 2)) ==> r.Fine? && api.Smooth(n, |old(api.script)| - 2)
  {
    var existing := api.ObjectExists(n, SlotKey(k, n));
    if existing.Gone? { return Down; }
    r := api.WriteObject(n, k, !existing.Found?, SlotObject(k, pe, pei.Value()));
  }

  method DeployAuthProxy(api: Server, n: string, pei: Pei, pe: Spec) returns (r: Reply)
    requires api.Valid() && api.At(n, Put(2), pei.Value(), pe)
    modifies api`st, api`script, api`trace, api`undisturbed
    ensures api.Valid() && if r.Down? then n !in api.st.workers else api.At(n, Put(5), pei.Value(), pe)
    ensures old(api.Smooth(n, 6)) ==> r.Fine? && api.Smooth(n, |old(api.script)| - 6)
  {
    r := DeployObject(api, n, 2, pei, pe);
    if !r.Fine? { return; }
    r := DeployObject(api, n, 3, pei, pe);
    if !r.Fine? { return; }
    r := DeployObject(api, n, 4, pei, pe);
  }

  /** The address of the instance has been written into its status. */
  predicate Published(before: Instance, pei: Pei, pe: Spec)
    reads pei
  {
    pei.git == before.git && pei.phase == before.phase && pei.url == PublicUrl(pe, before)
  }

  method DeployIngress(api: Server, n: string, pei: Pei, pe: Spec) returns (r: Reply)
    requires api.Valid() && api.At(n, Put(5), pei.Value(), pe)
    modifies api`st, api`script, api`trace, api`undisturbed, pei
    ensures api.Valid() && FailedOrDown(api, n, pei, pe, r)
    ensures r.Fine? ==> api.At(n, Answer, pei.Value(), pe) && Published(old(pei.Value()), pei, pe)
    ensures old(api.Smooth(n, 3)) ==> r.Fine? && api.Smooth(n, |old(api.script)| - 3)
  {
    hide Calm, FriendlyScript, Run, Step, Server.Valid, Published;
    r := DeployObject(api, n, 5, pei, pe);
    if !r.Fine? { return; }
    r := PublishAddress(api, n, pei, pe);
  }

  method PublishAddress(api: Server, n: string, pei: Pei, pe: Spec) returns (r: Reply)
    requires api.Valid() && api.At(n, PublishUrl, pei.Value().(url := PublicUrl(pe, pei.Value())), pe)
    modifies api`st, api`script, api`trace, api`undisturbed, pei
    ensures api.Valid() && FailedOrDown(api, n, pei, pe, r)
    ensures r.Fine? ==> api.At(n, Answer, pei.Value(), pe) && Published(old(pei.Value()), pei, pe)
    ensures old(api.Smooth(n, 1)) ==> r.Fine? && api.Smooth(n, |old(api.script)| - 1)
  {
    hide Calm, FriendlyScript, Run, Step, Server.Valid, StoredAll;
    pei.url := "https://" + pe.hostname + PathOf(pe, pei.Value());
    r := api.StatusUpdate(n, pei);
  }

  method DeployEnvironmentInstance(api: Server, n: string, pei: Pei, pe: Spec) returns (r: Reply)
    requires api.Valid() && api.At(n, Put(0), pei.Value(), pe)
    modifies api`st, api`script, api`trace, api`undisturbed, pei
    ensures api.Valid() && FailedOrDown(api, n, pei, pe, r)
    ensures r.Fine? ==> api.At(n, Answer, pei.Value(), pe) && Published(old(pei.Value()), pei, pe)
    ensures old(api.Smooth(n, 13)) ==> r.Fine? && api.Smooth(n, |old(api.script)| - 13)
  {
    hide Calm, FriendlyScript, Run, Step, Server.Valid, Published;
    r := DeployObject(api, n, 0, pei, pe);
    if !r.Fine? { return; }
    r := DeployObject(api, n, 1, pei, pe);
    if !r.Fine? { return; }
    r := DeployAuthProxy(api, n, pei, pe);
    if r.Down? { return; }
    r := DeployIngress(api, n, pei, pe);
  }

  lemma AuthGoesOn(s: State, n: string, w: Worker, io: Io)
    requires w.pc == Authenticate
    ensures Do(s, n, w, io).1 == if io.fault.Done? then Goto(s, w, Put(0)).1 else Fail(s, w).1
  {
  }

  method MarkAsDeploying(api: Server, n: string, pei: Pei, pe: Spec) returns (r: Reply)
    requires api.Valid() && pei.phase == Deploying && api.At(n, BeginDeploy, pei.Value(), pe)
    modifies api`st, api`script, api`trace, api`undisturbed, pei
    ensures api.Valid() && FailedOrDown(api, n, pei, pe, r)
    ensures r.Fine? ==> api.At(n, Authenticate, pei.Value(), pe) && pei.git == old(pei.git)
    ensures old(api.Smooth(n, 1)) ==> r.Fine? && api.Smooth(n, |old(api.script)| - 1)
  {
    hide Calm, FriendlyScript, Run, Step, Server.Valid, Do, StoredAll;
    pei.phase := Deploying;
    r := api.StatusUpdate(n, pei);
  }

  /** Gets the proxy its client. */
  method CreateClient(api: Server, n: string, pei: Pei, pe: Spec) returns (r: Reply)
    requires api.Valid() && api.At(n, Authenticate, pei.Value(), pe)
    modifies api`st, api`script, api`trace, api`undisturbed
    ensures api.Valid() && FailedOrDown(api, n, pei, pe, r)
    ensures r.Fine? ==> api.At(n, Put(0), pei.Value(), pe)
    ensures old(api.Smooth(n, 1)) ==> r.Fine? && api.Smooth(n, |old(api.script)| - 1)
  {
    hide Calm, FriendlyScript, Run, Step, Server.Valid, Do;
    var io;
    r, io := api.Call(n);
    if r.Down? { return; }
    AuthGoesOn(api.st, n, api.st.workers[n], io);
    api.Advance(n, io);
  }

  /** All six objects of an instance that an undisturbed reconcile has deployed. */
  lemma NowDeployed(api: Server, n: string)
    requires api.Valid() && api.undisturbed && n == api.subject && n in api.st.workers && api.st.workers[n].pc == Answer
    ensures var w := api.st.workers[n]; w.mem.git.commitHash != "" ==> Deployed(api.st.objects, n, w.spec, w.mem, 6)
  {
    hide Server.Valid, Deployed, PublicUrl, Tags, OwnObjects, BuildsOf;
    api.OnTheWay(n);
    var w := api.st.workers[n];
    DeployedOwn(api.st.objects, n, w.spec, api.s0.insts[n], 6);
    if w.mem.git.commitHash != "" { DeployedForGit(api.st.objects, n, w.spec, api.s0.insts[n], w.mem); }
  }

  lemma DeployedForGit(objects: map<ObjectKey, ClusterObject>, n: string, spec: Spec, i: Instance, j: Instance)
    requires Deployed(objects, n, spec, i, 6) && i.git == j.git
    ensures Deployed(objects, n, spec, j, 6)
  {
    forall k: Slot ensures SlotObject(k, spec, i) == SlotObject(k, spec, j) { SameSlotObject(k, spec, i, j); }
    hide SlotKey, SlotObject;
  }

  /** Unless there is no commit yet, deploys all six objects and publishes the URL; errors of the proxy's objects are
      passed over, all others leave the reconcile about to mark the instance as failed. */
  method RedeployInstance(api: Server, n: string, pei: Pei, pe: Spec) returns (r: Reply)
    requires api.Valid() && pei.phase == Deploying
    requires api.At(n, if pei.git.commitHash == "" then Answer else BeginDeploy, pei.Value(), pe)
    modifies api`st, api`script, api`trace, api`undisturbed, pei
    ensures api.Valid() && FailedOrDown(api, n, pei, pe, r)
    ensures r.Fine? ==> api.At(n, Answer, pei.Value(), pe)
    ensures r.Fine? && pei.git.commitHash != "" ==> pei.git == old(pei.git) && pei.url == PublicUrl(pe, pei.Value())
    ensures r.Fine? && pei.git.commitHash != "" && pei.git.pullRequestNumber.Some? ==>
              ShowsUrl(pei.url, pe, Itoa(pei.git.pullRequestNumber.value), pei.git.commitHash)
    ensures old(pei.git.commitHash) == "" ==> r.Fine? && api.st == old(api.st) && pei.Value() == old(pei.Value())
    ensures old(api.Smooth(n, 15)) ==>
              && r.Fine? && api.Smooth(n, |old(api.script)| - 15)
              && (pei.git.commitHash != "" ==> Deployed(api.st.objects, n, pe, pei.Value(), 6))
              && (pei.git.commitHash != "" && pei.git.pullRequestNumber.Some? ==>
                   Serving(api.st.objects, n, pei.url, pe, Itoa(pei.git.pullRequestNumber.value), pei.git.commitHash))
  {
    hide Calm, FriendlyScript, Run, Step, Server.Valid, Do, Deployed, PublicUrl, SlotObject, ShowsUrl, Serving;
    if pei.git.commitHash == "" { return Fine; }
    r := MarkAsDeploying(api, n, pei, pe);
    if !r.Fine? { return; }
    r := CreateClient(api, n, pei, pe);
    if !r.Fine? { return; }
    ghost var before := pei.Value();
    r := DeployEnvironmentInstance(api, n, pei, pe);
    if r.Fine? { SameSlotObject(0, pe, before, pei.Value()); }
    if r.Fine? && api.Smooth(n, 0) { NowDeployed(api, n); }
    if r.Fine? && pei.git.pullRequestNumber.Some? {
      UrlShows(pe, pei.Value(), pei.git.pullRequestNumber.value);
      if api.Smooth(n, 0) && pei.git.commitHash != "" { DeployedServes(api.st.objects, n, pe, pei.Value(), pei.git.pullRequestNumber.value); }
    }
  }

  lemma AnswerGoesOn(s: State, n: string, w: Worker, io: Io)
    requires w.pc == Answer
    ensures Do(s, n, w, io).1 ==
            if w.mem.git.pullRequestNumber.None? then None
            else if io.fault.Done? then Mark(s, w, MarkRunning, Running).1 else Fail(s, w).1
  {
  }

  lemma HasNumber(api: Server, n: string)
    requires api.Valid() && api.undisturbed && n == api.subject && n in api.st.workers && api.st.workers[n].pc == Answer
    ensures api.st.workers[n].mem.git.pullRequestNumber.Some?
  {
    hide Server.Valid, Reached;
    api.OnTheWay(n);
  }

  /** Without a pull request number the source dereferences nil and the reconcile dies. */
  method UpdatePullRequestAnswer(api: Server, n: string, pei: Pei, pe: Spec) returns (r: Reply)
    requires api.Valid() && api.At(n, Answer, pei.Value(), pe)
    modifies api`st, api`script, api`trace, api`undisturbed
    ensures api.Valid() && FailedOrDown(api, n, pei, pe, r)
    ensures r.Fine? ==> api.At(n, MarkRunning, pei.Value().(phase := Running), pe)
    ensures old(api.Smooth(n, 1)) ==> r.Fine? && api.Smooth(n, |old(api.script)| - 1)
  {
    hide Calm, FriendlyScript, Run, Step, Server.Valid, Do;
    var io;
    r, io := api.Call(n);
    if r.Down? { return; }
    if old(api.Smooth(n, 1)) { HasNumber(api, n); }
    AnswerGoesOn(api.st, n, api.st.workers[n], io);
    api.Advance(n, io);
    if pei.git.pullRequestNumber.None? { return Down; }
  }

  // ---------------------------------------------------------------- Reconcile

  lemma LoadGoesOn(s: State, n: string, w: Worker, io: Io)
    requires w.pc == LoadEnv
    ensures var uid := w.mem.labels.environment; var o := Do(s, n, w, io).1;
            && (!io.fault.Done? ==> o == None)
            && (io.fault.Done? && io.env in s.envs && s.envs[io.env].uid == uid ==> o == Dispatch(s, w.(spec := s.envs[io.env].spec)).1)
            && ((forall e | e in s.envs :: s.envs[e].uid != uid) ==> o == None)
  {
    hide Dispatch;
  }

  /** The position of the first environment with the id, or the length. */
  method FindEnvironment(items: seq<(string, Environment)>, uid: nat) returns (i: nat)
    ensures i <= |items| && (i < |items| ==> items[i].1.uid == uid)
    ensures forall j | 0 <= j < i :: items[j].1.uid != uid
  {
    for k := 0 to |items|
      invariant forall j | 0 <= j < k :: items[j].1.uid != uid
    {
      if items[k].1.uid == uid { return k; }
    }
    return |items|;
  }

  lemma EnvironmentIsThere(api: Server, n: string)
    requires api.Valid() && api.undisturbed && n == api.subject && n in api.st.workers
    ensures HasEnv(api.st, api.st.workers[n].mem.labels.environment)
  {
    hide Server.Valid, Reached, AtPc;
    api.OnTheWay(n);
  }

  method LoadPreviewEnvironment(api: Server, n: string, pei: Pei) returns (r: Found<Spec>)
    requires api.Valid() && n in api.st.workers && api.st.workers[n].pc == LoadEnv && api.st.workers[n].mem == pei.Value()
    modifies api`st, api`script, api`trace, api`undisturbed
    ensures api.Valid()
    ensures !r.Found? ==> n !in api.st.workers
    ensures r.Found? ==> Dispatched(api, n, pei, r.value)
    ensures old(api.Smooth(n, 1)) ==> r.Found? && api.Smooth(n, |old(api.script)| - 1)
  {
    hide Calm, FriendlyScript, Run, Step, Server.Valid, Do, HasEnv, Lists, Dispatched;
    var list, io := api.ListEnvironments(n);
    if list.Gone? { return Gone; }
    if list.Failure? {
      LoadGoesOn(api.st, n, api.st.workers[n], io);
      api.Advance(n, io);
      return Failure;
    }
    if old(api.Smooth(n, 1)) { EnvironmentIsThere(api, n); }
    r := ChooseEnvironment(api, n, pei, list.value, io);
  }

  /** Where a reconcile goes once it has loaded the settings. */
  function AfterDispatch(w: Worker): Worker {
    match w.mem.phase
    case Pending => if Unbuilt(w.mem) then w.(pc := JobCheck) else w.(pc := MarkDeploying(None), mem := w.mem.(phase := Deploying))
    case Deploying => w.(pc := if w.mem.git.commitHash == "" then Answer else BeginDeploy)
    case _ => w.(pc := Latest)
  }

  lemma DispatchIs(s: State, w: Worker)
    ensures Dispatch(s, w).1 == Some(AfterDispatch(w))
  {
  }

  lemma NowDispatched(api: Server, n: string, pei: Pei, w: Worker)
    requires api.Own(n) == Some(AfterDispatch(w)) && w.pc == LoadEnv && w.mem == pei.Value()
    ensures Dispatched(api, n, pei, w.spec)
  {
  }

  method ChooseEnvironment(api: Server, n: string, pei: Pei, items: seq<(string, Environment)>, io: Io) returns (r: Found<Spec>)
    requires api.Valid() && n in api.st.workers && api.st.workers[n].pc == LoadEnv && api.st.workers[n].mem == pei.Value()
    requires Lists(items, api.st.envs) && io.fault.Done?
    modifies api`st, api`trace, api`undisturbed
    ensures api.Valid()
    ensures !r.Found? ==> n !in api.st.workers
    ensures r.Found? ==> Dispatched(api, n, pei, r.value)
    ensures HasEnv(old(api.st), pei.labels.environment) ==> r.Found?
    ensures old(api.Smooth(n, 0)) && io.latest == api.latest ==> api.Smooth(n, 0)
  {
    hide Calm, FriendlyScript, Run, Step, Server.Valid, Do, Dispatch, Dispatched, AfterDispatch;
    var i := FindEnvironment(items, pei.labels.environment);
    if i == |items| {
      assert forall e | e in api.st.envs :: (e, api.st.envs[e]) in items;
      LoadGoesOn(api.st, n, api.st.workers[n], io);
      api.Advance(n, io);
      return NotFound;
    }
    assert items[i] in items;
    ghost var loaded := api.st.workers[n].(spec := items[i].1.spec);
    LoadGoesOn(api.st, n, api.st.workers[n], io.(env := items[i].0));
    DispatchIs(api.st, loaded);
    api.Advance(n, io.(env := items[i].0));
    NowDispatched(api, n, pei, loaded);
    return Found(items[i].1.spec);
  }

  /** The reconcile has chosen its branch by the phase of the instance. */
  predicate Dispatched(api: Server, n: string, pei: Pei, pe: Spec)
    reads api, pei
  {
    && (pei.phase == Pending ==> AtRebuild(api, n, pei, pe))
    && (pei.phase == Deploying ==> api.At(n, if pei.git.commitHash == "" then Answer else BeginDeploy, pei.Value(), pe))
    && (pei.phase != Pending && pei.phase != Deploying ==> api.At(n, Latest, pei.Value(), pe))
  }

  method FailUnlessDown(api: Server, n: string, pei: Pei, pe: Spec, r: Reply)
    requires api.Valid() && !r.Fine? && FailedOrDown(api, n, pei, pe, r)
    modifies api`st, api`script, api`trace, api`undisturbed, pei
    ensures api.Valid() && n !in api.st.workers
  {
    if r.Error? { var _ := MarkWithStatus(api, n, pei, Failed); }
  }

  lemma LatestGoesOn(s: State, n: string, w: Worker, io: Io, known: bool)
    requires w.pc == Latest
    requires known <==> w.mem.git.pullRequestNumber.None? || !io.fault.Done? || io.latest == w.mem.git.commitHash
    ensures var o := Do(s, n, w, io).1;
            if known then o == None else Is(o, WriteHash, w.mem.(git := w.mem.git.(commitHash := io.latest)), w.spec)
  {
  }

  /** What an undisturbed refresh leaves: the latest commit, to be built if it is a new one. */
  predicate Refreshed(before: Instance, after: Instance, h: string) {
    && after.git == before.git.(commitHash := h)
    && after.phase == if before.git.commitHash == h then before.phase else Pending
  }

  /** A refresh of instance `i` is what the reconcile that began in `s0` has to do. */
  predicate ToRefresh(s0: State, n: string, i: Instance) {
    n in s0.insts && i.git == s0.insts[n].git && i.phase == s0.insts[n].phase && i.phase != Pending && i.phase != Deploying
  }

  lemma RefreshStarts(api: Server, n: string, i: Instance, pe: Spec)
    requires api.Valid() && api.undisturbed && n == api.subject && api.At(n, Latest, i, pe)
    ensures ToRefresh(api.s0, n, i)
  {
    hide Server.Valid;
    api.OnTheWay(n);
  }

  lemma RefreshEnds(api: Server, n: string, i: Instance)
    requires api.Valid() && api.undisturbed && n == api.subject && n !in api.st.workers && ToRefresh(api.s0, n, i)
    ensures n in api.st.insts && Refreshed(i, api.st.insts[n], api.latest)
  {
    hide Server.Valid;
    UndisturbedReconcile(api);
  }

  /** The latest commit of the pull request, unless it is the one the instance has or nobody can tell. */
  method NewCommit(api: Server, n: string, pei: Pei, pe: Spec) returns (latest: Option<string>)
    requires api.Valid() && api.At(n, Latest, pei.Value(), pe)
    modifies api`st, api`script, api`trace, api`undisturbed
    ensures api.Valid()
    ensures latest.None? ==> n !in api.st.workers
    ensures latest.Some? ==> api.At(n, WriteHash, pei.Value().(git := pei.git.(commitHash := latest.value)), pe)
    ensures old(api.Smooth(n, 1)) ==> api.Smooth(n, |old(api.script)| - 1)
  {
    hide Calm, FriendlyScript, Run, Step, Server.Valid, Do;
    var r, io := api.Call(n);
    if r.Down? { return None; }
    latest := CompareCommit(api, n, pei, pe, io);
  }

  method CompareCommit(api: Server, n: string, pei: Pei, pe: Spec, io: Io) returns (latest: Option<string>)
    requires api.Valid() && api.At(n, Latest, pei.Value(), pe)
    modifies api`st, api`trace, api`undisturbed
    ensures api.Valid()
    ensures latest.None? ==> n !in api.st.workers
    ensures latest.Some? ==> api.At(n, WriteHash, pei.Value().(git := pei.git.(commitHash := latest.value)), pe)
    ensures old(api.Smooth(n, 0)) && io.fault.Done? && io.latest == api.latest ==> api.Smooth(n, |old(api.script)|)
  {
    hide Calm, FriendlyScript, Run, Step, Server.Valid, Do;
    var known := pei.git.pullRequestNumber.None? || !io.fault.Done? || io.latest == pei.git.commitHash;
    LatestGoesOn(api.st, n, api.st.workers[n], io, known);
    api.Advance(n, io);
    return if known then None else Some(io.latest);
  }

  method RefreshCommitHash(api: Server, n: string, pei: Pei, pe: Spec)
    requires api.Valid() && api.At(n, Latest, pei.Value(), pe) && pei.finalizer
    modifies api`st, api`script, api`trace, api`undisturbed, pei
    ensures api.Valid() && n !in api.st.workers
    ensures old(api.Smooth(n, 3)) ==>
              && api.Smooth(n, 0)
              && n in api.st.insts && Refreshed(old(pei.Value()), api.st.insts[n], api.latest)
  {
    hide Calm, FriendlyScript, Run, Step, Server.Valid, Do, Refreshed, ToRefresh, Is;
    if api.Smooth(n, 3) { RefreshStarts(api, n, pei.Value(), pe); }
    var latest := NewCommit(api, n, pei, pe);
    if latest.Some? { StoreCommitHash(api, n, pei, pe, latest.value); }
    if old(api.Smooth(n, 3)) { RefreshEnds(api, n, old(pei.Value())); }
  }

  method StoreCommitHash(api: Server, n: string, pei: Pei, pe: Spec, latest: string)
    requires api.Valid() && pei.finalizer
    requires api.At(n, WriteHash, pei.Value().(git := pei.git.(commitHash := latest)), pe)
    modifies api`st, api`script, api`trace, api`undisturbed, pei
    ensures api.Valid() && n !in api.st.workers
    ensures old(api.Smooth(n, 2)) ==> api.Smooth(n, 0)
  {
    hide Calm, FriendlyScript, Run, Step, Server.Valid, Do;
    pei.git := pei.git.(commitHash := latest);
    var r := api.Update(n, pei);
    if !r.Fine? { return; }
    r := MarkWithStatus(api, n, pei, Pending);
  }

  method Finalize(api: Server, n: string, pei: Pei)
    requires api.Valid() && api.At(n, Del(0), pei.Value(), NO_SPEC) && pei.finalizer
    modifies api`st, api`script, api`trace, api`undisturbed, pei
    ensures api.Valid() && n !in api.st.workers
  {
    hide Calm, FriendlyScript, Run, Step, Server.Valid, Swept;
    var r := DeleteResources(api, n, pei);
    if r.Down? { return; }
    pei.finalizer := false;
    r := api.Update(n, pei);
  }

  /** The next reconcile has a job to create. */
  predicate NeedsBuild(i: Instance) { i.phase == Pending && Unbuilt(i) }

  method ReconcilePending(api: Server, n: string, pei: Pei, pe: Spec)
    requires api.Valid() && AtRebuild(api, n, pei, pe)
    modifies api`st, api`script, api`trace, api`undisturbed, pei
    ensures api.Valid() && n !in api.st.workers
    ensures old(api.Smooth(n, 22)) && (Unbuilt(old(pei.Value())) ==> JobName(n) !in api.s0.jobs) ==> api.Smooth(n, 0)
  {
    hide Calm, FriendlyScript, Run, Step, Server.Valid, AtRebuild, Recorded, SameCache;
    var r := RebuildInstance(api, n, pei, pe);
    if r.Fine? { r := MarkWithStatus(api, n, pei, Deploying); } else { FailUnlessDown(api, n, pei, pe, r); }
  }

  method ReconcileDeploying(api: Server, n: string, pei: Pei, pe: Spec)
    requires api.Valid() && pei.phase == Deploying
    requires api.At(n, if pei.git.commitHash == "" then Answer else BeginDeploy, pei.Value(), pe)
    modifies api`st, api`script, api`trace, api`undisturbed, pei
    ensures api.Valid() && n !in api.st.workers
    ensures old(api.Smooth(n, 17)) ==> api.Smooth(n, 0)
  {
    hide Calm, FriendlyScript, Run, Step, Server.Valid, Deployed, PublicUrl;
    var r := RedeployInstance(api, n, pei, pe);
    if r.Fine? { r := UpdatePullRequestAnswer(api, n, pei, pe); }
    if r.Fine? { r := MarkWithStatus(api, n, pei, Running); } else { FailUnlessDown(api, n, pei, pe, r); }
  }

  /** The branch of the instance's phase. */
  method ReconcilePhase(api: Server, n: string, pei: Pei, pe: Spec)
    requires api.Valid() && Dispatched(api, n, pei, pe) && pei.finalizer
    modifies api`st, api`script, api`trace, api`undisturbed, pei
    ensures api.Valid() && n !in api.st.workers
    ensures old(api.Smooth(n, 22)) && (NeedsBuild(old(pei.Value())) ==> JobName(n) !in api.s0.jobs) ==> api.Smooth(n, 0)
  {
    hide Calm, FriendlyScript, Run, Step, Server.Valid, AtRebuild, Refreshed;
    if pei.phase == Pending {
      ReconcilePending(api, n, pei, pe);
    } else if pei.phase == Deploying {
      ReconcileDeploying(api, n, pei, pe);
    } else {
      RefreshCommitHash(api, n, pei, pe);
    }
  }

  method EnsureFinalizer(api: Server, n: string, pei: Pei) returns (r: Reply)
    requires api.Valid() && !pei.finalizer && api.At(n, AddFinalizer, pei.Value().(finalizer := true), NO_SPEC)
    modifies api`st, api`script, api`trace, api`undisturbed, pei
    ensures api.Valid()
    ensures if r.Fine? then pei.finalizer && api.At(n, LoadEnv, pei.Value(), NO_SPEC) else n !in api.st.workers
    ensures old(api.Smooth(n, 1)) ==>
              && r.Fine? && api.Smooth(n, |old(api.script)| - 1)
              && (NeedsBuild(pei.Value()) ==> NeedsBuild(old(pei.Value())))
  {
    hide Calm, FriendlyScript, Run, Step, Server.Valid, NO_SPEC;
    pei.finalizer := true;
    if api.Smooth(n, 1) { StillUnbuilt(api, n); }
    r := api.Update(n, pei);
    if old(api.Smooth(n, 1)) { StillUnbuilt(api, n); }
  }

  /** The instance as an undisturbed reconcile first wrote it needs a build if and only if it did when it began. */
  lemma StillUnbuilt(api: Server, n: string)
    requires api.Valid() && api.undisturbed && n == api.subject && n in api.st.workers
    requires api.st.workers[n].pc.AddFinalizer? || api.st.workers[n].pc.LoadEnv?
    ensures n in api.s0.insts && (NeedsBuild(api.st.workers[n].mem) <==> NeedsBuild(api.s0.insts[n]))
  {
    hide Server.Valid;
    api.OnTheWay(n);
  }

  /** Everything after the instance was read. */
  method ReconcileInstance(api: Server, n: string, pei: Pei)
    requires api.Valid()
    requires match FirstPc(pei.Value()) {
               case Some((pc, mem)) => api.At(n, pc, mem, NO_SPEC)
               case None => n !in api.st.workers
             }
    modifies api`st, api`script, api`trace, api`undisturbed, pei
    ensures api.Valid() && n !in api.st.workers
    ensures old(api.Smooth(n, LAST - 1)) && !old(pei.deleting) && (NeedsBuild(old(pei.Value())) ==> JobName(n) !in api.s0.jobs) ==>
              api.Smooth(n, 0)
  {
    hide Calm, FriendlyScript, Run, Step, Server.Valid, NeedsBuild, Dispatched, NO_SPEC;
    var r;
    if pei.deleting {
      if pei.finalizer { Finalize(api, n, pei); }
      return;
    }
    if !pei.finalizer {
      r := EnsureFinalizer(api, n, pei);
      if !r.Fine? { return; }
    }
    var found := LoadPreviewEnvironment(api, n, pei);
    if !found.Found? { return; }
    ReconcilePhase(api, n, pei, found.value);
  }

  /** An instance of a pull request that is free to be reconciled, with its environment in place and, if the next thing
      to do is a build, no job of an earlier one. */
  predicate Unhindered(s: State, n: string) {
    Idle(s, n) && (NeedsBuild(s.insts[n]) ==> JobName(n) !in s.jobs)
  }

  lemma UnhinderedFacts(s: State, s0: State, n: string)
    requires Unhindered(s, n) && SameCluster(s, s0)
    ensures Idle(s, n) && n in s.insts && !s.insts[n].deleting && (NeedsBuild(s.insts[n]) ==> JobName(n) !in s0.jobs)
  {
  }

  /** Reconciles of one key never overlap; with everything else this may interleave in any way. And on a friendly
      script that is long enough it brings an unhindered instance exactly one step further, whenever the clock moves and
      the build job reports, and leaves every other instance as it was. */
  method Reconcile(api: Server, n: string, ghost h: string)
    requires api.Valid() && n !in api.st.workers
    modifies api
    ensures api.Valid() && n !in api.st.workers
    ensures FriendlyScript(old(api.script), n, h) && |old(api.script)| >= LAST && Unhindered(old(api.st), n) ==>
              && Here(old(api.st), api.st, n) && Elsewhere(old(api.st), api.st, n)
              && Accomplished(ViewOf(old(api.st), n), ViewOf(api.st, n), n, h, SpecOf(old(api.st), n))
  {
    hide Run, Step, Server.Valid, Accomplished, Calm, Idle, FriendlyScript, Unhindered, NeedsBuild, SameCluster;
    api.Watch(n, h);
    ghost var friendly := FriendlyScript(api.script, n, h) && |api.script| >= LAST && Unhindered(api.st, n);
    if friendly { UnhinderedFacts(api.st, api.st, n); }
    var got := api.Get(n);
    if got.Found? {
      if friendly { UnhinderedFacts(old(api.st), api.s0, n); }
      ReconcileInstance(api, n, got.value);
    }
    if friendly {
      UndisturbedReconcile(api);
      AccomplishedFrom(old(api.st), api.s0, api.st, n, h);
    }
  }

  lemma AccomplishedFrom(s: State, s0: State, t: State, n: string, h: string)
    requires SameCluster(s, s0) && Here(s0, t, n) && Elsewhere(s0, t, n) && Accomplished(ViewOf(s0, n), ViewOf(t, n), n, h, SpecOf(s0, n))
    ensures Here(s, t, n) && Elsewhere(s, t, n) && Accomplished(ViewOf(s, n), ViewOf(t, n), n, h, SpecOf(s, n))
  {
    hide Deployed, Unbuilt, OwnObjects, OtherObjects;
  }

  lemma UndisturbedReconcile(api: Server)
    requires api.Valid() && api.undisturbed && api.subject !in api.st.workers
    ensures var n := api.subject;
            && Here(api.s0, api.st, n) && Elsewhere(api.s0, api.st, n)
            && Accomplished(ViewOf(api.s0, n), ViewOf(api.st, n), n, api.latest, SpecOf(api.s0, n))
  {
    hide Run, Accomplished, Reached;
  }

  /** So whatever the reconciler did, alone or not: what an app Deployment runs was pushed by a finished build. */
  lemma ServersRunWhatWasBuilt(api: Server, name: string)
    requires api.Valid() && !EndsWith(name, PROXY_SUFFIX) && ObjectKey(Deployment, name) in api.st.objects
    ensures var o := api.st.objects[ObjectKey(Deployment, name)];
            o.Workload? && o.image in api.st.pushed && MadeFor(api.st.specs, name, o.image)
  {
    hide OnItsWay;
    BuiltAtEnd(api.start, api.trace, name);
  }
}

/** Undisturbed reconciles exist: from every reachable state one can be brought to its end. */
module Completion {
  import opened Text
  import opened Naming
  import opened Versions
  import opened Cluster
  import opened Safety
  import opened Effects
  import opened Undisturbed
  import opened History
  import opened Convergence

  /** Positions in the order in which an undisturbed reconcile passes them, latest first. */
  function Place(pc: Pc): nat {
    match pc
    case AddFinalizer => 30
    case LoadEnv => 29
    case JobCheck => 28
    case DeleteBare => 27
    case MarkBuilding => 26
    case StartJob => 25
    case DeleteJob => 24
    case WaitGone => 23
    case CreateJob => 22
    case Poll(_) => 21
    case MarkDeploying(_) => 20
    case BeginDeploy => 19
    case Authenticate => 18
    case Put(k) => 17 - k
    case PublishUrl => 11
    case Answer => 10
    case MarkRunning => 9
    case Latest => 8
    case WriteHash => 7
    case MarkPending => 6
    case MarkFailed => 0
    case Del(k) => 0
    case RemoveFinalizer => 0
  }

  /** The place, and what the world still has to do before the reconcile can leave it. */
  function Rank(s: State, n: string): nat
    requires n in s.workers
  {
    var pc := s.workers[n].pc;
    var job := JobName(n) in s.jobs;
    3 * Place(pc) + if pc.WaitGone? && job then 1
                else if pc.Poll? && s.now < pc.readyAt then 2
                else if pc.Poll? && !(job && s.jobs[JobName(n)].succeeded) then 1 else 0
  }

  /** The world has done its part: the next call gets the reconcile on. */
  predicate Due(s: State, n: string, io: Io)
    requires n in s.workers
  {
    var w := s.workers[n];
    match w.pc
    case LoadEnv => io.env in s.envs && s.envs[io.env].uid == w.mem.labels.environment
    case WaitGone => JobName(n) !in s.jobs
    case Poll(readyAt) =>
      && s.now >= readyAt && JobName(n) in s.jobs && s.jobs[JobName(n)].succeeded
      && UpdateResult(w.mem.built, BuiltVersion(w.mem.git.commitHash, s.now), KEEP, io.built)
    case _ => true
  }

  predicate Lower(pc: Pc, o: Option<Worker>) { o.Some? ==> Place(o.value.pc) < Place(pc) }

  lemma WriteLowers(s: State, n: string, w: Worker, io: Io)
    requires AtPc(w) && n in s.insts && w.base == s.insts[n] && io.fault.Done?
    requires WritesStatus(w.pc) || w.pc.AddFinalizer? || w.pc.WriteHash? || w.pc.Put?
    ensures Lower(w.pc, Do(s, n, w, io).1)
  {
    hide Do, AtPc;
    if WritesStatus(w.pc) {
      StatusMoves(s, n, w, io);
    } else if w.pc.Put? {
      PutMoves(s, n, w, w.pc.k, io);
    } else {
      SpecMoves(s, n, w, io);
    }
  }

  predicate AboutJob(pc: Pc) {
    pc == JobCheck || pc == StartJob || pc == DeleteJob || pc == WaitGone || pc == CreateJob || pc.Poll?
  }

  lemma JobLowers(s0: State, s: State, n: string, h: string, io: Io)
    requires Going(s0, s, n, h, io) && n in s.workers && Due(s, n, io)
    requires AboutJob(s.workers[n].pc)
    ensures Lower(s.workers[n].pc, Do(s, n, s.workers[n], io).1)
  {
    hide Going, Deployed, Tags, Unbuilt, UpdateResult, AtPc, Undisturbed.Reached;
    BareJobMisses(s0, s, n, h, io);
    GoingFacts(s0, s, n, h, io);
  }

  lemma LoadLowers(s0: State, s: State, n: string, h: string, io: Io)
    requires Going(s0, s, n, h, io) && n in s.workers && Due(s, n, io) && s.workers[n].pc == LoadEnv
    ensures Lower(s.workers[n].pc, Do(s, n, s.workers[n], io).1)
  {
    hide Going, Reached, Unbuilt, HasTag;
    GoingFacts(s0, s, n, h, io);
  }

  lemma CallLowers(s0: State, s: State, n: string, h: string, io: Io)
    requires Going(s0, s, n, h, io) && n in s.workers
    requires var pc := s.workers[n].pc; pc == Authenticate || pc == Answer || pc == Latest
    ensures Lower(s.workers[n].pc, Do(s, n, s.workers[n], io).1)
  {
    hide Going, Reached, AtPc;
    GoingFacts(s0, s, n, h, io);
  }

  lemma WorkLowers(s0: State, s: State, n: string, h: string, io: Io)
    requires Going(s0, s, n, h, io) && n in s.workers && Due(s, n, io)
    ensures Lower(s.workers[n].pc, Do(s, n, s.workers[n], io).1)
  {
    hide Going, Do, Due, Here, AtPc, Lower;
    GoingFacts(s0, s, n, h, io);
    var w := s.workers[n];
    if WritesStatus(w.pc) || w.pc.AddFinalizer? || w.pc.WriteHash? || w.pc.Put? {
      WriteLowers(s, n, w, io);
    } else if w.pc == LoadEnv {
      LoadLowers(s0, s, n, h, io);
    } else if w.pc == Authenticate || w.pc == Answer || w.pc == Latest {
      CallLowers(s0, s, n, h, io);
    } else if AboutJob(w.pc) {
      JobLowers(s0, s, n, h, io);
    }
  }

  lemma LowerRank(s: State, n: string, h: string, io: Io)
    requires n in s.workers && Due(s, n, io) && Lower(s.workers[n].pc, Do(s, n, s.workers[n], io).1)
    ensures n in Step(s, Work(n, io)).workers ==> Rank(Step(s, Work(n, io)), n) < Rank(s, n)
  {
    hide Step, Do, Due, Place, Written, ObjectsAfter, RecordedAfter;
    WorkEffect(s, n, io);
  }

  lemma EnvIsThere(s0: State, s: State, n: string, h: string, io: Io) returns (e: string)
    requires Going(s0, s, n, h, io) && n in s.workers && s.workers[n].pc == LoadEnv
    ensures e in s.envs && s.envs[e].uid == s.workers[n].mem.labels.environment
  {
    hide Going;
    GoingFacts(s0, s, n, h, io);
    e :| e in s.envs && s.envs[e].uid == s0.insts[n].labels.environment;
  }

  lemma SameGoing(s0: State, s: State, n: string, h: string, a: Io, b: Io)
    requires Going(s0, s, n, h, a) && b.fault.Done? && b.latest == h
    ensures Going(s0, s, n, h, b)
  {
    hide Inv, QuietInv;
  }

  lemma CallDue(s0: State, s: State, n: string, h: string) returns (io: Io)
    requires Going(s0, s, n, h, Io(Done, "", h, [], [], [], [])) && n in s.workers
    requires s.workers[n].pc.WaitGone? ==> JobName(n) !in s.jobs
    requires s.workers[n].pc.Poll? ==> s.now >= s.workers[n].pc.readyAt && JobName(n) in s.jobs && s.jobs[JobName(n)].succeeded
    ensures Going(s0, s, n, h, io) && Due(s, n, io)
  {
    hide Going, UpdateResult;
    var first := Io(Done, "", h, [], [], [], []);
    var w := s.workers[n];
    io := first;
    if w.pc == LoadEnv {
      var e := EnvIsThere(s0, s, n, h, io);
      io := io.(env := e);
    } else if w.pc.Poll? {
      var built := UpdateExists(w.mem.built, BuiltVersion(w.mem.git.commitHash, s.now), KEEP);
      io := io.(built := built);
    }
    SameGoing(s0, s, n, h, first, io);
  }

  predicate WaitsForJob(s: State, n: string)
    requires n in s.workers
  {
    var pc := s.workers[n].pc;
    (pc.WaitGone? && JobName(n) in s.jobs)
    || (pc.Poll? && (s.now < pc.readyAt || (JobName(n) in s.jobs && !s.jobs[JobName(n)].succeeded)))
  }

  lemma JobSteps(s: State, j: string, d: nat)
    ensures Step(s, JobRemoved(j)) == s.(jobs := s.jobs - {j})
    ensures Step(s, Tick(d)) == s.(now := s.now + d)
  {
  }

  lemma ReportStep(s: State, j: string)
    requires j in s.jobs
    ensures var s' := Step(s, JobReport(j, false, true, false));
            s'.workers == s.workers && s'.now == s.now && j in s'.jobs && s'.jobs[j].succeeded
  {
  }

  lemma GoneProgress(s: State, n: string)
    requires n in s.workers && s.workers[n].pc.WaitGone? && JobName(n) in s.jobs
    ensures var s' := Step(s, JobRemoved(JobName(n))); n in s'.workers && Rank(s', n) < Rank(s, n)
  {
    hide Step, Place;
    JobSteps(s, JobName(n), 0);
  }

  lemma TickProgress(s: State, n: string)
    requires n in s.workers && s.workers[n].pc.Poll? && s.now < s.workers[n].pc.readyAt
    ensures var s' := Step(s, Tick(s.workers[n].pc.readyAt - s.now)); n in s'.workers && Rank(s', n) < Rank(s, n)
  {
    hide Step, Place;
    JobSteps(s, "", s.workers[n].pc.readyAt - s.now);
  }

  lemma ReportProgress(s: State, n: string)
    requires n in s.workers && s.workers[n].pc.Poll? && s.now >= s.workers[n].pc.readyAt
    requires JobName(n) in s.jobs && !s.jobs[JobName(n)].succeeded
    ensures var s' := Step(s, JobReport(JobName(n), false, true, false)); n in s'.workers && Rank(s', n) < Rank(s, n)
  {
    hide Step, Place;
    ReportStep(s, JobName(n));
  }

  lemma WorldProgress(s: State, n: string, h: string) returns (ev: Event)
    requires n in s.workers && WaitsForJob(s, n)
    ensures Quiet(s, n, h, ev) && n in Step(s, ev).workers && Rank(Step(s, ev), n) < Rank(s, n)
  {
    hide Step, Rank;
    if s.workers[n].pc.WaitGone? {
      GoneProgress(s, n);
      ev := JobRemoved(JobName(n));
    } else if s.now < s.workers[n].pc.readyAt {
      TickProgress(s, n);
      ev := Tick(s.workers[n].pc.readyAt - s.now);
    } else {
      ReportProgress(s, n);
      ev := JobReport(JobName(n), false, true, false);
    }
  }

  lemma JobIsThere(s0: State, s: State, n: string, h: string, io: Io)
    requires Going(s0, s, n, h, io) && n in s.workers && s.workers[n].pc.Poll?
    ensures JobName(n) in s.jobs
  {
    hide Going;
    GoingFacts(s0, s, n, h, io);
  }

  /** There is always something the world can do to get the reconcile on. */
  lemma Progress(s0: State, s: State, n: string, h: string) returns (ev: Event)
    requires Going(s0, s, n, h, Io(Done, "", h, [], [], [], [])) && n in s.workers
    ensures Quiet(s, n, h, ev)
    ensures n in Step(s, ev).workers ==> Rank(Step(s, ev), n) < Rank(s, n)
  {
    hide Going, Step, Rank, Due;
    if WaitsForJob(s, n) {
      ev := WorldProgress(s, n, h);
    } else {
      if s.workers[n].pc.Poll? { JobIsThere(s0, s, n, h, Io(Done, "", h, [], [], [], [])); }
      var io := CallDue(s0, s, n, h);
      WorkLowers(s0, s, n, h, io);
      LowerRank(s, n, h, io);
      GoingIo(s0, s, n, h, io);
      ev := Work(n, io);
    }
  }

  lemma GoingIo(s0: State, s: State, n: string, h: string, io: Io)
    requires Going(s0, s, n, h, io)
    ensures io.fault.Done? && io.latest == h
  {
    hide Inv, QuietInv;
  }

  // ---------------------------------------------------------------- bringing a reconcile to its end

  predicate Extends(evs: seq<Event>, states: seq<State>, evs': seq<Event>, states': seq<State>) {
    evs <= evs' && states <= states'
  }

  /** From position `from` on there is nothing but one undisturbed reconcile of `n`. */
  ghost predicate OneReconcile(now: nat, evs: seq<Event>, states: seq<State>, from: nat, n: string, h: string) {
    && Execution(now, evs, states) && from < |evs| && Free(states[from], n) && evs[from] == Begin(n)
    && forall i {:trigger evs[i]} | from < i < |evs| :: n in states[i].workers && Quiet(states[i], n, h, evs[i])
  }

  lemma BeginReconcileOf(now: nat, evs: seq<Event>, states: seq<State>, n: string, h: string) returns (evs': seq<Event>, states': seq<State>)
    requires Execution(now, evs, states) && Free(states[|evs|], n)
    ensures Extends(evs, states, evs', states') && OneReconcile(now, evs', states', |evs|, n, h) && |evs'| == |evs| + 1
    ensures Inv(states'[|evs'|]) && Idle(states'[|evs|], n) && n in states'[|evs'|].workers
    ensures QuietInv(states'[|evs|], states'[|evs'|], n, h)
  {
    hide Step, Init, QuietInv, Inv, Idle;
    evs', states' := evs + [Begin(n)], states + [Step(states[|evs|], Begin(n))];
    ExecutionGoesOn(now, evs, states, Begin(n));
    InvAt(now, evs, states, |evs|);
    InvAt(now, evs', states', |evs'|);
    FreeIsIdle(now, evs, states, |evs|, n);
    BeginGoes(states[|evs|], n, h);
  }

  lemma QuietStepOn(now: nat, evs: seq<Event>, states: seq<State>, from: nat, n: string, h: string, ev: Event)
    requires OneReconcile(now, evs, states, from, n, h) && n in states[|evs|].workers && Quiet(states[|evs|], n, h, ev)
    ensures OneReconcile(now, evs + [ev], states + [Step(states[|evs|], ev)], from, n, h)
  {
    hide Step, Init, Quiet, Free;
    ExecutionGoesOn(now, evs, states, ev);
    var evs', states' := evs + [ev], states + [Step(states[|evs|], ev)];
    assert evs'[from] == evs[from] && states'[from] == states[from];
    forall i {:trigger evs'[i]} | from < i < |evs'| ensures n in states'[i].workers && Quiet(states'[i], n, h, evs'[i]) {
      if i < |evs| { assert evs[i] == evs'[i] && states[i] == states'[i]; }
    }
  }

  lemma {:induction false} Finish(now: nat, evs: seq<Event>, states: seq<State>, from: nat, n: string, h: string)
    returns (evs': seq<Event>, states': seq<State>)
    requires OneReconcile(now, evs, states, from, n, h) && n in states[|evs|].workers
    requires Idle(states[from], n) && QuietInv(states[from], states[|evs|], n, h)
    ensures Extends(evs, states, evs', states') && OneReconcile(now, evs', states', from, n, h) && |evs'| > |evs|
    ensures n !in states'[|evs'|].workers && QuietInv(states[from], states'[|evs'|], n, h)
    decreases Rank(states[|evs|], n)
  {
    hide Inv, QuietInv, Step, Rank, Going, Idle, OneReconcile, Quiet;
    IsGoing(now, evs, states, from, n, h);
    var s := states[|evs|];
    var ev := Progress(states[from], s, n, h);
    QuietStepOn(now, evs, states, from, n, h, ev);
    StaysQuiet(now, evs, states, from, n, h, ev);
    evs', states' := evs + [ev], states + [Step(s, ev)];
    if n in Step(s, ev).workers {
      evs', states' := Finish(now, evs', states', from, n, h);
    }
  }

  lemma IsGoing(now: nat, evs: seq<Event>, states: seq<State>, from: nat, n: string, h: string)
    requires OneReconcile(now, evs, states, from, n, h) && n in states[|evs|].workers
    requires Idle(states[from], n) && QuietInv(states[from], states[|evs|], n, h)
    ensures |states| == |evs| + 1 && from < |evs| && Going(states[from], states[|evs|], n, h, Io(Done, "", h, [], [], [], []))
  {
    hide Step, Init, Inv, Reached, Accomplished;
    InvAt(now, evs, states, |evs|);
    HasHouse(now, evs, states, |evs|, n);
  }

  lemma StaysQuiet(now: nat, evs: seq<Event>, states: seq<State>, from: nat, n: string, h: string, ev: Event)
    requires OneReconcile(now, evs, states, from, n, h) && n in states[|evs|].workers && Quiet(states[|evs|], n, h, ev)
    requires Idle(states[from], n) && QuietInv(states[from], states[|evs|], n, h)
    ensures QuietInv(states[from], Step(states[|evs|], ev), n, h)
  {
    hide Step, Init, Inv, Quiet, Reached, Accomplished;
    InvAt(now, evs, states, |evs|);
    InvAt(now, evs, states, from);
    HasHouse(now, evs, states, |evs|, n);
    NumberedIsNoProxy(states[from], n);
    hide Idle, QuietInv;
    QuietStepGoes(states[from], states[|evs|], n, h, ev);
  }

  /** Every execution at whose end an instance is free goes on with one whole undisturbed reconcile of it. */
  lemma OneMore(now: nat, evs: seq<Event>, states: seq<State>, n: string, h: string)
    returns (evs': seq<Event>, states': seq<State>)
    requires Execution(now, evs, states) && Free(states[|evs|], n)
    ensures Extends(evs, states, evs', states') && OneReconcile(now, evs', states', |evs|, n, h)
    ensures |evs'| > |evs| + 1 && Free(states'[|evs'|], n)
    ensures Here(states[|evs|], states'[|evs'|], n)
    ensures Accomplished(ViewOf(states[|evs|], n), ViewOf(states'[|evs'|], n), n, h, SpecOf(states[|evs|], n))
  {
    hide Inv, QuietInv, Step, Idle, Accomplished, ViewOf, Quiet, Here;
    evs', states' := BeginReconcileOf(now, evs, states, n, h);
    evs', states' := Finish(now, evs', states', |evs|, n, h);
    ReconcileDoes(states[|evs|], states'[|evs'|], n, h);
    EndIsFree(states[|evs|], states'[|evs'|], n, h);
    HereSpec(states[|evs|], states'[|evs'|], states'[|evs'|], n);
  }
}

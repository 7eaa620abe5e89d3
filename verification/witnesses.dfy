/** Executions that end badly although no call ever fails: all it takes is a process that dies at the wrong moment. */
module Witnesses {
  import opened Text
  import opened Naming
  import opened Versions
  import opened Cluster
  import opened Safety
  import opened Effects
  import opened Undisturbed
  import opened Convergence
  import opened Completion
  import opened Cleanup
  import opened History

  // ---------------------------------------------------------------- going on from a state that can be reached

  /** No call is refused, and no answer is lost. */
  predicate Flawless(ev: Event) {
    match ev
    case Work(_, io) => io.fault.Done?
    case EnvWork(_, io) => io.fault.Done?
    case HandlerWrite(_, fault) => fault.Done?
    case _ => true
  }

  /** Some execution in which no call fails ends in `s`. */
  ghost predicate Reachable(now: nat, s: State) {
    exists evs, states :: EndsIn(now, evs, states, s)
  }

  predicate EndsIn(now: nat, evs: seq<Event>, states: seq<State>, s: State) {
    Execution(now, evs, states) && states[|evs|] == s && AllFlawless(evs)
  }

  predicate AllFlawless(evs: seq<Event>) { forall i | 0 <= i < |evs| :: Flawless(evs[i]) }

  lemma Begins(now: nat)
    ensures Reachable(now, Init(now))
  {
    assert EndsIn(now, [], [Init(now)], Init(now));
  }

  lemma GoOn(now: nat, s: State, ev: Event)
    requires Reachable(now, s) && Flawless(ev)
    ensures Reachable(now, Step(s, ev))
  {
    hide Step, Init, Flawless;
    var evs, states :| EndsIn(now, evs, states, s);
    ExecutionGoesOn(now, evs, states, ev);
    var evs', states' := evs + [ev], states + [Step(s, ev)];
    forall i | 0 <= i < |evs'| ensures Flawless(evs'[i]) {
      if i < |evs| { assert evs'[i] == evs[i]; }
    }
    assert EndsIn(now, evs', states', Step(s, ev));
  }

  lemma ReachableIs(now: nat, s: State) returns (past: seq<Event>)
    requires Reachable(now, s)
    ensures s == Run(Init(now), past)
  {
    hide Step, Run, Init, AllFlawless;
    var evs, states :| EndsIn(now, evs, states, s);
    StateIsRun(now, evs, states, |evs|);
    past := evs[..|evs|];
  }

  lemma FreeAndIdle(now: nat, s: State, n: string)
    requires Reachable(now, s) && Free(s, n)
    ensures Idle(s, n)
  {
    hide Step, Init, Idle, Free, AllFlawless;
    var evs, states :| EndsIn(now, evs, states, s);
    FreeIsIdle(now, evs, states, |evs|, n);
  }

  // ---------------------------------------------------------------- the first instance

  function OpenedEnv(spec: Spec): Environment { Environment(0, spec, true, false, 1) }

  /** The environment is there, and its reconcile has got to `pc`; nothing else has happened yet. */
  predicate Opening(s: State, spec: Spec, pc: EnvPc) {
    && s.insts == map[] && s.workers == map[]
    && spec.name in s.envWorkers && s.envWorkers[spec.name] == EnvWorker(pc, OpenedEnv(spec))
  }

  const FINE := Io(Done, "", "", [], [], [], [])

  lemma OpensEnv(now: nat, spec: Spec) returns (s: State)
    ensures Reachable(now, s) && Opening(s, spec, ListPulls)
  {
    hide Do, Reachable;
    var e := spec.name;
    Begins(now);
    GoOn(now, Init(now), CreateEnv(e, spec));
    var s1 := Step(Init(now), CreateEnv(e, spec));
    GoOn(now, s1, EnvBegin(e));
    var s2 := Step(s1, EnvBegin(e));
    GoOn(now, s2, EnvWork(e, FINE));
    Created(now, spec);
    EnvBegun(s1, spec);
    EnvFinalized(s2, spec);
    hide Step;
    s := Step(s2, EnvWork(e, FINE));
  }

  lemma Created(now: nat, spec: Spec)
    ensures var s := Step(Init(now), CreateEnv(spec.name, spec));
            && s.insts == map[] && s.workers == map[] && s.envWorkers == map[] && s.next == 1
            && s.envs == map[spec.name := Environment(0, spec, false, false, 0)]
  {
    hide Do, EnvDo;
  }

  lemma EnvBegun(s: State, spec: Spec)
    requires s.insts == map[] && s.workers == map[] && s.envWorkers == map[]
    requires s.envs == map[spec.name := Environment(0, spec, false, false, 0)]
    ensures var t := Step(s, EnvBegin(spec.name));
            && t.insts == map[] && t.workers == map[] && t.next == s.next && t.envs == s.envs && spec.name in t.envWorkers
            && t.envWorkers[spec.name] == EnvWorker(EnvAddFinalizer, Environment(0, spec, false, false, 0))
  {
    hide Do, EnvDo;
  }

  lemma EnvFinalized(s: State, spec: Spec)
    requires s.insts == map[] && s.workers == map[] && s.next == 1 && spec.name in s.envWorkers
    requires s.envs == map[spec.name := Environment(0, spec, false, false, 0)]
    requires s.envWorkers[spec.name] == EnvWorker(EnvAddFinalizer, Environment(0, spec, false, false, 0))
    ensures Opening(Step(s, EnvWork(spec.name, FINE)), spec, ListPulls)
  {
    hide Do;
    var e := spec.name;
    var w := s.envWorkers[e];
    EnvWorkEffect(s, e, FINE);
    assert InstancesAfter(s, w, FINE) == s;
    assert EnvDo(s, e, w, FINE).1 == Some(EnvWorker(ListPulls, OpenedEnv(spec)));
    hide Step, EnvDo, InstancesAfter, EnvsAfter;
  }

  lemma OpeningStep(s: State, spec: Spec, pc: EnvPc, io: Io, next: EnvPc)
    requires Opening(s, spec, pc) && (pc.ListPulls? || pc.ListBranches? || pc.SaveRead?)
    requires EnvDo(s, spec.name, s.envWorkers[spec.name], io).1 == Some(EnvWorker(next, OpenedEnv(spec)))
    ensures Opening(Step(s, EnvWork(spec.name, io)), spec, next)
  {
    hide Do;
    var w := s.envWorkers[spec.name];
    EnvWorkEffect(s, spec.name, io);
    assert InstancesAfter(s, w, io) == s;
    hide Step, EnvDo, InstancesAfter, EnvsAfter;
  }

  function FirstDraft(spec: Spec, number: PrNumber): Draft { PullDraft(OpenedEnv(spec), PullRequest(number, "feature")) }

  lemma Detects(s: State, spec: Spec, number: PrNumber)
    requires Opening(s, spec, ListPulls)
    ensures EnvDo(s, spec.name, s.envWorkers[spec.name], FINE.(pulls := [PullRequest(number, "feature")])).1
            == Some(EnvWorker(ListBranches([FirstDraft(spec, number)]), OpenedEnv(spec)))
  {
    assert PullDrafts(OpenedEnv(spec), [PullRequest(number, "feature")]) == [FirstDraft(spec, number)];
  }

  lemma NoBranches(s: State, spec: Spec, found: seq<Draft>)
    requires Opening(s, spec, ListBranches(found))
    ensures EnvDo(s, spec.name, s.envWorkers[spec.name], FINE).1 == Some(EnvWorker(SaveRead(found), OpenedEnv(spec)))
  {
    assert found + BranchDrafts(OpenedEnv(spec), []) == found;
  }

  lemma NotThereYet(s: State, spec: Spec, d: Draft)
    requires Opening(s, spec, SaveRead([d]))
    ensures EnvDo(s, spec.name, s.envWorkers[spec.name], FINE).1 == Some(EnvWorker(SaveWrite([d], None), OpenedEnv(spec)))
  {
  }

  lemma Creates(s: State, spec: Spec, d: Draft)
    requires Opening(s, spec, SaveWrite([d], None))
    ensures var t := Step(s, EnvWork(spec.name, FINE));
            t.workers == map[] && t.insts == map[d.name := Instance(d.labels, false, false, s.next, d.git, "running", NoPhase, [], "")]
  {
    hide Do;
    var w := s.envWorkers[spec.name];
    EnvWorkEffect(s, spec.name, FINE);
    assert InstancesAfter(s, w, FINE) == CreateInstance(s, d);
    hide Step, EnvDo, InstancesAfter, EnvsAfter;
  }

  /** For every environment and number there is an execution at whose end the pull request has a new instance. */
  lemma OpensInstance(now: nat, spec: Spec, number: PrNumber) returns (s: State)
    ensures Reachable(now, s) && Free(s, PullRequestName(spec, number))
    ensures var i := s.insts[PullRequestName(spec, number)]; i.phase == NoPhase && i.git.commitHash == "" && i.built == []
  {
    hide Step, EnvDo, Opening, Reachable;
    var e, d := spec.name, FirstDraft(spec, number);
    var io := FINE.(pulls := [PullRequest(number, "feature")]);
    var s0 := OpensEnv(now, spec);
    Detects(s0, spec, number);
    OpeningStep(s0, spec, ListPulls, io, ListBranches([d]));
    GoOn(now, s0, EnvWork(e, io));
    var s1 := Step(s0, EnvWork(e, io));
    NoBranches(s1, spec, [d]);
    OpeningStep(s1, spec, ListBranches([d]), FINE, SaveRead([d]));
    GoOn(now, s1, EnvWork(e, FINE));
    var s2 := Step(s1, EnvWork(e, FINE));
    NotThereYet(s2, spec, d);
    OpeningStep(s2, spec, SaveRead([d]), FINE, SaveWrite([d], None));
    GoOn(now, s2, EnvWork(e, FINE));
    var s3 := Step(s2, EnvWork(e, FINE));
    Creates(s3, spec, d);
    GoOn(now, s3, EnvWork(e, FINE));
    s := Step(s3, EnvWork(e, FINE));
  }

  // ---------------------------------------------------------------- undisturbed reconciles of it

  lemma ReconcilesAreFlawless(now: nat, evs: seq<Event>, states: seq<State>, evs': seq<Event>, states': seq<State>, n: string, h: string)
    requires Execution(now, evs, states) && AllFlawless(evs)
    requires Extends(evs, states, evs', states') && OneReconcile(now, evs', states', |evs|, n, h)
    ensures AllFlawless(evs')
  {
    hide Step, Init, Free;
    forall i | 0 <= i < |evs'| ensures Flawless(evs'[i]) {
      if i < |evs| { assert evs'[i] == evs[i]; } else if i > |evs| { assert Quiet(states'[i], n, h, evs'[i]); }
    }
  }

  /** The state after one more undisturbed reconcile. */
  lemma NextRound(now: nat, s: State, n: string, h: string) returns (t: State)
    requires Reachable(now, s) && Free(s, n)
    ensures Reachable(now, t) && Free(t, n) && Here(s, t, n)
    ensures Accomplished(ViewOf(s, n), ViewOf(t, n), n, h, SpecOf(s, n))
  {
    hide Step, Init, AllFlawless, Accomplished, ViewOf;
    var evs, states :| EndsIn(now, evs, states, s);
    var evs', states' := OneMore(now, evs, states, n, h);
    ReconcilesAreFlawless(now, evs, states, evs', states', n, h);
    t := states'[|evs'|];
    assert EndsIn(now, evs', states', t);
  }

  /** The pull request has been noticed and is to be built. */
  lemma OpensPending(now: nat, spec: Spec, number: PrNumber, h: string) returns (s: State)
    requires h != ""
    ensures Reachable(now, s) && Free(s, PullRequestName(spec, number))
    ensures var i := s.insts[PullRequestName(spec, number)];
            i.phase == Pending && i.git.commitHash == h && Unbuilt(i) && i.finalizer
  {
    hide Reachable, Deployed;
    var n := PullRequestName(spec, number);
    var s0 := OpensInstance(now, spec, number);
    s := NextRound(now, s0, n, h);
    TagsHave(s.insts[n].built, h);
    assert Tags(s0.insts[n].built) == {};
    hide Tags, HasTag, Reached;
  }

  /** It has been built and deployed. */
  lemma OpensRunning(now: nat, spec: Spec, number: PrNumber, h: string) returns (s: State)
    requires h != ""
    ensures Reachable(now, s) && Free(s, PullRequestName(spec, number)) && s.insts[PullRequestName(spec, number)].finalizer
    ensures forall k: Slot :: SlotKey(k, PullRequestName(spec, number)) in s.objects
  {
    hide Reachable, Unbuilt, HasTag, SlotKey;
    var n := PullRequestName(spec, number);
    var s1 := OpensPending(now, spec, number, h);
    var s2 := NextRound(now, s1, n, h);
    s := NextRound(now, s2, n, h);
    DeployedOwn(s.objects, n, SpecOf(s2, n), s2.insts[n], 6);
    assert Deployed(s.objects, n, SpecOf(s2, n), s2.insts[n], 6);
  }

  // ---------------------------------------------------------------- a build that is cut off

  lemma BuildBegins(s: State, n: string, e: string)
    requires Idle(s, n) && s.insts[n].finalizer && s.insts[n].phase == Pending && Unbuilt(s.insts[n])
    requires e in s.envs && s.envs[e].uid == s.insts[n].labels.environment
    ensures var t0 := Step(s, Begin(n)); var t1 := Step(t0, Work(n, FINE.(env := e)));
            && t1.insts == s.insts && n in t1.workers
            && t1.workers[n] == Worker(JobCheck, s.insts[n], s.insts[n], s.envs[e].spec)
  {
    hide Do, EnvDo, Unbuilt;
    BeginIs(s, n);
    var t0 := Step(s, Begin(n));
    hide Step;
    LoadsToBuild(t0, n, t0.workers[n], e);
    WorkEffect(t0, n, FINE.(env := e));
    hide Idle;
  }

  lemma LoadsToBuild(s: State, n: string, w: Worker, e: string)
    requires w.pc == LoadEnv && w.mem.phase == Pending && Unbuilt(w.mem)
    requires e in s.envs && s.envs[e].uid == w.mem.labels.environment
    ensures Do(s, n, w, FINE.(env := e)).1 == Some(w.(pc := JobCheck, spec := s.envs[e].spec))
  {
  }

  lemma BuildIsMarked(s: State, n: string)
    requires n in s.insts && n in s.workers && s.workers[n].pc == JobCheck && n !in s.jobs
    requires s.workers[n].mem == s.insts[n] && s.workers[n].base == s.insts[n]
    ensures var t1 := Step(s, Work(n, FINE)); var t2 := Step(t1, Work(n, FINE));
            n in t2.insts && t2.insts[n].phase == Building && t2.insts[n].git == s.insts[n].git && t2.insts[n].deleting == s.insts[n].deleting
  {
    hide Step, Do, Written, ObjectsAfter, RecordedAfter;
    NoBareJob(s, n, s.workers[n]);
    WorkEffect(s, n, FINE);
    NothingWritten(s, n, s.workers[n]);
    var t1 := Step(s, Work(n, FINE));
    WorkEffect(t1, n, FINE);
    BuildingWritten(t1, n, t1.workers[n]);
  }

  lemma NoBareJob(s: State, n: string, w: Worker)
    requires w.pc == JobCheck && n !in s.jobs
    ensures Do(s, n, w, FINE).1 == Some(w.(pc := MarkBuilding, mem := w.mem.(phase := Building)))
  {
  }

  lemma NothingWritten(s: State, n: string, w: Worker)
    requires w.pc == JobCheck
    ensures Written(s, n, w, FINE) == s
  {
  }

  lemma BuildingWritten(s: State, n: string, w: Worker)
    requires w.pc == MarkBuilding && n in s.insts && w.mem == s.insts[n].(phase := Building)
    ensures var t := Written(s, n, w, FINE);
            n in t.insts && t.insts[n].phase == Building && t.insts[n].git == s.insts[n].git && t.insts[n].deleting == s.insts[n].deleting
  {
    hide StoredAll;
  }

  lemma CrashLeaves(s: State, n: string)
    ensures var t := Step(s, Crash(n)); t.insts == s.insts && n !in t.workers
  {
    hide Do, EnvDo;
  }

  ghost predicate StuckIn(s: State, n: string, h: string) {
    Free(s, n) && Stuck(s.insts[n].phase, s.insts[n].git.commitHash, h)
  }

  /** For every environment, pull request and commit: an execution without a failing call in which the process dies once
      the instance is marked as building; left alone, it will never move on. */
  lemma StuckIsReachable(now: nat, spec: Spec, number: PrNumber, h: string)
    requires h != ""
    ensures exists evs, states ::
              Execution(now, evs, states) && AllFlawless(evs) && StuckIn(states[|evs|], PullRequestName(spec, number), h)
  {
    hide Step, Reachable, Inv, Unbuilt, Reached, Execution, AllFlawless;
    var n := PullRequestName(spec, number);
    var s := OpensPending(now, spec, number, h);
    FreeAndIdle(now, s, n);
    var e :| e in s.envs && s.envs[e].uid == s.insts[n].labels.environment;
    BuildBegins(s, n, e);
    var io := FINE.(env := e);
    GoOn(now, s, Begin(n));
    GoOn(now, Step(s, Begin(n)), Work(n, io));
    var t := Step(Step(s, Begin(n)), Work(n, io));
    NoJobFor(now, t, n);
    BuildIsMarked(t, n);
    GoOn(now, t, Work(n, FINE));
    GoOn(now, Step(t, Work(n, FINE)), Work(n, FINE));
    var u := Step(Step(t, Work(n, FINE)), Work(n, FINE));
    CrashLeaves(u, n);
    GoOn(now, u, Crash(n));
    Exhibit(now, Step(u, Crash(n)));
  }

  lemma Exhibit(now: nat, s: State)
    requires Reachable(now, s)
    ensures exists evs, states :: Execution(now, evs, states) && AllFlawless(evs) && states[|evs|] == s
  {
    hide Step, Init, AllFlawless;
    var evs, states :| EndsIn(now, evs, states, s);
  }

  lemma NoJobFor(now: nat, s: State, n: string)
    requires Reachable(now, s) && n in s.insts
    ensures n !in s.jobs
  {
    hide Step, Run, Init, Inv, Reachable;
    var past := ReachableIs(now, s);
    RunOk(now, past);
    StoredOk(s, n);
    BareLookupMisses(s, n);
  }

  // ---------------------------------------------------------------- a cleanup that is cut off

  lemma DeletionAsked(s: State, n: string)
    requires Free(s, n) && s.insts[n].finalizer
    ensures var t := Step(s, DeleteInstance(n));
            && n in t.insts && t.insts[n].deleting && t.insts[n].finalizer && n !in t.workers && t.objects == s.objects
  {
    hide Do, EnvDo;
    DeleteFrame(s, n);
  }

  lemma CleanupBegun(s: State, n: string)
    requires n in s.insts && s.insts[n].deleting && s.insts[n].finalizer && n !in s.workers
    ensures var t := Step(s, Begin(n));
            && t.insts == s.insts && t.objects == s.objects && n in t.workers
            && t.workers[n] == Worker(Del(0), s.insts[n], s.insts[n], NO_SPEC)
  {
    hide Do, EnvDo;
  }

  lemma DeletesPresent(s: State, n: string, k: Slot)
    requires n in s.workers && s.workers[n].pc == Del(k) && k < 3 && SlotKey(k, n) in s.objects
    ensures var t := Step(s, Work(n, FINE));
            && t.insts == s.insts && t.objects == s.objects - {SlotKey(k, n)} && n in t.workers
            && t.workers[n].pc == Del(k + 1)
  {
    hide Step, SlotKey;
    DeleteStep(s, n, k, FINE);
  }

  lemma SlotsDiffer(n: string)
    requires !EndsWith(n, PROXY_SUFFIX)
    ensures forall i: Slot, j: Slot :: SlotKey(i, n) == SlotKey(j, n) ==> i == j
  {
    forall i: Slot, j: Slot | SlotKey(i, n) == SlotKey(j, n) ensures i == j { SlotsAreDisjoint(n, n, i, j); }
  }

  /** The first three deletes of a cleanup that finds everything. */
  lemma ThreeDeletes(s: State, n: string)
    requires n in s.workers && s.workers[n].pc == Del(0) && !EndsWith(n, PROXY_SUFFIX) && forall k: Slot :: SlotKey(k, n) in s.objects
    ensures var t := Step(Step(Step(s, Work(n, FINE)), Work(n, FINE)), Work(n, FINE));
            && t.insts == s.insts && n in t.workers && t.workers[n].pc == Del(3)
            && (forall j: Slot | j < 3 :: SlotKey(j, n) !in t.objects) && SlotKey(3, n) in t.objects
  {
    hide Step, EndsWith, SlotKey;
    SlotsDiffer(n);
    DeletesPresent(s, n, 0);
    var t1 := Step(s, Work(n, FINE));
    DeletesPresent(t1, n, 1);
    var t2 := Step(t1, Work(n, FINE));
    DeletesPresent(t2, n, 2);
    assert Step(t2, Work(n, FINE)).objects == s.objects - {SlotKey(0, n)} - {SlotKey(1, n)} - {SlotKey(2, n)};
  }

  lemma FiveOn(now: nat, s: State, n: string)
    requires Reachable(now, s)
    ensures var s0 := Step(Step(s, Crash(n)), Begin(n)); var s1 := Step(s0, Work(n, FINE)); var s2 := Step(s1, Work(n, FINE));
            var s3 := Step(s2, Work(n, FINE)); var s4 := Step(s3, Work(n, FINE)); Reachable(now, Step(s4, Work(n, FINE)))
  {
    hide Step, Reachable;
    GoOn(now, s, Crash(n));
    GoOn(now, Step(s, Crash(n)), Begin(n));
    var s0 := Step(Step(s, Crash(n)), Begin(n));
    GoOn(now, s0, Work(n, FINE));
    var s1 := Step(s0, Work(n, FINE));
    GoOn(now, s1, Work(n, FINE));
    var s2 := Step(s1, Work(n, FINE));
    GoOn(now, s2, Work(n, FINE));
    var s3 := Step(s2, Work(n, FINE));
    GoOn(now, s3, Work(n, FINE));
    GoOn(now, Step(s3, Work(n, FINE)), Work(n, FINE));
  }

  ghost predicate Leaked(s: State, n: string) { n !in s.insts && SlotKey(3, n) in s.objects }

  /** For every environment and pull request: an execution without a failing call in which the process dies once the
      cleanup has deleted the proxy's Deployment, the next cleanup goes through, the instance is gone, and the proxy's
      Service stays behind. */
  lemma LeakIsReachable(now: nat, spec: Spec, number: PrNumber)
    ensures exists evs, states ::
              Execution(now, evs, states) && AllFlawless(evs) && Leaked(states[|evs|], PullRequestName(spec, number))
  {
    hide Step, Reachable, SlotKey, EndsWith, Execution, AllFlawless;
    var n := PullRequestName(spec, number);
    PullRequestNameIsNotProxy(spec, number);
    var s := OpensRunning(now, spec, number, "h");
    DeletionAsked(s, n);
    GoOn(now, s, DeleteInstance(n));
    var t := Step(s, DeleteInstance(n));
    CleanupBegun(t, n);
    GoOn(now, t, Begin(n));
    var u := Step(t, Begin(n));
    ThreeDeletes(u, n);
    GoOn(now, u, Work(n, FINE));
    GoOn(now, Step(u, Work(n, FINE)), Work(n, FINE));
    GoOn(now, Step(Step(u, Work(n, FINE)), Work(n, FINE)), Work(n, FINE));
    var v := Step(Step(Step(u, Work(n, FINE)), Work(n, FINE)), Work(n, FINE));
    InterruptedCleanupLeaks(v, n, FINE);
    FiveOn(now, v, n);
    var s0 := Step(Step(v, Crash(n)), Begin(n));
    var s3 := Step(Step(Step(s0, Work(n, FINE)), Work(n, FINE)), Work(n, FINE));
    Exhibit(now, Step(Step(s3, Work(n, FINE)), Work(n, FINE)));
  }
}

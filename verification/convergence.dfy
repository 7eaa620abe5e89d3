/** Left alone, an instance reaches (running, latest commit), and exactly which instances do. */
module Convergence {
  import opened Text
  import opened Naming
  import opened Versions
  import opened Cluster
  import opened Safety
  import opened Effects
  import opened Undisturbed
  import opened History
  import Housing

  // ---------------------------------------------------------------- what one reconcile should do

  /** Phase and commit hash after one undisturbed reconcile, when the latest commit is `h`. */
  function Next(phase: Phase, hash: string, h: string): (Phase, string) {
    match phase
    case Pending => (Deploying, hash)
    case Deploying => (Running, hash)
    case _ => if hash == h then (phase, hash) else (Pending, h)
  }

  /** The number of reconciles left. */
  function Distance(phase: Phase, hash: string, h: string): nat {
    match phase
    case Pending => if hash == h then 2 else 5
    case Deploying => if hash == h then 1 else 4
    case Running => if hash == h then 0 else 3
    case _ => 3
  }

  /** Nothing ever moves these on: Reconcile only compares the hash. */
  predicate Stuck(phase: Phase, hash: string, h: string) {
    hash == h && !phase.Pending? && !phase.Deploying? && !phase.Running?
  }

  // ---------------------------------------------------------------- instances that are left alone

  /** An instance of a pull request that nobody is deleting or reconciling. */
  predicate Free(s: State, n: string) {
    n in s.insts && n !in s.workers && !s.insts[n].deleting && s.insts[n].git.pullRequestNumber.Some?
  }

  /** Reconciles of `n` begin at any time, one after the other; their calls are answered, with `h` as the latest commit,
      and their build makes progress; whatever else happens spares the instance. */
  predicate Undisturbing(s: State, ev: Event, n: string, h: string) {
    if n in s.workers then Quiet(s, n, h, ev) || Spares(s, ev, n) else ev == Begin(n) || Spares(s, ev, n)
  }

  /** From position `from` of an execution on, an instance that is free there is left alone. */
  ghost predicate LeftAlone(now: nat, evs: seq<Event>, states: seq<State>, from: nat, n: string, h: string) {
    && Execution(now, evs, states) && from <= |evs| && Free(states[from], n)
    && forall i {:trigger evs[i]} | from <= i < |evs| :: Undisturbing(states[i], evs[i], n, h)
  }

  /** How many reconciles of `n` have come to their end between two positions. */
  function Finished(states: seq<State>, n: string, from: nat, m: nat): nat
    requires from <= m < |states|
  {
    if m == from then 0
    else Finished(states, n, from, m - 1) + if n in states[m - 1].workers && n !in states[m].workers then 1 else 0
  }

  /** Where the reconcile that is going on began, or the position itself. */
  function Base(states: seq<State>, n: string, m: nat): (b: nat)
    requires m < |states|
    ensures b <= m && (b > 0 ==> n !in states[b].workers)
  {
    if m == 0 || n !in states[m].workers then m else Base(states, n, m - 1)
  }

  lemma FreeIsIdle(now: nat, evs: seq<Event>, states: seq<State>, k: nat, n: string)
    requires Execution(now, evs, states) && k < |states| && Free(states[k], n)
    ensures Idle(states[k], n)
  {
    hide Run, Init, Step;
    HasHouse(now, evs, states, k, n);
  }

  lemma HasHouse(now: nat, evs: seq<Event>, states: seq<State>, k: nat, n: string)
    requires Execution(now, evs, states) && k < |states| && n in states[k].insts && !states[k].insts[n].deleting
    ensures HasEnv(states[k], states[k].insts[n].labels.environment)
  {
    hide Run, Init, Step;
    StateIsRun(now, evs, states, k);
    Housing.HousedAtEnd(now, evs[..k], n);
  }

  // ---------------------------------------------------------------- what the reconciles have done so far

  /** What `k` undisturbed reconciles have made of an instance. */
  predicate Came(i: Instance, j: Instance, h: string, k: nat) {
    && SameIdentity(i, j)
    && if Stuck(i.phase, i.git.commitHash, h) then j.phase == i.phase && j.git == i.git
       else !Stuck(j.phase, j.git.commitHash, h)
            && Distance(j.phase, j.git.commitHash, h) == var d := Distance(i.phase, i.git.commitHash, h); if d <= k then 0 else d - k
  }

  lemma OneRoundCame(v0: View, v: View, n: string, h: string, spec: Spec)
    requires Accomplished(v0, v, n, h, spec)
    ensures (v.i.phase, v.i.git.commitHash) == Next(v0.i.phase, v0.i.git.commitHash, h) && SameIdentity(v0.i, v.i)
    ensures Stuck(v0.i.phase, v0.i.git.commitHash, h) ==> v.i.git == v0.i.git
  {
  }

  lemma CameOn(i: Instance, v0: View, v: View, n: string, h: string, spec: Spec, k: nat)
    requires Came(i, v0.i, h, k) && Accomplished(v0, v, n, h, spec)
    ensures Came(i, v.i, h, k + 1)
  {
    OneRoundCame(v0, v, n, h, spec);
    hide Accomplished;
  }

  /** The reconciles of `n` between `from` and `m` have done their work, and the one in flight is on its way. */
  ghost predicate OnCourse(states: seq<State>, n: string, h: string, from: nat, m: nat) {
    && from <= m < |states| && from <= Base(states, n, m)
    && var b := Base(states, n, m);
       && n in states[from].insts && Idle(states[b], n) && Here(states[from], states[b], n)
       && Came(states[from].insts[n], states[b].insts[n], h, Finished(states, n, from, m))
       && (n in states[m].workers ==> QuietInv(states[b], states[m], n, h))
  }

  lemma HereJoins(a: State, b: State, c: State, n: string)
    requires Here(a, b, n) && Here(b, c, n) && a.insts[n].labels == b.insts[n].labels
    ensures Here(a, c, n)
  {
  }

  /** While the instance is free. */
  lemma FreeGoesOn(now: nat, evs: seq<Event>, states: seq<State>, from: nat, n: string, h: string, m: nat)
    requires LeftAlone(now, evs, states, from, n, h) && m < |evs| && OnCourse(states, n, h, from, m)
    requires n !in states[m].workers && Spares(states[m], evs[m], n)
    ensures OnCourse(states, n, h, from, m + 1)
  {
    hide Step, Came, Init, Inv, Idle;
    assert states[m + 1] == Step(states[m], evs[m]);
    SparedFree(states[m], evs[m], n);
    IdleIsFree(states[m], n);
    FreeIsIdle(now, evs, states, m + 1, n);
    InvAt(now, evs, states, m);
    HereStays(states[from], states[m], n, evs[m]);
  }

  lemma IdleIsFree(s: State, n: string)
    requires Idle(s, n)
    ensures Free(s, n)
  {
  }

  lemma SparedFree(s: State, ev: Event, n: string)
    requires Spares(s, ev, n) && n !in s.workers
    ensures var t := Step(s, ev);
            && n !in t.workers && n in t.insts && t.insts[n] == s.insts[n]
            && OwnObjects(t.objects, n) == OwnObjects(s.objects, n) && BuildsOf(t, JobName(n)) == BuildsOf(s, JobName(n))
  {
    hide Step, OwnObjects, BuildsOf;
  }

  /** A reconcile begins. */
  lemma BeginGoesOn(now: nat, evs: seq<Event>, states: seq<State>, from: nat, n: string, h: string, m: nat)
    requires LeftAlone(now, evs, states, from, n, h) && m < |evs| && OnCourse(states, n, h, from, m)
    requires n !in states[m].workers && evs[m] == Begin(n)
    ensures OnCourse(states, n, h, from, m + 1)
  {
    hide Step, Came, Init, Inv, Idle, QuietInv, Here;
    assert states[m + 1] == Step(states[m], evs[m]);
    InvAt(now, evs, states, m);
    BeginGoes(states[m], n, h);
  }

  lemma StillGoes(now: nat, evs: seq<Event>, states: seq<State>, from: nat, n: string, h: string, m: nat)
    requires LeftAlone(now, evs, states, from, n, h) && m < |evs| && OnCourse(states, n, h, from, m) && n in states[m].workers
    ensures QuietInv(states[Base(states, n, m)], states[m + 1], n, h)
  {
    hide Step, Came, Init, Inv, Spares, Quiet, Reached, Accomplished;
    assert states[m + 1] == Step(states[m], evs[m]);
    assert Undisturbing(states[m], evs[m], n, h);
    InvAt(now, evs, states, m);
    HasHouse(now, evs, states, m, n);
    var b := Base(states, n, m);
    InvAt(now, evs, states, b);
    NumberedIsNoProxy(states[b], n);
    hide QuietInv;
    if Quiet(states[m], n, h, evs[m]) {
      QuietStepGoes(states[b], states[m], n, h, evs[m]);
    } else {
      SparedStepGoes(states[b], states[m], n, h, evs[m]);
    }
  }

  /** A reconcile goes on, or comes to its end. */
  lemma WorkGoesOn(now: nat, evs: seq<Event>, states: seq<State>, from: nat, n: string, h: string, m: nat)
    requires LeftAlone(now, evs, states, from, n, h) && m < |evs| && OnCourse(states, n, h, from, m) && n in states[m].workers
    ensures OnCourse(states, n, h, from, m + 1)
  {
    hide Do, EnvDo;
    StillGoes(now, evs, states, from, n, h, m);
    var b := Base(states, n, m);
    if n !in states[m + 1].workers {
      ReconcileDoes(states[b], states[m + 1], n, h);
      EndIsFree(states[b], states[m + 1], n, h);
      FreeIsIdle(now, evs, states, m + 1, n);
      CameOn(states[from].insts[n], ViewOf(states[b], n), ViewOf(states[m + 1], n), n, h, SpecOf(states[b], n), Finished(states, n, from, m));
      HereJoins(states[from], states[b], states[m + 1], n);
    }
    hide Step, Came, Init, Inv, Idle, QuietInv, Accomplished, ViewOf, Here, Execution;
  }

  lemma EndIsFree(s0: State, s: State, n: string, h: string)
    requires Idle(s0, n) && QuietInv(s0, s, n, h) && n !in s.workers
    ensures Free(s, n)
  {
    hide Accomplished;
  }

  lemma {:induction false} Course(now: nat, evs: seq<Event>, states: seq<State>, from: nat, n: string, h: string, m: nat)
    requires LeftAlone(now, evs, states, from, n, h) && from <= m < |states|
    ensures OnCourse(states, n, h, from, m)
  {
    hide Step, Init, OnCourse, Spares, Quiet;
    if m == from {
      CourseBegins(now, evs, states, from, n, h);
    } else {
      Course(now, evs, states, from, n, h, m - 1);
      assert Undisturbing(states[m - 1], evs[m - 1], n, h);
      if n in states[m - 1].workers {
        WorkGoesOn(now, evs, states, from, n, h, m - 1);
      } else if evs[m - 1] == Begin(n) {
        BeginGoesOn(now, evs, states, from, n, h, m - 1);
      } else {
        FreeGoesOn(now, evs, states, from, n, h, m - 1);
      }
    }
  }

  lemma CourseBegins(now: nat, evs: seq<Event>, states: seq<State>, from: nat, n: string, h: string)
    requires LeftAlone(now, evs, states, from, n, h)
    ensures OnCourse(states, n, h, from, from)
  {
    hide Step, Init, Inv, InstanceOk;
    FreeIsIdle(now, evs, states, from, n);
    InvAt(now, evs, states, from);
    InvLabels(states[from], n);
  }

  lemma InvLabels(s: State, n: string)
    requires Inv(s) && n in s.insts
    ensures s.insts[n].labels.environment in s.specs
  {
    StoredOk(s, n);
    hide Inv;
  }

  // ---------------------------------------------------------------- what is deployed in the end

  lemma LastStepDeploys(v0: View, v: View, n: string, h: string, spec: Spec)
    requires Accomplished(v0, v, n, h, spec) && h != ""
    requires Distance(v0.i.phase, v0.i.git.commitHash, h) == 1 && !Stuck(v0.i.phase, v0.i.git.commitHash, h)
    ensures Deployed(v.objects, n, spec, v0.i, 6) && v.i.url == PublicUrl(spec, v0.i) && v.i.git == v0.i.git
  {
  }

  lemma RestStays(v0: View, v: View, n: string, h: string, spec: Spec)
    requires Accomplished(v0, v, n, h, spec)
    requires Distance(v0.i.phase, v0.i.git.commitHash, h) == 0
    ensures Unmoved(v0, v)
  {
  }

  lemma DeployedSame(objects: map<ObjectKey, ClusterObject>, n: string, spec: Spec, i: Instance, j: Instance)
    requires Deployed(objects, n, spec, i, 6) && i.git == j.git
    ensures Deployed(objects, n, spec, j, 6) && PublicUrl(spec, i) == PublicUrl(spec, j)
  {
    forall k: Slot ensures SlotObject(k, spec, i) == SlotObject(k, spec, j) { SameSlotObject(k, spec, i, j); }
    SameSlotObject(0, spec, i, j);
  }

  /** All six objects are deployed for the stored instance, and its URL is published. */
  predicate Shown(s: State, n: string) {
    && n in s.insts && s.insts[n].labels.environment in s.specs
    && Deployed(OwnObjects(s.objects, n), n, SpecOf(s, n), s.insts[n], 6) && s.insts[n].url == PublicUrl(SpecOf(s, n), s.insts[n])
  }

  lemma ShownStays(s: State, ev: Event, n: string)
    requires Inv(s) && Shown(s, n) && Spares(s, ev, n) && n !in s.workers
    ensures Shown(Step(s, ev), n)
  {
    hide Step, Inv, Spares, OwnObjects, Deployed, PublicUrl;
    SparedFree(s, ev, n);
    Housing.SpecsGrow(s, ev, s.insts[n].labels.environment);
  }

  /** The last of the reconciles that were needed deploys; the ones after it leave everything as it is. */
  lemma RoundShows(s0: State, s: State, n: string, h: string)
    requires Here(s0, s, n) && Accomplished(ViewOf(s0, n), ViewOf(s, n), n, h, SpecOf(s0, n)) && h != ""
    requires var i := s0.insts[n]; var d := Distance(i.phase, i.git.commitHash, h);
             !Stuck(i.phase, i.git.commitHash, h) && (d == 1 || (d == 0 && Shown(s0, n)))
    ensures Shown(s, n)
  {
    hide Deployed, PublicUrl, OwnObjects, BuildsOf;
    var v0, v := ViewOf(s0, n), ViewOf(s, n);
    OneRoundCame(v0, v, n, h, SpecOf(s0, n));
    if Distance(v0.i.phase, v0.i.git.commitHash, h) == 1 {
      LastStepDeploys(v0, v, n, h, SpecOf(s0, n));
      DeployedSame(v.objects, n, SpecOf(s0, n), v0.i, v.i);
    } else {
      RestStays(v0, v, n, h, SpecOf(s0, n));
      DeployedSame(v.objects, n, SpecOf(s0, n), v0.i, v.i);
    }
    hide Accomplished;
  }

  predicate ShownBy(states: seq<State>, n: string, h: string, from: nat, m: nat)
    requires from <= m < |states| && n in states[from].insts
  {
    var i := states[from].insts[n];
    0 < Distance(i.phase, i.git.commitHash, h) <= Finished(states, n, from, m) ==> Shown(states[Base(states, n, m)], n)
  }

  lemma ShownGoesOn(now: nat, evs: seq<Event>, states: seq<State>, from: nat, n: string, h: string, m: nat)
    requires LeftAlone(now, evs, states, from, n, h) && m < |evs| && OnCourse(states, n, h, from, m) && h != ""
    requires !Stuck(states[from].insts[n].phase, states[from].insts[n].git.commitHash, h) && ShownBy(states, n, h, from, m)
    ensures ShownBy(states, n, h, from, m + 1)
  {
    hide Step, Init, Inv, Idle, QuietInv, Accomplished, ViewOf, Here, Shown, Spares, Quiet;
    assert states[m + 1] == Step(states[m], evs[m]) && Undisturbing(states[m], evs[m], n, h);
    var b := Base(states, n, m);
    if n in states[m].workers {
      if n !in states[m + 1].workers {
        StillGoes(now, evs, states, from, n, h, m);
        ReconcileDoes(states[b], states[m + 1], n, h);
        var d := Distance(states[from].insts[n].phase, states[from].insts[n].git.commitHash, h);
        if 0 < d <= Finished(states, n, from, m) + 1 { RoundShows(states[b], states[m + 1], n, h); }
      }
    } else if evs[m] == Begin(n) {
      InvAt(now, evs, states, m);
      BeginGoes(states[m], n, h);
    } else {
      InvAt(now, evs, states, m);
      SparedFree(states[m], evs[m], n);
      if Shown(states[m], n) { ShownStays(states[m], evs[m], n); }
    }
  }

  lemma {:induction false} CourseShows(now: nat, evs: seq<Event>, states: seq<State>, from: nat, n: string, h: string, m: nat)
    requires LeftAlone(now, evs, states, from, n, h) && from <= m < |states| && h != ""
    requires !Stuck(states[from].insts[n].phase, states[from].insts[n].git.commitHash, h)
    ensures ShownBy(states, n, h, from, m)
  {
    hide Step, Init, OnCourse, Shown, Stuck;
    if m > from {
      CourseShows(now, evs, states, from, n, h, m - 1);
      Course(now, evs, states, from, n, h, m - 1);
      ShownGoesOn(now, evs, states, from, n, h, m - 1);
    }
  }

  lemma ShownMeans(s: State, n: string)
    requires Shown(s, n)
    ensures var app := ObjectKey(Deployment, n); var ingress := ObjectKey(Ingress, n); var i := s.insts[n];
            && app in s.objects && ingress in s.objects
            && s.objects[app] == Workload(ContainerName(SpecOf(s, n), i.git.Identifier(), i.git.commitHash))
            && s.objects[ingress] == Route(SpecOf(s, n).hostname, PathOf(SpecOf(s, n), i))
            && i.url == "https://" + SpecOf(s, n).hostname + PathOf(SpecOf(s, n), i)
    ensures var i := s.insts[n];
            i.git.pullRequestNumber.Some? ==>
              Serving(s.objects, n, i.url, SpecOf(s, n), Itoa(i.git.pullRequestNumber.value), i.git.commitHash)
  {
    var i := s.insts[n];
    DeployedOwn(s.objects, n, SpecOf(s, n), i, 6);
    assert SlotKey(0, n) in s.objects && SlotKey(5, n) in s.objects;
    hide OwnObjects;
    if i.git.pullRequestNumber.Some? { DeployedServes(s.objects, n, SpecOf(s, n), i, i.git.pullRequestNumber.value); }
    hide Serving;
  }

  // ---------------------------------------------------------------- nothing is built twice

  /** The latest commit is in the cache, and so is whatever the instance would build first. */
  predicate Cached(i: Instance, h: string) { h in Tags(i.built) && (i.phase == Pending ==> !Unbuilt(i)) }

  lemma CachedStays(v0: View, v: View, n: string, h: string, spec: Spec)
    requires Accomplished(v0, v, n, h, spec) && Cached(v0.i, h)
    ensures Cached(v.i, h) && v.builds == v0.builds
  {
    hide Deployed;
    TagsHave(v.i.built, h);
  }

  lemma NotBuilding(v0: View, v: View, n: string, h: string, spec: Spec, pc: Pc, mem: Instance)
    requires Reached(v0, v, n, h, spec, pc, mem) && Cached(v0.i, h)
    ensures v.builds == v0.builds
  {
    hide Deployed, Unbuilt;
  }

  /** No job has been made since `from`, and none is going to be. */
  predicate Reuses(states: seq<State>, n: string, h: string, from: nat, m: nat)
    requires from <= m < |states|
  {
    var b := Base(states, n, m);
    && n in states[b].insts && Cached(states[b].insts[n], h)
    && BuildsOf(states[b], JobName(n)) == BuildsOf(states[from], JobName(n))
  }

  lemma ReuseGoesOn(now: nat, evs: seq<Event>, states: seq<State>, from: nat, n: string, h: string, m: nat)
    requires LeftAlone(now, evs, states, from, n, h) && m < |evs| && OnCourse(states, n, h, from, m) && Reuses(states, n, h, from, m)
    ensures Reuses(states, n, h, from, m + 1)
  {
    hide Step, Init, Inv, Idle, QuietInv, Accomplished, Here, Cached, Spares, Quiet, BuildsOf, OwnObjects;
    assert states[m + 1] == Step(states[m], evs[m]) && Undisturbing(states[m], evs[m], n, h);
    var b := Base(states, n, m);
    if n in states[m].workers {
      if n !in states[m + 1].workers {
        StillGoes(now, evs, states, from, n, h, m);
        ReconcileDoes(states[b], states[m + 1], n, h);
        HereSpec(states[b], states[m + 1], states[m + 1], n);
        CachedStays(ViewOf(states[b], n), ViewOf(states[m + 1], n), n, h, SpecOf(states[b], n));
      }
    } else if evs[m] == Begin(n) {
      InvAt(now, evs, states, m);
      BeginGoes(states[m], n, h);
    } else {
      SparedFree(states[m], evs[m], n);
    }
  }

  lemma {:induction false} CourseReuses(now: nat, evs: seq<Event>, states: seq<State>, from: nat, n: string, h: string, m: nat)
    requires LeftAlone(now, evs, states, from, n, h) && from <= m < |states| && Cached(states[from].insts[n], h)
    ensures Reuses(states, n, h, from, m)
  {
    hide Step, Init, OnCourse, Cached, BuildsOf;
    if m > from {
      CourseReuses(now, evs, states, from, n, h, m - 1);
      Course(now, evs, states, from, n, h, m - 1);
      ReuseGoesOn(now, evs, states, from, n, h, m - 1);
    }
  }

  /** At every position, in the middle of a reconcile as well. */
  lemma NothingBuilt(now: nat, evs: seq<Event>, states: seq<State>, from: nat, n: string, h: string, m: nat)
    requires LeftAlone(now, evs, states, from, n, h) && from <= m < |states| && Cached(states[from].insts[n], h)
    ensures BuildsOf(states[m], JobName(n)) == BuildsOf(states[from], JobName(n))
  {
    hide Step, Init, Cached, BuildsOf, OwnObjects, Reached, Accomplished, Idle;
    Course(now, evs, states, from, n, h, m);
    CourseReuses(now, evs, states, from, n, h, m);
    if n in states[m].workers {
      var b := Base(states, n, m);
      var w := states[m].workers[n];
      NotBuilding(ViewOf(states[b], n), ViewOf(states[m], n), n, h, SpecOf(states[b], n), w.pc, w.mem);
    }
  }
}

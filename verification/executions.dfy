/** The main results, over whole executions of the operator and everyone it shares objects with. */
module Executions {
  import opened Text
  import opened Naming
  import opened Versions
  import opened Cluster
  import opened Safety
  import opened Effects
  import opened Saving
  import opened Soundness
  import opened Branches
  import opened Phases
  import opened BuildWindow
  import opened Finalizers
  import opened Housing
  import opened Cleanup
  import opened Undisturbed
  import opened History
  import opened Convergence
  import opened Completion

  /** In every state of every execution, under every interleaving of reconciles, webhooks, users, crashes and lost
      answers: what an app Deployment runs was pushed by a finished build, and was built for the pull request number
      in the Deployment's name. */
  lemma NothingUnbuiltIsDeployed(now: nat, evs: seq<Event>, states: seq<State>, k: nat, name: string)
    requires Execution(now, evs, states) && k < |states|
    requires !EndsWith(name, PROXY_SUFFIX) && ObjectKey(Deployment, name) in states[k].objects
    ensures var s := states[k]; var o := s.objects[ObjectKey(Deployment, name)];
            o.Workload? && o.image in s.pushed && MadeFor(s.specs, name, o.image)
    ensures var s := states[k]; ShownFor(s.specs, name, s.objects[ObjectKey(Deployment, name)].image)
  {
    hide Run, Init;
    StateIsRun(now, evs, states, k);
    BuiltAtEnd(now, evs[..k], name);
    MadeForShows(states[k].specs, name, states[k].objects[ObjectKey(Deployment, name)].image);
  }

  /** The image shows an environment, the number in the name and a commit. */
  ghost predicate ShownFor(specs: map<nat, Spec>, name: string, image: string) {
    exists uid, tag :: uid in specs && ShowsBuild(image, specs[uid], NameSuffix(name), tag)
  }

  lemma MadeForShows(specs: map<nat, Spec>, name: string, image: string)
    requires MadeFor(specs, name, image)
    ensures ShownFor(specs, name, image)
  {
    var uid, tag :| uid in specs && image == ContainerName(specs[uid], NameSuffix(name), tag);
    ImageShowsBuild(specs[uid], NameSuffix(name), tag);
    assert ShowsBuild(image, specs[uid], NameSuffix(name), tag);
    hide ShowsBuild, ContainerName, NameSuffix;
  }

  /** In every execution, whenever a build job comes into being: it is called "build-" and the name of an instance that is
      being reconciled, and builds an image that shows the settings of the instance's environment, the pull request and
      the commit of the reconcile's copy. */
  lemma JobsBuildTheirCommit(now: nat, evs: seq<Event>, states: seq<State>, k: nat, j: string)
    requires Execution(now, evs, states) && k < |evs| && j in states[k + 1].jobs && j !in states[k].jobs
    ensures evs[k].Work? && evs[k].n in states[k].workers && j == "build-" + evs[k].n
    ensures var s := states[k]; var w := s.workers[evs[k].n]; var git := w.mem.git;
            && w.mem.labels.environment in s.specs && git.pullRequestNumber.Some? && git.commitHash != ""
            && ShowsBuild(states[k + 1].jobs[j].destination, s.specs[w.mem.labels.environment], Itoa(git.pullRequestNumber.value), git.commitHash)
  {
    hide Cluster.Step, Init, Inv, ShowsBuild, ContainerName, JobName;
    assert states[k + 1] == Cluster.Step(states[k], evs[k]);
    InvAt(now, evs, states, k);
    NewJobs(states[k], evs[k], j);
    NewJobIs(states[k], evs[k].n, evs[k].io);
    BuildersAreNumbered(states[k], evs[k].n);
    BuilderCopy(states[k], evs[k].n);
    var w := states[k].workers[evs[k].n];
    ImageShowsBuild(w.spec, Itoa(w.mem.git.pullRequestNumber.value), w.mem.git.commitHash);
    JobNameIs(evs[k].n);
  }

  lemma JobNameIs(n: string)
    ensures JobName(n) == "build-" + n
  {
  }

  lemma BuilderCopy(s: State, n: string)
    requires Inv(s) && n in s.workers && s.workers[n].pc.CreateJob?
    ensures var w := s.workers[n];
            && w.mem == w.base && w.mem.git.commitHash != "" && w.mem.labels.environment in s.specs
            && w.spec == s.specs[w.mem.labels.environment]
  {
    WorkerFacts(s, n);
    hide Inv;
  }

  /** In every state of every execution: an instance without a pull request number has no commit hash, so it never
      builds or deploys; with one, the number is the one in its name; all cached tags, and the hash of an instance that
      is being deployed, are pushed images of that one family. */
  lemma InstancesKeepTheirFamily(now: nat, evs: seq<Event>, states: seq<State>, k: nat, n: string)
    requires Execution(now, evs, states) && k < |states| && n in states[k].insts
    ensures var s := states[k]; var i := s.insts[n];
            && i.labels.environment in s.specs
            && (i.git.pullRequestNumber.None? ==> i.git.commitHash == "")
            && (i.git.pullRequestNumber.Some? ==> Itoa(i.git.pullRequestNumber.value) == NameSuffix(n))
            && (forall v | v in i.built :: Family(s.specs, n, i, v.tag) in s.pushed)
            && (i.phase.Deploying? && i.git.commitHash != "" ==> Image(s.specs[i.labels.environment], i) in s.pushed)
  {
    hide Run, Init;
    StateIsRun(now, evs, states, k);
    FamilyAtEnd(now, evs[..k], n);
  }

  /** In every execution, stale copies, conflicts and concurrent triggers included: building is entered only from
      pending, deploying only from pending or building, running only from deploying, failed only from pending,
      building or deploying, and stopped and the empty phase never. */
  lemma PhasesFollowTheOrder(now: nat, evs: seq<Event>, states: seq<State>, k: nat, n: string)
    requires Execution(now, evs, states) && k < |evs|
    ensures Ordered(states[k], states[k + 1], n)
  {
    hide Run, Init, Cluster.Step, Ordered;
    StateIsRun(now, evs, states, k);
    assert states[k + 1] == Cluster.Step(states[k], evs[k]);
    OrderAtEnd(now, evs[..k], evs[k], n);
  }

  /** In every state of every execution, whoever has written the instance: its labels show the owner, the organization
      and the repository of its environment, and an identifier that its name was made from, as that of a pull request
      or as a branch. These are the labels that the webhook looks for. */
  lemma LabelsTellTheName(now: nat, evs: seq<Event>, states: seq<State>, k: nat, n: string)
    requires Execution(now, evs, states) && k < |states| && n in states[k].insts
    ensures var s := states[k]; var l := s.insts[n].labels;
            && l.environment in s.specs
            && var spec := s.specs[l.environment];
               && l.owner == spec.owner && l.organization == spec.organization && l.repository == spec.repository
               && (|| n == InstanceName(l.owner, spec.name, l.organization, l.repository, l.identifier)
                   || (AllDigits(l.identifier) && n == InstanceName(l.owner, spec.name, l.organization, l.repository, "pr-" + l.identifier)))
  {
    hide Run, Init;
    StateIsRun(now, evs, states, k);
    LabelsAtEnd(now, evs[..k], n);
  }

  /** In every state of every execution the cache holds at most ten entries with non-empty, pairwise distinct tags and
      strictly increasing whole-second times: the last min(n, 10) builds recorded since the instance was created. */
  lemma CacheIsSlidingWindow(now: nat, evs: seq<Event>, states: seq<State>, k: nat, n: string)
    requires Execution(now, evs, states) && k < |states| && n in states[k].insts
    ensures var s := states[k]; var built := s.insts[n].built;
            && n in s.recorded
            && built == (if |s.recorded[n]| <= 10 then s.recorded[n] else s.recorded[n][|s.recorded[n]| - 10..])
            && StrictlyIncreasing(s.recorded[n]) && StrictlyIncreasing(built) && DistinctTags(built)
            && forall v | v in built :: v.tag != "" && v.timestamp % 1000 == 0 && v.timestamp <= s.now
  {
    hide Run, Init, StrictlyIncreasing, DistinctTags;
    StateIsRun(now, evs, states, k);
    WindowAtEnd(now, evs[..k], n);
  }

  /** In every execution in which answers and interruptions are fair to cleanups: as long as any of the six objects of
      an instance exists, the instance is stored with its finalizer. So once it is gone, nothing of it is left. */
  lemma ObjectsNeedTheirInstance(now: nat, evs: seq<Event>, states: seq<State>, k: nat, n: string, slot: Slot)
    requires Execution(now, evs, states) && k < |states|
    requires forall i {:trigger evs[i]} | 0 <= i < |evs| :: Fair(states[i], evs[i])
    requires !EndsWith(n, PROXY_SUFFIX) && SlotKey(slot, n) in states[k].objects
    ensures n in states[k].insts && states[k].insts[n].finalizer
  {
    hide Run, Init, Fair, SlotKey;
    StateIsRun(now, evs, states, k);
    forall i | 0 <= i < k ensures Fair(Run(Init(now), evs[..k][..i]), evs[..k][i]) {
      StateIsRun(now, evs, states, i);
      assert evs[..k][..i] == evs[..i];
      assert Fair(states[i], evs[i]);
    }
    OwnedAtEnd(now, evs[..k], n, slot);
  }

  /** In every state of every execution, environments deleted in the middle of their reconcile included: an instance
      that is not being deleted carries the id of an environment that is still stored with its finalizer. */
  lemma LiveInstancesAreHoused(now: nat, evs: seq<Event>, states: seq<State>, k: nat, n: string)
    requires Execution(now, evs, states) && k < |states| && n in states[k].insts && !states[k].insts[n].deleting
    ensures var s := states[k]; exists e :: e in s.envs && s.envs[e].uid == s.insts[n].labels.environment && s.envs[e].finalizer
  {
    hide Run, Init;
    StateIsRun(now, evs, states, k);
    HousedAtEnd(now, evs[..k], n);
  }

  /** The other way round: an environment whose teardown has reached its last write has no live instance. */
  lemma TeardownLeavesNoneLive(now: nat, evs: seq<Event>, states: seq<State>, k: nat, e: string, n: string)
    requires Execution(now, evs, states) && k < |states|
    requires e in states[k].envWorkers && states[k].envWorkers[e].pc.EnvRemoveFinalizer?
    requires n in states[k].insts && states[k].insts[n].labels.environment == states[k].envWorkers[e].copy.uid
    ensures states[k].insts[n].deleting
  {
    hide Run, Init;
    StateIsRun(now, evs, states, k);
    NoneLiveAtEnd(now, evs[..k], e, n);
  }

  // ---------------------------------------------------------------- instances that are left alone

  lemma {:induction false} BaseIs(states: seq<State>, n: string, b: nat, m: nat)
    requires b < m < |states| && n !in states[b].workers && forall i | b < i <= m :: n in states[i].workers
    ensures Base(states, n, m) == b
  {
    if m > b + 1 { BaseIs(states, n, b, m - 1); }
  }

  /** From its beginning at position `b` to its end at `m` a reconcile does exactly what the phase of its instance asks
      for: it builds once, deploys all six objects and publishes the URL, refreshes the hash, or changes nothing but the
      finalizer; whatever everyone else does in the meantime, as long as it spares the instance. */
  lemma ReconcilesAccomplish(now: nat, evs: seq<Event>, states: seq<State>, from: nat, n: string, h: string, b: nat, m: nat)
    requires LeftAlone(now, evs, states, from, n, h) && from <= b < m < |states|
    requires n !in states[b].workers && n !in states[m].workers && b + 1 < m && forall i | b < i < m :: n in states[i].workers
    ensures Here(states[b], states[m], n)
    ensures Accomplished(ViewOf(states[b], n), ViewOf(states[m], n), n, h, SpecOf(states[b], n))
  {
    hide Cluster.Step, Init, Spares, Quiet, QuietInv, Here, Accomplished, ViewOf;
    BaseIs(states, n, b, m - 1);
    Course(now, evs, states, from, n, h, m - 1);
    StillGoes(now, evs, states, from, n, h, m - 1);
    ReconcileDoes(states[b], states[m], n, h);
  }

  /** Whatever everyone else does, as long as it spares the instance, and whenever its reconciles begin: each one lowers
      the distance by exactly one, and after five the instance is (running, h) if and only if it was not stuck at `h` in
      a phase that nothing leaves. */
  lemma ConvergesIff(now: nat, evs: seq<Event>, states: seq<State>, from: nat, n: string, h: string, m: nat)
    requires LeftAlone(now, evs, states, from, n, h) && from <= m < |states| && n !in states[m].workers
    ensures var i := states[from].insts[n]; var d := Distance(i.phase, i.git.commitHash, h); var stuck := Stuck(i.phase, i.git.commitHash, h);
            && n in states[m].insts
            && var j := states[m].insts[n]; var k := Finished(states, n, from, m);
               && (!stuck ==> Distance(j.phase, j.git.commitHash, h) == if d <= k then 0 else d - k)
               && (k >= 5 ==> ((j.phase == Running && j.git.commitHash == h) <==> !stuck))
  {
    hide Cluster.Step, Init, Spares, Quiet;
    Course(now, evs, states, from, n, h, m);
  }

  /** Reconciles that had anything to do end with all six objects there, the app Deployment on an image that shows the pull
      request and its latest commit, and a public URL made of the host and the path of the ingress rule, from which
      organization, repository, pull request and commit can be read back; and so it stays. */
  lemma LatestIsDeployed(now: nat, evs: seq<Event>, states: seq<State>, from: nat, n: string, h: string, m: nat)
    requires LeftAlone(now, evs, states, from, n, h) && from <= m < |states| && n !in states[m].workers && h != ""
    requires var i := states[from].insts[n];
             !Stuck(i.phase, i.git.commitHash, h) && 0 < Distance(i.phase, i.git.commitHash, h) <= Finished(states, n, from, m)
    ensures var s := states[m]; var app := ObjectKey(Deployment, n); var ingress := ObjectKey(Ingress, n);
            && n in s.insts && s.insts[n].labels.environment in s.specs && app in s.objects && ingress in s.objects
            && s.objects[app] == Workload(ContainerName(SpecOf(s, n), s.insts[n].git.Identifier(), h))
            && var rule := s.objects[ingress]; rule.Route? && s.insts[n].url == "https://" + rule.host + rule.path
    ensures states[from].insts[n].git.pullRequestNumber.Some?
            && var s := states[m]; Serving(s.objects, n, s.insts[n].url, SpecOf(s, n), Itoa(states[from].insts[n].git.pullRequestNumber.value), h)
  {
    hide Cluster.Step, Init, Spares, Quiet, ContainerName, Shown, QuietInv, Serving;
    Course(now, evs, states, from, n, h, m);
    CourseShows(now, evs, states, from, n, h, m);
    ShownMeans(states[m], n);
  }

  /** Saving the environment again empties the commit hash, but as long as the latest commit is in the cache the whole
      way back to (running, h) makes no build job, at no position. */
  lemma ResettingNeverRebuilds(now: nat, evs: seq<Event>, states: seq<State>, from: nat, n: string, h: string, m: nat)
    requires LeftAlone(now, evs, states, from, n, h) && from <= m < |states|
    requires states[from].insts[n].git.commitHash == "" && HasTag(states[from].insts[n].built, h)
    ensures BuildsOf(states[m], JobName(n)) == BuildsOf(states[from], JobName(n))
  {
    hide Cluster.Step, Init, Spares, Quiet, BuildsOf;
    TagsHave(states[from].insts[n].built, h);
    NothingBuilt(now, evs, states, from, n, h, m);
  }

  lemma {:induction false} FinishedPrefix(states: seq<State>, longer: seq<State>, n: string, from: nat, m: nat)
    requires states <= longer && from <= m < |states|
    ensures Finished(longer, n, from, m) == Finished(states, n, from, m)
  {
    if m > from { FinishedPrefix(states, longer, n, from, m - 1); }
  }

  lemma {:induction false} FinishedMeanwhile(states: seq<State>, n: string, from: nat, b: nat, m: nat)
    requires from <= b <= m < |states| && forall i | b < i <= m :: n in states[i].workers
    ensures Finished(states, n, from, m) == Finished(states, n, from, b)
  {
    if m > b { FinishedMeanwhile(states, n, from, b, m - 1); }
  }

  lemma LeftAloneOn(now: nat, evs: seq<Event>, states: seq<State>, evs': seq<Event>, states': seq<State>, from: nat, n: string, h: string)
    requires LeftAlone(now, evs, states, from, n, h) && n !in states[|evs|].workers
    requires Extends(evs, states, evs', states') && OneReconcile(now, evs', states', |evs|, n, h)
    requires |evs'| > |evs| + 1 && n !in states'[|evs'|].workers
    ensures LeftAlone(now, evs', states', from, n, h)
    ensures Finished(states', n, from, |evs'|) == Finished(states, n, from, |evs|) + 1
  {
    hide Cluster.Step, Init, Spares, Quiet, Free;
    forall i {:trigger evs'[i]} | from <= i < |evs'| ensures Undisturbing(states'[i], evs'[i], n, h) {
      if i < |evs| { assert evs[i] == evs'[i] && states[i] == states'[i]; }
    }
    FinishedPrefix(states, states', n, from, |evs|);
    forall i | |evs| < i <= |evs'| - 1 ensures n in states'[i].workers { assert evs'[i] == evs'[i]; }
    FinishedMeanwhile(states', n, from, |evs|, |evs'| - 1);
  }

  ghost predicate GoesOnWith(now: nat, evs: seq<Event>, states: seq<State>, n: string, h: string, k: nat, evs': seq<Event>, states': seq<State>) {
    && Extends(evs, states, evs', states') && LeftAlone(now, evs', states', |evs|, n, h)
    && n !in states'[|evs'|].workers && Finished(states', n, |evs|, |evs'|) == k
  }

  /** Every execution at whose end such an instance is free goes on with as many undisturbed reconciles of it as you like,
      all of which come to their end; so these results are not about nothing. */
  lemma {:induction false} ReconcilesExist(now: nat, evs: seq<Event>, states: seq<State>, n: string, h: string, k: nat)
    requires Execution(now, evs, states) && Free(states[|evs|], n)
    ensures exists evs', states' :: GoesOnWith(now, evs, states, n, h, k, evs', states')
  {
    hide Cluster.Step, Init;
    if k == 0 {
      assert GoesOnWith(now, evs, states, n, h, 0, evs, states);
    } else {
      ReconcilesExist(now, evs, states, n, h, k - 1);
      var evs1, states1 :| GoesOnWith(now, evs, states, n, h, k - 1, evs1, states1);
      hide Spares, Quiet;
      LastIsFree(now, evs1, states1, |evs|, n, h);
      hide Free, LeftAlone;
      LeftAloneIs(now, evs1, states1, |evs|, n, h);
      var evs2, states2 := OneMore(now, evs1, states1, n, h);
      FreeIsDone(states2[|evs2|], n);
      LeftAloneOn(now, evs1, states1, evs2, states2, |evs|, n, h);
      assert GoesOnWith(now, evs, states, n, h, k, evs2, states2);
    }
  }

  lemma FreeIsDone(s: State, n: string)
    requires Free(s, n)
    ensures n !in s.workers
  {
  }

  lemma LeftAloneIs(now: nat, evs: seq<Event>, states: seq<State>, from: nat, n: string, h: string)
    requires LeftAlone(now, evs, states, from, n, h)
    ensures Execution(now, evs, states) && from < |states|
  {
    hide Cluster.Step, Init;
  }

  lemma LastIsFree(now: nat, evs: seq<Event>, states: seq<State>, from: nat, n: string, h: string)
    requires LeftAlone(now, evs, states, from, n, h) && n !in states[|evs|].workers
    ensures |states| == |evs| + 1 && Free(states[|evs|], n)
  {
    hide Cluster.Step, Init, Spares, Quiet, QuietInv;
    Course(now, evs, states, from, n, h, |evs|);
  }

  // ---------------------------------------------------------------- sound instances, and what saving them does

  /** In every execution, whoever writes and whatever interleaves: an instance that is being deleted has a finalizer,
      and as long as no user empties a desired phase, every instance has one. */
  lemma InstancesAreSound(now: nat, evs: seq<Event>, states: seq<State>, k: nat, n: string)
    requires Execution(now, evs, states) && k < |states| && n in states[k].insts
    ensures states[k].insts[n].deleting ==> states[k].insts[n].finalizer
    ensures NeverEmptied(evs[..k]) ==> Sound(states[k].insts[n])
  {
    hide Run, Init, NeverEmptied;
    StateIsRun(now, evs, states, k);
    MarkedAtEnd(now, evs[..k], n);
    if NeverEmptied(evs[..k]) { SoundAtEnd(now, evs[..k]); }
  }

  /** So in every state of such an execution the save loop, whatever was detected, is a merge, nothing in it is refused,
      and doing it again changes nothing but versions. */
  lemma SavingMerges(now: nat, evs: seq<Event>, states: seq<State>, k: nat, drafts: seq<Draft>)
    requires Execution(now, evs, states) && k < |states| && NeverEmptied(evs[..k])
    ensures var s := states[k]; var once := Saved(s, drafts); var twice := Saved(once, drafts);
            && Merge(s, drafts, once) && (forall d | d in drafts :: !Refused(s, d))
            && twice.insts.Keys == once.insts.Keys
            && forall n | n in once.insts :: twice.insts[n] == once.insts[n].(version := twice.insts[n].version)
  {
    hide Run, Init, NeverEmptied, Saved, Merge;
    StateIsRun(now, evs, states, k);
    SoundAtEnd(now, evs[..k]);
    var s := states[k];
    SaveIsMerge(s, drafts);
    var once := Saved(s, drafts);
    SavingTwice(s, drafts);
  }

  lemma SavingTwice(s: State, drafts: seq<Draft>)
    requires AllSound(s)
    ensures var once := Saved(s, drafts); var twice := Saved(once, drafts);
            && twice.insts.Keys == once.insts.Keys
            && forall n | n in once.insts :: twice.insts[n] == once.insts[n].(version := twice.insts[n].version)
  {
    hide Saved, AllSound;
    var once := Saved(s, drafts);
    SavingKeepsKeys(s, drafts);
    forall n | n in once.insts ensures var twice := Saved(once, drafts); twice.insts[n] == once.insts[n].(version := twice.insts[n].version) {
      SavingTwiceChangesNothing(s, drafts, n);
    }
  }

  // ---------------------------------------------------------------- instances of branches

  /** In every execution: as long as an instance, whenever it is there, belongs to no pull request, no build job is made
      for it and none of its objects. */
  lemma BranchesNeverBuild(now: nat, evs: seq<Event>, states: seq<State>, k: nat, n: string)
    requires Execution(now, evs, states) && k < |states| && !EndsWith(n, PROXY_SUFFIX)
    requires forall i | 0 <= i <= k :: Unnumbered(states[i], n)
    ensures JobName(n) !in states[k].jobs && forall slot: Slot :: SlotKey(slot, n) !in states[k].objects
  {
    hide Run, Init, EndsWith, Unnumbered, SlotKey;
    forall i | 0 <= i <= k ensures Unnumbered(Run(Init(now), evs[..k][..i]), n) {
      StateIsRun(now, evs, states, i);
      assert evs[..k][..i] == evs[..i];
    }
    UntouchedAtEnd(now, evs[..k], n);
    StateIsRun(now, evs, states, k);
  }

  // ---------------------------------------------------------------- instances that are deleted

  lemma {:induction false} ServedRun(now: nat, evs: seq<Event>, states: seq<State>, k: nat, m: nat, n: string)
    requires Execution(now, evs, states) && k < m <= |evs| && evs[k] == Begin(n) && !EndsWith(n, PROXY_SUFFIX)
    requires n in states[k].insts && states[k].insts[n].deleting && states[k].insts[n].finalizer && n !in states[k].workers
    requires forall i | k < i < m :: Serves(states[i], evs[i], n)
    ensures Sweeping(states[k].objects, states[k].insts[n], states[m], n) || Released(states[k].objects, states[m], n)
    decreases m
  {
    hide Cluster.Step, Sweeping, Released, EndsWith, LeavesAlone;
    assert states[m - 1 + 1] == Cluster.Step(states[m - 1], evs[m - 1]);
    if m == k + 1 {
      SweepBegins(states[k], n);
    } else {
      ServedRun(now, evs, states, k, m - 1, n);
      assert Serves(states[m - 1], evs[m - 1], n);
      if Sweeping(states[k].objects, states[k].insts[n], states[m - 1], n) {
        ServedStep(states[k].objects, states[k].insts[n], states[m - 1], n, evs[m - 1]);
      } else {
        ReleasedStays(states[k].objects, states[m - 1], n, evs[m - 1]);
      }
    }
  }

  lemma ReleasedStays(before: Objects, s: State, n: string, ev: Event)
    requires Released(before, s, n) && Serves(s, ev, n)
    ensures Released(before, Cluster.Step(s, ev), n)
  {
    hide LeftOver;
  }

  /** In every execution, once a reconcile of an instance that is being deleted has been served to its end, whatever
      else went on: the instance is gone, and so are all its six objects if and only if the proxy's objects were a prefix
      of Deployment, Service, Ingress when it began. */
  lemma DeletedInstancesGo(now: nat, evs: seq<Event>, states: seq<State>, k: nat, m: nat, n: string)
    requires Execution(now, evs, states) && k < m <= |evs| && evs[k] == Begin(n) && !EndsWith(n, PROXY_SUFFIX)
    requires n in states[k].insts && states[k].insts[n].deleting && n !in states[k].workers
    requires (forall i | k < i < m :: Serves(states[i], evs[i], n)) && n !in states[m].workers
    ensures n !in states[m].insts
    ensures (forall slot: Slot :: SlotKey(slot, n) !in states[m].objects) <==> ClosedIn(states[k].objects, n)
  {
    hide Cluster.Step, EndsWith, Serves, SlotKey, Init;
    InstancesAreSound(now, evs, states, k, n);
    ServedRun(now, evs, states, k, m, n);
    NothingSurvivesIff(states[k].objects, n);
    hide Survives, ClosedIn;
    forall slot: Slot ensures SlotKey(slot, n) in states[m].objects <==> Survives(states[k].objects, n, 0, slot) {
      assert Holds(states[m].objects, n, slot) <==> Survives(states[k].objects, n, 0, slot);
    }
  }
}

/** An instance that belongs to no pull request never builds and never deploys. */
module Branches {
  import opened Text
  import opened Naming
  import opened Versions
  import opened Cluster
  import opened Safety
  import opened Effects
  import opened Finalizers

  /** If `n` is stored, then as the instance of a branch. */
  predicate Unnumbered(s: State, n: string) { n in s.insts ==> s.insts[n].git.pullRequestNumber.None? }

  /** There is no build job for `n` and none of its objects. */
  predicate Untouched(s: State, n: string) { JobName(n) !in s.jobs && forall k: Slot :: SlotKey(k, n) !in s.objects }

  predicate BranchInv(s: State, n: string) {
    Untouched(s, n) && (n in s.workers ==> s.workers[n].base.git.pullRequestNumber.None?)
  }

  // ---------------------------------------------------------------- where jobs come from

  lemma CreateKeys(s: State, n: string, w: Worker, io: Io)
    requires w.pc.CreateJob?
    ensures Do(s, n, w, io).0.jobs.Keys <= s.jobs.Keys + {JobName(n)}
  {
    CreateIs(s, n, w, io);
    if JobName(n) in s.jobs || io.fault.Rejected? {
      assert Do(s, n, w, io).0 == s;
    } else {
      assert Do(s, n, w, io).0 == NewJob(s, JobName(n), Image(w.spec, w.mem));
    }
    hide Do, Image, JobName;
  }

  lemma CreateIs(s: State, n: string, w: Worker, io: Io)
    requires w.pc.CreateJob?
    ensures Do(s, n, w, io).0 ==
            if JobName(n) in s.jobs || io.fault.Rejected? then s else NewJob(s, JobName(n), Image(w.spec, w.mem))
  {
    hide Image, NewJob, JobName;
  }

  /** A job that was not there before builds the image of the copy of the reconcile that made it. */
  lemma NewJobIs(s: State, n: string, io: Io)
    requires n in s.workers && s.workers[n].pc.CreateJob? && JobName(n) !in s.jobs && JobName(n) in Step(s, Work(n, io)).jobs
    ensures Step(s, Work(n, io)).jobs[JobName(n)].destination == Image(s.workers[n].spec, s.workers[n].mem)
  {
    hide Step, Do, Image, JobName, SetWorker;
    WorkStepIs(s, n, io);
    CreateIs(s, n, s.workers[n], io);
    var o := Do(s, n, s.workers[n], io);
    WorkerSet(o.0, n, o.1);
  }

  lemma WorkJobs(s: State, n: string, io: Io, j: string)
    requires n in s.workers && j in Step(s, Work(n, io)).jobs && j !in s.jobs
    ensures s.workers[n].pc.CreateJob? && j == JobName(n)
  {
    hide Do, Written, ObjectsAfter, RecordedAfter;
    WorkEffect(s, n, io);
    var w := s.workers[n];
    if w.pc.CreateJob? {
      CreateKeys(s, n, w, io);
      assert Step(s, Work(n, io)).jobs == Do(s, n, w, io).0.jobs;
    }
    hide Step;
  }

  lemma StoreJobs(s: State, ev: Event)
    requires ev.EnvWork? || ev.HandlerWrite? || ev.DeleteInstance? || ev.EditInstance? || ev.CreateEnv? || ev.DeleteEnv? || ev.EditEnv?
    ensures Step(s, ev).jobs == s.jobs
  {
    hide Step, EnvDo, InstancesAfter, EnvsAfter;
    if AboutNothing(s, ev) {
      NothingHappens(s, ev);
    } else if ev.EnvWork? {
      EnvWorkEffect(s, ev.e, ev.io);
    } else if TouchesInstances(ev) {
      InstanceEventFrame(s, ev);
    } else {
      EnvEventFrame(s, ev);
    }
  }

  /** Only a reconcile of an instance makes a build job for it. */
  lemma NewJobs(s: State, ev: Event, j: string)
    requires j in Step(s, ev).jobs && j !in s.jobs
    ensures ev.Work? && ev.n in s.workers && s.workers[ev.n].pc.CreateJob? && j == JobName(ev.n)
  {
    hide Do, EnvDo;
    if ev.Work? && ev.n in s.workers {
      WorkJobs(s, ev.n, ev.io, j);
      hide Step;
    } else if ev.EnvWork? || ev.HandlerWrite? || ev.DeleteInstance? || ev.EditInstance?
              || ev.CreateEnv? || ev.DeleteEnv? || ev.EditEnv? {
      StoreJobs(s, ev);
      hide Step;
    }
  }

  // ---------------------------------------------------------------- what a reconcile works on

  lemma WriteBase(s: State, s1: State, n: string, w: Worker, io: Io, pc: Pc, orElse: Outcome)
    requires orElse.1.Some? ==> orElse.1.value.base == w.base
    ensures var o := WriteThen(s, s1, n, w, io, pc, orElse).1;
            o.Some? ==> o.value.base == w.base || (n in s1.insts && o.value.base == s1.insts[n])
  {
  }

  /** A reconcile goes on with the version it had, or with the one it has just written. */
  lemma BaseMoves(s: State, n: string, w: Worker, io: Io)
    ensures var o := Do(s, n, w, io).1; var insts := Written(s, n, w, io).insts;
            o.Some? ==> o.value.base == w.base || (n in insts && o.value.base == insts[n])
  {
    hide StatusUpdate, SpecUpdate, Accepts, UpdateResult, SlotKey, SlotObject, HasTag, FinishBuild, Apply, WriteThen;
    match w.pc
    case AddFinalizer => WriteBase(s, SpecUpdate(s, n, w.mem, io.fault), n, w, io, LoadEnv, (s, None));
    case MarkBuilding => WriteBase(s, StatusUpdate(s, n, w.mem, io.fault), n, w, io, StartJob, Fail(s, w));
    case BeginDeploy => WriteBase(s, StatusUpdate(s, n, w.mem, io.fault), n, w, io, Authenticate, Fail(s, w));
    case PublishUrl => WriteBase(s, StatusUpdate(s, n, w.mem, io.fault), n, w, io, Answer, Fail(s, w));
    case WriteHash => WriteBase(s, SpecUpdate(s, n, w.mem, io.fault), n, w, io, MarkPending, (s, None));
    case _ =>
  }

  lemma WorkBase(s: State, n: string, io: Io)
    requires n in s.workers && s.workers[n].base.git.pullRequestNumber.None? && Unnumbered(Step(s, Work(n, io)), n)
    ensures var s' := Step(s, Work(n, io)); n in s'.workers ==> s'.workers[n].base.git.pullRequestNumber.None?
  {
    hide Step, Do, Written, ObjectsAfter, RecordedAfter;
    WorkEffect(s, n, io);
    BaseMoves(s, n, s.workers[n], io);
  }

  lemma BeginBase(s: State, n: string)
    requires n !in s.workers && Unnumbered(s, n)
    ensures var s' := Step(s, Begin(n)); n in s'.workers ==> s'.workers[n].base.git.pullRequestNumber.None?
  {
  }

  lemma BaseStays(s: State, ev: Event, n: string)
    requires BranchInv(s, n) && Unnumbered(s, n) && Unnumbered(Step(s, ev), n)
    ensures var s' := Step(s, ev); n in s'.workers ==> s'.workers[n].base.git.pullRequestNumber.None?
  {
    hide Step;
    if n in Step(s, ev).workers {
      if ev.Work? && ev.n == n && n in s.workers {
        WorkBase(s, n, ev.io);
      } else if ev == Begin(n) && n !in s.workers {
        BeginBase(s, n);
      } else if ev.Work? && ev.n == n {
        NobodyThere(s, n, ev.io);
      } else {
        WorkersStay(s, ev, n);
      }
    }
  }

  lemma NobodyThere(s: State, n: string, io: Io)
    requires n !in s.workers
    ensures Step(s, Work(n, io)) == s
  {
  }

  // ---------------------------------------------------------------- nothing is made for a branch

  lemma NumberedName(n: string, number: PrNumber)
    requires NameSuffix(n) == Itoa(number)
    ensures !EndsWith(n, PROXY_SUFFIX)
  {
    var digits := Itoa(number);
    AfterLastParts(n, '-');
    assert n[|n| - 1] == digits[|digits| - 1];
    assert PROXY_SUFFIX[|PROXY_SUFFIX| - 1] == 'y';
  }

  /** Whoever builds or deploys has a pull request number, and so a name that ends in it. */
  lemma BuildersAreNumbered(s: State, n: string)
    requires Inv(s) && n in s.workers && (s.workers[n].pc.CreateJob? || s.workers[n].pc.Put?)
    ensures s.workers[n].base.git.pullRequestNumber.Some? && !EndsWith(n, PROXY_SUFFIX)
  {
    hide Inv;
    WorkerFacts(s, n);
    hide Inv, EndsWith;
    NumberedName(n, s.workers[n].base.git.pullRequestNumber.value);
  }

  lemma UntouchedStays(s: State, ev: Event, n: string)
    requires Inv(s) && BranchInv(s, n) && !EndsWith(n, PROXY_SUFFIX)
    ensures Untouched(Step(s, ev), n)
  {
    hide Inv, Step, SlotKey, EndsWith;
    var s' := Step(s, ev);
    if JobName(n) in s'.jobs {
      NewJobs(s, ev, JobName(n));
      assert JobName(n)[|BUILD_PREFIX|..] == n && JobName(ev.n)[|BUILD_PREFIX|..] == ev.n;
      BuildersAreNumbered(s, n);
    }
    forall k: Slot ensures SlotKey(k, n) !in s'.objects {
      if SlotKey(k, n) in s'.objects {
        NewObject(s, ev, SlotKey(k, n));
        BuildersAreNumbered(s, ev.n);
        SlotsAreDisjoint(n, ev.n, k, s.workers[ev.n].pc.k);
      }
    }
  }

  lemma {:induction false} RunBranch(now: nat, evs: seq<Event>, n: string)
    requires !EndsWith(n, PROXY_SUFFIX) && forall i | 0 <= i <= |evs| :: Unnumbered(Run(Init(now), evs[..i]), n)
    ensures BranchInv(Run(Init(now), evs), n)
  {
    hide Inv, Step, EndsWith, Unnumbered, SlotKey;
    if evs != [] {
      var front := evs[..|evs| - 1];
      assert forall i | 0 <= i <= |front| :: front[..i] == evs[..i];
      RunBranch(now, front, n);
      RunOk(now, front);
      var s := Run(Init(now), front);
      assert evs[..|front|] == front && evs[..|evs|] == evs;
      UntouchedStays(s, evs[|evs| - 1], n);
      BaseStays(s, evs[|evs| - 1], n);
    }
  }

  lemma UntouchedAtEnd(now: nat, evs: seq<Event>, n: string)
    requires !EndsWith(n, PROXY_SUFFIX) && forall i | 0 <= i <= |evs| :: Unnumbered(Run(Init(now), evs[..i]), n)
    ensures Untouched(Run(Init(now), evs), n)
  {
    RunBranch(now, evs, n);
    hide Run;
  }
}

/** The built-versions cache over whole runs. */
module BuildWindow {
  import opened Naming
  import opened Versions
  import opened Cluster
  import opened Safety
  import opened Effects

  predicate DistinctTags(s: seq<BuiltVersion>) {
    forall i, j | 0 <= i < j < |s| :: s[i].tag != s[j].tag
  }

  /** A stored time is the start of the second it falls into, and nothing else about the entry changes. */
  lemma StoredTruncates(v: BuiltVersion)
    ensures var r := Stored(v); r.tag == v.tag && r.timestamp % 1000 == 0 && r.timestamp <= v.timestamp < r.timestamp + 1000
  {
  }

  /** `built` is the window on the builds recorded since the instance was created. */
  predicate WindowOk(recorded: seq<BuiltVersion>, built: seq<BuiltVersion>, now: nat) {
    && built == Window(recorded, KEEP)
    && StrictlyIncreasing(recorded)
    && DistinctTags(built)
    && Whole(recorded, now)
  }

  predicate Before(built: seq<BuiltVersion>, t: int) {
    forall i | 0 <= i < |built| :: built[i].timestamp <= t
  }

  predicate ClockOk(w: Worker, now: nat) {
    && Before(w.base.built, now)
    && (w.pc.Poll? ==> Before(w.base.built, w.pc.readyAt - 10 * SECOND))
    && (w.pc.MarkDeploying? && w.pc.added.Some? ==>
      w.pc.added.value.timestamp <= now && Before(w.base.built, w.pc.added.value.timestamp - 10 * SECOND))
  }

  predicate InstanceWindow(s: State, n: string)
    requires n in s.insts
  {
    n in s.recorded && WindowOk(s.recorded[n], s.insts[n].built, s.now)
  }

  predicate WindowInv(s: State) {
    && (forall n | n in s.insts :: InstanceWindow(s, n))
    && (forall n | n in s.workers :: ClockOk(s.workers[n], s.now))
  }

  // ---------------------------------------------------------------- one build

  lemma WindowOfWindow(recorded: seq<BuiltVersion>, v: BuiltVersion)
    ensures Window(Window(recorded, KEEP) + [v], KEEP) == Window(recorded + [v], KEEP)
  {
  }

  lemma StoredWhole(built: seq<BuiltVersion>)
    requires forall i | 0 <= i < |built| :: built[i] == Stored(built[i])
    ensures StoredAll(built) == built
  {
  }

  lemma WindowStored(recorded: seq<BuiltVersion>, built: seq<BuiltVersion>, now: nat)
    requires WindowOk(recorded, built, now)
    ensures StoredAll(built) == built && Before(built, now)
  {
    StoredWhole(built);
  }

  lemma Increasing(built: seq<BuiltVersion>, v: BuiltVersion)
    requires StrictlyIncreasing(built) && Before(built, v.timestamp - 10 * SECOND)
    ensures StrictlyIncreasing(built + [v]) && StrictlyIncreasing(built + [Stored(v)])
  {
  }

  lemma StoredWindow(built: seq<BuiltVersion>, v: BuiltVersion)
    requires StoredAll(built) == built
    ensures StoredAll(Window(built + [v], KEEP)) == Window(built + [Stored(v)], KEEP)
  {
    assert forall i | 0 <= i < |built| :: StoredAll(built)[i] == built[i];
  }

  lemma WindowIncreasing(recorded: seq<BuiltVersion>, v: BuiltVersion, t: int)
    requires StrictlyIncreasing(recorded) && Before(Window(recorded, KEEP), t) && t < v.timestamp
    ensures StrictlyIncreasing(recorded + [v])
  {
    if recorded != [] {
      var built := Window(recorded, KEEP);
      assert recorded[|recorded| - 1] == built[|built| - 1];
    }
  }

  lemma WindowTags(built: seq<BuiltVersion>, v: BuiltVersion)
    requires DistinctTags(built) && !HasTag(built, v.tag)
    ensures DistinctTags(Window(built + [v], KEEP))
  {
    assert forall i | 0 <= i < |built| :: built[i] in built && built[i].tag != v.tag;
    assert DistinctTags(built + [v]);
  }

  predicate Whole(recorded: seq<BuiltVersion>, now: nat) {
    forall i | 0 <= i < |recorded| :: recorded[i].tag != "" && recorded[i].timestamp <= now && recorded[i] == Stored(recorded[i])
  }

  lemma WholeGrows(recorded: seq<BuiltVersion>, v: BuiltVersion, now: nat)
    requires Whole(recorded, now) && v.tag != "" && v.timestamp <= now
    ensures Whole(recorded + [Stored(v)], now)
  {
    assert Stored(Stored(v)) == Stored(v);
  }

  lemma WindowIsIncreasing(recorded: seq<BuiltVersion>)
    requires StrictlyIncreasing(recorded)
    ensures StrictlyIncreasing(Window(recorded, KEEP))
  {
  }

  /** Recording a build started at least ten seconds after the newest entry moves the window by one. */
  lemma WindowMoves(recorded: seq<BuiltVersion>, built: seq<BuiltVersion>, now: nat, v: BuiltVersion, r: seq<BuiltVersion>)
    requires WindowOk(recorded, built, now) && v.timestamp <= now && Before(built, v.timestamp - 10 * SECOND)
    requires UpdateResult(built, v, KEEP, r) && v.tag != "" && !HasTag(built, v.tag)
    ensures WindowOk(recorded + [Stored(v)], StoredAll(r), now)
  {
    var u := Stored(v);
    WindowStored(recorded, built, now);
    WindowIsIncreasing(recorded);
    Increasing(built, v);
    UpdateIsSlidingWindow(built, v, KEEP, r);
    StoredWindow(built, v);
    WindowOfWindow(recorded, u);
    WindowIncreasing(recorded, u, v.timestamp - 10 * SECOND);
    WindowTags(built, u);
    WholeGrows(recorded, v, now);
    hide Whole, StrictlyIncreasing, DistinctTags, Window, Before, UpdateResult, HasTag;
  }

  lemma LaterWindow(recorded: seq<BuiltVersion>, built: seq<BuiltVersion>, now: nat, later: nat)
    requires WindowOk(recorded, built, now) && now <= later
    ensures WindowOk(recorded, built, later)
  {
  }

  // ---------------------------------------------------------------- every step

  /** Steps that change neither cached versions nor the history of builds. */
  lemma SameBuilt(s: State, s': State)
    requires WindowInv(s) && s'.now >= s.now
    requires forall n | n in s'.insts :: n in s.insts && s'.insts[n].built == s.insts[n].built
    requires s'.recorded == s.recorded
    ensures forall n | n in s'.insts :: InstanceWindow(s', n)
  {
    forall n | n in s'.insts ensures InstanceWindow(s', n) {
      assert InstanceWindow(s, n);
      LaterWindow(s.recorded[n], s.insts[n].built, s.now, s'.now);
    }
  }

  lemma StatusKeepsBuilt(s: State, n: string, base: Instance, mem: Instance, fault: Fault)
    requires WindowInv(s) && Linked(s, n, base) && mem.version == base.version && mem.built == base.built
    ensures var s' := StatusUpdate(s, n, mem, fault);
            s'.insts.Keys == s.insts.Keys && forall m | m in s'.insts :: s'.insts[m].built == s.insts[m].built
  {
    if Accepts(s, n, mem, fault) {
      assert InstanceWindow(s, n);
      WindowStored(s.recorded[n], s.insts[n].built, s.now);
    }
  }

  lemma SpecKeepsBuilt(s: State, n: string, mem: Instance, fault: Fault)
    ensures var s' := SpecUpdate(s, n, mem, fault);
            forall m | m in s'.insts :: m in s.insts && s'.insts[m].built == s.insts[m].built
  {
    SpecCases(s, n, mem, fault);
    hide SpecUpdate;
    if !Accepts(s, n, mem, fault) {
    } else if Releases(s, n, mem) {
    } else {
    }
  }

  lemma DeleteKeepsBuilt(s: State, n: string)
    requires n in s.insts
    ensures var s' := RequestDelete(s, n);
            forall m | m in s'.insts :: m in s.insts && s'.insts[m].built == s.insts[m].built
  {
    forall m | m in RequestDelete(s, n).insts
      ensures m in s.insts && RequestDelete(s, n).insts[m].built == s.insts[m].built
    {
      DeleteInstances(s, n, m);
    }
  }

  lemma BuildRecorded(s: State, n: string, w: Worker, io: Io, s': State)
    requires WindowInv(s) && n in s.insts && w.pc.MarkDeploying? && w.pc.added.Some? && Accepts(s, n, w.mem, io.fault)
    requires AtPc(w) && Linked(s, n, w.base) && ClockOk(w, s.now)
    requires s'.insts == StatusUpdate(s, n, w.mem, io.fault).insts && s'.now == s.now
    requires s'.recorded == RecordedAfter(s, n, w, io)
    ensures forall m | m in s'.insts :: InstanceWindow(s', m)
  {
    var v := w.pc.added.value;
    assert InstanceWindow(s, n) && s.insts[n] == w.base;
    WindowMoves(s.recorded[n], w.base.built, s.now, v, w.mem.built);
    forall m | m in s'.insts ensures InstanceWindow(s', m) {
      if m != n { assert InstanceWindow(s, m); }
    }
  }

  lemma WorkWindow(s: State, n: string, io: Io)
    requires Inv(s) && WindowInv(s) && n in s.workers
    ensures var s' := Step(s, Work(n, io)); forall m | m in s'.insts :: InstanceWindow(s', m)
  {
    hide LabelsTell;
    hide Run, Step, Inv, InstanceOk;
    var w := s.workers[n];
    var s' := Step(s, Work(n, io));
    WorkEffect(s, n, io);
    WorkerFacts(s, n);
    assert ClockOk(w, s.now);
    hide Inv, Step, UpdateResult;
    if w.pc.MarkDeploying? && w.pc.added.Some? && Accepts(s, n, w.mem, io.fault) {
      BuildRecorded(s, n, w, io, s');
    } else if WritesStatus(w.pc) {
      if Accepts(s, n, w.mem, io.fault) { StatusKeepsBuilt(s, n, w.base, w.mem, io.fault); }
      hide WindowInv;
      SameBuilt(s, s');
    } else {
      SpecKeepsBuilt(s, n, w.mem, io.fault);
      hide WindowInv;
      SameBuilt(s, s');
    }
  }

  lemma SaveWindow(s: State, e: string, io: Io)
    requires WindowInv(s) && e in s.envWorkers && s.envWorkers[e].pc.SaveWrite? && s.envWorkers[e].pc.todo != []
    ensures var s' := Step(s, EnvWork(e, io)); forall m | m in s'.insts :: InstanceWindow(s', m)
  {
    hide Step, EnvDo, SpecUpdate, InstancesAfter, Cluster.CreateInstance, Merged, WindowInv, InstanceWindow;
    var w := s.envWorkers[e];
    var s' := Step(s, EnvWork(e, io));
    var d := w.pc.todo[0];
    EnvWorkEffect(s, e, io);
    AfterCases(s, w, io);
    if Updates(w) {
      SpecFrame(s, d.name, Merged(w.pc.existing.value, d), io.fault);
      SpecKeepsBuilt(s, d.name, Merged(w.pc.existing.value, d), io.fault);
      SameBuilt(s, s');
    } else {
      CreatedWindow(s, d, s');
    }
  }

  lemma EnvWorkWindow(s: State, e: string, io: Io)
    requires WindowInv(s) && e in s.envWorkers
    ensures var s' := Step(s, EnvWork(e, io)); forall m | m in s'.insts :: InstanceWindow(s', m)
  {
    hide Step;
    var w := s.envWorkers[e];
    var s' := Step(s, EnvWork(e, io));
    EnvWorkEffect(s, e, io);
    if w.pc.SaveWrite? && w.pc.todo != [] {
      SaveWindow(s, e, io);
    } else {
      hide Step;
      if w.pc.DeleteNext? && w.pc.names != [] && w.pc.names[0] in s.insts {
        DeleteFrame(s, w.pc.names[0]);
        DeleteKeepsBuilt(s, w.pc.names[0]);
      }
      hide RequestDelete, WindowInv, InstanceWindow;
      SameBuilt(s, s');
    }
  }

  lemma CreatedWindow(s: State, d: Draft, s': State)
    requires WindowInv(s) && s'.now == s.now
    requires || (s'.insts == s.insts && s'.recorded == s.recorded)
             || (d.name !in s.insts && s'.insts == CreateInstance(s, d).insts && s'.recorded == CreateInstance(s, d).recorded)
    ensures forall m | m in s'.insts :: InstanceWindow(s', m)
  {
    forall m | m in s'.insts ensures InstanceWindow(s', m) {
      if m in s.insts { assert InstanceWindow(s, m); }
    }
  }

  lemma HandlerWindow(s: State, id: nat, fault: Fault)
    requires Inv(s) && WindowInv(s) && id in s.handlers
    ensures var s' := Step(s, HandlerWrite(id, fault)); forall m | m in s'.insts :: InstanceWindow(s', m)
  {
    hide Inv, WorkerOk;
    var h := s.handlers[id];
    HandlerFacts(s, id);
    hide Inv;
    StatusFrame(s, h.name, h.copy.(phase := Pending), fault);
    StatusKeepsBuilt(s, h.name, h.copy, h.copy.(phase := Pending), fault);
    hide WindowInv;
    SameBuilt(s, Step(s, HandlerWrite(id, fault)));
  }

  lemma DeleteWindow(s: State, n: string)
    requires WindowInv(s) && n in s.insts
    ensures var s' := Step(s, DeleteInstance(n)); forall m | m in s'.insts :: InstanceWindow(s', m)
  {
    hide RequestDelete, WindowInv, InstanceWindow;
    DeleteFrame(s, n);
    DeleteKeepsBuilt(s, n);
    SameBuilt(s, RequestDelete(s, n));
  }

  lemma EditWindow(s: State, n: string, desired: string)
    requires WindowInv(s) && n in s.insts
    ensures var s' := Step(s, EditInstance(n, desired)); forall m | m in s'.insts :: InstanceWindow(s', m)
  {
    hide WindowInv, InstanceWindow;
    SameBuilt(s, PutInstance(s, n, s.insts[n].(desired := desired, version := s.next)));
  }

  lemma StoreWindow(s: State, ev: Event)
    requires Inv(s) && WindowInv(s)
    ensures var s' := Step(s, ev); forall m | m in s'.insts :: InstanceWindow(s', m)
  {
    hide Step, Inv, WindowInv, InstanceWindow;
    if AboutNothing(s, ev) {
      NothingHappens(s, ev);
      SameBuilt(s, s);
    } else {
      match ev
      case Work(n, io) => WorkWindow(s, n, io);
      case EnvWork(e, io) => EnvWorkWindow(s, e, io);
      case HandlerWrite(id, fault) => HandlerWindow(s, id, fault);
      case DeleteInstance(n) => DeleteWindow(s, n);
      case EditInstance(n, desired) => EditWindow(s, n, desired);
      case _ =>
        OthersLeaveInstances(s, ev);
        TimeMoves(s, ev);
        SameBuilt(s, Step(s, ev));
    }
  }

  predicate NextOk(s1: State, n: string, w: Worker, o: Option<Worker>, now: nat) {
    o.Some? ==>
      var w' := o.value;
      && (w'.base == w.base || (n in s1.insts && w'.base == s1.insts[n]))
      && (w'.pc.Poll? ==> w'.base == w.base && (w'.pc == w.pc || w'.pc.readyAt == now + 10 * SECOND))
      && (w'.pc.MarkDeploying? && w'.pc.added.Some? ==>
           && w'.base == w.base && w.pc.Poll? && w.pc.readyAt <= now && w'.pc.added.value.timestamp == now)
  }

  lemma NextAfterWrite(s: State, n: string, w: Worker, io: Io)
    requires WritesStatus(w.pc) || WritesSpec(w.pc)
    ensures NextOk(Do(s, n, w, io).0, n, w, Do(s, n, w, io).1, s.now)
  {
    hide StatusUpdate, SpecUpdate, Accepts, FinishBuild;
  }

  lemma NextAfterOther(s: State, n: string, w: Worker, io: Io)
    requires !WritesStatus(w.pc) && !WritesSpec(w.pc)
    ensures NextOk(Do(s, n, w, io).0, n, w, Do(s, n, w, io).1, s.now)
  {
    hide UpdateResult, SlotKey, SlotObject, HasTag;
  }

  /** A worker goes on with the version it had or with the one it has just been handed back. */
  lemma NextBase(s: State, n: string, w: Worker, io: Io)
    ensures NextOk(Do(s, n, w, io).0, n, w, Do(s, n, w, io).1, s.now)
  {
    hide NextOk, Do;
    if WritesStatus(w.pc) || WritesSpec(w.pc) { NextAfterWrite(s, n, w, io); } else { NextAfterOther(s, n, w, io); }
  }

  lemma ClockGoesOn(w: Worker, w': Worker, stored: Option<Instance>, now: nat)
    requires ClockOk(w, now) && (stored.Some? ==> Before(stored.value.built, now))
    requires w'.base == w.base || stored == Some(w'.base)
    requires w'.pc.Poll? ==> w'.base == w.base && (w'.pc == w.pc || w'.pc.readyAt == now + 10 * SECOND)
    requires w'.pc.MarkDeploying? && w'.pc.added.Some? ==>
               w'.base == w.base && w.pc.Poll? && w.pc.readyAt <= now && w'.pc.added.value.timestamp == now
    ensures ClockOk(w', now)
  {
  }

  /** The clock facts of a worker after one of its own steps. */
  lemma WorkerClock(s: State, n: string, io: Io)
    requires Inv(s) && WindowInv(s) && n in s.workers
    ensures var s' := Step(s, Work(n, io)); n in s'.workers ==> ClockOk(s'.workers[n], s'.now)
  {
    var w := s.workers[n];
    var s' := Step(s, Work(n, io));
    WorkEffect(s, n, io);
    WorkWindow(s, n, io);
    WorkerFacts(s, n);
    DoFrame(s, n, w, io);
    assert ClockOk(w, s.now);
    if n in s'.workers {
      NextBase(s, n, w, io);
      if n in s'.insts {
        assert InstanceWindow(s', n);
        WindowStored(s'.recorded[n], s'.insts[n].built, s'.now);
      }
      hide *;
      ClockGoesOn(w, s'.workers[n], if n in s'.insts then Some(s'.insts[n]) else None, s.now);
    }
  }

  lemma StepWindow(s: State, ev: Event)
    requires Inv(s) && WindowInv(s)
    ensures WindowInv(Step(s, ev))
  {
    var s' := Step(s, ev);
    StoreWindow(s, ev);
    TimeMoves(s, ev);
    forall n | n in s'.workers ensures ClockOk(s'.workers[n], s'.now) {
      NewWorker(s, ev, n);
    }
  }

  lemma NewWorker(s: State, ev: Event, n: string)
    requires Inv(s) && WindowInv(s) && n in Step(s, ev).workers
    ensures ClockOk(Step(s, ev).workers[n], Step(s, ev).now)
  {
    hide Inv;
    TimeMoves(s, ev);
    if ev == Begin(n) && n !in s.workers {
      assert InstanceWindow(s, n);
      WindowStored(s.recorded[n], s.insts[n].built, s.now);
      hide Inv, WindowOk, StoredAll;
    } else if ev.Work? && ev.n == n {
      WorkerClock(s, n, ev.io);
    } else {
      WorkersStay(s, ev, n);
      assert ClockOk(s.workers[n], s.now);
    }
  }

  lemma {:induction false} RunWindow(now: nat, evs: seq<Event>)
    ensures WindowInv(Run(Init(now), evs))
  {
    if evs != [] {
      RunWindow(now, evs[..|evs| - 1]);
      RunOk(now, evs[..|evs| - 1]);
      StepWindow(Run(Init(now), evs[..|evs| - 1]), evs[|evs| - 1]);
    }
  }

  lemma WindowAtEnd(now: nat, evs: seq<Event>, n: string)
    requires n in Run(Init(now), evs).insts
    ensures var s := Run(Init(now), evs); var built := s.insts[n].built;
            && n in s.recorded && built == Window(s.recorded[n], KEEP) && |built| <= KEEP
            && StrictlyIncreasing(s.recorded[n]) && StrictlyIncreasing(built) && DistinctTags(built)
            && forall v | v in built :: v.tag != "" && v.timestamp % SECOND == 0 && v.timestamp <= s.now
  {
    RunWindow(now, evs);
    var s := Run(Init(now), evs);
    assert InstanceWindow(s, n);
    WindowIsIncreasing(s.recorded[n]);
  }
}

/** What a cleanup removes: everything exactly when the proxy's objects are a prefix of their order. */
module Cleanup {
  import opened Text
  import opened Naming
  import opened Versions
  import opened Cluster
  import opened Safety
  import opened Effects
  import opened Finalizers

  type Objects = map<ObjectKey, ClusterObject>

  /** The objects that are left when the deletes from slot `k` on all get an answer. */
  function Swept(objects: Objects, n: string, k: Slot): Objects
    decreases 6 - k
  {
    var rest := objects - {SlotKey(k, n)};
    match AfterDelete(k, SlotKey(k, n) in objects)
    case Some(next) => Swept(rest, n, next)
    case None => rest
  }

  function NextSlot(k: Slot, ok: bool): Slot
    requires k < 5
  {
    AfterDelete(k, ok).value
  }

  lemma SweptOn(objects: Objects, n: string, k: Slot)
    ensures k < 5 ==> Swept(objects, n, k) == Swept(objects - {SlotKey(k, n)}, n, NextSlot(k, SlotKey(k, n) in objects))
    ensures k == 5 ==> Swept(objects, n, k) == objects - {SlotKey(k, n)}
  {
    hide SlotKey;
  }

  predicate Holds(objects: Objects, n: string, k: Slot) { SlotKey(k, n) in objects }

  predicate ClosedIn(objects: Objects, n: string) {
    (Holds(objects, n, 4) ==> Holds(objects, n, 3)) && (Holds(objects, n, 3) ==> Holds(objects, n, 2))
  }

  /** Which object of slot `j` survives a sweep that starts at slot `k`. */
  predicate Survives(objects: Objects, n: string, k: Slot, j: Slot) {
    && Holds(objects, n, j)
    && (j < k || (j == 3 && k <= 2 && !Holds(objects, n, 2))
              || (j == 4 && ((k <= 2 && !(Holds(objects, n, 2) && Holds(objects, n, 3))) || (k == 3 && !Holds(objects, n, 3)))))
  }

  lemma {:induction false} SweptLeaves(objects: Objects, n: string, k: Slot, j: Slot)
    requires !EndsWith(n, PROXY_SUFFIX)
    ensures Holds(Swept(objects, n, k), n, j) <==> Survives(objects, n, k, j)
    decreases 6 - k
  {
    var rest := objects - {SlotKey(k, n)};
    forall i: Slot ensures Holds(rest, n, i) <==> Holds(objects, n, i) && i != k {
      if SlotKey(i, n) == SlotKey(k, n) { SlotsAreDisjoint(n, n, i, k); }
    }
    var next := AfterDelete(k, Holds(objects, n, k));
    if next.Some? { SweptLeaves(rest, n, next.value, j); }
    hide SlotKey;
  }

  lemma {:induction false} SweptSpares(objects: Objects, n: string, k: Slot, key: ObjectKey)
    requires forall j: Slot :: key != SlotKey(j, n)
    ensures key in Swept(objects, n, k) <==> key in objects
    ensures key in objects ==> Swept(objects, n, k)[key] == objects[key]
    decreases 6 - k
  {
    hide SlotKey;
    var rest := objects - {SlotKey(k, n)};
    var next := AfterDelete(k, SlotKey(k, n) in objects);
    if next.Some? { SweptSpares(rest, n, next.value, key); }
  }

  /** A cleanup whose calls all get an answer removes all six objects if and only if the proxy's objects exist
      as a prefix of Deployment, Service, Ingress: the first one that is missing ends the proxy's deletes. */
  lemma SweepRemovesAllIff(objects: Objects, n: string)
    requires !EndsWith(n, PROXY_SUFFIX)
    ensures (forall j: Slot :: !Holds(Swept(objects, n, 0), n, j)) <==> ClosedIn(objects, n)
  {
    forall j: Slot ensures Holds(Swept(objects, n, 0), n, j) <==> Survives(objects, n, 0, j) {
      SweptLeaves(objects, n, 0, j);
    }
    hide Swept, SlotKey, Holds;
    assert Holds(Swept(objects, n, 0), n, 3) <==> Survives(objects, n, 0, 3);
    assert Holds(Swept(objects, n, 0), n, 4) <==> Survives(objects, n, 0, 4);
  }

  // ---------------------------------------------------------------- a whole cleanup

  lemma DeleteStep(s: State, n: string, k: Slot, io: Io)
    requires n in s.workers && s.workers[n].pc == Del(k) && io.fault.Done?
    ensures var s' := Step(s, Work(n, io)); var w := s.workers[n];
            && s'.insts == s.insts && s'.objects == s.objects - {SlotKey(k, n)} && n in s'.workers
            && s'.workers[n] == match AfterDelete(k, SlotKey(k, n) in s.objects)
                                case Some(next) => w.(pc := Del(next))
                                case None => w.(pc := RemoveFinalizer, mem := w.mem.(finalizer := false))
  {
    hide Step, SlotKey;
    WorkEffect(s, n, io);
  }

  /** The deletes of one cleanup, up to the last. */
  function CleanupRun(s: State, n: string, ios: seq<Io>): State
    decreases |ios|
  {
    if ios == [] || n !in s.workers || !s.workers[n].pc.Del? then s
    else CleanupRun(Step(s, Work(n, ios[0])), n, ios[1..])
  }

  predicate AllDone(ios: seq<Io>) { forall io | io in ios :: io.fault.Done? }

  /** Followed to its last delete, a cleanup in the machine leaves what the sweep leaves. */
  lemma {:induction false} CleanupSweeps(s: State, n: string, k: Slot, ios: seq<Io>)
    requires n in s.workers && s.workers[n].pc == Del(k) && AllDone(ios)
    requires n in CleanupRun(s, n, ios).workers && CleanupRun(s, n, ios).workers[n].pc == RemoveFinalizer
    ensures CleanupRun(s, n, ios).objects == Swept(s.objects, n, k) && CleanupRun(s, n, ios).insts == s.insts
    decreases |ios|
  {
    hide Step, SlotKey;
    assert ios != [];
    var t := Step(s, Work(n, ios[0]));
    DeleteStep(s, n, k, ios[0]);
    if t.workers[n].pc.Del? { CleanupSweeps(t, n, t.workers[n].pc.k, ios[1..]); }
  }

  /** An event that leaves an instance, its reconcile and its six objects as they are. */
  predicate LeavesAlone(s: State, ev: Event, n: string) {
    var t := Step(s, ev);
    && n in s.insts && n in t.insts && t.insts[n] == s.insts[n]
    && n in s.workers && n in t.workers && t.workers[n] == s.workers[n]
    && forall j: Slot :: Holds(t.objects, n, j) <==> Holds(s.objects, n, j)
  }

  /** An answered call of the reconcile of `n`, or something that does not concern it. */
  predicate Serves(s: State, ev: Event, n: string) {
    (ev.Work? && ev.n == n && ev.io.fault.Done?) || LeavesAlone(s, ev, n)
  }

  predicate SurvivesAlike(a: Objects, k: Slot, b: Objects, j: Slot, n: string) {
    forall i: Slot :: Survives(a, n, k, i) <==> Survives(b, n, j, i)
  }

  predicate LeftOver(objects: Objects, before: Objects, n: string) {
    forall j: Slot :: Holds(objects, n, j) <==> Survives(before, n, 0, j)
  }

  /** A cleanup of instance `i` that began with the objects `before` has come this far. */
  predicate Sweeping(before: Objects, i: Instance, s: State, n: string) {
    && n in s.insts && s.insts[n] == i && n in s.workers
    && match s.workers[n].pc {
      case Del(k) => s.workers[n].mem == i && SurvivesAlike(s.objects, k, before, 0, n)
      case RemoveFinalizer => s.workers[n].mem == i.(finalizer := false) && LeftOver(s.objects, before, n)
      case _ => false
    }
  }

  predicate Released(before: Objects, s: State, n: string) {
    n !in s.insts && n !in s.workers && LeftOver(s.objects, before, n)
  }

  lemma SweepOnAlike(objects: Objects, n: string, k: Slot, before: Objects)
    requires SurvivesAlike(objects, k, before, 0, n) && !EndsWith(n, PROXY_SUFFIX)
    ensures var rest := objects - {SlotKey(k, n)};
            match AfterDelete(k, SlotKey(k, n) in objects)
            case Some(next) => SurvivesAlike(rest, next, before, 0, n)
            case None => LeftOver(rest, before, n)
  {
    var rest := objects - {SlotKey(k, n)};
    var next := AfterDelete(k, SlotKey(k, n) in objects);
    forall i: Slot ensures Survives(before, n, 0, i) <==> if next.Some? then Survives(rest, n, next.value, i) else Holds(rest, n, i) {
      SweptLeaves(objects, n, k, i);
      if next.Some? { SweptLeaves(rest, n, next.value, i); }
    }
    hide Survives, SlotKey, Holds;
  }

  lemma SweepStep(before: Objects, i: Instance, s: State, n: string, io: Io)
    requires Sweeping(before, i, s, n) && s.workers[n].pc.Del? && io.fault.Done? && !EndsWith(n, PROXY_SUFFIX)
    ensures Sweeping(before, i, Step(s, Work(n, io)), n)
  {
    hide Step, SlotKey, SurvivesAlike, LeftOver, EndsWith;
    DeleteStep(s, n, s.workers[n].pc.k, io);
    SweepOnAlike(s.objects, n, s.workers[n].pc.k, before);
  }

  lemma ReleaseStep(before: Objects, i: Instance, s: State, n: string, io: Io)
    requires Sweeping(before, i, s, n) && s.workers[n].pc.RemoveFinalizer? && io.fault.Done? && i.deleting
    ensures Released(before, Step(s, Work(n, io)), n)
  {
    hide Step, LeftOver, SpecUpdate, Written, ObjectsAfter, RecordedAfter;
    Release(s, n, io);
    WorkEffect(s, n, io);
  }

  lemma AloneStep(before: Objects, i: Instance, s: State, n: string, ev: Event)
    requires Sweeping(before, i, s, n) && LeavesAlone(s, ev, n)
    ensures Sweeping(before, i, Step(s, ev), n)
  {
    hide Step, Holds;
  }

  /** Each step that serves a cleanup keeps what will be left over in the end. */
  lemma ServedStep(before: Objects, i: Instance, s: State, n: string, ev: Event)
    requires Sweeping(before, i, s, n) && Serves(s, ev, n) && i.deleting && !EndsWith(n, PROXY_SUFFIX)
    ensures Sweeping(before, i, Step(s, ev), n) || Released(before, Step(s, ev), n)
  {
    hide Step, LeavesAlone, EndsWith, LeftOver, SurvivesAlike;
    if LeavesAlone(s, ev, n) {
      AloneStep(before, i, s, n, ev);
    } else if s.workers[n].pc.Del? {
      SweepStep(before, i, s, n, ev.io);
    } else {
      ReleaseStep(before, i, s, n, ev.io);
    }
  }

  lemma SweepBegins(s: State, n: string)
    requires n in s.insts && s.insts[n].deleting && s.insts[n].finalizer && n !in s.workers
    ensures Sweeping(s.objects, s.insts[n], Step(s, Begin(n)), n)
  {
    hide SlotKey, Survives;
  }

  lemma NothingSurvivesIff(objects: Objects, n: string)
    requires !EndsWith(n, PROXY_SUFFIX)
    ensures (forall j: Slot :: !Survives(objects, n, 0, j)) <==> ClosedIn(objects, n)
  {
    forall j: Slot ensures Holds(Swept(objects, n, 0), n, j) <==> Survives(objects, n, 0, j) {
      SweptLeaves(objects, n, 0, j);
    }
    SweepRemovesAllIff(objects, n);
    hide Swept, SlotKey, Holds, Survives;
  }

  // ---------------------------------------------------------------- an interrupted cleanup

  /** What restarting a cleanup that died at slot `k` can still remove: nothing is left over if and only if it did
      not die between the proxy's Deployment and Ingress with one of them still there. */
  lemma RestartRemovesAllIff(objects: Objects, n: string, k: Slot)
    requires !EndsWith(n, PROXY_SUFFIX)
    requires forall j: Slot | j < k :: !Holds(objects, n, j)
    requires k <= 2 ==> ClosedIn(objects, n)
    ensures (forall j: Slot :: !Holds(Swept(objects, n, 0), n, j)) <==>
            ((k == 3 || k == 4) ==> !Holds(objects, n, 3) && !Holds(objects, n, 4))
  {
    SweepRemovesAllIff(objects, n);
    hide Swept, SlotKey, Holds;
    if k == 3 || k == 4 { assert !Holds(objects, n, 2); }
    if k == 5 { assert !Holds(objects, n, 3) && !Holds(objects, n, 4); }
  }

  lemma BareDelete(s: State, n: string, k: Slot, io: Io)
    requires n in s.workers && s.workers[n].pc == Del(k) && io.fault.Done? && SlotKey(k, n) !in s.objects && k < 3
    ensures var s' := Step(s, Work(n, io));
            && s'.insts == s.insts && s'.objects == s.objects && n in s'.workers
            && s'.workers[n] == s.workers[n].(pc := Del(if k == 2 then 5 else k + 1))
  {
    hide Step, SlotKey;
    DeleteStep(s, n, k, io);
  }

  lemma BareDeletes(s: State, n: string, io: Io)
    requires n in s.workers && s.workers[n].pc == Del(0) && io.fault.Done? && forall j: Slot | j < 3 :: SlotKey(j, n) !in s.objects
    ensures var s1 := Step(s, Work(n, io)); var s2 := Step(s1, Work(n, io)); var s3 := Step(s2, Work(n, io));
            s3.insts == s.insts && s3.objects == s.objects && n in s3.workers && s3.workers[n] == s.workers[n].(pc := Del(5))
  {
    hide Step, SlotKey;
    BareDelete(s, n, 0, io);
    var s1 := Step(s, Work(n, io));
    BareDelete(s1, n, 1, io);
    BareDelete(Step(s1, Work(n, io)), n, 2, io);
  }

  lemma LastDelete(s: State, n: string, io: Io)
    requires n in s.workers && s.workers[n].pc == Del(5) && io.fault.Done?
    ensures var s' := Step(s, Work(n, io));
            && s'.insts == s.insts && s'.objects == s.objects - {SlotKey(5, n)} && n in s'.workers
            && s'.workers[n] == s.workers[n].(pc := RemoveFinalizer, mem := s.workers[n].mem.(finalizer := false))
  {
    hide Step, SlotKey;
    DeleteStep(s, n, 5, io);
  }

  lemma Release(s: State, n: string, io: Io)
    requires n in s.workers && n in s.insts && s.workers[n].pc == RemoveFinalizer && io.fault.Done?
    requires s.insts[n].deleting && s.workers[n].mem == s.insts[n].(finalizer := false)
    ensures var s' := Step(s, Work(n, io)); n !in s'.insts && s'.objects == s.objects
  {
    WorkEffect(s, n, io);
    SpecCases(s, n, s.workers[n].mem, io.fault);
    DropInstances(s, n, n);
    hide Step, SpecUpdate, DropInstance, PutInstance;
  }

  lemma BeginCleanup(s: State, n: string)
    requires n in s.insts && s.insts[n].deleting && s.insts[n].finalizer
    ensures var s' := Step(Step(s, Crash(n)), Begin(n));
            && s'.insts == s.insts && s'.objects == s.objects && n in s'.workers
            && s'.workers[n] == Worker(Del(0), s.insts[n], s.insts[n], NO_SPEC)
  {
  }

  /** How the finalizer protocol fails when a cleanup is interrupted there: the process dies after deleting the
      proxy's Deployment, the next reconcile goes through without a single failing answer, the instance is gone,
      and the proxy's Service stays behind for good. */
  lemma InterruptedCleanupLeaks(s: State, n: string, io: Io)
    requires !EndsWith(n, PROXY_SUFFIX) && io.fault.Done?
    requires n in s.insts && s.insts[n].deleting && s.insts[n].finalizer
    requires n in s.workers && s.workers[n].pc == Del(3) && forall j: Slot | j < 3 :: SlotKey(j, n) !in s.objects
    requires SlotKey(3, n) in s.objects
    ensures var s0 := Step(Step(s, Crash(n)), Begin(n)); var s1 := Step(s0, Work(n, io)); var s2 := Step(s1, Work(n, io));
            var s3 := Step(s2, Work(n, io)); var s4 := Step(s3, Work(n, io)); var s5 := Step(s4, Work(n, io));
            n !in s5.insts && SlotKey(3, n) in s5.objects
  {
    hide Step, SlotKey;
    BeginCleanup(s, n);
    var s0 := Step(Step(s, Crash(n)), Begin(n));
    BareDeletes(s0, n, io);
    var s3 := Step(Step(Step(s0, Work(n, io)), Work(n, io)), Work(n, io));
    LastDelete(s3, n, io);
    if SlotKey(5, n) == SlotKey(3, n) { SlotsAreDisjoint(n, n, 5, 3); }
    var s4 := Step(s3, Work(n, io));
    Release(s4, n, io);
  }
}

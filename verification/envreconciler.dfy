/** The reconciler of preview environments, call by call (internal/controller/previewenvironment_controller.go).
    An execution is a run of the machine in module Cluster, whatever everyone else does in between. */
module EnvironmentReconciler {
  import opened Text
  import opened Naming
  import opened Selections
  import opened Cluster
  import opened Effects
  import opened ApiServer
  import opened Saving
  import opened Soundness

  predicate EnvAt(api: Server, e: string, pc: EnvPc, pe: Environment)
    reads api
  {
    api.EnvOwn(e) == Some(EnvWorker(pc, pe))
  }

  // ---------------------------------------------------------------- which instances there should be

  predicate SameStore(a: State, b: State) { a.insts == b.insts && a.next == b.next }

  /** The listed branches that have a name, in order. */
  function Named(listed: seq<string>): seq<string> {
    if listed == [] then []
    else var last := listed[|listed| - 1]; Named(listed[..|listed| - 1]) + if last == "" then [] else [last]
  }

  lemma {:induction false} NamedAt(listed: seq<string>) returns (at: seq<nat>)
    ensures TakenAt(listed, Named(listed), at) && forall j | 0 <= j < |listed| :: j in at <==> listed[j] != ""
  {
    at := [];
    if listed != [] {
      var front, last := listed[..|listed| - 1], listed[|listed| - 1];
      assert listed == front + [last];
      at := NamedAt(front);
      TakeOne(front, Named(front), at, last);
      hide TakenAt;
      if last != "" { at := at + [|front|]; }
    }
  }

  method BranchNames(listed: seq<string>) returns (names: seq<string>)
    ensures names == Named(listed)
    ensures forall b :: b in names <==> b in listed && b != ""
    ensures exists at: seq<nat> :: TakenAt(listed, names, at) && forall j | 0 <= j < |listed| :: j in at <==> listed[j] != ""
  {
    ghost var at := NamedAt(listed);
    names := [];
    for i := 0 to |listed|
      invariant names == Named(listed[..i])
      invariant forall b :: b in names <==> b in listed[..i] && b != ""
    {
      assert listed[..i + 1][..i] == listed[..i];
      if listed[i] != "" { names := names + [listed[i]]; }
    }
    assert listed[..|listed|] == listed;
  }

  /** One entry for each open pull request, then one for each branch if all branches are wanted. */
  function Detected(pe: Environment, pulls: seq<PullRequest>, branches: seq<string>): seq<Draft> {
    PullDrafts(pe, pulls) + if pe.spec.buildAllBranches then BranchDrafts(pe, branches) else []
  }

  /** The labels that an instance of the environment gets. */
  predicate LabelledFor(pe: Environment, l: Labels, identifier: string) {
    && l.owner == pe.spec.owner && l.environment == pe.uid
    && l.organization == pe.spec.organization && l.repository == pe.spec.repository && l.identifier == identifier
  }

  predicate DraftOfPull(pe: Environment, p: PullRequest, d: Draft) {
    && d.name == InstanceName(pe.spec.owner, pe.spec.name, pe.spec.organization, pe.spec.repository, "pr-" + Itoa(p.number))
    && d.git.branch == p.headRef && d.git.pullRequestNumber == Some(p.number) && d.git.commitHash == ""
    && LabelledFor(pe, d.labels, Itoa(p.number))
  }

  predicate DraftOfBranch(pe: Environment, branch: string, d: Draft) {
    && d.name == InstanceName(pe.spec.owner, pe.spec.name, pe.spec.organization, pe.spec.repository, branch)
    && d.git.branch == branch && d.git.pullRequestNumber == None && d.git.commitHash == ""
    && LabelledFor(pe, d.labels, branch)
  }

  function BranchesWanted(pe: Environment, branches: seq<string>): nat { if pe.spec.buildAllBranches then |branches| else 0 }

  /** Field by field: what is detected for the listed pull requests and branches. */
  predicate Detects(pe: Environment, pulls: seq<PullRequest>, branches: seq<string>, drafts: seq<Draft>) {
    && |drafts| == |pulls| + BranchesWanted(pe, branches)
    && (forall i | 0 <= i < |pulls| :: DraftOfPull(pe, pulls[i], drafts[i]))
    && (forall i | 0 <= i < BranchesWanted(pe, branches) :: DraftOfBranch(pe, branches[i], drafts[|pulls| + i]))
  }

  lemma DetectedDetects(pe: Environment, pulls: seq<PullRequest>, branches: seq<string>)
    ensures Detects(pe, pulls, branches, Detected(pe, pulls, branches))
  {
    var drafts := Detected(pe, pulls, branches);
    forall i | 0 <= i < |pulls| ensures DraftOfPull(pe, pulls[i], drafts[i]) { assert drafts[i] == PullDraft(pe, pulls[i]); }
    forall i | 0 <= i < BranchesWanted(pe, branches) ensures DraftOfBranch(pe, branches[i], drafts[|pulls| + i]) {
      assert drafts[|pulls| + i] == BranchDraft(pe, branches[i]);
    }
  }

  function ListCalls(pe: Environment): nat { if pe.spec.buildAllBranches then 2 else 1 }

  /** What is detected by the calls that follow. */
  function DetectedBy(script: seq<Turn>, pe: Environment): seq<Draft>
    requires |script| >= ListCalls(pe)
  {
    Detected(pe, script[0].io.pulls, Named(script[ListCalls(pe) - 1].io.branches))
  }

  predicate DetectedFields(script: seq<Turn>, pe: Environment, drafts: seq<Draft>) {
    |script| >= ListCalls(pe) && Detects(pe, script[0].io.pulls, Named(script[ListCalls(pe) - 1].io.branches), drafts)
  }

  lemma DetectedByFields(script: seq<Turn>, pe: Environment)
    requires |script| >= ListCalls(pe)
    ensures DetectedFields(script, pe, DetectedBy(script, pe))
  {
    DetectedDetects(pe, script[0].io.pulls, Named(script[ListCalls(pe) - 1].io.branches));
    hide Detected, Detects, Named;
  }

  method DetectPulls(api: Server, e: string, pe: Environment) returns (r: Reply, drafts: seq<Draft>)
    requires api.Valid() && EnvAt(api, e, ListPulls, pe)
    modifies api`st, api`script, api`trace, api`undisturbed
    ensures api.Valid()
    ensures if r.Fine? then EnvAt(api, e, ListBranches(drafts), pe) else e !in api.st.envWorkers
    ensures Calm(old(api.script), 1) ==>
              && r.Fine? && api.script == old(api.script)[1..] && SameStore(api.st, old(api.st))
              && drafts == PullDrafts(pe, old(api.script)[0].io.pulls)
  {
    hide Step, Cluster.Run, Server.Valid, EnvDo, InstancesAfter, EnvsAfter;
    drafts := [];
    var alive, io := api.EnvWait(e);
    if !alive { return Down, []; }
    ListMoves(api.st, e, api.st.envWorkers[e], io);
    ReadStep(api.st, e, io);
    api.EnvStep(e, io);
    if !io.fault.Done? { return Error, []; }
    var pulls := io.pulls;
    for i := 0 to |pulls|
      invariant drafts == PullDrafts(pe, pulls[..i])
    {
      drafts := drafts + [PullDraft(pe, pulls[i])];
    }
    assert pulls[..|pulls|] == pulls;
    return Fine, drafts;
  }

  /** Pull requests first, then branches if all of them are wanted. */
  method DetectInstances(api: Server, e: string, pe: Environment) returns (r: Reply, drafts: seq<Draft>)
    requires api.Valid() && EnvAt(api, e, ListPulls, pe)
    modifies api`st, api`script, api`trace, api`undisturbed
    ensures api.Valid()
    ensures if r.Fine? then EnvAt(api, e, SaveRead(drafts), pe) else e !in api.st.envWorkers
    ensures Calm(old(api.script), ListCalls(pe)) ==>
              && r.Fine? && api.script == old(api.script)[ListCalls(pe)..] && SameStore(api.st, old(api.st))
              && drafts == DetectedBy(old(api.script), pe) && DetectedFields(old(api.script), pe, drafts)
  {
    hide Step, Cluster.Run, Server.Valid, EnvDo, InstancesAfter, EnvsAfter, PullDrafts, BranchDrafts, Named, DetectedFields;
    if Calm(api.script, ListCalls(pe)) { DetectedByFields(api.script, pe); }
    r, drafts := DetectPulls(api, e, pe);
    if !r.Fine? { return; }
    if !pe.spec.buildAllBranches {
      SkipBranches(api, e, pe, drafts);
      return;
    }
    var branches;
    r, branches := DetectBranches(api, e, pe, drafts);
    if !r.Fine? { return; }
    drafts := AddBranches(pe, drafts, branches);
  }

  method AddBranches(pe: Environment, found: seq<Draft>, branches: seq<string>) returns (drafts: seq<Draft>)
    ensures drafts == found + BranchDrafts(pe, branches)
  {
    drafts := found;
    for i := 0 to |branches|
      invariant drafts == found + BranchDrafts(pe, branches[..i])
    {
      drafts := drafts + [BranchDraft(pe, branches[i])];
    }
    assert branches[..|branches|] == branches;
  }

  lemma ListMoves(s: State, e: string, w: EnvWorker, io: Io)
    ensures w.pc.ListPulls? ==>
              EnvDo(s, e, w, io).1 == if io.fault.Done? then Some(w.(pc := ListBranches(PullDrafts(w.copy, io.pulls)))) else None
    ensures w.pc.ListBranches? && !w.copy.spec.buildAllBranches ==> EnvDo(s, e, w, io).1 == Some(w.(pc := SaveRead(w.pc.found)))
    ensures w.pc.ListBranches? && w.copy.spec.buildAllBranches ==>
              EnvDo(s, e, w, io).1 ==
              if io.fault.Done? then Some(w.(pc := SaveRead(w.pc.found + BranchDrafts(w.copy, io.branches)))) else None
  {
    hide PullDrafts, BranchDrafts;
  }

  method SkipBranches(api: Server, e: string, pe: Environment, found: seq<Draft>)
    requires api.Valid() && EnvAt(api, e, ListBranches(found), pe) && !pe.spec.buildAllBranches
    modifies api`st, api`trace, api`undisturbed
    ensures api.Valid() && EnvAt(api, e, SaveRead(found), pe) && SameStore(api.st, old(api.st))
  {
    hide Step, Cluster.Run, Server.Valid, EnvDo, InstancesAfter, EnvsAfter;
    var io := Io(Done, "", "", [], [], [], []);
    ListMoves(api.st, e, api.st.envWorkers[e], io);
    ReadStep(api.st, e, io);
    api.EnvStep(e, io);
  }

  method DetectBranches(api: Server, e: string, pe: Environment, ghost found: seq<Draft>)
    returns (r: Reply, branches: seq<string>)
    requires api.Valid() && EnvAt(api, e, ListBranches(found), pe) && pe.spec.buildAllBranches
    modifies api`st, api`script, api`trace, api`undisturbed
    ensures api.Valid()
    ensures if r.Fine? then EnvAt(api, e, SaveRead(found + BranchDrafts(pe, branches)), pe) else e !in api.st.envWorkers
    ensures Calm(old(api.script), 1) ==>
              && r.Fine? && branches == Named(old(api.script)[0].io.branches)
              && api.script == old(api.script)[1..] && SameStore(api.st, old(api.st))
  {
    hide Step, Cluster.Run, Server.Valid, EnvDo, BranchDrafts;
    var alive, io := api.EnvWait(e);
    if !alive { return Down, []; }
    branches := BranchNames(io.branches);
    io := io.(branches := branches);
    ListMoves(api.st, e, api.st.envWorkers[e], io);
    ReadStep(api.st, e, io);
    api.EnvStep(e, io);
    return if io.fault.Done? then Fine else Error, branches;
  }

  // ---------------------------------------------------------------- saving them

  /** What a write does depends on the stored instances and versions alone, and a lost answer changes nothing. */
  lemma UpdateIsSave(a: State, b: State, d: Draft, fault: Fault)
    requires SameStore(a, b) && d.name in a.insts && a.insts[d.name].desired != ""
    ensures var t := SpecUpdate(a, d.name, Merged(a.insts[d.name], d), fault);
            SameStore(t, if fault.Rejected? then b else SaveOne(b, d))
    ensures Accepts(a, d.name, a.insts[d.name], fault) <==> !fault.Rejected?
  {
    hide WithSpec;
    var mem := Merged(a.insts[d.name], d);
    SpecCases(a, d.name, mem, fault);
    SpecCases(b, d.name, mem, Done);
    hide SpecUpdate;
  }

  lemma CreateIsSave(a: State, b: State, d: Draft)
    requires SameStore(a, b) && d.name !in a.insts
    ensures SameStore(Cluster.CreateInstance(a, d), SaveOne(b, d))
  {
  }

  method SaveInstance(api: Server, e: string, pe: Environment, d: Draft, ghost rest: seq<Draft>) returns (r: Reply)
    requires api.Valid() && EnvAt(api, e, SaveRead([d] + rest), pe)
    modifies api`st, api`script, api`trace, api`undisturbed
    ensures api.Valid()
    ensures if r.Fine? then EnvAt(api, e, SaveRead(rest), pe) else e !in api.st.envWorkers
    ensures Alone(old(api.script), 2) ==>
              && !r.Down? && (r.Fine? ==> api.script == old(api.script)[2..])
              && (SameStore(api.st, old(api.st)) || SameStore(api.st, SaveOne(old(api.st), d)))
              && (r.Fine? ==> SameStore(api.st, SaveOne(old(api.st), d)))
              && (Calm(old(api.script), 2) ==> (r.Fine? <==> !Refused(old(api.st), d)))
  {
    hide Step, Cluster.Run, Server.Valid, SpecUpdate, Cluster.CreateInstance, Merged, SaveOne, Accepts;
    var existing;
    r, existing := api.GetInstance(e, d.name);
    if !r.Fine? { return; }
    ghost var s := api.st;
    if existing.Some? && existing.value.desired != "" {
      r := api.UpdateInstance(e, existing.value, d);
      if Alone(old(api.script), 2) { UpdateIsSave(s, old(api.st), d, old(api.script)[1].io.fault); }
    } else {
      r := api.CreateInstance(e, existing, d);
      if Alone(old(api.script), 2) && d.name !in s.insts { CreateIsSave(s, old(api.st), d); }
    }
  }

  /** One entry after the other, stopping at the first error. When nobody else acts, what has been saved is what
      the first `k` entries make of the store, all of them on success; with every call answered it fails only at
      an instance that is stored without a desired phase. */
  method SaveInstances(api: Server, e: string, pe: Environment, drafts: seq<Draft>) returns (r: Reply, ghost k: nat)
    requires api.Valid() && EnvAt(api, e, SaveRead(drafts), pe)
    modifies api`st, api`script, api`trace, api`undisturbed
    ensures api.Valid() && e !in api.st.envWorkers
    ensures k <= |drafts| && (r.Fine? ==> k == |drafts|)
    ensures Alone(old(api.script), 2 * |drafts|) ==> SameStore(api.st, Saved(old(api.st), drafts[..k]))
    ensures Calm(old(api.script), 2 * |drafts|) ==>
              (!r.Fine? ==> k < |drafts| && Refused(Saved(old(api.st), drafts[..k]), drafts[k]))
  {
    hide Step, Cluster.Run, Server.Valid, SaveOne;
    k := 0;
    r := Fine;
    for i := 0 to |drafts|
      invariant api.Valid() && EnvAt(api, e, SaveRead(drafts[i..]), pe) && k == i && r.Fine?
      invariant Alone(old(api.script), 2 * |drafts|) ==>
                  && 2 * i <= |old(api.script)| && api.script == old(api.script)[2 * i..]
                  && SameStore(api.st, Saved(old(api.st), drafts[..i]))
    {
      assert drafts[i..] == [drafts[i]] + drafts[i + 1..];
      ghost var s := api.st;
      r := SaveInstance(api, e, pe, drafts[i], drafts[i + 1..]);
      if Alone(old(api.script), 2 * |drafts|) {
        SavedOn(old(api.st), drafts, i, s);
        if r.Error? && !SameStore(api.st, s) { k := i + 1; }
      }
      if !r.Fine? { return; }
      k := i + 1;
    }
    assert drafts[..|drafts|] == drafts;
    ReadStep(api.st, e, Io(Done, "", "", [], [], [], []));
    api.EnvStep(e, Io(Done, "", "", [], [], [], []));
  }

  lemma SavedOn(s0: State, drafts: seq<Draft>, i: nat, s: State)
    requires i < |drafts| && SameStore(s, Saved(s0, drafts[..i]))
    ensures SameStore(SaveOne(s, drafts[i]), Saved(s0, drafts[..i + 1]))
    ensures Refused(s, drafts[i]) <==> Refused(Saved(s0, drafts[..i]), drafts[i])
    ensures Refused(s, drafts[i]) ==> SaveOne(s, drafts[i]) == s
  {
    assert drafts[..i + 1][..i] == drafts[..i];
    SaveOneDepends(s, Saved(s0, drafts[..i]), drafts[i]);
  }

  lemma SaveOneDepends(a: State, b: State, d: Draft)
    requires SameStore(a, b)
    ensures SameStore(SaveOne(a, d), SaveOne(b, d))
  {
    if d.name in a.insts {
      if !Refused(a, d) { UpdateIsSave(a, b, d, Done); }
    } else {
      CreateIsSave(a, b, d);
    }
    hide SpecUpdate, Cluster.CreateInstance;
  }

  // ---------------------------------------------------------------- teardown

  lemma TeardownMoves(s: State, e: string, w: EnvWorker, io: Io)
    ensures w.pc == ListInstances && !io.fault.Done? ==> EnvDo(s, e, w, io).1 == None
    ensures w.pc == ListInstances && io.fault.Done? && (set n | n in io.names) == s.insts.Keys ==>
              EnvDo(s, e, w, io).1 == Some(w.(pc := DeleteNext(io.names)))
    ensures w.pc == DeleteNext([]) ==> EnvDo(s, e, w, io).1 == Some(w.(pc := EnvRemoveFinalizer))
    ensures w.pc.DeleteNext? && w.pc.names != [] ==>
              EnvDo(s, e, w, io).1 == if w.pc.names[0] in s.insts && io.fault.Done? then Some(w.(pc := DeleteNext(w.pc.names[1..]))) else None
  {
    hide RequestDelete;
  }

  type Instances = map<string, Instance>

  /** What asking for the deletion of the named instances makes of the stored ones. */
  predicate Doomed(before: Instances, after: Instances, names: set<string>) {
    && after.Keys == (set n | n in before && (n !in names || before[n].finalizer))
    && forall n | n in after ::
         after[n] == if n in names then before[n].(deleting := true, version := after[n].version) else before[n]
  }

  lemma DoomOne(before: Instances, s: State, names: set<string>, n: string)
    requires Doomed(before, s.insts, names) && n in before && n !in names
    ensures n in s.insts && Doomed(before, RequestDelete(s, n).insts, names + {n})
  {
    hide Doomed, RequestDelete;
    StillListed(before, s.insts, names, n);
    RequestedInstances(s, n);
    if !before[n].finalizer {
      DoomGone(before, s.insts, names, n);
    } else if before[n].deleting {
      assert s.insts[n := s.insts[n]] == s.insts;
      DoomMarked(before, s.insts, names, n, s.insts[n]);
    } else {
      DoomMarked(before, s.insts, names, n, before[n].(deleting := true, version := s.next));
    }
  }

  lemma RequestedInstances(s: State, n: string)
    requires n in s.insts
    ensures !s.insts[n].finalizer ==> RequestDelete(s, n).insts == s.insts - {n}
    ensures s.insts[n].finalizer && s.insts[n].deleting ==> RequestDelete(s, n).insts == s.insts
    ensures s.insts[n].finalizer && !s.insts[n].deleting ==>
              RequestDelete(s, n).insts == s.insts[n := s.insts[n].(deleting := true, version := s.next)]
  {
  }

  lemma StillListed(before: Instances, insts: Instances, names: set<string>, n: string)
    requires Doomed(before, insts, names) && n in before && n !in names
    ensures n in insts && insts[n] == before[n]
  {
  }

  lemma DoomGone(before: Instances, insts: Instances, names: set<string>, n: string)
    requires Doomed(before, insts, names) && n in before && n !in names && !before[n].finalizer
    ensures Doomed(before, insts - {n}, names + {n})
  {
  }

  lemma DoomMarked(before: Instances, insts: Instances, names: set<string>, n: string, i: Instance)
    requires Doomed(before, insts, names) && n in before && n !in names && before[n].finalizer
    requires i == before[n].(deleting := true, version := i.version)
    ensures Doomed(before, insts[n := i], names + {n})
  {
  }

  lemma NoneDoomed(before: Instances)
    ensures Doomed(before, before, {})
  {
  }

  predicate Distinct(names: seq<string>) { forall i, j | 0 <= i < j < |names| :: names[i] != names[j] }

  function SetOf(names: seq<string>): set<string> { set n | n in names }

  lemma {:induction false} DistinctCount(names: seq<string>)
    requires Distinct(names)
    ensures |SetOf(names)| == |names|
  {
    if names != [] {
      var front, last := names[..|names| - 1], names[|names| - 1];
      DistinctCount(front);
      assert SetOf(names) == SetOf(front) + {last};
    }
  }

  lemma NextName(names: seq<string>, i: nat)
    requires Distinct(names) && i < |names|
    ensures names[i] !in SetOf(names[..i]) && SetOf(names[..i + 1]) == SetOf(names[..i]) + {names[i]}
  {
  }

  method ListNames(api: Server, e: string, pe: Environment) returns (r: Reply, names: seq<string>)
    requires api.Valid() && EnvAt(api, e, ListInstances, pe)
    modifies api`st, api`script, api`trace, api`undisturbed
    ensures api.Valid() && Distinct(names)
    ensures if r.Fine? then EnvAt(api, e, DeleteNext(names), pe) else e !in api.st.envWorkers
    ensures Calm(old(api.script), 1) ==>
              && r.Fine? && SetOf(names) == old(api.st.insts.Keys) && api.script == old(api.script)[1..]
              && api.st.insts == old(api.st.insts) && api.st.envs == old(api.st.envs)
  {
    hide Step, Cluster.Run, Server.Valid, EnvDo, InstancesAfter, EnvsAfter;
    names := [];
    var alive, io := api.EnvWait(e);
    if !alive { return Down, names; }
    var items := Enumerate(api.st.insts);
    names := seq(|items|, i requires 0 <= i < |items| => items[i].0);
    ListedNames(items, api.st.insts, names);
    TeardownMoves(api.st, e, api.st.envWorkers[e], io.(names := names));
    TeardownWrites(api.st, e, api.st.envWorkers[e], io.(names := names));
    api.EnvStep(e, io.(names := names));
    return if io.fault.Done? then Fine else Error, names;
  }

  lemma TeardownWrites(s: State, e: string, w: EnvWorker, io: Io)
    requires w.pc.ListInstances? || w.pc.DeleteNext?
    ensures EnvsAfter(s, e, w, io) == s
    ensures InstancesAfter(s, w, io) ==
            if w.pc.DeleteNext? && w.pc.names != [] && w.pc.names[0] in s.insts && !io.fault.Rejected?
            then RequestDelete(s, w.pc.names[0]) else s
  {
    hide RequestDelete;
  }

  method DeleteOne(api: Server, e: string, pe: Environment, name: string, ghost rest: seq<string>) returns (r: Reply)
    requires api.Valid() && EnvAt(api, e, DeleteNext([name] + rest), pe)
    modifies api`st, api`script, api`trace, api`undisturbed
    ensures api.Valid()
    ensures if r.Fine? then EnvAt(api, e, DeleteNext(rest), pe) else e !in api.st.envWorkers
    ensures Calm(old(api.script), 1) && name in old(api.st.insts) ==>
              && r.Fine? && api.script == old(api.script)[1..] && api.st.envs == old(api.st.envs)
              && api.st.insts == RequestDelete(old(api.st), name).insts
  {
    hide Step, Cluster.Run, Server.Valid, EnvDo, InstancesAfter, EnvsAfter, RequestDelete;
    var alive, io := api.EnvWait(e);
    if !alive { return Down; }
    r := if name in api.st.insts && io.fault.Done? then Fine else Error;
    assert ([name] + rest)[1..] == rest;
    TeardownMoves(api.st, e, api.st.envWorkers[e], io);
    TeardownWrites(api.st, e, api.st.envWorkers[e], io);
    api.EnvStep(e, io);
  }

  lemma CalmFrom(script: seq<Turn>, i: nat, k: nat)
    requires i < k && Calm(script, k)
    ensures |script| >= k && Calm(script[i..], 1) && script[i..][1..] == script[i + 1..]
  {
  }

  /** Marks every instance of the namespace, whichever environment it belongs to: alone and answered, those with a
      finalizer are marked and stay, the others are gone, and nothing else has changed. */
  method DeleteInstances(api: Server, e: string, pe: Environment) returns (r: Reply)
    requires api.Valid() && EnvAt(api, e, ListInstances, pe)
    modifies api`st, api`script, api`trace, api`undisturbed
    ensures api.Valid()
    ensures if r.Fine? then EnvAt(api, e, EnvRemoveFinalizer, pe) else e !in api.st.envWorkers
    ensures var before := old(api.st.insts);
            Calm(old(api.script), 1 + |before.Keys|) ==>
              && r.Fine? && api.script == old(api.script)[1 + |before.Keys|..]
              && Doomed(before, api.st.insts, before.Keys) && api.st.envs == old(api.st.envs)
  {
    hide Step, Cluster.Run, Server.Valid, EnvDo, InstancesAfter, EnvsAfter, RequestDelete, Doomed, Calm, SetOf, Distinct;
    ghost var before, script := api.st.insts, api.script;
    ghost var calm := Calm(script, 1 + |before.Keys|);
    if calm { CalmFrom(script, 0, 1 + |before.Keys|); }
    var names;
    r, names := ListNames(api, e, pe);
    if !r.Fine? { return; }
    DistinctCount(names);
    NoneDoomed(before);
    assert SetOf([]) == {} by { NoNames(); }
    for i := 0 to |names|
      invariant api.Valid() && EnvAt(api, e, DeleteNext(names[i..]), pe)
      invariant calm ==>
                  && |names| < |script| && api.script == script[1 + i..] && api.st.envs == old(api.st.envs)
                  && Doomed(before, api.st.insts, SetOf(names[..i]))
    {
      assert names[i..] == [names[i]] + names[i + 1..];
      NextName(names, i);
      if calm {
        CalmFrom(script, 1 + i, 1 + |before.Keys|);
        Listed(names, i);
        DoomOne(before, api.st, SetOf(names[..i]), names[i]);
      }
      r := DeleteOne(api, e, pe, names[i], names[i + 1..]);
      if !r.Fine? { return; }
    }
    assert names[..|names|] == names;
    var io := Io(Done, "", "", [], [], [], []);
    TeardownMoves(api.st, e, api.st.envWorkers[e], io);
    TeardownWrites(api.st, e, api.st.envWorkers[e], io);
    api.EnvStep(e, io);
    return Fine;
  }

  lemma NoNames()
    ensures SetOf([]) == {}
  {
  }

  lemma Listed(names: seq<string>, i: nat)
    requires i < |names|
    ensures names[i] in SetOf(names)
  {
  }

  lemma ListedNames(items: seq<(string, Instance)>, m: map<string, Instance>, names: seq<string>)
    requires Lists(items, m) && |names| == |items| && forall i | 0 <= i < |items| :: names[i] == items[i].0
    ensures (set n | n in names) == m.Keys && SetOf(names) == m.Keys && Distinct(names)
  {
    forall n | n in m.Keys ensures n in names {
      var i :| 0 <= i < |items| && items[i] == (n, m[n]);
      assert names[i] == n;
    }
    forall n | n in names ensures n in m.Keys {
      var i :| 0 <= i < |names| && names[i] == n;
      assert items[i] in items;
    }
  }

  // ---------------------------------------------------------------- Reconcile

  /** The calls that follow are enough to detect and save everything, alone and all answered. */
  predicate Suffices(script: seq<Turn>, pe: Environment) {
    |script| >= ListCalls(pe) && Calm(script, ListCalls(pe) + 2 * |DetectedBy(script, pe)|)
  }

  /** With these answers to the calls that follow, what is detected is merged into a sound store. */
  predicate SavesDetected(s: State, script: seq<Turn>, pe: Environment, s': State) {
    Suffices(script, pe) && AllSound(s) ==> Merge(s, DetectedBy(script, pe), s')
  }

  method DetectAndSave(api: Server, e: string, pe: Environment)
    requires api.Valid() && EnvAt(api, e, ListPulls, pe)
    modifies api`st, api`script, api`trace, api`undisturbed
    ensures api.Valid() && e !in api.st.envWorkers
    ensures SavesDetected(old(api.st), old(api.script), pe, api.st)
  {
    hide Step, Cluster.Run, Server.Valid, Merge, AllSound, Detected, PullDrafts, BranchDrafts;
    var r, drafts := DetectInstances(api, e, pe);
    if !r.Fine? { return; }
    ghost var s := api.st;
    ghost var k;
    ghost var calm := Suffices(old(api.script), pe);
    assert calm ==> Calm(api.script, 2 * |drafts|);
    r, k := SaveInstances(api, e, pe, drafts);
    if calm && AllSound(old(api.st)) {
      SavedAll(old(api.st), s, drafts, k);
      assert drafts[..k] == drafts;
      MergeDepends(old(api.st), drafts, Saved(s, drafts), api.st);
    }
  }

  lemma MergeDepends(s0: State, drafts: seq<Draft>, a: State, b: State)
    requires Merge(s0, drafts, a) && a.insts == b.insts
    ensures Merge(s0, drafts, b)
  {
  }

  /** The calls before an environment has its finalizer. */
  function Opening(pe: Environment): nat { if pe.finalizer then 1 else 2 }

  /** Reconciles of one key never overlap; with everything else this may interleave in any way. Alone, with every
      call answered and nothing in the way, it merges what it detects into the store, or takes a deleted environment
      away and dooms all instances. */
  method Reconcile(api: Server, e: string)
    requires api.Valid() && e !in api.st.envWorkers
    modifies api`st, api`script, api`trace, api`undisturbed
    ensures api.Valid() && e !in api.st.envWorkers
    ensures e in old(api.st.envs) && Calm(old(api.script), Opening(old(api.st.envs[e]))) ==>
              var pe := old(api.st.envs[e]); var script := old(api.script)[Opening(pe)..];
              !pe.deleting ==> SavesDetected(old(api.st), script, pe, api.st)
    ensures e in old(api.st.envs) && Calm(old(api.script), 3 + |old(api.st.insts.Keys)|) ==>
              var pe := old(api.st.envs[e]); var before := old(api.st.insts);
              pe.deleting && pe.finalizer ==> Doomed(before, api.st.insts, before.Keys) && e !in api.st.envs
  {
    hide Step, Cluster.Run, Server.Valid, SavesDetected, Doomed, Calm;
    ghost var n := |old(api.st.insts.Keys)|;
    if Calm(api.script, 3 + n) { CalmMore(api.script, 3 + n); }
    ghost var calls := if e in api.st.envs then Opening(api.st.envs[e]) else 1;
    if Calm(api.script, calls) { CalmMore(api.script, calls); }
    var got := api.EnvGet(e);
    if !got.Found? { return; }
    if got.value.deleting {
      if got.value.finalizer { TearDown(api, e, got.value); }
      return;
    }
    ghost var s := api.st;
    ghost var script := api.script;
    ReconcileLive(api, e, got.value);
    if s.insts == old(api.st.insts) && Opening(got.value) - 1 <= |script| {
      SavesDepends(old(api.st), s, script[Opening(got.value) - 1..], got.value, api.st);
    }
  }

  method ReconcileLive(api: Server, e: string, found: Environment)
    requires api.Valid() && EnvAt(api, e, if found.finalizer then ListPulls else EnvAddFinalizer, found)
    modifies api`st, api`script, api`trace, api`undisturbed
    ensures api.Valid() && e !in api.st.envWorkers
    ensures e in old(api.st.envs) && old(api.st.envs[e]) == found && Calm(old(api.script), Opening(found) - 1) ==>
              SavesDetected(old(api.st), old(api.script)[Opening(found) - 1..], found, api.st)
  {
    hide Step, Cluster.Run, Server.Valid, SavesDetected;
    var pe := found;
    if !pe.finalizer {
      pe := pe.(finalizer := true);
      var r;
      r, pe := api.EnvUpdate(e, pe);
      if !r.Fine? { return; }
    }
    ghost var s := api.st;
    ghost var script := api.script;
    DetectAndSave(api, e, pe);
    if s.insts == old(api.st.insts) { SavesDepends(old(api.st), s, script, pe, api.st); }
    if pe.uid == found.uid && pe.spec == found.spec { SavesAlike(old(api.st), script, found, pe, api.st); }
  }

  lemma CalmMore(script: seq<Turn>, k: nat)
    requires Calm(script, k) && k > 0
    ensures k <= |script| && Calm(script, 1) && Calm(script[1..], k - 1) && script[1..][k - 1..] == script[k..]
  {
  }

  /** Detection depends on the settings and the id of an environment alone. */
  lemma SameDetected(script: seq<Turn>, a: Environment, b: Environment)
    requires a.uid == b.uid && a.spec == b.spec
    ensures Suffices(script, a) <==> Suffices(script, b)
    ensures Suffices(script, a) ==> |script| >= ListCalls(a)
    ensures |script| >= ListCalls(a) ==> DetectedBy(script, a) == DetectedBy(script, b)
  {
    forall pulls ensures PullDrafts(a, pulls) == PullDrafts(b, pulls) { }
    forall branches ensures BranchDrafts(a, branches) == BranchDrafts(b, branches) { }
    hide PullDrafts, BranchDrafts, Calm, Named;
  }

  method TearDown(api: Server, e: string, pe: Environment)
    requires api.Valid() && EnvAt(api, e, ListInstances, pe)
    modifies api`st, api`script, api`trace, api`undisturbed
    ensures api.Valid() && e !in api.st.envWorkers
    ensures var before := old(api.st.insts);
            Calm(old(api.script), 2 + |before.Keys|) && e in old(api.st.envs) && old(api.st.envs[e]) == pe && pe.deleting ==>
              Doomed(before, api.st.insts, before.Keys) && e !in api.st.envs
  {
    hide Step, Cluster.Run, Server.Valid, Doomed, Calm;
    ghost var n := |old(api.st.insts.Keys)|;
    if Calm(api.script, 2 + n) { CalmFrom(api.script, 1 + n, 2 + n); CalmLess(api.script, 2 + n); }
    var r := DeleteInstances(api, e, pe);
    if !r.Fine? { return; }
    var _, _ := api.EnvUpdate(e, pe.(finalizer := false));
  }

  lemma CalmLess(script: seq<Turn>, k: nat)
    requires Calm(script, k) && k > 0
    ensures Calm(script, k - 1)
  {
  }

  /** The stored instances are sound at any moment, as long as no user has emptied a desired phase. */
  lemma ServersAreSound(api: Server)
    requires api.Valid() && NeverEmptied(api.trace)
    ensures AllSound(api.st)
  {
    hide OnItsWay, AllSound, Cluster.Run, Init;
    SoundAtEnd(api.start, api.trace);
  }

  lemma SavesDepends(a: State, b: State, script: seq<Turn>, pe: Environment, s': State)
    requires a.insts == b.insts
    ensures SavesDetected(a, script, pe, s') <==> SavesDetected(b, script, pe, s')
  {
    hide Suffices, DetectedBy;
  }

  lemma SavesAlike(s: State, script: seq<Turn>, a: Environment, b: Environment, s': State)
    requires a.uid == b.uid && a.spec == b.spec
    ensures SavesDetected(s, script, a, s') <==> SavesDetected(s, script, b, s')
  {
    SameDetected(script, a, b);
    hide Suffices, DetectedBy, Merge, AllSound;
  }

  /** From a sound store nothing is refused, so all entries are saved and the result is the merge. */
  lemma SavedAll(s0: State, s: State, drafts: seq<Draft>, k: nat)
    requires AllSound(s0) && SameStore(s0, s) && k <= |drafts|
    requires k < |drafts| ==> Refused(Saved(s, drafts[..k]), drafts[k])
    ensures k == |drafts| && Merge(s0, drafts, Saved(s, drafts))
  {
    hide Saved;
    NothingRefusedIff(s, drafts);
    SaveIsMerge(s, drafts);
  }
}

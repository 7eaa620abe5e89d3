/** From a push on GitHub to the instances it concerns
    (internal/server/github.go, internal/git/git.go, internal/kubeclient/previewenvironmentinstance.go). */
module Webhook {
  import opened Text
  import opened Naming
  import opened Selections
  import opened Versions
  import opened Cluster
  import opened Effects
  import opened ApiServer

  // ---------------------------------------------------------------- which pull requests a push concerns

  /** strings.Split(s, "/"). */
  function SplitSlash(s: string): (parts: seq<string>)
    ensures |parts| > 0
    decreases |s|
  {
    var head := UpTo(s, '/');
    if |head| == |s| then [s] else [head] + SplitSlash(s[|head| + 1..])
  }

  lemma SplitHead(a: string, rest: string)
    requires '/' !in a
    ensures SplitSlash(a + "/" + rest) == [a] + SplitSlash(rest)
  {
    UpToSplit(a, '/', rest);
    assert (a + "/" + rest)[|a| + 1..] == rest;
  }

  /** The branch a push event is taken to be about; the source indexes without a check. */
  function Searched(ref: string): Option<string> {
    var parts := SplitSlash(ref);
    if |parts| > 2 then Some(parts[2]) else None
  }

  /** What is searched for stands between the second slash and the third; with less than two slashes there is nothing. */
  lemma SearchedIs(a: string, b: string, rest: string)
    requires '/' !in a && '/' !in b
    ensures Searched(a + "/" + (b + "/" + rest)) == Some(UpTo(rest, '/'))
    ensures Searched(a + "/" + b) == None && Searched(a) == None
  {
    SplitHead(a, b + "/" + rest);
    SplitHead(b, rest);
    SplitHead(a, b);
    UpToParts(rest, '/');
    UpToParts(a, '/');
    UpToParts(b, '/');
    assert SplitSlash(rest)[0] == UpTo(rest, '/') by {
      if |UpTo(rest, '/')| == |rest| { assert UpTo(rest, '/') == rest[..|rest|] == rest; }
    }
  }

  /** Only the first component of a branch with slashes in its name is searched for. */
  lemma ThirdComponent(branch: string)
    ensures Searched("refs/heads/" + branch) == Some(UpTo(branch, '/')) && UpTo(branch, '/') <= branch
  {
    RefSplits(branch);
    UpToParts(branch, '/');
    SearchedIs("refs", "heads", branch);
    hide UpTo, Searched;
  }

  lemma RefSplits(branch: string)
    ensures "refs/heads/" + branch == "refs" + "/" + ("heads" + "/" + branch)
  {
  }

  /** strings.Contains. */
  predicate Contains(s: string, t: string) { exists i | 0 <= i <= |s| :: PartAt(s, t, i) }

  predicate PartAt(s: string, t: string, i: nat) { i + |t| <= |s| && s[i..i + |t|] == t }

  lemma PrefixIsContained(s: string, t: string)
    requires t <= s
    ensures Contains(s, t)
  {
    assert PartAt(s, t, 0);
  }

  /** The listed pull requests whose head contains the text, in order. */
  function Matching(pulls: seq<PullRequest>, branch: string): seq<PullRequest> {
    if pulls == [] then []
    else var front := Matching(pulls[..|pulls| - 1], branch); var last := pulls[|pulls| - 1];
         if Contains(last.headRef, branch) then front + [last] else front
  }

  method PullRequestsOfBranch(pulls: seq<PullRequest>, branch: string) returns (r: seq<PullRequest>)
    ensures r == Matching(pulls, branch)
    ensures exists at: seq<nat> ::
              TakenAt(pulls, r, at) && forall j | 0 <= j < |pulls| :: j in at <==> Contains(pulls[j].headRef, branch)
  {
    ghost var at := MatchingAt(pulls, branch);
    r := [];
    for i := 0 to |pulls|
      invariant r == Matching(pulls[..i], branch)
    {
      assert pulls[..i + 1][..i] == pulls[..i];
      var found := HasPart(pulls[i].headRef, branch);
      if found { r := r + [pulls[i]]; }
    }
    assert pulls[..|pulls|] == pulls;
  }

  method HasPart(s: string, t: string) returns (found: bool)
    ensures found <==> Contains(s, t)
  {
    var i := 0;
    while i + |t| <= |s|
      invariant forall j | 0 <= j < i :: !PartAt(s, t, j)
    {
      if s[i..i + |t|] == t {
        assert PartAt(s, t, i);
        return true;
      }
      i := i + 1;
    }
    return false;
  }

  /** Exactly the pull requests whose head contains the text, in the order of the list. */
  lemma {:induction false} MatchingAt(pulls: seq<PullRequest>, branch: string) returns (at: seq<nat>)
    ensures TakenAt(pulls, Matching(pulls, branch), at)
    ensures forall j | 0 <= j < |pulls| :: j in at <==> Contains(pulls[j].headRef, branch)
  {
    at := [];
    if pulls != [] {
      var front, last := pulls[..|pulls| - 1], pulls[|pulls| - 1];
      assert pulls == front + [last];
      at := MatchingAt(front, branch);
      TakeOne(front, Matching(front, branch), at, last);
      hide TakenAt, Contains;
      if Contains(last.headRef, branch) { at := at + [|front|]; }
    }
  }

  lemma {:induction false} MatchingIff(pulls: seq<PullRequest>, branch: string, p: PullRequest)
    ensures p in Matching(pulls, branch) <==> p in pulls && Contains(p.headRef, branch)
  {
    if pulls != [] {
      MatchingIff(pulls[..|pulls| - 1], branch, p);
      assert pulls == pulls[..|pulls| - 1] + [pulls[|pulls| - 1]];
    }
  }

  /** A push to any branch, slashes in its name or not, misses none of the listed pull requests from that branch. */
  lemma PushMissesNone(pulls: seq<PullRequest>, branch: string, p: PullRequest)
    requires p in pulls && p.headRef == branch
    ensures var searched := Searched("refs/heads/" + branch); searched.Some? && p in Matching(pulls, searched.value)
  {
    ThirdComponent(branch);
    PrefixIsContained(branch, UpTo(branch, '/'));
    MatchingIff(pulls, UpTo(branch, '/'), p);
  }

  // ---------------------------------------------------------------- marking instances as pending

  predicate Labelled(i: Instance, organization: string, repository: string, identifier: string) {
    i.labels.organization == organization && i.labels.repository == repository && i.labels.identifier == identifier
  }

  predicate BelongsTo(i: Instance, owner: string, uid: nat) { i.labels.owner == owner && i.labels.environment == uid }

  predicate Concerns(i: Instance, owner: string, uid: nat, identifier: string) {
    BelongsTo(i, owner, uid) && i.git.Identifier() == identifier
  }

  /** Handler copies numbered from `first` on belong to this handler. */
  predicate OthersOfHook(first: nat, ev: Event) {
    !(ev.HandlerRead? && ev.id >= first) && !(ev.HandlerWrite? && ev.id >= first)
  }

  predicate SameCopies(first: nat, a: map<nat, Handler>, b: map<nat, Handler>) {
    forall id | id in b && id >= first :: id in a && a[id] == b[id]
  }

  lemma EnvsKeepHandlers(s: State, ev: Event)
    requires ev.DeleteEnv? || ev.EditEnv? || ev.CreateEnv?
    ensures Step(s, ev).handlers == s.handlers
  {
    hide Step;
    EnvEventFrame(s, ev);
  }

  lemma StoreKeepsHandlers(s: State, ev: Event)
    requires ev.Work? || ev.EnvWork? || ev.DeleteInstance? || ev.DeleteEnv? || ev.EditEnv? || ev.EditInstance? || ev.CreateEnv?
    ensures Step(s, ev).handlers == s.handlers
  {
    hide Do, EnvDo, RequestDelete, EnvUpdate;
    if ev.DeleteEnv? || ev.EditEnv? || ev.CreateEnv? {
      EnvsKeepHandlers(s, ev);
      hide Step;
    } else {
      match ev
      case Work(n, io) => if n in s.workers { WorkEffect(s, n, io); }
      case EnvWork(e, io) => if e in s.envWorkers { EnvWorkEffect(s, e, io); }
      case DeleteInstance(n) => if n in s.insts { DeleteFrame(s, n); }
      case EditInstance(n, desired) =>
    }
  }

  lemma HandlersStay(s: State, ev: Event, first: nat)
    requires OthersOfHook(first, ev)
    ensures SameCopies(first, Step(s, ev).handlers, s.handlers)
  {
    hide Do, EnvDo, StatusUpdate;
    if ev.HandlerWrite? {
      if ev.id in s.handlers { StatusFrame(s, s.handlers[ev.id].name, s.handlers[ev.id].copy.(phase := Pending), ev.fault); }
    } else if ev.Work? || ev.EnvWork? || ev.DeleteInstance? || ev.DeleteEnv? || ev.EditEnv? || ev.EditInstance? || ev.CreateEnv? {
      StoreKeepsHandlers(s, ev);
      hide Step;
    }
  }

  predicate Undisputed(script: seq<Turn>) { forall t | t in script :: t.others == [] }

  /** Moreover, every call succeeds that can. */
  predicate Perfect(script: seq<Turn>) { Undisputed(script) && forall t | t in script :: t.io.fault.Done? }

  predicate MarkedPending(i: Instance, j: Instance) {
    j == i.(phase := Pending, version := j.version, built := StoredAll(i.built))
  }

  /** Nothing has changed but phases that have become pending. */
  predicate OnlyPending(s: State, s': State) {
    && s'.insts.Keys == s.insts.Keys
    && forall n | n in s.insts :: s'.insts[n] == s.insts[n] || MarkedPending(s.insts[n], s'.insts[n])
  }

  lemma StoredTwice(built: seq<BuiltVersion>)
    ensures StoredAll(StoredAll(built)) == StoredAll(built)
  {
    assert forall i | 0 <= i < |built| :: Stored(Stored(built[i])) == Stored(built[i]);
  }

  lemma OnlyPendingJoins(s: State, t: State, u: State)
    requires OnlyPending(s, t) && OnlyPending(t, u)
    ensures OnlyPending(s, u)
  {
    forall n | n in s.insts ensures u.insts[n] == s.insts[n] || MarkedPending(s.insts[n], u.insts[n]) {
      StoredTwice(s.insts[n].built);
      assert n in t.insts;
    }
  }

  method Wait(api: Server, first: nat) returns (alive: bool, io: Io)
    requires api.Valid()
    modifies api`st, api`script, api`trace, api`undisturbed
    ensures api.Valid() && SameCopies(first, api.st.handlers, old(api.st.handlers))
    ensures Undisputed(old(api.script)) ==> Undisputed(api.script) && api.st == old(api.st)
    ensures Perfect(old(api.script)) ==> Perfect(api.script) && io.fault.Done?
    ensures !alive ==> api.script == []
    ensures alive ==> old(api.script) != [] && io == old(api.script)[0].io
  {
    if api.script == [] { return false, Io(Done, "", "", [], [], [], []); }
    var turn := api.script[0];
    assert turn in api.script;
    api.script := api.script[1..];
    for i := 0 to |turn.others|
      invariant api.Valid() && SameCopies(first, api.st.handlers, old(api.st.handlers))
      invariant api.script == old(api.script)[1..] && (i == 0 ==> api.st == old(api.st))
    {
      if OthersOfHook(first, turn.others[i]) {
        HandlersStay(api.st, turn.others[i], first);
        api.Happen(turn.others[i]);
      }
    }
    return true, turn.io;
  }

  type Item = (string, Instance)

  /** The list of instances with the two labels, as the server answers it. */
  method ListInstances(s: State, owner: string, uid: nat) returns (items: seq<Item>)
    ensures forall p | p in items :: p.0 in s.insts && s.insts[p.0] == p.1
    ensures forall n | n in s.insts && s.insts[n].labels.owner == owner && s.insts[n].labels.environment == uid ::
              (n, s.insts[n]) in items
    ensures forall p | p in items :: p.1.labels.owner == owner && p.1.labels.environment == uid
    ensures forall i, j | 0 <= i < j < |items| :: items[i].0 != items[j].0
  {
    var all := Enumerate(s.insts);
    items := [];
    for i := 0 to |all|
      invariant forall p | p in items :: p in all[..i] && BelongsTo(p.1, owner, uid)
      invariant forall p | p in all[..i] && BelongsTo(p.1, owner, uid) :: p in items
      invariant forall j, k | 0 <= j < k < |items| :: items[j].0 != items[k].0
    {
      assert all[i] in all;
      if BelongsTo(all[i].1, owner, uid) {
        forall p | p in items ensures p.0 != all[i].0 {
          var j :| 0 <= j < i && all[j] == p;
        }
        items := items + [all[i]];
      }
    }
    assert all[..|all|] == all;
  }

  predicate HeldAt(handlers: map<nat, Handler>, first: nat, items: seq<Item>, j: nat) {
    j < |items| && first + j in handlers && handlers[first + j] == Handler(items[j].0, items[j].1)
  }

  /** The copies of the items from `i` up to `k`, numbered from `first` on. */
  predicate Holding(handlers: map<nat, Handler>, first: nat, items: seq<Item>, i: nat, k: nat) {
    forall j: nat | i <= j < k :: HeldAt(handlers, first, items, j)
  }

  lemma HoldStep(s: State, first: nat, items: seq<Item>, i: nat)
    requires i < |items| && items[i].0 in s.insts && s.insts[items[i].0] == items[i].1
    requires Holding(s.handlers, first, items, 0, i)
    ensures var s' := Step(s, HandlerRead(first + i, items[i].0));
            Holding(s'.handlers, first, items, 0, i + 1) && s'.insts == s.insts
  {
    var s' := Step(s, HandlerRead(first + i, items[i].0));
    assert s'.handlers == s.handlers[first + i := Handler(items[i].0, items[i].1)];
    forall j: nat | 0 <= j < i + 1 ensures HeldAt(s'.handlers, first, items, j) {
      if j < i { assert HeldAt(s.handlers, first, items, j); }
    }
  }

  /** Notes the copies that a list has brought; nothing in the store changes. */
  method Hold(api: Server, first: nat, items: seq<Item>)
    requires api.Valid() && forall p | p in items :: p.0 in api.st.insts && api.st.insts[p.0] == p.1
    modifies api`st, api`trace, api`undisturbed
    ensures api.Valid() && Holding(api.st.handlers, first, items, 0, |items|) && api.st.insts == old(api.st.insts)
  {
    hide Run, Server.Valid, Step;
    for i := 0 to |items|
      invariant api.Valid() && api.st.insts == old(api.st.insts) && Holding(api.st.handlers, first, items, 0, i)
    {
      assert items[i] in items;
      HoldStep(api.st, first, items, i);
      api.Happen(HandlerRead(first + i, items[i].0));
    }
  }

  /** What the trigger has reached after `i` of the items, if nobody interferes. */
  predicate Triggered(s: State, s': State, items: seq<Item>, identifier: string, i: nat)
    requires i <= |items|
  {
    && OnlyPending(s, s')
    && (forall j | 0 <= j < |items| :: items[j].0 in s.insts && s.insts[items[j].0] == items[j].1)
    && (forall j | i <= j < |items| :: s'.insts[items[j].0] == items[j].1)
    && (forall j | 0 <= j < i && items[j].1.git.Identifier() == identifier :: s'.insts[items[j].0].phase == Pending)
    && (forall n | n in s.insts && s'.insts[n] != s.insts[n] ::
         exists j :: 0 <= j < i && items[j].0 == n && items[j].1.git.Identifier() == identifier)
  }

  /** One write of the trigger: the copy it holds, marked as pending. */
  lemma MarkStep(s: State, id: nat, fault: Fault)
    requires id in s.handlers
    ensures var s' := Step(s, HandlerWrite(id, fault)); var h := s.handlers[id];
            var accepted := Accepts(s, h.name, h.copy, fault);
            && (accepted ==> s'.insts == s.insts[h.name := WithStatus(s.insts[h.name], h.copy.(phase := Pending), s.next)])
            && (!accepted ==> s'.insts == s.insts)
            && SameCopies(id + 1, s'.handlers, s.handlers)
  {
    var h := s.handlers[id];
    StatusFrame(s, h.name, h.copy.(phase := Pending), fault);
    hide WithStatus;
  }

  lemma SkipItem(s: State, s': State, items: seq<Item>, identifier: string, i: nat)
    requires i < |items| && Triggered(s, s', items, identifier, i) && items[i].1.git.Identifier() != identifier
    ensures Triggered(s, s', items, identifier, i + 1)
  {
  }

  lemma MarkItem(s: State, t: State, t': State, items: seq<Item>, identifier: string, i: nat)
    requires i < |items| && Triggered(s, t, items, identifier, i) && items[i].1.git.Identifier() == identifier
    requires forall j, k | 0 <= j < k < |items| :: items[j].0 != items[k].0
    requires items[i].0 in t'.insts && t'.insts == t.insts[items[i].0 := t'.insts[items[i].0]]
    requires MarkedPending(items[i].1, t'.insts[items[i].0])
    ensures Triggered(s, t', items, identifier, i + 1)
  {
    forall n | n in s.insts && t'.insts[n] != s.insts[n]
      ensures exists j :: 0 <= j < i + 1 && items[j].0 == n && items[j].1.git.Identifier() == identifier
    {
      if n != items[i].0 { assert t.insts[n] != s.insts[n]; }
    }
  }

  /** Marks one listed instance. */
  method Mark(api: Server, id: nat, item: Item) returns (r: Reply)
    requires api.Valid() && id in api.st.handlers && api.st.handlers[id] == Handler(item.0, item.1)
    modifies api`st, api`script, api`trace, api`undisturbed
    ensures api.Valid() && SameCopies(id + 1, api.st.handlers, old(api.st.handlers))
    ensures Undisputed(old(api.script)) ==>
              && Undisputed(api.script)
              && var n := item.0;
                 || (api.st.insts == old(api.st.insts) && !r.Fine?)
                 || (n in old(api.st.insts) && n in api.st.insts && api.st.insts == old(api.st.insts)[n := api.st.insts[n]]
                     && (old(api.st.insts)[n] == item.1 ==> MarkedPending(item.1, api.st.insts[n])))
    ensures Perfect(old(api.script)) ==> Perfect(api.script)
    ensures r.Down? ==> api.script == []
    ensures Perfect(old(api.script)) && item.0 in old(api.st.insts) && old(api.st.insts[item.0]) == item.1 ==> !r.Error?
  {
    hide Run, Server.Valid, Step;
    var alive, io := Wait(api, id);
    if !alive { return Down; }
    r := if Accepts(api.st, item.0, item.1, io.fault) && io.fault.Done? then Fine else Error;
    MarkStep(api.st, id, io.fault);
    api.Happen(HandlerWrite(id, io.fault));
  }

  /** What one trigger makes of a store in which nobody interferes. */
  predicate TriggeredFor(s: State, s': State, owner: string, uid: nat, identifier: string, done: bool) {
    && OnlyPending(s, s')
    && (forall n | n in s.insts && s'.insts[n] != s.insts[n] :: Concerns(s.insts[n], owner, uid, identifier))
    && (done ==> forall n | n in s.insts && Concerns(s.insts[n], owner, uid, identifier) :: s'.insts[n].phase == Pending)
  }

  lemma TriggeredAll(s: State, s': State, items: seq<Item>, owner: string, uid: nat, identifier: string, i: nat)
    requires i <= |items| && Triggered(s, s', items, identifier, i)
    requires forall n | n in s.insts && BelongsTo(s.insts[n], owner, uid) :: (n, s.insts[n]) in items
    requires forall p | p in items :: BelongsTo(p.1, owner, uid)
    ensures TriggeredFor(s, s', owner, uid, identifier, i == |items|)
  {
    forall n | n in s.insts && s'.insts[n] != s.insts[n] ensures Concerns(s.insts[n], owner, uid, identifier) {
      var j :| 0 <= j < i && items[j].0 == n && items[j].1.git.Identifier() == identifier;
      assert items[j] in items;
    }
    if i == |items| {
      forall n | n in s.insts && Concerns(s.insts[n], owner, uid, identifier) ensures s'.insts[n].phase == Pending {
        var j :| 0 <= j < |items| && items[j] == (n, s.insts[n]);
      }
    }
  }

  method TriggerUpdate(api: Server, first: nat, owner: string, uid: nat, identifier: string) returns (r: Reply)
    requires api.Valid()
    modifies api`st, api`script, api`trace, api`undisturbed
    ensures api.Valid()
    ensures Undisputed(old(api.script)) ==>
              Undisputed(api.script) && TriggeredFor(old(api.st), api.st, owner, uid, identifier, r.Fine?)
    ensures Perfect(old(api.script)) ==> Perfect(api.script) && !r.Error?
    ensures r.Down? ==> api.script == []
  {
    hide Run, Server.Valid, Step, TriggeredFor, Triggered, Undisputed, Perfect, SameCopies, MarkedPending, StoredAll;
    ghost var calm := Undisputed(old(api.script));
    if Perfect(old(api.script)) { PerfectIsUndisputed(old(api.script)); }
    var alive, io := Wait(api, first);
    if !alive || !io.fault.Done? {
      if calm { NotTriggered(old(api.st), api.st, owner, uid, identifier); }
      return if alive then Error else Down;
    }
    var items := ListInstances(api.st, owner, uid);
    ghost var s := api.st;
    Hold(api, first, items);
    NoneTriggered(s, api.st, items, identifier);
    for i := 0 to |items|
      invariant api.Valid() && Holding(api.st.handlers, first, items, i, |items|)
      invariant calm ==> Undisputed(api.script) && Triggered(s, api.st, items, identifier, i)
      invariant Perfect(old(api.script)) ==> Perfect(api.script)
    {
      if items[i].1.git.Identifier() == identifier {
        ghost var t := api.st;
        assert HeldAt(t.handlers, first, items, i);
        if calm { StillThere(s, t, items, identifier, i); }
        r := Mark(api, first + i, items[i]);
        HoldingOn(api.st.handlers, t.handlers, first, items, i);
        if calm {
          var k := AfterMark(s, t, api.st, items, identifier, i, r.Fine?);
          TriggeredAll(s, api.st, items, owner, uid, identifier, k);
          NotDone(s, api.st, owner, uid, identifier, k == |items|);
        }
        if !r.Fine? { return; }
      } else if calm {
        SkipItem(s, api.st, items, identifier, i);
      }
    }
    if calm { TriggeredAll(s, api.st, items, owner, uid, identifier, |items|); }
    return Fine;
  }

  lemma AfterMark(s: State, t: State, t': State, items: seq<Item>, identifier: string, i: nat, fine: bool) returns (k: nat)
    requires i < |items| && Triggered(s, t, items, identifier, i) && items[i].1.git.Identifier() == identifier
    requires forall j, k | 0 <= j < k < |items| :: items[j].0 != items[k].0
    requires var n := items[i].0;
             || (t'.insts == t.insts && !fine)
             || (n in t.insts && n in t'.insts && t'.insts == t.insts[n := t'.insts[n]]
                 && (t.insts[n] == items[i].1 ==> MarkedPending(items[i].1, t'.insts[n])))
    ensures k == i || k == i + 1
    ensures Triggered(s, t', items, identifier, k) && (fine ==> k == i + 1)
  {
    if t'.insts == t.insts && !fine {
      k := i;
    } else {
      MarkItem(s, t, t', items, identifier, i);
      k := i + 1;
    }
  }

  lemma StillThere(s: State, t: State, items: seq<Item>, identifier: string, i: nat)
    requires i < |items| && Triggered(s, t, items, identifier, i)
    ensures items[i].0 in t.insts && t.insts[items[i].0] == items[i].1
  {
  }

  lemma PerfectIsUndisputed(script: seq<Turn>)
    requires Perfect(script)
    ensures Undisputed(script)
  {
  }

  lemma NotDone(s: State, s': State, owner: string, uid: nat, identifier: string, done: bool)
    requires TriggeredFor(s, s', owner, uid, identifier, done)
    ensures TriggeredFor(s, s', owner, uid, identifier, false)
  {
  }

  lemma NotTriggered(s: State, s': State, owner: string, uid: nat, identifier: string)
    requires s'.insts == s.insts
    ensures TriggeredFor(s, s', owner, uid, identifier, false)
  {
  }

  lemma NoneTriggered(s: State, s': State, items: seq<Item>, identifier: string)
    requires s'.insts == s.insts && forall p | p in items :: p.0 in s.insts && s.insts[p.0] == p.1
    ensures Triggered(s, s', items, identifier, 0)
  {
    forall j | 0 <= j < |items| ensures items[j].0 in s.insts && s.insts[items[j].0] == items[j].1 { assert items[j] in items; }
  }

  lemma HoldingOn(a: map<nat, Handler>, b: map<nat, Handler>, first: nat, items: seq<Item>, i: nat)
    requires SameCopies(first + i + 1, a, b) && Holding(b, first, items, i, |items|)
    ensures Holding(a, first, items, i + 1, |items|)
  {
    forall j: nat | i + 1 <= j < |items| ensures HeldAt(a, first, items, j) {
      assert HeldAt(b, first, items, j);
    }
  }

  // ---------------------------------------------------------------- the event handlers

  /** The first instance of the list with the three labels. */
  method InstanceOf(s: State, organization: string, repository: string, identifier: string) returns (r: Option<Instance>)
    ensures r.Some? ==>
              && r.value.labels.organization == organization && r.value.labels.repository == repository
              && r.value.labels.identifier == identifier && exists n :: n in s.insts && s.insts[n] == r.value
    ensures r.None? ==> forall n | n in s.insts :: var l := s.insts[n].labels;
              l.organization != organization || l.repository != repository || l.identifier != identifier
  {
    var all := Enumerate(s.insts);
    for i := 0 to |all|
      invariant forall j | 0 <= j < i :: !Labelled(all[j].1, organization, repository, identifier)
    {
      if Labelled(all[i].1, organization, repository, identifier) {
        assert all[i] in all;
        return Some(all[i].1);
      }
    }
    forall n | n in s.insts ensures !Labelled(s.insts[n], organization, repository, identifier) {
      assert (n, s.insts[n]) in all;
    }
    return None;
  }

  /** An instance of the pull request is pending. */
  predicate Reached(s: State, organization: string, repository: string, number: PrNumber) {
    exists n :: n in s.insts && Labelled(s.insts[n], organization, repository, Itoa(number)) && s.insts[n].phase == Pending
  }

  /** There is no instance of the pull request. */
  predicate Unknown(s: State, organization: string, repository: string, number: PrNumber) {
    forall n | n in s.insts :: !Labelled(s.insts[n], organization, repository, Itoa(number))
  }

  /** Whether there is one does not depend on what handlers have marked. */
  lemma UnknownStays(s: State, s': State, organization: string, repository: string, number: PrNumber)
    requires OnlyPending(s, s')
    ensures Unknown(s', organization, repository, number) <==> Unknown(s, organization, repository, number)
  {
    forall n | n in s.insts ensures n in s'.insts && s'.insts[n].labels == s.insts[n].labels { }
  }

  /** `n` is in the environment of an instance of the pull request and runs the same. */
  predicate ConcernedBy(s: State, n: string, organization: string, repository: string, number: PrNumber)
    requires n in s.insts
  {
    exists m :: m in s.insts && Labelled(s.insts[m], organization, repository, Itoa(number))
                && Concerns(s.insts[n], s.insts[m].labels.owner, s.insts[m].labels.environment, s.insts[m].git.Identifier())
  }

  lemma ConcernedBefore(s: State, s': State, n: string, organization: string, repository: string, number: PrNumber)
    requires OnlyPending(s, s') && n in s'.insts && ConcernedBy(s', n, organization, repository, number)
    ensures ConcernedBy(s, n, organization, repository, number)
  {
    var m :| m in s'.insts && Labelled(s'.insts[m], organization, repository, Itoa(number))
             && Concerns(s'.insts[n], s'.insts[m].labels.owner, s'.insts[m].labels.environment, s'.insts[m].git.Identifier());
    assert m in s.insts && n in s.insts;
    assert Labelled(s.insts[m], organization, repository, Itoa(number));
  }

  /** Only instances that the pull request concerns have changed. */
  predicate OnlyConcerned(s: State, s': State, organization: string, repository: string, number: PrNumber) {
    forall n | n in s.insts && n in s'.insts && s'.insts[n] != s.insts[n] :: ConcernedBy(s, n, organization, repository, number)
  }

  lemma TriggerConcerns(s: State, s': State, i: Instance, done: bool, organization: string, repository: string, number: PrNumber)
    requires TriggeredFor(s, s', i.labels.owner, i.labels.environment, i.git.Identifier(), done)
    requires exists n :: n in s.insts && s.insts[n] == i && Labelled(i, organization, repository, Itoa(number))
    ensures OnlyConcerned(s, s', organization, repository, number)
  {
  }

  lemma NoneConcerned(s: State, s': State, organization: string, repository: string, number: PrNumber)
    requires s.insts == s'.insts
    ensures OnlyConcerned(s, s', organization, repository, number)
  {
  }

  lemma TriggerReaches(s: State, s': State, i: Instance, organization: string, repository: string, number: PrNumber)
    requires TriggeredFor(s, s', i.labels.owner, i.labels.environment, i.git.Identifier(), true)
    requires exists n :: n in s.insts && s.insts[n] == i && Labelled(i, organization, repository, Itoa(number))
    ensures Reached(s', organization, repository, number)
  {
    var n :| n in s.insts && s.insts[n] == i && Labelled(i, organization, repository, Itoa(number));
    assert Concerns(s.insts[n], i.labels.owner, i.labels.environment, i.git.Identifier());
    assert n in s'.insts;
  }

  lemma ReachedStays(s: State, s': State, organization: string, repository: string, number: PrNumber)
    requires OnlyPending(s, s') && Reached(s, organization, repository, number)
    ensures Reached(s', organization, repository, number)
  {
    var n :| n in s.insts && Labelled(s.insts[n], organization, repository, Itoa(number)) && s.insts[n].phase == Pending;
    assert n in s'.insts;
  }

  method HandleEvent(api: Server, first: nat, organization: string, repository: string, number: PrNumber) returns (r: Reply)
    requires api.Valid()
    modifies api`st, api`script, api`trace, api`undisturbed
    ensures api.Valid()
    ensures Undisputed(old(api.script)) ==>
              && Undisputed(api.script) && OnlyPending(old(api.st), api.st)
              && OnlyConcerned(old(api.st), api.st, organization, repository, number)
              && (r.Fine? ==> Reached(api.st, organization, repository, number))
    ensures Perfect(old(api.script)) ==> Perfect(api.script)
    ensures Perfect(old(api.script)) && !r.Down? ==> (r.Fine? <==> !Unknown(old(api.st), organization, repository, number))
    ensures r.Down? ==> api.script == []
  {
    hide Run, Server.Valid, Step, Undisputed, Perfect, SameCopies, OnlyConcerned, Reached, TriggeredFor, OnlyPending;
    if Undisputed(old(api.script)) { SameIsPending(api.st, api.st); NoneConcerned(api.st, api.st, organization, repository, number); }
    if Perfect(old(api.script)) { PerfectIsUndisputed(old(api.script)); }
    var alive, io := Wait(api, first);
    if !alive { return Down; }
    if !io.fault.Done? { return Error; }
    var pei := InstanceOf(api.st, organization, repository, Itoa(number));
    if pei.None? { return Error; }
    ghost var s := api.st;
    var i := pei.value;
    r := TriggerUpdate(api, first, i.labels.owner, i.labels.environment, i.git.Identifier());
    if Undisputed(old(api.script)) {
      TriggerConcerns(s, api.st, i, r.Fine?, organization, repository, number);
      TriggerMarks(s, api.st, i, r.Fine?);
      if r.Fine? { TriggerReaches(s, api.st, i, organization, repository, number); }
    }
  }

  lemma TriggerMarks(s: State, s': State, i: Instance, done: bool)
    requires TriggeredFor(s, s', i.labels.owner, i.labels.environment, i.git.Identifier(), done)
    ensures OnlyPending(s, s')
  {
    hide OnlyPending;
  }

  predicate AllReached(s: State, organization: string, repository: string, pulls: seq<PullRequest>) {
    forall p | p in pulls :: Reached(s, organization, repository, p.number)
  }

  predicate NoneUnknown(s: State, organization: string, repository: string, pulls: seq<PullRequest>) {
    forall p | p in pulls :: !Unknown(s, organization, repository, p.number)
  }

  /** Only instances that one of the pull requests concerns have changed. */
  predicate OnlyConcernedBy(s: State, s': State, organization: string, repository: string, pulls: seq<PullRequest>) {
    forall n | n in s.insts && n in s'.insts && s'.insts[n] != s.insts[n] ::
      exists p :: p in pulls && ConcernedBy(s, n, organization, repository, p.number)
  }

  /** What a push has come to after the first `k` of the matching pull requests, if nobody interferes. */
  predicate Handled(s: State, s': State, organization: string, repository: string, matching: seq<PullRequest>, k: nat)
    requires k <= |matching|
  {
    && OnlyPending(s, s') && AllReached(s', organization, repository, matching[..k])
    && OnlyConcernedBy(s, s', organization, repository, matching[..k])
  }

  lemma NothingHandled(s: State, s': State, organization: string, repository: string, matching: seq<PullRequest>)
    requires s.insts == s'.insts
    ensures Handled(s, s', organization, repository, matching, 0)
  {
    hide ConcernedBy, Reached;
  }

  lemma ConcernedGrows(s: State, t: State, t': State, organization: string, repository: string, matching: seq<PullRequest>, k: nat)
    requires k < |matching| && OnlyPending(s, t) && OnlyPending(t, t')
    requires OnlyConcernedBy(s, t, organization, repository, matching[..k])
    requires OnlyConcerned(t, t', organization, repository, matching[k].number)
    ensures OnlyConcernedBy(s, t', organization, repository, matching[..k + 1])
  {
    hide ConcernedBy, MarkedPending;
    forall n | n in s.insts && n in t'.insts && t'.insts[n] != s.insts[n]
      ensures exists p :: p in matching[..k + 1] && ConcernedBy(s, n, organization, repository, p.number)
    {
      assert n in t.insts;
      if t.insts[n] != s.insts[n] {
        var p :| p in matching[..k] && ConcernedBy(s, n, organization, repository, p.number);
        assert p in matching[..k + 1];
      } else {
        ConcernedBefore(s, t, n, organization, repository, matching[k].number);
        assert matching[k] in matching[..k + 1];
      }
    }
  }

  lemma HandledOn(s: State, t: State, t': State, organization: string, repository: string, matching: seq<PullRequest>, k: nat)
    requires k < |matching| && Handled(s, t, organization, repository, matching, k) && OnlyPending(t, t')
    requires OnlyConcerned(t, t', organization, repository, matching[k].number)
    requires Reached(t', organization, repository, matching[k].number)
    ensures Handled(s, t', organization, repository, matching, k + 1)
  {
    OnlyPendingJoins(s, t, t');
    ConcernedGrows(s, t, t', organization, repository, matching, k);
    forall p | p in matching[..k + 1] ensures Reached(t', organization, repository, p.number) {
      if p in matching[..k] { ReachedStays(t, t', organization, repository, p.number); }
    }
    hide OnlyPending, OnlyConcerned, OnlyConcernedBy, Reached, ConcernedBy;
  }

  /** A pull request without an instance concerns nobody. */
  lemma UnknownHandled(s: State, t: State, t': State, organization: string, repository: string, matching: seq<PullRequest>, k: nat)
    requires k < |matching| && Handled(s, t, organization, repository, matching, k) && OnlyPending(t, t')
    requires OnlyConcerned(t, t', organization, repository, matching[k].number)
    requires Unknown(t, organization, repository, matching[k].number)
    ensures Handled(s, t', organization, repository, matching, k)
  {
    hide MarkedPending, Reached, OnlyConcernedBy;
    assert t'.insts == t.insts;
    forall p | p in matching[..k] ensures Reached(t', organization, repository, p.number) {
      ReachedStays(t, t', organization, repository, p.number);
    }
    SameConcerned(s, t, t', organization, repository, matching[..k]);
  }

  lemma SameConcerned(s: State, t: State, t': State, organization: string, repository: string, pulls: seq<PullRequest>)
    requires OnlyConcernedBy(s, t, organization, repository, pulls) && t'.insts == t.insts
    ensures OnlyConcernedBy(s, t', organization, repository, pulls)
  {
    hide ConcernedBy;
  }

  /** What a push has come to when it stops at position `q` of the listed pull requests: every instance before it that
      matches is pending, and nothing else has changed but phases of instances these concern, and those only to pending. */
  predicate HandledUpTo(s: State, s': State, organization: string, repository: string, pulls: seq<PullRequest>, branch: string, q: nat)
    requires q <= |pulls|
  {
    && OnlyPending(s, s')
    && (forall j | 0 <= j < q && Contains(pulls[j].headRef, branch) :: Reached(s', organization, repository, pulls[j].number))
    && forall n | n in s.insts && n in s'.insts && s'.insts[n] != s.insts[n] ::
         exists j :: 0 <= j < q && Contains(pulls[j].headRef, branch) && ConcernedBy(s, n, organization, repository, pulls[j].number)
  }

  /** Every matching pull request before position `q` has an instance. */
  predicate KnownUpTo(s: State, organization: string, repository: string, pulls: seq<PullRequest>, branch: string, q: nat)
    requires q <= |pulls|
  {
    forall j | 0 <= j < q && Contains(pulls[j].headRef, branch) :: !Unknown(s, organization, repository, pulls[j].number)
  }

  /** The position in the list at which handling stops, if it stops after `k` of the matching pull requests. */
  lemma StopPosition(pulls: seq<PullRequest>, branch: string, k: nat) returns (q: nat)
    requires k <= |Matching(pulls, branch)|
    ensures q <= |pulls| && (k == |Matching(pulls, branch)| ==> q == |pulls|)
    ensures k < |Matching(pulls, branch)| ==>
              q < |pulls| && Contains(pulls[q].headRef, branch) && Matching(pulls, branch)[k] == pulls[q]
    ensures forall p :: p in Matching(pulls, branch)[..k] <==> exists j :: 0 <= j < q && pulls[j] == p && Contains(p.headRef, branch)
  {
    var at := MatchingAt(pulls, branch);
    var matching := Matching(pulls, branch);
    hide Matching, Contains;
    q := if k < |matching| then at[k] else |pulls|;
    assert k < |matching| ==> at[k] in at;
    forall p | p in matching[..k] ensures exists j :: 0 <= j < q && pulls[j] == p && Contains(p.headRef, branch) {
      var i :| 0 <= i < k && matching[i] == p;
      assert at[i] in at && at[i] < q && pulls[at[i]] == p;
    }
    forall j | 0 <= j < q && Contains(pulls[j].headRef, branch) ensures pulls[j] in matching[..k] {
      var i :| 0 <= i < |at| && at[i] == j;
      assert i < k && matching[..k][i] == pulls[j];
    }
  }

  lemma HandledByPosition(s: State, s': State, organization: string, repository: string, pulls: seq<PullRequest>, branch: string, k: nat)
    returns (q: nat)
    requires k <= |Matching(pulls, branch)| && Handled(s, s', organization, repository, Matching(pulls, branch), k)
    requires NoneUnknown(s, organization, repository, Matching(pulls, branch)[..k])
    requires k < |Matching(pulls, branch)| ==> Unknown(s, organization, repository, Matching(pulls, branch)[k].number)
    ensures q <= |pulls| && HandledUpTo(s, s', organization, repository, pulls, branch, q)
    ensures KnownUpTo(s, organization, repository, pulls, branch, q)
    ensures q == |pulls| <==> k == |Matching(pulls, branch)|
    ensures q == |pulls| <==> KnownUpTo(s, organization, repository, pulls, branch, |pulls|)
    ensures q < |pulls| ==> Contains(pulls[q].headRef, branch) && Unknown(s, organization, repository, pulls[q].number)
  {
    q := StopPosition(pulls, branch, k);
    var done := Matching(pulls, branch)[..k];
    hide Matching, Contains, OnlyPending, Reached, ConcernedBy, Unknown;
    forall j | 0 <= j < q && Contains(pulls[j].headRef, branch) ensures pulls[j] in done { }
    forall n | n in s.insts && n in s'.insts && s'.insts[n] != s.insts[n]
      ensures exists j :: 0 <= j < q && Contains(pulls[j].headRef, branch) && ConcernedBy(s, n, organization, repository, pulls[j].number)
    {
      var p :| p in done && ConcernedBy(s, n, organization, repository, p.number);
    }
  }

  /** One matching pull request after the other, stopping at the first error. */
  method HandleMatching(api: Server, first: nat, organization: string, repository: string, matching: seq<PullRequest>)
    returns (r: Reply, ghost k: nat)
    requires api.Valid()
    modifies api`st, api`script, api`trace, api`undisturbed
    ensures api.Valid() && k <= |matching| && (r.Fine? ==> k == |matching|)
    ensures Undisputed(old(api.script)) ==> OnlyPending(old(api.st), api.st)
    ensures Undisputed(old(api.script)) && (r.Fine? || (r.Error? && Perfect(old(api.script)))) ==>
              Handled(old(api.st), api.st, organization, repository, matching, k)
    ensures Perfect(old(api.script)) && !r.Down? ==>
              && NoneUnknown(old(api.st), organization, repository, matching[..k])
              && (r.Error? ==> k < |matching| && Unknown(old(api.st), organization, repository, matching[k].number))
    ensures r.Down? ==> api.script == []
  {
    hide Run, Server.Valid, Step, Undisputed, Perfect, SameCopies, OnlyPending, Reached, Unknown, OnlyConcerned;
    hide OnlyConcernedBy, ConcernedBy, Handled;
    k := 0;
    if Perfect(old(api.script)) { PerfectIsUndisputed(old(api.script)); }
    if Undisputed(old(api.script)) { NothingHandled(old(api.st), api.st, organization, repository, matching); }
    for i := 0 to |matching|
      invariant api.Valid() && k == i
      invariant Undisputed(old(api.script)) ==>
                  Undisputed(api.script) && Handled(old(api.st), api.st, organization, repository, matching, i)
      invariant Perfect(old(api.script)) ==>
                  Perfect(api.script) && NoneUnknown(old(api.st), organization, repository, matching[..i])
    {
      ghost var s := api.st;
      r := HandleEvent(api, first, organization, repository, matching[i].number);
      if Undisputed(old(api.script)) {
        HandledPending(old(api.st), s, organization, repository, matching, i);
        OnlyPendingJoins(old(api.st), s, api.st);
        UnknownStays(old(api.st), s, organization, repository, matching[i].number);
        if r.Fine? { HandledOn(old(api.st), s, api.st, organization, repository, matching, i); }
        if r.Error? && Perfect(old(api.script)) { UnknownHandled(old(api.st), s, api.st, organization, repository, matching, i); }
      }
      if !r.Fine? { return; }
      k := i + 1;
    }
    assert matching[..|matching|] == matching;
    if Undisputed(old(api.script)) { HandledPending(old(api.st), api.st, organization, repository, matching, k); }
    return Fine, k;
  }

  /** A push handled with success, nobody interfering, leaves an instance pending for every listed pull request from
      the pushed branch, and changes nothing but phases, and those only to pending. With every call answered it succeeds
      if and only if every matching pull request has an instance. Otherwise it stops at the first without one in the
      list, at position `q`: the matching ones before it have been handled, and nothing has changed for the others. */
  method HandlePush(api: Server, first: nat, organization: string, repository: string, ref: string)
    returns (r: Reply, ghost pulls: seq<PullRequest>, ghost q: nat)
    requires api.Valid()
    modifies api`st, api`script, api`trace, api`undisturbed
    ensures api.Valid()
    ensures Undisputed(old(api.script)) ==> OnlyPending(old(api.st), api.st)
    ensures r.Fine? ==> old(api.script) != [] && pulls == old(api.script)[0].io.pulls
    ensures Undisputed(old(api.script)) && r.Fine? ==>
              forall branch, p | ref == "refs/heads/" + branch && p in pulls && p.headRef == branch ::
                Reached(api.st, organization, repository, p.number)
    ensures Perfect(old(api.script)) && !r.Down? ==>
              && Searched(ref).Some? && old(api.script) != [] && pulls == old(api.script)[0].io.pulls
              && var branch := Searched(ref).value;
                 && q <= |pulls| && HandledUpTo(old(api.st), api.st, organization, repository, pulls, branch, q)
                 && KnownUpTo(old(api.st), organization, repository, pulls, branch, q)
                 && (r.Fine? <==> q == |pulls|)
                 && (r.Fine? <==> KnownUpTo(old(api.st), organization, repository, pulls, branch, |pulls|))
                 && (r.Error? ==> Contains(pulls[q].headRef, branch) && Unknown(old(api.st), organization, repository, pulls[q].number))
    ensures r.Down? ==> Searched(ref).None? || api.script == []
  {
    hide Run, Server.Valid, Step, Undisputed, Perfect, SameCopies, OnlyPending, Reached, Matching, Searched, Unknown, OnlyConcerned;
    hide OnlyConcernedBy, ConcernedBy, Handled, HandledUpTo, KnownUpTo, Contains, NoneUnknown;
    pulls, q := [], 0;
    if Perfect(old(api.script)) { PerfectIsUndisputed(old(api.script)); }
    SameIsPending(api.st, api.st);
    if Searched(ref).None? { return Down, pulls, q; }  // index out of range
    var branch := Searched(ref).value;
    var alive, io := Wait(api, first);
    if !alive { return Down, pulls, q; }
    if !io.fault.Done? { return Error, pulls, q; }
    pulls := io.pulls;
    var matching := PullRequestsOfBranch(io.pulls, branch);
    ghost var k;
    r, k := HandleMatching(api, first, organization, repository, matching);
    if r.Fine? && Undisputed(old(api.script)) {
      forall b, p | ref == "refs/heads/" + b && p in pulls && p.headRef == b
        ensures Reached(api.st, organization, repository, p.number)
      {
        PushMissesNone(pulls, b, p);
        HandledReached(old(api.st), api.st, organization, repository, matching, p);
      }
    }
    if Perfect(old(api.script)) && !r.Down? {
      q := HandledByPosition(old(api.st), api.st, organization, repository, pulls, branch, k);
    }
  }

  lemma HandledPending(s: State, s': State, organization: string, repository: string, matching: seq<PullRequest>, k: nat)
    requires k <= |matching| && Handled(s, s', organization, repository, matching, k)
    ensures OnlyPending(s, s')
  {
    hide OnlyPending, AllReached, OnlyConcernedBy;
  }

  lemma HandledReached(s: State, s': State, organization: string, repository: string, matching: seq<PullRequest>, p: PullRequest)
    requires Handled(s, s', organization, repository, matching, |matching|) && p in matching
    ensures Reached(s', organization, repository, p.number)
  {
    hide OnlyPending, Reached, OnlyConcernedBy;
    assert matching[..|matching|] == matching;
  }

  lemma SameIsPending(s: State, s': State)
    requires s.insts == s'.insts
    ensures OnlyPending(s, s')
  {
  }

  /** A pull request event goes straight to its pull request. */
  method HandlePullRequest(api: Server, first: nat, organization: string, repository: string, number: PrNumber) returns (r: Reply)
    requires api.Valid()
    modifies api`st, api`script, api`trace, api`undisturbed
    ensures api.Valid()
    ensures Undisputed(old(api.script)) ==>
              && OnlyPending(old(api.st), api.st) && OnlyConcerned(old(api.st), api.st, organization, repository, number)
              && (r.Fine? ==> Reached(api.st, organization, repository, number))
    ensures Perfect(old(api.script)) && !r.Down? ==> (r.Fine? <==> !Unknown(old(api.st), organization, repository, number))
    ensures r.Down? ==> api.script == []
  {
    r := HandleEvent(api, first, organization, repository, number);
  }
}

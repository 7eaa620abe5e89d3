/** Adding and removing users of an environment while others write the same object
    (internal/server/previewenvironment.go, internal/kubeclient/previewenvironment.go). */
module Access {
  import opened Naming
  import opened Selections
  import opened Cluster

  // ---------------------------------------------------------------- one change of the list

  datatype User = User(id: string, name: string)

  /** `Keep` stands for a write that leaves the list as it read it, such as the reconciler's finalizer writes. */
  datatype Op = Add(id: string) | Remove(id: string) | Keep

  function Ids(users: seq<User>): set<string> { set u | u in users :: u.id }

  predicate Distinct(users: seq<User>) { forall i, j | 0 <= i < j < |users| :: users[i].id != users[j].id }

  /** The position of the first user with the id, or the length. */
  function Find(users: seq<User>, id: string): (i: nat)
    ensures i <= |users|
    ensures i < |users| ==> users[i].id == id
    ensures forall j | 0 <= j < i :: users[j].id != id
  {
    if users == [] || users[0].id == id then 0 else 1 + Find(users[1..], id)
  }

  /** What a handler makes of the list it has read; nothing if it answers with a conflict. */
  function Change(users: seq<User>, op: Op): Option<seq<User>> {
    match op
    case Add(id) => if Find(users, id) < |users| then None else Some(users + [User(id, "")])
    case Remove(id) =>
      var i := Find(users, id);
      Some(if i < |users| then Cut(users, i) else users)
    case Keep => Some(users)
  }

  lemma FoundIff(users: seq<User>, id: string)
    ensures Find(users, id) < |users| <==> id in Ids(users)
  {
    if id in Ids(users) {
      var i :| 0 <= i < |users| && users[i].id == id;
    }
  }

  function Touched(op: Op): set<string> { if op.Keep? then {} else {op.id} }

  /** The users a change is not about. */
  function Rest(users: seq<User>, ids: set<string>): seq<User> {
    if users == [] then [] else (if users[0].id in ids then [] else [users[0]]) + Rest(users[1..], ids)
  }

  lemma {:induction false} RestJoin(a: seq<User>, b: seq<User>, ids: set<string>)
    ensures Rest(a + b, ids) == Rest(a, ids) + Rest(b, ids)
  {
    if a == [] {
      assert a + b == b;
    } else {
      assert (a + b)[1..] == a[1..] + b;
      RestJoin(a[1..], b, ids);
    }
  }

  /** These are the users with other ids, in the order of the list. */
  lemma {:induction false} RestAt(users: seq<User>, ids: set<string>) returns (at: seq<nat>)
    ensures TakenAt(users, Rest(users, ids), at) && forall j | 0 <= j < |users| :: j in at <==> users[j].id !in ids
  {
    at := [];
    if users != [] {
      var front, last := users[..|users| - 1], users[|users| - 1];
      assert users == front + [last];
      RestJoin(front, [last], ids);
      assert Rest([last], ids) == if last.id in ids then [] else [last];
      at := RestAt(front, ids);
      TakeOne(front, Rest(front, ids), at, last);
      hide TakenAt, Rest;
      if last.id !in ids { at := at + [|front|]; } else { assert Rest(users, ids) == Rest(front, ids); }
    }
  }

  /** A change means what its name says on the set of ids, keeps ids distinct, and keeps everybody else in order. */
  lemma ChangeMeans(users: seq<User>, op: Op)
    requires Distinct(users)
    ensures Change(users, op).None? <==> op.Add? && op.id in Ids(users)
    ensures Change(users, op).Some? ==>
              var r := Change(users, op).value;
              && Distinct(r) && Rest(r, Touched(op)) == Rest(users, Touched(op))
              && Ids(r) == if op.Add? then Ids(users) + {op.id} else Ids(users) - Touched(op)
  {
    if !op.Keep? { FoundIff(users, op.id); }
    match op
    case Keep =>
    case Add(id) =>
      RestJoin(users, [User(id, "")], {id});
      assert Rest([User(id, "")], {id}) == [];
      if Change(users, op).Some? { AddIds(users, id); }
    case Remove(id) =>
      var i := Find(users, id);
      if i < |users| { RemoveOne(users, i); }
  }

  lemma AddIds(users: seq<User>, id: string)
    ensures Ids(users + [User(id, "")]) == Ids(users) + {id}
  {
    var r := users + [User(id, "")];
    assert r[|users|] in r;
    assert forall u | u in users :: u in r;
  }

  function Cut(users: seq<User>, i: nat): seq<User>
    requires i < |users|
  {
    users[..i] + users[i + 1..]
  }

  lemma CutIds(users: seq<User>, i: nat)
    requires Distinct(users) && i < |users|
    ensures Ids(Cut(users, i)) == Ids(users) - {users[i].id}
  {
    var r := Cut(users, i);
    forall x | x in Ids(users) - {users[i].id} ensures x in Ids(r) {
      var j :| 0 <= j < |users| && users[j].id == x;
      assert users[j] == r[if j < i then j else j - 1];
    }
    forall x | x in Ids(r) ensures x in Ids(users) - {users[i].id} {
      var j :| 0 <= j < |r| && r[j].id == x;
      assert r[j] == users[if j < i then j else j + 1];
    }
  }

  lemma RestOne(u: User)
    ensures Rest([u], {u.id}) == []
  {
  }

  lemma CutRest(users: seq<User>, i: nat)
    requires i < |users|
    ensures Rest(Cut(users, i), {users[i].id}) == Rest(users, {users[i].id})
  {
    hide Rest;
    var before, one, after := users[..i], [users[i]], users[i + 1..];
    assert users == before + (one + after);
    RestJoin(before, one + after, {users[i].id});
    RestJoin(one, after, {users[i].id});
    RestJoin(before, after, {users[i].id});
    RestOne(users[i]);
  }

  lemma CutDistinct(users: seq<User>, i: nat)
    requires Distinct(users) && i < |users|
    ensures Distinct(Cut(users, i))
  {
    var r := Cut(users, i);
    forall j, k | 0 <= j < k < |r| ensures r[j].id != r[k].id {
      assert r[j] == users[if j < i then j else j + 1] && r[k] == users[if k < i then k else k + 1];
    }
  }

  lemma RemoveOne(users: seq<User>, i: nat)
    requires Distinct(users) && i < |users|
    ensures var r := Cut(users, i); var id := users[i].id;
            Distinct(r) && Ids(r) == Ids(users) - {id} && Rest(r, {id}) == Rest(users, {id})
  {
    hide Ids, Rest, Distinct, Cut;
    CutIds(users, i);
    CutRest(users, i);
    CutDistinct(users, i);
  }

  /** An added user can be removed again without a trace. */
  lemma AddThenRemove(users: seq<User>, id: string)
    requires Change(users, Add(id)).Some?
    ensures Change(Change(users, Add(id)).value, Remove(id)) == Some(users)
  {
    var added := users + [User(id, "")];
    assert forall j | 0 <= j < |users| :: users[j].id != id && added[j] == users[j];
    assert added[|users|].id == id;
    assert Cut(added, |users|) == users;
  }

  /** The other way round leaves the same list only if the user was the last one and had no user name. */
  lemma RemoveThenAddIff(users: seq<User>, id: string)
    requires Distinct(users) && id in Ids(users)
    ensures var removed := Change(users, Remove(id)).value;
            && Change(removed, Add(id)).Some?
            && (Change(removed, Add(id)).value == users <==> users[|users| - 1] == User(id, ""))
  {
    FoundIff(users, id);
    var i := Find(users, id);
    var removed := Cut(users, i);
    ChangeMeans(users, Remove(id));
    FoundIff(removed, id);
    MovedToTheEnd(users, i, User(id, ""));
    hide Cut, Distinct, Ids, Rest;
  }

  lemma MovedToTheEnd(users: seq<User>, i: nat, u: User)
    requires Distinct(users) && i < |users| && users[i].id == u.id
    ensures Cut(users, i) + [u] == users <==> users[|users| - 1] == u
  {
    var moved := Cut(users, i) + [u];
    if i == |users| - 1 {
      assert users == users[..i] + [users[i]] && moved == users[..i] + [u];
      assert moved[i] == u;
    } else {
      assert moved[i] == users[i + 1] && users[i].id != users[i + 1].id;
      assert users[|users| - 1].id != users[i].id;
    }
  }

  // ---------------------------------------------------------------- requests in flight

  /** What the server stores of the environment. */
  datatype Record = Record(users: seq<User>, version: nat)

  /** A request that has read the environment and is about to write its changed copy. */
  datatype Request = Request(op: Op, copy: Record)

  datatype Reply = Ok | Taken | NotFound | Unsaved

  datatype Store = Store(record: Option<Record>, next: nat, requests: map<nat, Request>, answers: map<nat, Reply>,
                         asked: map<nat, Op>, effects: seq<nat>)  // history: what was asked, and whose writes took effect

  datatype Action = Read(id: nat, op: Op) | Write(id: nat, fault: Fault) | Drop

  function Open(users: seq<User>): Store { Store(Some(Record(users, 0)), 1, map[], map[], map[], []) }

  predicate Lands(s: Store, id: nat, fault: Fault) {
    id in s.requests && !fault.Rejected? && s.record.Some? && s.record.value.version == s.requests[id].copy.version
  }

  /** Request ids are used once. A read that finds nothing, or nothing to change, is answered at once. */
  function Act(s: Store, a: Action): Store {
    match a
    case Read(id, op) =>
      if id in s.asked then s
      else if s.record.None? then s.(asked := s.asked[id := op], answers := s.answers[id := NotFound])
      else match Change(s.record.value.users, op) {
        case None => s.(asked := s.asked[id := op], answers := s.answers[id := Taken])
        case Some(users) =>
          s.(asked := s.asked[id := op], requests := s.requests[id := Request(op, s.record.value.(users := users))])
      }
    case Write(id, fault) =>
      if id !in s.requests then s else
        var done := s.(requests := s.requests - {id},
                       answers := s.answers[id := if Lands(s, id, fault) && fault.Done? then Ok else Unsaved]);
        if Lands(s, id, fault)
        then done.(record := Some(Record(s.requests[id].copy.users, s.next)), next := s.next + 1, effects := s.effects + [id])
        else done
    case Drop => s.(record := None)
  }

  function Acts(s: Store, actions: seq<Action>): Store {
    if actions == [] then s else Act(Acts(s, actions[..|actions| - 1]), actions[|actions| - 1])
  }

  /** The list after the operations of `ids`, one after the other, nothing in between. */
  function Replay(users: seq<User>, asked: map<nat, Op>, ids: seq<nat>): Option<seq<User>> {
    if ids == [] then Some(users)
    else match Replay(users, asked, ids[..|ids| - 1])
         case None => None
         case Some(u) => if ids[|ids| - 1] in asked then Change(u, asked[ids[|ids| - 1]]) else None
  }

  predicate NoRepeats(ids: seq<nat>) { forall i, j | 0 <= i < j < |ids| :: ids[i] != ids[j] }

  predicate RequestOk(s: Store, id: nat)
    requires id in s.requests
  {
    && id in s.asked && s.asked[id] == s.requests[id].op && id !in s.effects && id !in s.answers
    && s.requests[id].copy.version < s.next
    && (s.record.Some? && s.record.value.version == s.requests[id].copy.version ==>
         Change(s.record.value.users, s.requests[id].op) == Some(s.requests[id].copy.users))
  }

  predicate StoreInv(initial: seq<User>, s: Store) {
    && (s.record.Some? ==> s.record.value.version < s.next && Replay(initial, s.asked, s.effects) == Some(s.record.value.users))
    && (forall id | id in s.requests :: RequestOk(s, id))
    && AnswersOk(s)
  }

  /** Effects are taken once and answered; what is acknowledged has taken effect. */
  predicate AnswersOk(s: Store) {
    && NoRepeats(s.effects)
    && (forall id | id in s.effects :: id in s.asked && id in s.answers && (s.answers[id] == Ok || s.answers[id] == Unsaved))
    && (forall id | id in s.answers :: id in s.asked && (s.answers[id] == Ok ==> id in s.effects))
  }

  lemma {:induction false} ReplayGrows(users: seq<User>, asked: map<nat, Op>, id: nat, op: Op, ids: seq<nat>)
    requires id !in asked && forall i | i in ids :: i in asked
    ensures Replay(users, asked[id := op], ids) == Replay(users, asked, ids)
  {
    if ids != [] { ReplayGrows(users, asked, id, op, ids[..|ids| - 1]); }
  }

  lemma AnsweredAsked(s: Store)
    requires AnswersOk(s)
    ensures forall id | id in s.effects :: id in s.asked
  {
  }

  lemma ReadAnswers(s: Store, id: nat, op: Op)
    requires AnswersOk(s) && id !in s.asked
    ensures AnswersOk(Act(s, Read(id, op)))
  {
    hide Change;
  }

  lemma ReadRequest(s: Store, id: nat, op: Op, j: nat)
    requires s.record.Some? ==> s.record.value.version < s.next
    requires j in s.requests ==> RequestOk(s, j)
    requires AnswersOk(s) && id !in s.asked && j in Act(s, Read(id, op)).requests
    ensures RequestOk(Act(s, Read(id, op)), j)
  {
    hide Change;
  }

  lemma ReadKeeps(initial: seq<User>, s: Store, id: nat, op: Op)
    requires StoreInv(initial, s)
    ensures StoreInv(initial, Act(s, Read(id, op)))
  {
    hide Change, AnswersOk, RequestOk;
    if id !in s.asked {
      AnsweredAsked(s);
      ReplayGrows(initial, s.asked, id, op, s.effects);
      ReadAnswers(s, id, op);
      var t := Act(s, Read(id, op));
      forall j | j in t.requests ensures RequestOk(t, j) { ReadRequest(s, id, op, j); }
    }
    hide Replay;
  }

  lemma OtherRequest(s: Store, id: nat, fault: Fault, j: nat)
    requires id in s.requests && j in s.requests && j != id && RequestOk(s, j)
    ensures var t := Act(s, Write(id, fault)); j in t.requests && RequestOk(t, j)
  {
    hide Change;
  }

  lemma LandedIs(s: Store, id: nat, fault: Fault)
    requires Lands(s, id, fault)
    ensures Act(s, Write(id, fault)) ==
            s.(requests := s.requests - {id}, answers := s.answers[id := if fault.Done? then Ok else Unsaved],
               record := Some(Record(s.requests[id].copy.users, s.next)), next := s.next + 1, effects := s.effects + [id])
  {
  }

  lemma LandedAnswers(s: Store, t: Store, id: nat, reply: Reply)
    requires AnswersOk(s) && id !in s.effects && id in s.asked && (reply == Ok || reply == Unsaved)
    requires t.effects == s.effects + [id] && t.answers == s.answers[id := reply] && t.asked == s.asked
    ensures AnswersOk(t)
  {
    assert id in t.effects;
    assert forall j | j in s.effects :: j in t.effects;
  }

  lemma LandedKeeps(initial: seq<User>, s: Store, id: nat, fault: Fault)
    requires StoreInv(initial, s) && id in s.requests && RequestOk(s, id) && Lands(s, id, fault)
    ensures StoreInv(initial, Act(s, Write(id, fault)))
  {
    hide Act, AnswersOk;
    var t := Act(s, Write(id, fault));
    var users := s.requests[id].copy.users;
    LandedIs(s, id, fault);
    LandedAnswers(s, t, id, if fault.Done? then Ok else Unsaved);
    assert Change(s.record.value.users, s.asked[id]) == Some(users);
    hide Change;
    assert t.effects[..|t.effects| - 1] == s.effects;
    assert Replay(initial, s.asked, t.effects) == Some(users);
    hide Replay;
    forall j | j in t.requests ensures RequestOk(t, j) { OtherRequest(s, id, fault, j); }
    hide RequestOk;
  }

  lemma LostKeeps(initial: seq<User>, s: Store, id: nat, fault: Fault)
    requires StoreInv(initial, s) && id in s.requests && RequestOk(s, id) && !Lands(s, id, fault)
    ensures StoreInv(initial, Act(s, Write(id, fault)))
  {
    hide Change, Replay;
  }

  lemma WriteKeeps(initial: seq<User>, s: Store, id: nat, fault: Fault)
    requires StoreInv(initial, s)
    ensures StoreInv(initial, Act(s, Write(id, fault)))
  {
    if id in s.requests {
      assert RequestOk(s, id);
      if Lands(s, id, fault) { LandedKeeps(initial, s, id, fault); } else { LostKeeps(initial, s, id, fault); }
      hide *;
    }
  }

  lemma {:induction false} StoreInvHolds(initial: seq<User>, actions: seq<Action>)
    ensures StoreInv(initial, Acts(Open(initial), actions))
  {
    if actions != [] {
      StoreInvHolds(initial, actions[..|actions| - 1]);
      var s, a := Acts(Open(initial), actions[..|actions| - 1]), actions[|actions| - 1];
      match a
      case Read(id, op) => ReadKeeps(initial, s, id, op);
      case Write(id, fault) => WriteKeeps(initial, s, id, fault);
      case Drop =>
    }
  }

  // ---------------------------------------------------------------- what concurrent requests amount to

  /** Whether the last word on user `u` was an addition. */
  predicate Member(initial: seq<User>, asked: map<nat, Op>, ids: seq<nat>, u: string) {
    if ids == [] then u in Ids(initial)
    else var last := ids[|ids| - 1];
         if last in asked && u in Touched(asked[last]) then asked[last].Add? else Member(initial, asked, ids[..|ids| - 1], u)
  }

  function AllTouched(asked: map<nat, Op>, ids: seq<nat>): set<string> {
    set id, u | id in ids && id in asked && u in Touched(asked[id]) :: u
  }

  lemma {:induction false} RestTwice(users: seq<User>, few: set<string>, many: set<string>)
    requires few <= many
    ensures Rest(Rest(users, few), many) == Rest(users, many)
  {
    if users != [] {
      RestTwice(users[1..], few, many);
      RestJoin(if users[0].id in few then [] else [users[0]], Rest(users[1..], few), many);
    }
  }

  lemma SameRest(a: seq<User>, b: seq<User>, few: set<string>, many: set<string>)
    requires few <= many && Rest(a, few) == Rest(b, few)
    ensures Rest(a, many) == Rest(b, many)
  {
    RestTwice(a, few, many);
    RestTwice(b, few, many);
  }

  lemma {:induction false} ReplayMeans(initial: seq<User>, asked: map<nat, Op>, ids: seq<nat>, touched: set<string>)
    requires Distinct(initial) && Replay(initial, asked, ids).Some? && AllTouched(asked, ids) <= touched
    ensures var users := Replay(initial, asked, ids).value;
            && Distinct(users) && Rest(users, touched) == Rest(initial, touched)
            && forall u :: u in Ids(users) <==> Member(initial, asked, ids, u)
  {
    hide Rest, Change, Ids, Distinct;
    if ids != [] {
      var front, op := ids[..|ids| - 1], asked[ids[|ids| - 1]];
      assert AllTouched(asked, front) <= AllTouched(asked, ids) && Touched(op) <= AllTouched(asked, ids);
      ReplayMeans(initial, asked, front, touched);
      var before := Replay(initial, asked, front).value;
      ChangeMeans(before, op);
      SameRest(Change(before, op).value, before, Touched(op), touched);
    }
  }

  /** Concurrent requests linearise. In every state that requests, finalizer writes, conflicts and lost answers can
      lead to: the stored list is what the requests whose writes took effect make of the initial list one after the
      other; every acknowledged request is among them, exactly once; ids stay distinct; a user is on the list if
      and only if the last word on that user was an addition; and users nobody asked about keep their order. */
  lemma RequestsLinearise(initial: seq<User>, actions: seq<Action>)
    requires Distinct(initial)
    ensures var s := Acts(Open(initial), actions);
            && NoRepeats(s.effects) && (forall id | id in s.effects :: id in s.asked)
            && (forall id | id in s.answers && s.answers[id] == Ok :: id in s.effects)
            && (s.record.Some? ==>
                 var users := s.record.value.users;
                 && Replay(initial, s.asked, s.effects) == Some(users) && Distinct(users)
                 && (forall u :: u in Ids(users) <==> Member(initial, s.asked, s.effects, u))
                 && Rest(users, AllTouched(s.asked, s.effects)) == Rest(initial, AllTouched(s.asked, s.effects)))
  {
    hide Replay, Rest, Ids;
    StoreInvHolds(initial, actions);
    var s := Acts(Open(initial), actions);
    if s.record.Some? { ReplayMeans(initial, s.asked, s.effects, AllTouched(s.asked, s.effects)); }
  }

  lemma {:induction false} LastWord(initial: seq<User>, asked: map<nat, Op>, ids: seq<nat>, i: nat)
    requires i < |ids| && ids[i] in asked && !asked[ids[i]].Keep?
    requires forall j | i < j < |ids| :: ids[j] in asked ==> asked[ids[i]].id !in Touched(asked[ids[j]])
    ensures Member(initial, asked, ids, asked[ids[i]].id) <==> asked[ids[i]].Add?
  {
    if i < |ids| - 1 { LastWord(initial, asked, ids[..|ids| - 1], i); }
  }

  /** No acknowledged change is lost: until a later write about the same user takes effect, an added user is on the
      list and a removed one is not. */
  lemma NothingIsLost(initial: seq<User>, actions: seq<Action>, id: nat) returns (i: nat)
    requires Distinct(initial)
    requires var s := Acts(Open(initial), actions);
             s.record.Some? && id in s.answers && s.answers[id] == Ok && id in s.asked && !s.asked[id].Keep?
    ensures var s := Acts(Open(initial), actions); var u := s.asked[id].id;
            && i < |s.effects| && s.effects[i] == id
            && ((forall j | i < j < |s.effects| :: s.effects[j] in s.asked ==> u !in Touched(s.asked[s.effects[j]])) ==>
                 (u in Ids(s.record.value.users) <==> s.asked[id].Add?))
  {
    RequestsLinearise(initial, actions);
    var s := Acts(Open(initial), actions);
    i :| 0 <= i < |s.effects| && s.effects[i] == id;
    hide Acts, Replay, Rest, Ids;
    var u := s.asked[id].id;
    if forall j | i < j < |s.effects| :: s.effects[j] in s.asked ==> u !in Touched(s.asked[s.effects[j]]) {
      LastWord(initial, s.asked, s.effects, i);
    }
  }

  // ---------------------------------------------------------------- the handlers

  /** What others do before a call of a handler returns, and how that call ends. */
  datatype Pause = Pause(others: seq<Action>, fault: Fault)

  /** Nobody else acts, and every call succeeds that can. */
  predicate Still(script: seq<Pause>) { forall p | p in script :: p.others == [] && p.fault.Done? }

  predicate ByOthers(id: nat, a: Action) { a.Drop? || a.id != id }

  /** Request `id` is as far in `t` as in `s`. */
  predicate Untouched(id: nat, s: Store, t: Store) {
    && (id in t.asked <==> id in s.asked) && (id in s.asked ==> t.asked[id] == s.asked[id])
    && (id in t.requests <==> id in s.requests) && (id in s.requests ==> t.requests[id] == s.requests[id])
    && (id in t.answers <==> id in s.answers) && (id in s.answers ==> t.answers[id] == s.answers[id])
  }

  lemma OthersLeave(id: nat, s: Store, t: Store, a: Action)
    requires ByOthers(id, a) && Untouched(id, s, t)
    ensures Untouched(id, s, Act(t, a))
  {
    hide Change;
  }

  class Desk {
    var st: Store
    var script: seq<Pause>
    ghost const initial: seq<User>
    ghost var trace: seq<Action>

    /** All that has happened so far is one run of requests. */
    ghost predicate Valid()
      reads this
    {
      st == Acts(Open(initial), trace)
    }

    constructor (users: seq<User>, script: seq<Pause>)
      ensures Valid() && st == Open(users) && this.script == script
    {
      st, this.script, initial, trace := Open(users), script, users, [];
    }

    method Happen(a: Action)
      requires Valid()
      modifies `st, `trace
      ensures Valid() && st == Act(old(st), a)
    {
      hide Act;
      st, trace := Act(st, a), trace + [a];
      assert trace[..|trace| - 1] == old(trace);
    }

    method Wait(id: nat) returns (fault: Fault)
      requires Valid()
      modifies this
      ensures Valid() && Untouched(id, old(st), st)
      ensures Still(old(script)) ==> Still(script) && st == old(st) && fault.Done?
    {
      hide Act, Acts;
      if script == [] { return Done; }
      var pause := script[0];
      assert pause in script;
      script := script[1..];
      for i := 0 to |pause.others|
        invariant Valid() && Untouched(id, old(st), st) && script == old(script)[1..] && (i == 0 ==> st == old(st))
      {
        if ByOthers(id, pause.others[i]) {
          OthersLeave(id, old(st), st, pause.others[i]);
          Happen(pause.others[i]);
        }
      }
      return pause.fault;
    }

    method HasUser(users: seq<User>, userId: string) returns (has: bool)
      ensures has <==> userId in Ids(users)
    {
      for i := 0 to |users|
        invariant forall j | 0 <= j < i :: users[j].id != userId
      {
        if users[i].id == userId { return true; }
      }
      return false;
    }

    method WithoutUser(users: seq<User>, userId: string) returns (r: seq<User>)
      ensures Some(r) == Change(users, Remove(userId))
    {
      r := users;
      for i := 0 to |users|
        invariant r == users && forall j | 0 <= j < i :: users[j].id != userId
      {
        if users[i].id == userId {
          assert Find(users, userId) == i;
          return r[..i] + r[i + 1..];
        }
      }
    }

    /** The write of the changed copy, refused on a stale version. */
    method Save(id: nat, copy: Record) returns (reply: Reply)
      requires Valid() && id in st.requests && st.requests[id].copy == copy
      modifies this
      ensures Valid() && id in st.answers && reply == st.answers[id]
      ensures id in old(st.asked) ==> id in st.asked && st.asked[id] == old(st.asked[id])
      ensures Still(old(script)) && old(st.record).Some? && old(st.record).value.version == copy.version ==>
                reply == Ok && st.record.Some? && st.record.value.users == copy.users
    {
      var fault := Wait(id);
      var current := st.record.Some? && st.record.value.version == copy.version;
      reply := if current && fault.Done? then Ok else Unsaved;
      Happen(Write(id, fault));
    }

    /** The answer and the list when nobody else acts. */
    predicate Served(op: Op, before: Option<Record>, reply: Reply)
      reads this
    {
      if before.None? then reply == NotFound && st.record.None?
      else match Change(before.value.users, op) {
        case None => reply == Taken && st.record == before
        case Some(users) => reply == Ok && st.record.Some? && st.record.value.users == users
      }
    }

    /** Whatever others do meanwhile, the answer and the effect are those of one `Add` in the run. */
    method AddUser(id: nat, userId: string) returns (reply: Reply)
      requires Valid() && id !in st.asked && id !in st.requests && id !in st.answers
      modifies this
      ensures Valid() && id in st.asked && st.asked[id] == Add(userId) && id in st.answers && st.answers[id] == reply
      ensures Still(old(script)) ==> Served(Add(userId), old(st.record), reply)
    {
      var _ := Wait(id);
      var read := st.record;
      Happen(Read(id, Add(userId)));
      if read.None? { return NotFound; }
      var copy := read.value;
      FoundIff(copy.users, userId);
      var has := HasUser(copy.users, userId);
      if has { return Taken; }
      copy := copy.(users := copy.users + [User(userId, "")]);
      reply := Save(id, copy);
    }

    method RemoveUser(id: nat, userId: string) returns (reply: Reply)
      requires Valid() && id !in st.asked && id !in st.requests && id !in st.answers
      modifies this
      ensures Valid() && id in st.asked && st.asked[id] == Remove(userId) && id in st.answers && st.answers[id] == reply
      ensures Still(old(script)) ==> Served(Remove(userId), old(st.record), reply)
    {
      var _ := Wait(id);
      var read := st.record;
      Happen(Read(id, Remove(userId)));
      if read.None? { return NotFound; }
      var copy := read.value;
      var users := WithoutUser(copy.users, userId);
      copy := copy.(users := users);
      reply := Save(id, copy);
    }
  }
}

/** The answer the operator keeps on a pull request (internal/git/git_response.go). */
module Answers {
  import opened Selections
  import opened Cluster

  const DAY := 24 * 60 * 60 * SECOND

  datatype Comment = Comment(body: string, createdAt: int)

  /** How the three calls of one update end, if they are made. */
  datatype Calls = Calls(list: Fault, delete: Fault, create: Fault)

  predicate AllFine(calls: Calls) { calls.list.Done? && calls.delete.Done? && calls.create.Done? }

  predicate Stale(c: Comment, now: int) { now - c.createdAt > DAY }

  /** The position of the first comment with the body, or the length. */
  function FirstWith(comments: seq<Comment>, body: string): (i: nat)
    ensures i <= |comments|
    ensures i < |comments| ==> comments[i].body == body
    ensures forall j | 0 <= j < i :: comments[j].body != body
  {
    if comments == [] || comments[0].body == body then 0 else 1 + FirstWith(comments[1..], body)
  }

  function Without(comments: seq<Comment>, i: nat): seq<Comment>
    requires i < |comments|
  {
    comments[..i] + comments[i + 1..]
  }

  // ---------------------------------------------------------------- one update

  /** What the check leaves of the thread, and whether it counts the message as there. */
  function Checked(comments: seq<Comment>, body: string, now: int, calls: Calls): (seq<Comment>, bool) {
    var i := FirstWith(comments, body);
    if !calls.list.Done? || i == |comments| then (comments, false)
    else if !Stale(comments[i], now) then (comments, true)
    else if calls.delete.Rejected? then (comments, false)
    else (Without(comments, i), false)
  }

  function Posted(comments: seq<Comment>, body: string, now: int, calls: Calls): seq<Comment> {
    if calls.create.Rejected? then comments else comments + [Comment(body, now)]
  }

  function Updated(comments: seq<Comment>, body: string, now: int, calls: Calls): seq<Comment> {
    var (rest, there) := Checked(comments, body, now, calls);
    if there then rest else Posted(rest, body, now, calls)
  }

  /** The first comment with the body, and at most a day old. */
  predicate FreshFirst(comments: seq<Comment>, body: string, now: int, i: int) {
    && 0 <= i < |comments| && comments[i].body == body && (forall j | 0 <= j < i :: comments[j].body != body)
    && now - comments[i].createdAt <= 86_400_000  // 24 hours
  }

  /** The comments of one pull request. */
  class Thread {
    var comments: seq<Comment>

    constructor (comments: seq<Comment>)
      ensures this.comments == comments
    {
      this.comments := comments;
    }

    /** Goes through the listed comments up to the first one with the message, and deletes that one if it is stale. */
    method AlreadyHasMessage(message: string, now: int, calls: Calls) returns (has: bool)
      modifies this
      ensures (comments, has) == Checked(old(comments), message, now, calls)
      ensures has ==> comments == old(comments) && exists c :: c in comments && c.body == message && now - c.createdAt <= 86_400_000
    {
      if !calls.list.Done? { return false; }
      var listed := comments;
      for i := 0 to |listed|
        invariant comments == old(comments) && forall j | 0 <= j < i :: listed[j].body != message
      {
        if listed[i].body == message {
          assert FirstWith(listed, message) == i;
          var age := now - listed[i].createdAt;
          if age > DAY {
            if !calls.delete.Rejected? { comments := comments[..i] + comments[i + 1..]; }
            return false;
          }
          return true;
        }
      }
      return false;
    }

    method PostMessage(message: string, now: int, calls: Calls) returns (ok: bool)
      modifies this
      ensures comments == Posted(old(comments), message, now, calls) && ok == calls.create.Done?
    {
      if !calls.create.Rejected? { comments := comments + [Comment(message, now)]; }
      return calls.create.Done?;
    }

    method UpdateAnswer(message: string, now: int, calls: Calls) returns (ok: bool)
      modifies this
      ensures comments == Updated(old(comments), message, now, calls)
      ensures ok <==> Checked(old(comments), message, now, calls).1 || calls.create.Done?
      ensures AllFine(calls) ==>
                && ok
                && if exists i :: FreshFirst(old(comments), message, now, i) then comments == old(comments)
                   else comments != [] && comments[|comments| - 1] == Comment(message, now)
    {
      ghost var first := FirstWith(comments, message);
      forall i | FreshFirst(comments, message, now, i) ensures i == first { }
      var has := AlreadyHasMessage(message, now, calls);
      assert has ==> FreshFirst(old(comments), message, now, first);
      if has { return true; }
      ok := PostMessage(message, now, calls);
    }
  }

  // ---------------------------------------------------------------- what one update keeps

  /** The comments that do, or do not, carry the body, in order. */
  function Carrying(comments: seq<Comment>, body: string, carry: bool): seq<Comment> {
    if comments == [] then []
    else CarryingFirst(comments[0], body, carry) + Carrying(comments[1..], body, carry)
  }

  function CarryingFirst(c: Comment, body: string, carry: bool): seq<Comment> { if (c.body == body) == carry then [c] else [] }

  lemma {:induction false} CarryingJoin(a: seq<Comment>, b: seq<Comment>, body: string, carry: bool)
    ensures Carrying(a + b, body, carry) == Carrying(a, body, carry) + Carrying(b, body, carry)
  {
    if a == [] {
      assert a + b == b;
    } else {
      var all := a + b;
      assert all[0] == a[0] && all[1..] == a[1..] + b;
      CarryingJoin(a[1..], b, body, carry);
      assert Carrying(all, body, carry) == CarryingFirst(a[0], body, carry) + Carrying(all[1..], body, carry);
    }
  }

  lemma CarryingOne(c: Comment, body: string, carry: bool)
    ensures Carrying([c], body, carry) == if (c.body == body) == carry then [c] else []
  {
  }

  /** These are the comments with, or without, the body, in the order of the thread. */
  lemma {:induction false} CarryingAt(comments: seq<Comment>, body: string, carry: bool) returns (at: seq<nat>)
    ensures TakenAt(comments, Carrying(comments, body, carry), at)
    ensures forall j | 0 <= j < |comments| :: j in at <==> (comments[j].body == body) == carry
  {
    at := [];
    if comments != [] {
      var front, last := comments[..|comments| - 1], comments[|comments| - 1];
      assert comments == front + [last];
      CarryingJoin(front, [last], body, carry);
      CarryingOne(last, body, carry);
      at := CarryingAt(front, body, carry);
      TakeOne(front, Carrying(front, body, carry), at, last);
      hide TakenAt, Carrying;
      if (last.body == body) == carry {
        at := at + [|front|];
      } else {
        assert Carrying(comments, body, carry) == Carrying(front, body, carry);
      }
    }
  }

  lemma SplitAt(comments: seq<Comment>, i: nat, body: string, carry: bool)
    requires i < |comments|
    ensures Carrying(comments, body, carry) ==
            Carrying(comments[..i], body, carry) + Carrying([comments[i]], body, carry) + Carrying(comments[i + 1..], body, carry)
    ensures Carrying(Without(comments, i), body, carry) ==
            Carrying(comments[..i], body, carry) + Carrying(comments[i + 1..], body, carry)
  {
    assert comments == comments[..i] + ([comments[i]] + comments[i + 1..]);
    CarryingJoin(comments[..i], [comments[i]] + comments[i + 1..], body, carry);
    CarryingJoin([comments[i]], comments[i + 1..], body, carry);
    CarryingJoin(comments[..i], comments[i + 1..], body, carry);
  }

  /** Whatever fails, an update of one message leaves every other comment alone, in order. */
  lemma OthersStay(comments: seq<Comment>, body: string, now: int, calls: Calls)
    ensures Carrying(Updated(comments, body, now, calls), body, false) == Carrying(comments, body, false)
    ensures forall b | b != body :: Carrying(Updated(comments, body, now, calls), b, true) == Carrying(comments, b, true)
  {
    OthersStayFor(comments, body, now, calls, body, false);
    forall b | b != body ensures Carrying(Updated(comments, body, now, calls), b, true) == Carrying(comments, b, true) {
      OthersStayFor(comments, body, now, calls, b, true);
    }
  }

  lemma OthersStayFor(comments: seq<Comment>, body: string, now: int, calls: Calls, b: string, carry: bool)
    requires (body == b) != carry
    ensures Carrying(Updated(comments, body, now, calls), b, carry) == Carrying(comments, b, carry)
  {
    var i := FirstWith(comments, body);
    var (rest, there) := Checked(comments, body, now, calls);
    if i < |comments| {
      SplitAt(comments, i, b, carry);
      CarryingOne(comments[i], b, carry);
    }
    CarryingJoin(rest, [Comment(body, now)], b, carry);
    CarryingOne(Comment(body, now), b, carry);
  }

  function Count(comments: seq<Comment>, body: string): nat { |Carrying(comments, body, true)| }

  lemma {:induction false} NoneBefore(comments: seq<Comment>, body: string)
    requires forall j | 0 <= j < |comments| :: comments[j].body != body
    ensures Carrying(comments, body, true) == []
  {
    if comments != [] { NoneBefore(comments[1..], body); }
  }

  lemma FirstCounts(comments: seq<Comment>, body: string)
    ensures var i := FirstWith(comments, body);
            if i == |comments| then Count(comments, body) == 0
            else Carrying(comments, body, true) == [comments[i]] + Carrying(comments[i + 1..], body, true)
                 && Carrying(Without(comments, i), body, true) == Carrying(comments[i + 1..], body, true)
  {
    var i := FirstWith(comments, body);
    if i == |comments| {
      NoneBefore(comments, body);
    } else {
      NoneBefore(comments[..i], body);
      SplitAt(comments, i, body, true);
      CarryingOne(comments[i], body, true);
    }
  }

  /** How many answers an update leaves, whatever fails. */
  lemma UpdateCounts(comments: seq<Comment>, body: string, now: int, calls: Calls)
    ensures var i := FirstWith(comments, body);
            var there := calls.list.Done? && i < |comments| && !Stale(comments[i], now);
            var removed := calls.list.Done? && i < |comments| && Stale(comments[i], now) && !calls.delete.Rejected?;
            Count(Updated(comments, body, now, calls), body) ==
            Count(comments, body) - (if removed then 1 else 0) + (if there || calls.create.Rejected? then 0 else 1)
  {
    FirstCounts(comments, body);
    var (rest, there) := Checked(comments, body, now, calls);
    CarryingJoin(rest, [Comment(body, now)], body, true);
    CarryingOne(Comment(body, now), body, true);
  }

  /** From at most one answer an update gets to more than one in exactly these cases: it posts although one is
      still there, because the list could not be read or the stale one could not be deleted. */
  lemma AtMostOneIff(comments: seq<Comment>, body: string, now: int, calls: Calls)
    requires Count(comments, body) <= 1
    ensures var i := FirstWith(comments, body);
            Count(Updated(comments, body, now, calls), body) <= 1 <==>
            (i == |comments| || calls.create.Rejected?
             || (calls.list.Done? && (Stale(comments[i], now) ==> !calls.delete.Rejected?)))
  {
    UpdateCounts(comments, body, now, calls);
    FirstCounts(comments, body);
  }

  // ---------------------------------------------------------------- any sequence of updates

  datatype Update = Update(body: string, now: int, calls: Calls)

  function AfterAll(comments: seq<Comment>, updates: seq<Update>): seq<Comment> {
    if updates == [] then comments
    else var u := updates[|updates| - 1];
         Updated(AfterAll(comments, updates[..|updates| - 1]), u.body, u.now, u.calls)
  }

  predicate Written(comments: seq<Comment>, t: int) { forall c | c in comments :: c.createdAt <= t }

  /** No call fails, and the clock does not go back, not even before the comments that are already there. */
  predicate Orderly(comments: seq<Comment>, updates: seq<Update>) {
    && (forall i | 0 <= i < |updates| :: AllFine(updates[i].calls) && Written(comments, updates[i].now))
    && (forall i, j | 0 <= i < j < |updates| :: updates[i].now <= updates[j].now)
  }

  lemma UpdateWritten(comments: seq<Comment>, body: string, now: int, calls: Calls)
    requires Written(comments, now)
    ensures Written(Updated(comments, body, now, calls), now)
  {
  }

  lemma {:induction false} AllWritten(comments: seq<Comment>, updates: seq<Update>, t: int)
    requires Orderly(comments, updates) && Written(comments, t)
    requires forall i | 0 <= i < |updates| :: updates[i].now <= t
    ensures Written(AfterAll(comments, updates), t)
  {
    if updates != [] {
      var front, u := updates[..|updates| - 1], updates[|updates| - 1];
      AllWritten(comments, front, u.now);
      UpdateWritten(AfterAll(comments, front), u.body, u.now, u.calls);
    }
  }

  /** Over any orderly sequence of updates, with whatever messages: a message that was there at most once is never
      there twice, and what the pull request says otherwise does not change. */
  lemma {:induction false} NeverTwice(comments: seq<Comment>, updates: seq<Update>, body: string)
    requires Orderly(comments, updates) && Count(comments, body) <= 1
    ensures Count(AfterAll(comments, updates), body) <= 1
    ensures (forall i | 0 <= i < |updates| :: updates[i].body == body) ==>
              Carrying(AfterAll(comments, updates), body, false) == Carrying(comments, body, false)
  {
    if updates != [] {
      var front, u := updates[..|updates| - 1], updates[|updates| - 1];
      NeverTwice(comments, front, body);
      var before := AfterAll(comments, front);
      OthersStay(before, u.body, u.now, u.calls);
      if u.body == body { AtMostOneIff(before, body, u.now, u.calls); }
    }
  }

  /** Right after an update its message is there exactly once, and at most a day old. */
  lemma ExactlyOneFresh(comments: seq<Comment>, updates: seq<Update>)
    requires Orderly(comments, updates) && updates != []
    requires Count(comments, updates[|updates| - 1].body) <= 1
    ensures var u := updates[|updates| - 1]; var answers := Carrying(AfterAll(comments, updates), u.body, true);
            |answers| == 1 && 0 <= u.now - answers[0].createdAt <= DAY
  {
    var front, u := updates[..|updates| - 1], updates[|updates| - 1];
    NeverTwice(comments, front, u.body);
    AllWritten(comments, front, u.now);
    LeavesOneFresh(AfterAll(comments, front), u.body, u.now, u.calls);
  }

  lemma LeavesOneFresh(comments: seq<Comment>, body: string, now: int, calls: Calls)
    requires Count(comments, body) <= 1 && Written(comments, now) && AllFine(calls)
    ensures var answers := Carrying(Updated(comments, body, now, calls), body, true);
            |answers| == 1 && 0 <= now - answers[0].createdAt <= DAY
  {
    FirstCounts(comments, body);
    var i := FirstWith(comments, body);
    var (rest, there) := Checked(comments, body, now, calls);
    CarryingJoin(rest, [Comment(body, now)], body, true);
    CarryingOne(Comment(body, now), body, true);
  }
}

/** What it means to keep some elements of a list in order, stated by positions and without saying how it is done. */
module Selections {

  predicate Increasing(at: seq<nat>) { forall i, j | 0 <= i < j < |at| :: at[i] < at[j] }

  /** The kept elements stand at these positions of the list, in this order. */
  predicate TakenAt<T(==)>(all: seq<T>, kept: seq<T>, at: seq<nat>) {
    && |at| == |kept| && Increasing(at)
    && forall i | 0 <= i < |at| :: at[i] < |all| && kept[i] == all[at[i]]
  }

  /** One more element at the end of the list, kept or not. */
  lemma TakeOne<T>(all: seq<T>, kept: seq<T>, at: seq<nat>, x: T)
    requires TakenAt(all, kept, at)
    ensures TakenAt(all + [x], kept, at) && TakenAt(all + [x], kept + [x], at + [|all|])
    ensures |all| !in at && |all| in at + [|all|] && forall j | 0 <= j < |all| :: j in at <==> j in at + [|all|]
  {
    var longer := at + [|all|];
    assert longer[|at|] == |all|;
    forall j | 0 <= j < |all| ensures j in at <==> j in longer { }
  }

  lemma HasFirst(b: seq<nat>)
    ensures b != [] ==> exists j: nat :: j in b
  {
    if b != [] { assert b[0] in b; }
  }

  /** Increasing positions are determined by which they are. */
  lemma {:induction false} PositionsUnique(a: seq<nat>, b: seq<nat>)
    requires Increasing(a) && Increasing(b) && forall j: nat :: j in a <==> j in b
    ensures a == b
    decreases |a|
  {
    if a == [] {
      HasFirst(b);
    } else {
      assert b != [] by { assert a[0] in b; }
      var x, y := a[|a| - 1], b[|b| - 1];
      assert x in b && y in a;
      var front, back := a[..|a| - 1], b[..|b| - 1];
      forall j: nat ensures j in front <==> j in back {
        DropLast(a, j);
        DropLast(b, j);
      }
      PositionsUnique(front, back);
      assert a == front + [x] && b == back + [y];
    }
  }

  lemma DropLast(a: seq<nat>, j: nat)
    requires a != [] && Increasing(a)
    ensures j in a[..|a| - 1] <==> j in a && j != a[|a| - 1]
  {
  }

  /** So which positions are kept determines the result, its order included. */
  lemma SelectionUnique<T>(all: seq<T>, kept: seq<T>, at: seq<nat>, other: seq<T>, at': seq<nat>)
    requires TakenAt(all, kept, at) && TakenAt(all, other, at')
    requires forall j | 0 <= j < |all| :: j in at <==> j in at'
    ensures kept == other
  {
    forall j: nat ensures j in at <==> j in at' { }
    PositionsUnique(at, at');
  }
}

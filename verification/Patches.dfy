/**
 * The patch table: talkgroups cross-connected into one channel, and the
 * fixpoint that finds everything joined to a route.
 */
module Patches {
  import opened Types

  type Table = seq<seq<Id>>

  predicate Touches(patch: seq<Id>, out: seq<Id>) {
    exists t :: t in patch && t in out
  }

  // -- What a group is ------------------------------------------------------

  ghost predicate ClosedUnder(patch: seq<Id>, group: set<Id>) {
    (exists t :: t in patch && t in group) ==> forall t :: t in patch ==> t in group
  }

  ghost predicate Closed(table: Table, group: set<Id>) {
    forall patch :: patch in table ==> ClosedUnder(patch, group)
  }

  /** The least set containing `tg` that no patch leads out of. */
  ghost predicate IsGroup(table: Table, tg: Id, group: set<Id>) {
    && tg in group
    && Closed(table, group)
    && forall other: set<Id> :: tg in other && Closed(table, other) ==> group <= other
  }

  // -- How the router finds it ----------------------------------------------

  /** Pushes every id of `patch` not already there. */
  function AddAll(out: seq<Id>, patch: seq<Id>): (r: seq<Id>)
    ensures out <= r
    ensures forall t :: t in r <==> t in out || t in patch
    ensures NoDuplicates(out) ==> NoDuplicates(r)
    ensures r == out <==> forall t :: t in patch ==> t in out
  {
    if patch == [] then out
    else
      var front := AddAll(out, patch[..|patch| - 1]);
      var last := patch[|patch| - 1];
      assert patch == patch[..|patch| - 1] + [last];
      if last in front then front else front + [last]
  }

  /** One pass over the whole table. */
  function Sweep(table: Table, out: seq<Id>): (r: seq<Id>)
    ensures out <= r
    ensures NoDuplicates(out) ==> NoDuplicates(r)
    ensures forall t :: t in r ==> t in out || t in Mentioned(table)
  {
    if table == [] then out
    else
      var front := Sweep(table[..|table| - 1], out);
      var last := table[|table| - 1];
      assert table == table[..|table| - 1] + [last];
      if Touches(last, front) then AddAll(front, last) else front
  }

  /** Every id named by any patch. */
  ghost function Mentioned(table: Table): set<Id> {
    set i, j | 0 <= i < |table| && 0 <= j < |table[i]| :: table[i][j]
  }

  ghost function Elements(s: seq<Id>): set<Id> {
    set t | t in s
  }

  /** Sweeps until nothing grows. */
  function Grow(table: Table, out: seq<Id>): (r: seq<Id>)
    requires NoDuplicates(out)
    ensures out <= r && NoDuplicates(r) && Sweep(table, r) == r
    decreases Mentioned(table) - Elements(out)
  {
    var next := Sweep(table, out);
    if next == out then out
    else
      assert next[|out|] in Mentioned(table) - Elements(out) by {
        assert next[|out|] in next;
      }
      Grow(table, next)
  }

  /** Every talkgroup joined to this one, itself first. */
  function Joined(table: Table, tg: Id): (r: seq<Id>)
    ensures |r| > 0 && r[0] == tg && NoDuplicates(r)
  {
    Grow(table, [tg])
  }

  // -- Why that is right ----------------------------------------------------

  lemma {:induction false} StableSweepIsClosed(table: Table, out: seq<Id>)
    requires Sweep(table, out) == out
    ensures Closed(table, Elements(out))
  {
    if table == [] {
    } else {
      var init, last := table[..|table| - 1], table[|table| - 1];
      assert table == init + [last];
      assert Sweep(init, out) == out by {
        assert out <= Sweep(init, out) <= Sweep(table, out);
      }
      StableSweepIsClosed(init, out);
      assert Touches(last, out) ==> AddAll(out, last) == out;
      assert ClosedUnder(last, Elements(out));
    }
  }

  lemma {:induction false} SweepStaysInside(table: Table, out: seq<Id>, other: set<Id>)
    requires Closed(table, other) && Elements(out) <= other
    ensures Elements(Sweep(table, out)) <= other
  {
    if table == [] {
    } else {
      var init, last := table[..|table| - 1], table[|table| - 1];
      assert forall patch :: patch in init ==> patch in table;
      SweepStaysInside(init, out, other);
      assert last in table && ClosedUnder(last, other);
      var front := Sweep(init, out);
      if Touches(last, front) {
        var t :| t in last && t in front;
        assert t in Elements(front);
      }
    }
  }

  lemma {:induction false} GrowStaysInside(table: Table, out: seq<Id>, other: set<Id>)
    requires NoDuplicates(out)
    requires Closed(table, other) && Elements(out) <= other
    ensures Elements(Grow(table, out)) <= other
    decreases Mentioned(table) - Elements(out)
  {
    var next := Sweep(table, out);
    SweepStaysInside(table, out, other);
    if next != out {
      assert next[|out|] in Mentioned(table) - Elements(out) by {
        assert next[|out|] in next;
      }
      GrowStaysInside(table, next, other);
    }
  }

  /** The fixpoint is exactly the least closed set, whatever overlaps the table has. */
  lemma JoinedIsTheGroup(table: Table, tg: Id)
    ensures IsGroup(table, tg, Elements(Joined(table, tg)))
  {
    var r := Joined(table, tg);
    StableSweepIsClosed(table, r);
    assert r[0] in r;
    forall other: set<Id> | tg in other && Closed(table, other)
      ensures Elements(r) <= other
    {
      GrowStaysInside(table, [tg], other);
    }
  }

  /** In the same group is an equivalence: everything joined to `tg` sees the same group. */
  lemma SameGroup(table: Table, tg: Id, t: Id)
    requires t in Joined(table, tg)
    ensures Elements(Joined(table, t)) == Elements(Joined(table, tg))
  {
    var here, there := Elements(Joined(table, tg)), Elements(Joined(table, t));
    JoinedIsTheGroup(table, tg);
    JoinedIsTheGroup(table, t);
    assert t in here;
    assert there <= here;
    if tg !in there {
      var rest := here - there;
      forall patch | patch in table
        ensures ClosedUnder(patch, rest)
      {
        assert ClosedUnder(patch, here) && ClosedUnder(patch, there);
      }
      assert Closed(table, rest);
      assert false;
    }
  }

  /** Reflexive and symmetric too, stated on membership. */
  lemma JoinedIsAnEquivalence(table: Table, a: Id, b: Id, c: Id)
    ensures a in Joined(table, a)
    ensures b in Joined(table, a) <==> a in Joined(table, b)
    ensures b in Joined(table, a) && c in Joined(table, b) ==> c in Joined(table, a)
  {
    assert forall x :: Joined(table, x)[0] == x;
    if b in Joined(table, a) {
      SameGroup(table, a, b);
      assert a in Elements(Joined(table, b));
      assert c in Elements(Joined(table, a)) <==> c in Elements(Joined(table, b));
    }
    if a in Joined(table, b) {
      SameGroup(table, b, a);
      assert b in Elements(Joined(table, a));
    }
  }
}

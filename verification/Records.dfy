/**
 * What a key took is what its release gives back: no route stays keyed by a
 * client that has let go of everything it pressed.
 */
module Records {
  import opened Types
  import opened Patches
  import opened Routing
  import opened Steps
  import opened Holding

  /** Some open record of `c` names this route. */
  ghost predicate Recorded(s: State, c: ClientId, t: Id) {
    exists p :: (c, p) in s.took && t in s.took[(c, p)]
  }

  /** Every route `c` transmits on is one a release of something it pressed gives back. */
  ghost predicate Covered(s: State, c: ClientId) {
    forall t :: Holds(s, t, c) ==> Recorded(s, c, t)
  }

  /** Named by an open record of some press other than `tg`. */
  ghost predicate RecordedElsewhere(s: State, c: ClientId, tg: Id, t: Id) {
    exists p :: p != tg && (c, p) in s.took && t in s.took[(c, p)]
  }

  /** The record a re-key of `tg` is about to overwrite names no route the client
      still holds that the new record will not name. */
  ghost predicate SafeToRekey(s: State, tg: Id, c: ClientId) {
    forall t :: (c, tg) in s.took && t in s.took[(c, tg)] && Holds(s, t, c) ==>
      t in Group(s, tg) || RecordedElsewhere(s, c, tg, t)
  }

  lemma KeyRecords(s: State, tg: Id, c: ClientId, now: Instant, t: Id)
    requires KeyOneResult(s, tg, c, now).Success?
    ensures Recorded(Key(s, tg, c, now), c, t) <==> t in Group(s, tg) || RecordedElsewhere(s, c, tg, t)
  {
    hide Key;
    hide Joined;
    hide Answer;
    KeyAcceptedIs(s, tg, c, now);
    var s' := Key(s, tg, c, now);
    assert (c, tg) in s'.took && s'.took[(c, tg)] == Group(s, tg);
    if RecordedElsewhere(s, c, tg, t) {
      var p :| p != tg && (c, p) in s.took && t in s.took[(c, p)];
      assert (c, p) in s'.took && t in s'.took[(c, p)];
    }
    if Recorded(s', c, t) {
      var p :| (c, p) in s'.took && t in s'.took[(c, p)];
    }
  }

  /** A key keeps every route of its client covered exactly when it is refused or
      does not overwrite a record the client still needs. */
  lemma KeyKeepsCoveredIff(s: State, tg: Id, c: ClientId, now: Instant)
    requires Covered(s, c)
    ensures Covered(Key(s, tg, c, now), c) <==>
            KeyOneResult(s, tg, c, now).Failure? || SafeToRekey(s, tg, c)
  {
    hide Key;
    hide Joined;
    hide Answer;
    hide Holds;
    hide Recorded;
    hide RecordedElsewhere;
    var s' := Key(s, tg, c, now);
    if KeyOneResult(s, tg, c, now).Failure? {
      KeyRefusedIs(s, tg, c, now);
      RefusedKeepsCovered(s, s', c);
    } else {
      forall t
        ensures Recorded(s', c, t) <==> t in Group(s, tg) || RecordedElsewhere(s, c, tg, t)
        ensures Holds(s, t, c) ==> Holds(s', t, c)
        ensures Holds(s', t, c) ==> Holds(s, t, c) || t in Group(s, tg)
        ensures Recorded(s, c, t) ==> RecordedElsewhere(s, c, tg, t) || ((c, tg) in s.took && t in s.took[(c, tg)])
      {
        KeyRecords(s, tg, c, now, t);
        KeyHolds(s, tg, c, now, t, c);
        RecordedSplits(s, tg, c, t);
      }
    }
  }

  lemma RecordedSplits(s: State, tg: Id, c: ClientId, t: Id)
    ensures Recorded(s, c, t) <==> RecordedElsewhere(s, c, tg, t) || ((c, tg) in s.took && t in s.took[(c, tg)])
  {
  }

  lemma RefusedKeepsCovered(s: State, s': State, c: ClientId)
    requires Covered(s, c) && s'.routes == s.routes && s'.took == s.took
    ensures Covered(s', c)
  {
    forall t | Holds(s', t, c) ensures Recorded(s', c, t) {
      assert Holds(s, t, c);
      var p :| (c, p) in s.took && t in s.took[(c, p)];
      assert (c, p) in s'.took && t in s'.took[(c, p)];
    }
  }

  // -- Steps that are not this client's own key -----------------------------

  predicate OwnKey(op: Op, c: ClientId) {
    op.KeyOp? && op.client == c
  }

  lemma CoveredFrom(s: State, s': State, c: ClientId)
    requires Covered(s, c)
    requires forall t :: Holds(s', t, c) ==> Holds(s, t, c)
    requires forall t, p :: Holds(s', t, c) && (c, p) in s.took && t in s.took[(c, p)] ==>
               (c, p) in s'.took && s'.took[(c, p)] == s.took[(c, p)]
    ensures Covered(s', c)
  {
    hide Holds;
    forall t | Holds(s', t, c) ensures Recorded(s', c, t) {
      assert Recorded(s, c, t);
      var p :| (c, p) in s.took && t in s.took[(c, p)];
      assert (c, p) in s'.took && t in s'.took[(c, p)];
    }
  }

  /** What a step leaves of the records of a client whose key it is not. */
  lemma RecordsAfter(s: State, op: Op, c: ClientId, p: Id)
    requires !OwnKey(op, c)
    ensures var s' := Apply(s, op);
            && ((c, p) in s'.took ==> (c, p) in s.took && s'.took[(c, p)] == s.took[(c, p)] && op != UnkeyAsOp(p, c))
            && ((c, p) in s.took && (c, p) !in s'.took ==>
                  op == UnkeyAsOp(p, c) || forall t :: !Holds(s', t, c))
  {
    hide Key;
    hide UnkeyAs;
    hide Unkey;
    hide Depart;
    hide Holds;
    hide Joined;
    match op
    case KeyOp(tg, client, now) =>
      if KeyOneResult(s, tg, client, now).Failure? {
        KeyRefusedIs(s, tg, client, now);
      } else {
        KeyAcceptedIs(s, tg, client, now);
      }
    case UnkeyAsOp(tg, client) => UnkeyAsIs(s, tg, client);
    case UnkeyOp(tg) => UnkeyIs(s, tg);
    case ForgetClientOp(client) => DepartRecords(s, One(client), true, c, p);
    case UnbindOp(session) =>
      if session in s.sessionToClient {
        var client := s.sessionToClient[session];
        DepartRecords(LoseSession(s, session, client), One(client), false, c, p);
      }
    case DropServerOp(server) => DepartRecords(LoseSessionsOf(s, server), Server(server), false, c, p);
    case _ =>
  }

  lemma DepartRecords(s: State, who: Departing, parkedToo: bool, c: ClientId, p: Id)
    ensures var s' := Depart(s, who, parkedToo);
            if who.Leaves(c) then (c, p) !in s'.took && forall t :: !Holds(s', t, c)
            else ((c, p) in s'.took <==> (c, p) in s.took) && ((c, p) in s.took ==> s'.took[(c, p)] == s.took[(c, p)])
  {
    forall t ensures who.Leaves(c) ==> !Holds(Depart(s, who, parkedToo), t, c) {
      DepartHolds(s, who, parkedToo, t, c);
    }
  }

  lemma ApplyRelease(s: State, p: Id, c: ClientId)
    ensures Apply(s, UnkeyAsOp(p, c)) == UnkeyAs(s, p, c)
  {
  }

  lemma ApplyKeepsCovered(s: State, op: Op, c: ClientId)
    requires Covered(s, c) && !OwnKey(op, c)
    ensures Covered(Apply(s, op), c)
  {
    hide Apply;
    var s' := Apply(s, op);
    forall t | Holds(s', t, c) ensures Holds(s, t, c) {
      if !Holds(s, t, c) {
        OnlyKeysGrant(s, op, t, c);
      }
    }
    forall t, p | Holds(s', t, c) && (c, p) in s.took && t in s.took[(c, p)]
      ensures (c, p) in s'.took && s'.took[(c, p)] == s.took[(c, p)]
    {
      RecordsAfter(s, op, c, p);
      if op == UnkeyAsOp(p, c) {
        ReleaseIsScoped(s, p, c, t, c);
        ApplyRelease(s, p, c);
      }
    }
    CoveredFrom(s, s', c);
  }

  lemma ApplyKey(s: State, op: Op)
    requires op.KeyOp?
    ensures Apply(s, op) == Key(s, op.tg, op.client, op.now)
  {
  }

  // -- Whole runs -----------------------------------------------------------

  ghost predicate RekeysSafelyAt(s: State, op: Op, c: ClientId)
    requires OwnKey(op, c)
  {
    KeyOneResult(s, op.tg, c, op.now).Success? ==> SafeToRekey(s, op.tg, c)
  }

  /** This client never re-keys a route whose open record it still needs. */
  ghost predicate RekeysSafely(s: State, ops: seq<Op>, c: ClientId) {
    forall i :: 0 <= i < |ops| && OwnKey(ops[i], c) ==> RekeysSafelyAt(Run(s, ops[..i]), ops[i], c)
  }

  /** No stranded keys, in every run of everybody's operations. */
  lemma {:induction false} NoStrandedKeys(s: State, ops: seq<Op>, c: ClientId)
    requires Covered(s, c) && RekeysSafely(s, ops, c)
    ensures Covered(Run(s, ops), c)
  {
    hide Apply;
    hide Covered;
    hide SafeToRekey;
    if ops != [] {
      var n := |ops| - 1;
      var before, op := ops[..n], ops[n];
      forall i | 0 <= i < n && OwnKey(before[i], c) ensures RekeysSafelyAt(Run(s, before[..i]), before[i], c) {
        assert before[..i] == ops[..i];
        assert OwnKey(ops[i], c);
      }
      NoStrandedKeys(s, before, c);
      if OwnKey(op, c) {
        ApplyKey(Run(s, before), op);
        KeyKeepsCoveredIff(Run(s, before), op.tg, c, op.now);
      } else {
        ApplyKeepsCovered(Run(s, before), op, c);
      }
    }
  }

  lemma {:induction false} RecordsAfterRun(s: State, ops: seq<Op>, c: ClientId, p: Id)
    requires forall op :: op in ops ==> !OwnKey(op, c)
    requires (c, p) in Run(s, ops).took
    ensures (c, p) in s.took && UnkeyAsOp(p, c) !in ops
  {
    hide Apply;
    if ops != [] {
      var before, op := ops[..|ops| - 1], ops[|ops| - 1];
      assert ops == before + [op];
      assert forall o :: o in before ==> o in ops;
      RecordsAfter(Run(s, before), op, c, p);
      RecordsAfterRun(s, before, c, p);
    }
  }

  /** A client that lets go of everything it pressed transmits nowhere, whatever
      anybody else did to the patch table or the routes in between. */
  lemma ReleasingEverythingFreesEverything(s: State, ops: seq<Op>, c: ClientId, t: Id)
    requires Covered(s, c)
    requires forall op :: op in ops ==> !OwnKey(op, c)
    requires forall p :: (c, p) in s.took ==> UnkeyAsOp(p, c) in ops
    ensures !Holds(Run(s, ops), t, c)
  {
    hide Apply;
    hide Holds;
    assert RekeysSafely(s, ops, c);
    NoStrandedKeys(s, ops, c);
    if Holds(Run(s, ops), t, c) {
      assert Recorded(Run(s, ops), c, t);
      var p :| (c, p) in Run(s, ops).took && t in Run(s, ops).took[(c, p)];
      RecordsAfterRun(s, ops, c, p);
    }
  }

  // -- Without cover, something survives ------------------------------------

  /** Each press let go of, once. */
  function Releases(ps: seq<Id>, c: ClientId): seq<Op> {
    if ps == [] then [] else Releases(ps[..|ps| - 1], c) + [UnkeyAsOp(ps[|ps| - 1], c)]
  }

  lemma {:induction false} ReleasesAre(ps: seq<Id>, c: ClientId)
    ensures forall op :: op in Releases(ps, c) <==> op.UnkeyAsOp? && op.client == c && op.tg in ps
  {
    if ps != [] {
      ReleasesAre(ps[..|ps| - 1], c);
      assert ps == ps[..|ps| - 1] + [ps[|ps| - 1]];
    }
  }

  /** Releasing the recorded presses gives back only what their records name. */
  lemma {:induction false} UnrecordedSurvives(s: State, ps: seq<Id>, c: ClientId, t: Id)
    requires NoDuplicates(ps) && Holds(s, t, c)
    requires forall p :: p in ps ==> (c, p) in s.took && t !in s.took[(c, p)]
    ensures var s' := Run(s, Releases(ps, c));
            && Holds(s', t, c)
            && forall p :: (c, p) in s.took && p !in ps ==> (c, p) in s'.took && s'.took[(c, p)] == s.took[(c, p)]
  {
    hide Apply;
    hide Holds;
    if ps != [] {
      var init, last := ps[..|ps| - 1], ps[|ps| - 1];
      assert ps == init + [last];
      UnrecordedSurvives(s, init, c, t);
      var s1 := Run(s, Releases(init, c));
      RunThen(s, Releases(init, c), UnkeyAsOp(last, c));
      ApplyRelease(s1, last, c);
      ReleaseIsScoped(s1, last, c, t, c);
      forall p | (c, p) in s.took && p !in ps
        ensures (c, p) in UnkeyAs(s1, last, c).took && UnkeyAs(s1, last, c).took[(c, p)] == s.took[(c, p)]
      {
        UnkeyAsIs(s1, last, c);
      }
    }
  }

  /** Letting go of every press once leaves a client transmitting nowhere exactly
      when its records covered what it held. */
  lemma ReleasingOnceFreesIffCovered(s: State, ps: seq<Id>, c: ClientId)
    requires NoDuplicates(ps) && forall p :: p in ps <==> (c, p) in s.took
    ensures (forall t :: !Holds(Run(s, Releases(ps, c)), t, c)) <==> Covered(s, c)
  {
    hide Holds;
    hide Run;
    ReleasesAre(ps, c);
    if Covered(s, c) {
      forall t ensures !Holds(Run(s, Releases(ps, c)), t, c) {
        ReleasingEverythingFreesEverything(s, Releases(ps, c), c, t);
      }
    } else {
      var t :| Holds(s, t, c) && !Recorded(s, c, t);
      UnrecordedSurvives(s, ps, c, t);
    }
  }

  // -- The run the condition rules out --------------------------------------

  /** Two open talkgroups, with or without a patch between them, as `c` holds them. */
  function TwoRoutes(c: ClientId, keyed1: bool, keyed2: bool): map<Id, Route> {
    map[1 := FRESH_ROUTE.(keyed := if keyed1 then Some(c) else None),
        2 := FRESH_ROUTE.(keyed := if keyed2 then Some(c) else None)]
  }

  lemma JoinedPair()
    ensures Joined([[1, 2]], 1) == [1, 2]
    ensures forall t: Id :: Joined([], t) == [t]
  {
    var table: Table := [[1, 2]];
    assert table[..0] == [];
    var patch: seq<Id> := [1, 2];
    assert patch[..1] == [1] && patch[..1][..0] == [];
    assert AddAll([1], [1]) == [1];
    assert Touches(patch, [1]);
    assert Sweep(table, [1]) == [1, 2];
    assert Sweep(table, [1, 2]) == [1, 2];
    assert Grow(table, [1]) == Grow(table, [1, 2]);
  }

  function OpenedPair(): seq<Op> {
    [] + [OpenOp(1, false)] + [OpenOp(2, false)]
  }

  lemma OpenedPairLeaves(c: ClientId)
    ensures Run(INIT, OpenedPair()) == INIT.(routes := TwoRoutes(c, false, false))
  {
    hide Joined;
    assert Run(INIT, []) == INIT;
    hide Run;
    var a := [] + [OpenOp(1, false)];
    RunThen(INIT, [], OpenOp(1, false));
    RunThen(INIT, a, OpenOp(2, false));
    assert Run(INIT, a).routes == map[1 := FRESH_ROUTE];
  }

  /** Both talkgroups opened and patched, pressed, unpatched. */
  function PressedAcrossAnUnpatch(c: ClientId, now: Instant): seq<Op> {
    OpenedPair() + [SetPatchesOp([[1, 2]])] + [KeyOp(1, c, now)] + [SetPatchesOp([])]
  }

  lemma PressedAcrossAnUnpatchLeaves(c: ClientId, now: Instant)
    ensures var s := Run(INIT, PressedAcrossAnUnpatch(c, now));
            s.routes == TwoRoutes(c, true, true) && s.patches == [] && s.took == map[(c, 1) := [1, 2]]
  {
    hide Joined;
    hide Key;
    hide Run;
    hide OpenedPair;
    var patched := OpenedPair() + [SetPatchesOp([[1, 2]])];
    OpenedPairLeaves(c);
    RunThen(INIT, OpenedPair(), SetPatchesOp([[1, 2]]));
    RunThen(INIT, patched, KeyOp(1, c, now));
    RunThen(INIT, patched + [KeyOp(1, c, now)], SetPatchesOp([]));
    PressBoth(c, now);
  }

  /** The same press again after the patch came down: the record of the second route
      is overwritten, the release gives back only the first, and no record is left. */
  lemma RekeyAfterUnpatchStrands(c: ClientId, now: Instant)
    ensures var ops := PressedAcrossAnUnpatch(c, now);
            var s1 := Run(INIT, ops);
            var s3 := Run(INIT, ops + [KeyOp(1, c, now)] + [UnkeyAsOp(1, c)]);
            && Covered(s1, c) && KeyOneResult(s1, 1, c, now) == Success(Granted) && !SafeToRekey(s1, 1, c)
            && Holds(s3, 2, c) && s3.took == map[]
  {
    hide Joined;
    hide Answer;
    hide Key;
    hide UnkeyAs;
    hide Run;
    hide PressedAcrossAnUnpatch;
    var ops := PressedAcrossAnUnpatch(c, now);
    RunThen(INIT, ops, KeyOp(1, c, now));
    RunThen(INIT, ops + [KeyOp(1, c, now)], UnkeyAsOp(1, c));
    PressedAcrossAnUnpatchLeaves(c, now);
    var s1 := Run(INIT, ops);
    assert forall t :: Holds(s1, t, c) ==> t in s1.took[(c, 1)];
    PressAgain(s1, c, now);
    ReleaseOne(Key(s1, 1, c, now), c);
    PairApart(s1);
  }

  lemma PairApart(s: State)
    requires s.patches == []
    ensures 2 !in Group(s, 1)
  {
    JoinedPair();
  }

  lemma ReleaseOne(s: State, c: ClientId)
    requires s.routes == TwoRoutes(c, true, true) && s.took == map[(c, 1) := [1]]
    ensures Holds(UnkeyAs(s, 1, c), 2, c) && UnkeyAs(s, 1, c).took == map[]
  {
    hide UnkeyAs;
    ReleaseIsScoped(s, 1, c, 2, c);
    UnkeyAsIs(s, 1, c);
  }

  lemma PressAlone(s: State, c: ClientId, now: Instant, t: Id)
    requires s.patches == [] && t in s.routes && s.routes[t] == FRESH_ROUTE
    ensures var s' := Key(s, t, c, now);
            && s'.routes == s.routes[t := FRESH_ROUTE.(keyed := Some(c))] && s'.patches == s.patches && s'.told == s.told
            && s'.keyedBy == s.keyedBy[c := t] && s'.took == s.took[(c, t) := [t]]
  {
    JoinedPair();
    hide Joined;
    hide Key;
    KeyAcceptedIs(s, t, c, now);
    assert Key(s, t, c, now).routes.Keys == s.routes.Keys;
  }

  lemma PressBoth(c: ClientId, now: Instant)
    ensures var s0 := INIT.(routes := TwoRoutes(c, false, false), patches := [[1, 2]]);
            var s1 := Key(s0, 1, c, now);
            s1.took == map[(c, 1) := [1, 2]] && s1.routes == TwoRoutes(c, true, true)
  {
    JoinedPair();
    hide Joined;
    hide Key;
    var s0 := INIT.(routes := TwoRoutes(c, false, false), patches := [[1, 2]]);
    KeyAcceptedIs(s0, 1, c, now);
    var s1 := Key(s0, 1, c, now);
    assert s1.routes.Keys == {1, 2};
    assert 1 in s0.routes && 2 in s0.routes && 2 in Group(s0, 1);
  }

  lemma PressAgain(s: State, c: ClientId, now: Instant)
    requires s.routes == TwoRoutes(c, true, true) && s.patches == [] && s.took == map[(c, 1) := [1, 2]]
    ensures KeyOneResult(s, 1, c, now) == Success(Granted)
    ensures Key(s, 1, c, now).took == map[(c, 1) := [1]] && Key(s, 1, c, now).routes == s.routes
  {
    JoinedPair();
    hide Joined;
    hide Key;
    assert 1 in s.routes;
    KeyAcceptedIs(s, 1, c, now);
    var s' := Key(s, 1, c, now);
    assert s'.routes.Keys == {1, 2};
    assert s'.routes == s.routes;
  }
}

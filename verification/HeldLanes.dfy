/**
 * The other half of lane hysteresis: what it holds back. While anybody transmits, one
 * lane of jitter moves no listener; anything more moves them at once.
 */
module HeldLanes {
  import opened Types
  import opened Lanes
  import opened Patches
  import opened Routing
  import opened Steps
  import opened Holding
  import opened Audience
  import opened QuietChannels

  // -- Lanes, in numbers ----------------------------------------------------

  /** The nearest multiple of five, silence at five and under, nothing over a hundred. */
  lemma LaneIsNearest(q: Quality)
    ensures q <= 5 ==> LaneOf(q) == 0
    ensures 5 < q <= 100 ==> LaneOf(q) % 5 == 0 && -2 <= LaneOf(q) - q <= 2
    ensures q >= 100 ==> LaneOf(q) == 100
  {
  }

  /** Nothing decodes on a link under eight. */
  lemma MutedUnderEight(q: Quality)
    ensures Muted(LaneOf(q)) <==> q < 8
  {
  }

  /** Five apart, and both silent or both not. */
  predicate OneLaneApart(a: Quality, b: Quality) {
    (LaneOf(a) == LaneOf(b) + 5 || LaneOf(b) == LaneOf(a) + 5) && (a < 8 <==> b < 8)
  }

  lemma JitterIsOneLane(a: Quality, b: Quality)
    ensures JittersOneLane(a, b) <==> OneLaneApart(a, b)
  {
    MutedUnderEight(a);
    MutedUnderEight(b);
  }

  // -- One update -----------------------------------------------------------

  /** Somebody transmits in this route's group. */
  ghost predicate InUse(s: State, t: Id) {
    exists u, x :: u in Group(s, t) && Holds(s, u, x)
  }

  lemma InUseIsNotClear(s: State, t: Id)
    ensures InUse(s, t) <==> !IsClear(s, t)
  {
    hide Joined;
    hide IsClear;
    ClearMeansNobodyTalks(s, t);
    if InUse(s, t) {
      var u, x :| u in Group(s, t) && Holds(s, u, x);
      assert TalksIn(s, t, x);
    }
  }

  /** What the node does with a quality it is told: keeps the stored one and parks the
      new one if and only if the channel is in use, on a route of any kind, and the two
      are one lane apart; otherwise stores it at once, with nothing parked. */
  lemma UpdateIsHeldIff(s: State, tg: Id, c: ClientId, listen: bool, quality: Quality)
    requires tg in s.routes && c in s.routes[tg].members
    ensures var s' := SetMember(s, tg, c, listen, quality);
            var was := s.routes[tg].members[c].quality;
            var held := InUse(s, tg) && OneLaneApart(was, quality);
            && tg in s'.routes && c in s'.routes[tg].members
            && s'.routes[tg].members[c] == Member(listen, if held then was else quality)
            && (c in s'.routes[tg].deferred <==> held)
            && (held ==> s'.routes[tg].deferred[c] == quality)
  {
    hide Joined;
    InUseIsNotClear(s, tg);
    hide IsClear;
    hide InUse;
    JitterIsOneLane(s.routes[tg].members[c].quality, quality);
  }

  /** Nobody else's membership, and no other route, is touched by it. */
  lemma UpdateIsOwn(s: State, tg: Id, c: ClientId, listen: bool, quality: Quality, t: Id, x: ClientId)
    requires t in s.routes && (t != tg || x != c)
    ensures var s' := SetMember(s, tg, c, listen, quality);
            && t in s'.routes
            && (x in s'.routes[t].members <==> x in s.routes[t].members)
            && (x in s.routes[t].members ==> s'.routes[t].members[x] == s.routes[t].members[x])
            && (x in s'.routes[t].deferred <==> x in s.routes[t].deferred)
            && (x in s.routes[t].deferred ==> s'.routes[t].deferred[x] == s.routes[t].deferred[x])
  {
    hide Joined;
    hide IsClear;
  }

  // -- Every other step -----------------------------------------------------

  ghost predicate IsMember(s: State, t: Id, c: ClientId) {
    t in s.routes && c in s.routes[t].members
  }

  /** Stored as it was, or on a channel that is quiet afterwards what was parked has landed. */
  ghost predicate SameOrLanded(s: State, s': State, t: Id, c: ClientId)
    requires IsMember(s, t, c) && IsMember(s', t, c)
  {
    var was, now := s.routes[t].members[c], s'.routes[t].members[c];
    now == was || (!InUse(s', t) && c in s.routes[t].deferred && now == Member(was.listen, s.routes[t].deferred[c]))
  }

  lemma SettledMember(r: Route, c: ClientId)
    requires c in r.members
    ensures c in Settle(r).members
    ensures Settle(r).members[c] == if c in r.deferred then Member(r.members[c].listen, r.deferred[c]) else r.members[c]
  {
  }

  lemma ReleaseLandsOnlyWhenQuiet(s: State, tg: Id, client: ClientId, t: Id, c: ClientId)
    requires IsMember(s, t, c)
    ensures IsMember(UnkeyAs(s, tg, client), t, c) && SameOrLanded(s, UnkeyAs(s, tg, client), t, c)
  {
    hide Joined;
    hide UnkeyAs;
    hide Settle;
    hide Mine;
    var s1, s' := Release(s, tg, client), UnkeyAs(s, tg, client);
    UnkeyAsIs(s, tg, client);
    SettledMember(s.routes[t], c);
    SettledMember(ReleaseRoute(s.routes[t], client), c);
    if Drained(s1, Mine(s, tg, client), t) {
      var o :| o in Mine(s, tg, client) && IsClear(s1, o) && t in Group(s1, o);
      ClearForAll(s', o, t);
    }
    InUseIsNotClear(s', t);
  }

  lemma TearDownLandsOnlyWhenQuiet(s: State, tg: Id, t: Id, c: ClientId)
    requires IsMember(s, t, c)
    ensures IsMember(Unkey(s, tg), t, c) && SameOrLanded(s, Unkey(s, tg), t, c)
  {
    hide Joined;
    hide Unkey;
    hide Settle;
    var s1, s' := TearDown(s, tg), Unkey(s, tg);
    UnkeyIs(s, tg);
    SettledMember(s.routes[t], c);
    SettledMember(Silenced(s.routes[t]), c);
    if Drained(s1, [tg], t) {
      var o :| o in [tg] && IsClear(s1, o) && t in Group(s1, o);
      assert s1.patches == s'.patches;
      ClearForAll(s', o, t);
    }
    InUseIsNotClear(s', t);
  }

  lemma KeyMovesNobody(s: State, tg: Id, client: ClientId, now: Instant, t: Id)
    requires t in s.routes
    ensures var s' := Key(s, tg, client, now); t in s'.routes && s'.routes[t].members == s.routes[t].members
  {
    hide Joined;
    hide Key;
    hide Answered;
    hide Sibling;
    if KeyOneResult(s, tg, client, now).Failure? {
      KeyRefusedIs(s, tg, client, now);
    } else {
      KeyAcceptedIs(s, tg, client, now);
      KeyingOnlyChangesTalkers(s, tg, client, now, t);
    }
  }

  lemma DepartMovesNobody(s: State, who: Departing, parkedToo: bool, t: Id, c: ClientId)
    requires IsMember(s, t, c) && IsMember(Depart(s, who, parkedToo), t, c)
    ensures Depart(s, who, parkedToo).routes[t].members[c] == s.routes[t].members[c]
  {
  }

  /** No step but an update of that very member moves a listener while anybody transmits. */
  lemma NothingElseMovesALane(s: State, op: Op, t: Id, c: ClientId)
    requires IsMember(s, t, c) && IsMember(Apply(s, op), t, c)
    requires !(op.SetMemberOp? && op.tg == t && op.client == c)
    ensures SameOrLanded(s, Apply(s, op), t, c)
  {
    hide Joined;
    hide Key;
    hide UnkeyAs;
    hide Unkey;
    hide Depart;
    hide SetMember;
    hide InUse;
    match op
    case KeyOp(tg, client, now) => KeyMovesNobody(s, tg, client, now, t);
    case UnkeyAsOp(tg, client) => ReleaseLandsOnlyWhenQuiet(s, tg, client, t, c);
    case UnkeyOp(tg) => TearDownLandsOnlyWhenQuiet(s, tg, t, c);
    case SetMemberOp(tg, client, listen, quality) => UpdateIsOwn(s, tg, client, listen, quality, t, c);
    case ForgetClientOp(client) => DepartMovesNobody(s, One(client), true, t, c);
    case UnbindOp(session) =>
      if session in s.sessionToClient {
        var client := s.sessionToClient[session];
        DepartMovesNobody(LoseSession(s, session, client), One(client), false, t, c);
      }
    case DropServerOp(server) => DepartMovesNobody(LoseSessionsOf(s, server), Server(server), false, t, c);
    case _ =>
  }

  // -- A whole call ---------------------------------------------------------

  /** A member of a channel in use at every moment of the run. */
  ghost predicate OnACallThroughout(s: State, ops: seq<Op>, t: Id, c: ClientId) {
    forall i :: 0 <= i <= |ops| ==> IsMember(Run(s, ops[..i]), t, c) && InUse(Run(s, ops[..i]), t)
  }

  /** Through a whole call nothing flips a listener's lane: not presses, releases and
      departures of others, nor any number of updates one lane from where it stands. */
  lemma {:induction false} LaneStaysPutThroughACall(s: State, ops: seq<Op>, t: Id, c: ClientId)
    requires OnACallThroughout(s, ops, t, c) && IsMember(s, t, c)
    requires forall op :: op in ops && op.SetMemberOp? && op.tg == t && op.client == c ==>
               OneLaneApart(s.routes[t].members[c].quality, op.quality)
    ensures IsMember(Run(s, ops), t, c)
    ensures Run(s, ops).routes[t].members[c].quality == s.routes[t].members[c].quality
  {
    hide Apply;
    hide InUse;
    hide OneLaneApart;
    if ops != [] {
      var n := |ops| - 1;
      var before, op := ops[..n], ops[n];
      assert ops[..n + 1] == ops;
      forall i | 0 <= i <= n ensures IsMember(Run(s, before[..i]), t, c) && InUse(Run(s, before[..i]), t) {
        assert before[..i] == ops[..i];
      }
      assert forall o :: o in before ==> o in ops;
      LaneStaysPutThroughACall(s, before, t, c);
      var s1 := Run(s, before);
      assert before[..n] == before;
      assert IsMember(Run(s, ops[..n + 1]), t, c) && InUse(Run(s, ops[..n + 1]), t);
      if op.SetMemberOp? && op.tg == t && op.client == c {
        assert op in ops;
        UpdateIsHeldIff(s1, t, c, op.listen, op.quality);
        ApplyUpdate(s1, op);
      } else {
        NothingElseMovesALane(s1, op, t, c);
      }
    }
  }

  lemma ApplyUpdate(s: State, op: Op)
    requires op.SetMemberOp?
    ensures Apply(s, op) == SetMember(s, op.tg, op.client, op.listen, op.quality)
  {
  }
}

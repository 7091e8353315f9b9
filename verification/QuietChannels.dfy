/**
 * Between calls nothing lags: on a channel nobody is using, every member is
 * rendered at exactly the quality the node was last told - as long as the
 * channel went quiet by a release.
 */
module QuietChannels {
  import opened Types
  import opened Patches
  import opened Routing
  import opened Steps
  import opened Holding
  import opened Hysteresis
  import opened Audience
  import opened Records

  ghost predicate Parkless(r: Route) {
    forall c :: c in r.members ==> c !in r.deferred
  }

  ghost predicate QuietIsExact(s: State) {
    forall t :: t in s.routes && IsClear(s, t) ==> Parkless(s.routes[t])
  }

  /** One answer for the whole group. */
  lemma ClearForAll(s: State, t: Id, u: Id)
    requires u in Group(s, t)
    ensures IsClear(s, u) <==> IsClear(s, t)
    ensures t in Group(s, u)
  {
    hide Joined;
    SameGroup(s.patches, t, u);
    assert forall x :: x in Elements(Group(s, t)) <==> x in Group(s, t);
    assert forall x :: x in Elements(Group(s, u)) <==> x in Group(s, u);
    assert Group(s, t)[0] == t;
  }

  /** After a release that leaves a released route's group clear, nothing is parked
      anywhere in that group. */
  lemma ReleaseLandsEverythingParked(s: State, tg: Id, client: ClientId, u: Id, t: Id)
    requires u in Mine(s, tg, client) && IsClear(UnkeyAs(s, tg, client), u)
    requires t in s.routes && t in Group(s, u)
    ensures t in UnkeyAs(s, tg, client).routes
    ensures UnkeyAs(s, tg, client).routes[t].deferred == map[]
  {
    hide UnkeyAs;
    hide Joined;
    UnkeyAsIs(s, tg, client);
    assert IsClear(Release(s, tg, client), u);
    assert Drained(Release(s, tg, client), Mine(s, tg, client), t);
  }

  // -- Steps that keep it ---------------------------------------------------

  lemma ExactFrom(s: State, s': State)
    requires QuietIsExact(s)
    requires s'.routes.Keys == s.routes.Keys
    requires forall t :: t in s.routes && IsClear(s', t) ==>
      || s'.routes[t].deferred == map[]
      || (IsClear(s, t) && s'.routes[t].members.Keys <= s.routes[t].members.Keys
          && s'.routes[t].deferred.Keys <= s.routes[t].deferred.Keys)
    ensures QuietIsExact(s')
  {
    hide IsClear;
    forall t | t in s'.routes && IsClear(s', t) ensures Parkless(s'.routes[t]) {
      if IsClear(s, t) {
        assert Parkless(s.routes[t]);
      }
    }
  }

  lemma AcceptedIsNotQuiet(s: State, tg: Id, client: ClientId, now: Instant)
    requires KeyOneResult(s, tg, client, now).Success?
    ensures tg in s.routes && !Answered(s, tg, client, now).Quiet()
  {
  }

  /** An accepted key silences no group. */
  lemma KeySilencesNothing(s: State, tg: Id, client: ClientId, now: Instant, t: Id)
    requires KeyOneResult(s, tg, client, now).Success?
    requires IsClear(Key(s, tg, client, now), t)
    ensures IsClear(s, t)
  {
    hide Key;
    hide Joined;
    hide Sibling;
    hide Answered;
    var s' := Key(s, tg, client, now);
    KeyAcceptedIs(s, tg, client, now);
    AcceptedIsNotQuiet(s, tg, client, now);
    assert Group(s', t) == Group(s, t) && Group(s', tg) == Group(s, tg) && Group(s', tg)[0] == tg;
    forall u | u in Group(s, t) && u in s.routes ensures s.routes[u].Quiet() {
      assert s'.routes[u].Quiet();
      NobodyHoldsAQuietRoute(s.routes[u]);
      NobodyHoldsAQuietRoute(s'.routes[u]);
      if x :| s.routes[u].HeldBy(x) {
        KeyHolds(s, tg, client, now, u, x);
        ClearForAll(s', t, u);
        ClearForAll(s', tg, u);
        assert false;
      }
    }
  }

  lemma RefusedIsClear(s: State, s': State)
    requires s'.routes == s.routes && s'.patches == s.patches
    ensures forall t :: IsClear(s', t) <==> IsClear(s, t)
  {
    forall t ensures IsClear(s', t) <==> IsClear(s, t) {
      SameClear(s, s', t);
    }
  }

  lemma KeyKeepsExact(s: State, tg: Id, client: ClientId, now: Instant)
    requires QuietIsExact(s)
    ensures QuietIsExact(Key(s, tg, client, now))
  {
    hide Key;
    hide Joined;
    hide Sibling;
    hide Answered;
    hide IsClear;
    var s' := Key(s, tg, client, now);
    if KeyOneResult(s, tg, client, now).Failure? {
      KeyRefusedIs(s, tg, client, now);
      RefusedIsClear(s, s');
    } else {
      KeyAcceptedIs(s, tg, client, now);
      forall t | t in s.routes {
        KeyingOnlyChangesTalkers(s, tg, client, now, t);
      }
      forall t | IsClear(s', t) ensures IsClear(s, t) {
        KeySilencesNothing(s, tg, client, now, t);
      }
    }
    ExactFrom(s, s');
  }

  lemma UnkeyAsKeepsExact(s: State, tg: Id, client: ClientId)
    requires QuietIsExact(s)
    ensures QuietIsExact(UnkeyAs(s, tg, client))
  {
    hide UnkeyAs;
    hide Joined;
    hide Settle;
    hide Mine;
    var s' := UnkeyAs(s, tg, client);
    UnkeyAsIs(s, tg, client);
    forall t | t in s.routes && IsClear(s', t)
      ensures s'.routes[t].deferred == map[] ||
              (IsClear(s, t) && s'.routes[t].members.Keys <= s.routes[t].members.Keys
               && s'.routes[t].deferred.Keys <= s.routes[t].deferred.Keys)
    {
      SettleKeepsTalkers(s.routes[t]);
      SettleKeepsTalkers(ReleaseRoute(s.routes[t], client));
      if !IsClear(s, t) {
        var u :| u in Group(s, t) && u in s.routes && !s.routes[u].Quiet();
        SettleKeepsTalkers(s.routes[u]);
        assert u in Mine(s, tg, client);
        ClearForAll(s', t, u);
        ReleaseLandsEverythingParked(s, tg, client, u, t);
      }
    }
    hide IsClear;
    ExactFrom(s, s');
  }

  lemma SilencedQuiet(s: State, tg: Id, t: Id)
    requires t in s.routes
    ensures t in Unkey(s, tg).routes
    ensures var r, r' := s.routes[t], Unkey(s, tg).routes[t];
            && (r'.Quiet() <==> r.Quiet() || t == tg)
            && r'.members.Keys == r.members.Keys && r'.deferred.Keys <= r.deferred.Keys
  {
    hide Unkey;
    hide Settle;
    hide TearDown;
    UnkeyIs(s, tg);
    SettleKeepsTalkers(s.routes[t]);
    SettleKeepsTalkers(Silenced(s.routes[t]));
  }

  lemma SilencedDrains(s: State, tg: Id, t: Id)
    requires tg in s.routes && t in s.routes && t in Group(s, tg) && IsClear(Unkey(s, tg), tg)
    ensures t in Unkey(s, tg).routes && Unkey(s, tg).routes[t].deferred == map[]
  {
    hide Joined;
    hide Unkey;
    hide IsClear;
    UnkeyIs(s, tg);
    assert tg in [tg];
    assert Drained(TearDown(s, tg), [tg], t);
  }

  lemma UnkeyKeepsExact(s: State, tg: Id)
    requires QuietIsExact(s)
    ensures QuietIsExact(Unkey(s, tg))
  {
    hide Unkey;
    hide Joined;
    var s' := Unkey(s, tg);
    UnkeyIs(s, tg);
    forall t | t in s.routes
      ensures s'.routes[t].members.Keys == s.routes[t].members.Keys
      ensures s'.routes[t].deferred.Keys <= s.routes[t].deferred.Keys
      ensures IsClear(s', t) ==> IsClear(s, t) || s'.routes[t].deferred == map[]
    {
      SilencedQuiet(s, tg, t);
      if IsClear(s', t) && !IsClear(s, t) {
        var u :| u in Group(s, t) && u in s.routes && !s.routes[u].Quiet();
        SilencedQuiet(s, tg, u);
        ClearForAll(s', t, u);
        SilencedDrains(s, tg, t);
      }
    }
    hide IsClear;
    ExactFrom(s, s');
  }

  lemma SetMemberKeepsExact(s: State, tg: Id, client: ClientId, listen: bool, quality: Quality)
    requires QuietIsExact(s)
    ensures QuietIsExact(SetMember(s, tg, client, listen, quality))
  {
    hide Joined;
    var s' := SetMember(s, tg, client, listen, quality);
    assert forall u :: u in s.routes ==> u in s'.routes && (s'.routes[u].Quiet() <==> s.routes[u].Quiet());
    assert forall u :: u in s'.routes && u !in s.routes ==> s'.routes[u].Quiet();
    forall t ensures IsClear(s', t) <==> IsClear(s, t) {
      assert Group(s', t) == Group(s, t);
    }
    forall t | t in s'.routes && IsClear(s', t) ensures Parkless(s'.routes[t]) {
      if t in s.routes {
        assert Parkless(s.routes[t]);
      }
    }
  }

  // -- Steps that may not ---------------------------------------------------

  ghost predicate OnlyLeaversTalk(s: State, who: Departing, t: Id) {
    forall u, x :: u in Group(s, t) && Holds(s, u, x) ==> who.Leaves(x)
  }

  /** Nobody who stays on a channel the departure silences has anything parked. */
  ghost predicate LeavesNothingParked(s: State, who: Departing) {
    forall t, c :: t in s.routes && OnlyLeaversTalk(s, who, t) && c in s.routes[t].members && !who.Leaves(c) ==>
      c !in s.routes[t].deferred
  }

  lemma ClearAfterDeparture(s: State, who: Departing, parkedToo: bool, t: Id)
    ensures IsClear(Depart(s, who, parkedToo), t) <==> OnlyLeaversTalk(s, who, t)
  {
    hide Joined;
    hide Depart;
    var s' := Depart(s, who, parkedToo);
    assert s'.routes.Keys == s.routes.Keys && s'.patches == s.patches by { DepartShape(s, who, parkedToo); }
    forall u, x ensures Holds(s', u, x) <==> Holds(s, u, x) && !who.Leaves(x) {
      DepartHolds(s, who, parkedToo, u, x);
    }
    forall u | u in s.routes ensures s'.routes[u].Quiet() <==> forall x :: !Holds(s', u, x) {
      NobodyHoldsAQuietRoute(s'.routes[u]);
      assert forall x :: Holds(s', u, x) <==> s'.routes[u].HeldBy(x);
    }
  }

  lemma DepartShape(s: State, who: Departing, parkedToo: bool)
    ensures var s' := Depart(s, who, parkedToo);
            && s'.routes.Keys == s.routes.Keys && s'.patches == s.patches
            && forall t, c :: t in s.routes ==>
                 && (c in s'.routes[t].members <==> c in s.routes[t].members && !who.Leaves(c))
                 && (!who.Leaves(c) ==> (c in s'.routes[t].deferred <==> c in s.routes[t].deferred))
  {
  }

  lemma VacatedParkless(s: State, who: Departing, parkedToo: bool, t: Id)
    requires t in s.routes
    ensures t in Depart(s, who, parkedToo).routes
    ensures Parkless(Depart(s, who, parkedToo).routes[t]) <==>
            forall c :: c in s.routes[t].members && !who.Leaves(c) ==> c !in s.routes[t].deferred
  {
    var r, r' := s.routes[t], Vacate(s.routes[t], who, parkedToo);
    forall c ensures c in r'.members <==> c in r.members && !who.Leaves(c) {
    }
    forall c | !who.Leaves(c) ensures c in r'.deferred <==> c in r.deferred {
    }
  }

  /** Departures do not drain: quiet channels stay exact if and only if the departure
      silences nobody's parked quality. */
  lemma DepartureKeepsExactIff(s: State, who: Departing, parkedToo: bool)
    ensures QuietIsExact(Depart(s, who, parkedToo)) <==> LeavesNothingParked(s, who)
  {
    hide Joined;
    hide Depart;
    hide IsClear;
    hide OnlyLeaversTalk;
    DepartShape(s, who, parkedToo);
    var s' := Depart(s, who, parkedToo);
    forall t | t in s.routes
      ensures IsClear(s', t) <==> OnlyLeaversTalk(s, who, t)
      ensures Parkless(s'.routes[t]) <==>
              forall c :: c in s.routes[t].members && !who.Leaves(c) ==> c !in s.routes[t].deferred
    {
      ClearAfterDeparture(s, who, parkedToo, t);
      VacatedParkless(s, who, parkedToo, t);
    }
    if LeavesNothingParked(s, who) {
      forall t | t in s'.routes && IsClear(s', t) ensures Parkless(s'.routes[t]) {
      }
    }
  }

  /** A channel in use with something parked on it. */
  ghost predicate InUseWithParked(s: State, t: Id) {
    t in s.routes && !IsClear(s, t) && !Parkless(s.routes[t])
  }

  /** Somebody transmits on one of these routes, other than on the one left out. */
  ghost predicate TalkedOn(s: State, ts: seq<Id>, leftOut: Option<Id>) {
    exists u, x :: u in ts && Some(u) != leftOut && Holds(s, u, x)
  }

  /** Closing `tg` takes the last talker off no channel with something parked. */
  ghost predicate CloseSilencesNothingParked(s: State, tg: Id) {
    forall t :: InUseWithParked(s, t) && t != tg ==> TalkedOn(s, Group(s, t), Some(tg))
  }

  /** Under the new table every channel with something parked still has a talker. */
  ghost predicate PatchesSilenceNothingParked(s: State, groups: Table) {
    forall t :: InUseWithParked(s, t) ==> TalkedOn(s, Joined(groups, t), None)
  }

  lemma ClearIffNotTalkedOn(s: State, t: Id)
    ensures IsClear(s, t) <==> !TalkedOn(s, Group(s, t), None)
  {
    hide Joined;
    hide IsClear;
    ClearMeansNobodyTalks(s, t);
    if TalkedOn(s, Group(s, t), None) {
      var u, x :| u in Group(s, t) && Holds(s, u, x);
      assert TalksIn(s, t, x);
    }
    if x :| TalksIn(s, t, x) {
      var u :| u in Group(s, t) && Holds(s, u, x);
      assert Some(u) != None;
    }
  }

  lemma ClearAfterClose(s: State, tg: Id, t: Id)
    ensures IsClear(Close(s, tg), t) <==> !TalkedOn(s, Group(s, t), Some(tg))
  {
    hide Joined;
    hide IsClear;
    var s' := Close(s, tg);
    ClearIffNotTalkedOn(s', t);
    assert forall u: Id, x :: Holds(s', u, x) <==> u != tg && Holds(s, u, x);
    if TalkedOn(s, Group(s, t), Some(tg)) {
      var u, x :| u in Group(s, t) && Some(u) != Some(tg) && Holds(s, u, x);
      assert Some(u) != None && Holds(s', u, x);
    }
  }

  lemma ClearAfterPatching(s: State, groups: Table, t: Id)
    ensures IsClear(SetPatches(s, groups), t) <==> !TalkedOn(s, Joined(groups, t), None)
  {
    hide Joined;
    hide IsClear;
    var s' := SetPatches(s, groups);
    ClearIffNotTalkedOn(s', t);
    assert forall u, x :: Holds(s', u, x) <==> Holds(s, u, x);
  }

  /** A close drains nothing either: quiet channels stay exact if and only if every other
      channel in use with something parked has a talker off the closed route. */
  lemma CloseKeepsExactIff(s: State, tg: Id)
    requires QuietIsExact(s)
    ensures QuietIsExact(Close(s, tg)) <==> CloseSilencesNothingParked(s, tg)
  {
    hide Joined;
    hide IsClear;
    hide TalkedOn;
    hide Parkless;
    var s' := Close(s, tg);
    forall t ensures IsClear(s', t) <==> !TalkedOn(s, Group(s, t), Some(tg)) {
      ClearAfterClose(s, tg, t);
    }
    assert forall t :: t in s'.routes <==> t in s.routes && t != tg;
    assert forall t :: t in s'.routes ==> s'.routes[t] == s.routes[t];
    if QuietIsExact(s') {
      forall t | InUseWithParked(s, t) && t != tg ensures TalkedOn(s, Group(s, t), Some(tg)) {
        assert t in s'.routes;
      }
    }
    if CloseSilencesNothingParked(s, tg) {
      forall t | t in s'.routes && IsClear(s', t) ensures Parkless(s'.routes[t]) {
        assert !InUseWithParked(s, t);
      }
    }
  }

  /** Nor does a new patch table: quiet channels stay exact if and only if every channel in
      use with something parked is patched to a talker by it. */
  lemma SetPatchesKeepsExactIff(s: State, groups: Table)
    requires QuietIsExact(s)
    ensures QuietIsExact(SetPatches(s, groups)) <==> PatchesSilenceNothingParked(s, groups)
  {
    hide Joined;
    hide IsClear;
    hide TalkedOn;
    hide Parkless;
    var s' := SetPatches(s, groups);
    forall t ensures IsClear(s', t) <==> !TalkedOn(s, Joined(groups, t), None) {
      ClearAfterPatching(s, groups, t);
    }
    if QuietIsExact(s') {
      forall t | InUseWithParked(s, t) ensures TalkedOn(s, Joined(groups, t), None) {
        assert t in s'.routes;
      }
    }
    if PatchesSilenceNothingParked(s, groups) {
      forall t | t in s'.routes && IsClear(s', t) ensures Parkless(s'.routes[t]) {
        assert !InUseWithParked(s, t);
      }
    }
  }

  /** Steps under which quiet channels stay exact, judged before they are taken. */
  ghost predicate KeepsExact(s: State, op: Op) {
    match op
    case ForgetClientOp(client) => LeavesNothingParked(s, One(client))
    case UnbindOp(session) =>
      session in s.sessionToClient ==> LeavesNothingParked(s, One(s.sessionToClient[session]))
    case DropServerOp(server) => LeavesNothingParked(s, Server(server))
    case CloseOp(tg) => CloseSilencesNothingParked(s, tg)
    case SetPatchesOp(groups) => PatchesSilenceNothingParked(s, groups)
    case _ => true
  }

  lemma LostSessionsIrrelevant(s: State, s': State, who: Departing)
    requires s'.routes == s.routes && s'.patches == s.patches
    ensures LeavesNothingParked(s', who) <==> LeavesNothingParked(s, who)
  {
    hide Joined;
    forall t ensures OnlyLeaversTalk(s', who, t) <==> OnlyLeaversTalk(s, who, t) {
      assert forall u, x :: Holds(s', u, x) <==> Holds(s, u, x);
    }
  }

  lemma OpenKeepsExact(s: State, s': State, tg: Id)
    requires QuietIsExact(s) && s'.patches == s.patches
    requires tg in s'.routes && s'.routes == s.routes[tg := s'.routes[tg]]
    requires if tg in s.routes then
               && s'.routes[tg].members == s.routes[tg].members && s'.routes[tg].deferred == s.routes[tg].deferred
               && s'.routes[tg].keyed == s.routes[tg].keyed && s'.routes[tg].also == s.routes[tg].also
             else s'.routes[tg].members == map[] && s'.routes[tg].Quiet()
    ensures QuietIsExact(s')
  {
    hide Joined;
    assert forall u :: u in s.routes ==> u in s'.routes && (s'.routes[u].Quiet() <==> s.routes[u].Quiet());
    forall t | t in s'.routes && IsClear(s', t) ensures Parkless(s'.routes[t]) {
      assert Group(s', t) == Group(s, t);
      if t in s.routes {
        assert IsClear(s, t);
      }
    }
  }

  lemma ForgetMembershipKeepsExact(s: State, client: ClientId)
    requires QuietIsExact(s)
    ensures QuietIsExact(ForgetMembership(s, client))
  {
    hide Joined;
    var s' := ForgetMembership(s, client);
    forall t ensures IsClear(s', t) <==> IsClear(s, t) {
      SameClear(s, s', t);
    }
    hide IsClear;
    ExactFrom(s, s');
  }

  lemma ApplyKeepsExactIff(s: State, op: Op)
    requires QuietIsExact(s)
    ensures QuietIsExact(Apply(s, op)) <==> KeepsExact(s, op)
  {
    hide Key;
    hide UnkeyAs;
    hide Unkey;
    hide Depart;
    hide SetMember;
    hide ForgetMembership;
    hide IsClear;
    hide LeavesNothingParked;
    hide CloseSilencesNothingParked;
    hide PatchesSilenceNothingParked;
    match op
    case KeyOp(tg, client, now) => KeyKeepsExact(s, tg, client, now);
    case UnkeyAsOp(tg, client) => UnkeyAsKeepsExact(s, tg, client);
    case UnkeyOp(tg) => UnkeyKeepsExact(s, tg);
    case SetMemberOp(tg, client, listen, quality) => SetMemberKeepsExact(s, tg, client, listen, quality);
    case ForgetMembershipOp(client) => ForgetMembershipKeepsExact(s, client);
    case ForgetClientOp(client) => DepartureKeepsExactIff(s, One(client), true);
    case UnbindOp(session) =>
      if session in s.sessionToClient {
        var client := s.sessionToClient[session];
        LostSessionsIrrelevant(s, LoseSession(s, session, client), One(client));
        DepartureKeepsExactIff(LoseSession(s, session, client), One(client), false);
      }
    case DropServerOp(server) =>
      LostSessionsIrrelevant(s, LoseSessionsOf(s, server), Server(server));
      DepartureKeepsExactIff(LoseSessionsOf(s, server), Server(server), false);
    case OpenOp(tg, encrypted) => OpenKeepsExact(s, Apply(s, op), tg);
    case OpenConventionalOp(tg, am) => OpenKeepsExact(s, Apply(s, op), tg);
    case BindOp(session, player) => RefusedIsClear(s, Apply(s, op)); ExactFrom(s, Apply(s, op));
    case CloseOp(tg) => CloseKeepsExactIff(s, tg);
    case SetPatchesOp(groups) => SetPatchesKeepsExactIff(s, groups);
  }

  ghost predicate AllKeepExact(s: State, ops: seq<Op>) {
    forall i :: 0 <= i < |ops| ==> KeepsExact(Run(s, ops[..i]), ops[i])
  }

  lemma {:induction false} RunIsExact(s: State, ops: seq<Op>)
    requires QuietIsExact(s) && AllKeepExact(s, ops)
    ensures QuietIsExact(Run(s, ops))
  {
    hide Apply;
    hide KeepsExact;
    hide QuietIsExact;
    if ops != [] {
      var before := ops[..|ops| - 1];
      forall i | 0 <= i < |before| ensures KeepsExact(Run(s, before[..i]), before[i]) {
        assert before[..i] == ops[..i];
        assert KeepsExact(Run(s, ops[..i]), ops[i]);
      }
      RunIsExact(s, before);
      ApplyKeepsExactIff(Run(s, before), ops[|ops| - 1]);
    }
  }

  /** The next transmission starts on exactly the told lane: on a clear channel a
      member's stored quality is the last one the node was told. */
  lemma NextCallStartsExact(ops: seq<Op>, t: Id, c: ClientId)
    requires AllKeepExact(INIT, ops)
    requires var s := Run(INIT, ops); t in s.routes && c in s.routes[t].members && IsClear(s, t)
    ensures var s := Run(INIT, ops); (t, c) in s.told && s.routes[t].members[c] == s.told[(t, c)]
  {
    hide IsClear;
    RunIsExact(INIT, ops);
    RenderingNeverDrifts(ops, t, c);
  }

  // -- Runs the condition rules out -----------------------------------------

  function TalkedRoute(talker: ClientId): Route {
    FRESH_ROUTE.(keyed := Some(talker))
  }

  function ListenedRoute(listener: ClientId): Route {
    FRESH_ROUTE.(members := map[listener := Member(true, 93)])
  }

  /** The node is told 93 for 2, and 1 is opened. */
  function BothQuiet(listener: ClientId): seq<Op> {
    [] + [SetMemberOp(2, listener, true, 93)] + [OpenOp(1, false)]
  }

  lemma BothQuietLeaves(listener: ClientId)
    ensures var s := Run(INIT, BothQuiet(listener));
            && s.routes == map[1 := FRESH_ROUTE, 2 := ListenedRoute(listener)]
            && s.patches == [] && s.told == map[(2, listener) := Member(true, 93)]
  {
    hide Joined;
    assert Run(INIT, []) == INIT;
    hide Run;
    var a := [] + [SetMemberOp(2, listener, true, 93)];
    RunThen(INIT, [], SetMemberOp(2, listener, true, 93));
    RunThen(INIT, a, OpenOp(1, false));
    assert Run(INIT, a).routes == map[2 := ListenedRoute(listener)];
  }

  /** Then 1 is keyed, and patched to 2. */
  function PatchedMidCall(talker: ClientId, listener: ClientId, now: Instant): seq<Op> {
    BothQuiet(listener) + [KeyOp(1, talker, now)] + [SetPatchesOp([[1, 2]])]
  }

  lemma PatchedMidCallLeaves(talker: ClientId, listener: ClientId, now: Instant)
    ensures var s := Run(INIT, PatchedMidCall(talker, listener, now));
            && s.routes == map[1 := TalkedRoute(talker), 2 := ListenedRoute(listener)]
            && s.patches == [[1, 2]] && s.told == map[(2, listener) := Member(true, 93)]
  {
    hide Joined;
    hide Key;
    hide Run;
    hide BothQuiet;
    var ops := BothQuiet(listener);
    BothQuietLeaves(listener);
    RunThen(INIT, ops, KeyOp(1, talker, now));
    RunThen(INIT, ops + [KeyOp(1, talker, now)], SetPatchesOp([[1, 2]]));
    PressAlone(Run(INIT, ops), talker, now, 1);
  }

  /** A clear channel on which the listener is not at the quality last told. */
  ghost predicate LagsOnAQuietChannel(s: State, t: Id, c: ClientId) {
    && t in s.routes && c in s.routes[t].members && IsClear(s, t) && (t, c) in s.told
    && s.routes[t].members[c] == Member(true, 93) && s.told[(t, c)] == Member(true, 92)
  }

  /** The listener moves to 92 during that call: parked, since the group is in use. */
  function ParkedMidCall(talker: ClientId, listener: ClientId, now: Instant): seq<Op> {
    PatchedMidCall(talker, listener, now) + [SetMemberOp(2, listener, true, 92)]
  }

  lemma ParkedMidCallLeaves(talker: ClientId, listener: ClientId, now: Instant)
    ensures var s := Run(INIT, ParkedMidCall(talker, listener, now));
            && s.routes == map[1 := TalkedRoute(talker),
                               2 := ListenedRoute(listener).(deferred := map[listener := 92])]
            && s.patches == [[1, 2]] && s.told == map[(2, listener) := Member(true, 92)]
  {
    hide Joined;
    hide Run;
    var ops := PatchedMidCall(talker, listener, now);
    PatchedMidCallLeaves(talker, listener, now);
    RunThen(INIT, ops, SetMemberOp(2, listener, true, 92));
    var s := Run(INIT, ops);
    hide PatchedMidCall;
    JoinedPair();
    JoinedIsAnEquivalence([[1, 2]], 1, 2, 2);
    assert 1 in Group(s, 2) && !s.routes[1].Quiet();
    assert Parks(s, 2, listener, 92);
    var parked := ListenedRoute(listener).(deferred := map[listener := 92]);
    assert SetMember(s, 2, listener, true, 92).routes[2] == parked;
    assert SetMember(s, 2, listener, true, 92).routes == s.routes[2 := parked];
  }

  /** A talker who drops, with the channel's only transmission, leaves it so ... */
  lemma DroppedTalkerLeavesQualityParked(talker: ClientId, listener: ClientId, now: Instant)
    requires talker != listener
    ensures LagsOnAQuietChannel(
              Run(INIT, ParkedMidCall(talker, listener, now) + [ForgetClientOp(talker)]), 2, listener)
  {
    hide Joined;
    hide Run;
    hide ParkedMidCall;
    var ops := ParkedMidCall(talker, listener, now);
    ParkedMidCallLeaves(talker, listener, now);
    RunThen(INIT, ops, ForgetClientOp(talker));
  }

  /** ... and so does closing the talker's route ... */
  lemma ClosedRouteLeavesQualityParked(talker: ClientId, listener: ClientId, now: Instant)
    ensures LagsOnAQuietChannel(Run(INIT, ParkedMidCall(talker, listener, now) + [CloseOp(1)]), 2, listener)
  {
    hide Joined;
    hide Run;
    hide ParkedMidCall;
    var ops := ParkedMidCall(talker, listener, now);
    ParkedMidCallLeaves(talker, listener, now);
    RunThen(INIT, ops, CloseOp(1));
  }

  /** ... and so does taking the patch down. */
  lemma UnpatchLeavesQualityParked(talker: ClientId, listener: ClientId, now: Instant)
    ensures LagsOnAQuietChannel(Run(INIT, ParkedMidCall(talker, listener, now) + [SetPatchesOp([])]), 2, listener)
  {
    JoinedPair();
    hide Joined;
    hide Run;
    hide ParkedMidCall;
    var ops := ParkedMidCall(talker, listener, now);
    ParkedMidCallLeaves(talker, listener, now);
    RunThen(INIT, ops, SetPatchesOp([]));
  }
}

/**
 * Lane hysteresis: what a listener is rendered at never drifts from what the
 * node was last told about their link.
 */
module Hysteresis {
  import opened Types
  import opened Lanes
  import opened Patches
  import opened Routing
  import opened Steps
  import opened Holding

  /** A member's stored quality, what is parked for it, and what the node was told. */
  ghost predicate Tracked(r: Route, c: ClientId, told: Member)
    requires c in r.members
  {
    && r.members[c].listen == told.listen
    && (c in r.deferred ==> r.deferred[c] == told.quality && NearLane(r.members[c].quality, told.quality))
    && (c !in r.deferred ==> r.members[c].quality == told.quality)
  }

  ghost predicate RouteTracked(s: State, t: Id)
    requires t in s.routes
  {
    forall c :: c in s.routes[t].members ==> (t, c) in s.told && Tracked(s.routes[t], c, s.told[(t, c)])
  }

  ghost predicate AllTracked(s: State) {
    forall t :: t in s.routes ==> RouteTracked(s, t)
  }

  lemma SettleTracked(r: Route, c: ClientId, told: Member)
    requires c in r.members && Tracked(r, c, told)
    ensures c in Settle(r).members && Tracked(Settle(r), c, told)
  {
  }

  /** Any step that only settles routes or changes who talks keeps every member tracked. */
  lemma TrackedFrom(s: State, s': State)
    requires AllTracked(s)
    requires s'.told == s.told && s'.routes.Keys == s.routes.Keys
    requires forall t :: t in s.routes ==>
      var r, r' := s.routes[t], s'.routes[t];
      || (r'.members == r.members && r'.deferred == r.deferred)
      || (r'.members == Settle(r).members && r'.deferred == Settle(r).deferred)
    ensures AllTracked(s')
  {
    hide Settle;
    forall t, c | t in s'.routes && c in s'.routes[t].members
      ensures (t, c) in s'.told && Tracked(s'.routes[t], c, s'.told[(t, c)])
    {
      var r := s.routes[t];
      assert RouteTracked(s, t);
      SettleKeepsTalkers(r);
      assert c in r.members;
      SettleTracked(r, c, s.told[(t, c)]);
    }
  }

  lemma SettleIgnoresTalkers(r: Route, r': Route)
    requires r'.members == r.members && r'.deferred == r.deferred
    ensures Settle(r').members == Settle(r).members && Settle(r').deferred == Settle(r).deferred
  {
  }

  lemma SetMemberTracked(s: State, tg: Id, client: ClientId, listen: bool, quality: Quality)
    requires AllTracked(s)
    ensures AllTracked(SetMember(s, tg, client, listen, quality))
  {
    hide Joined;
    var s' := SetMember(s, tg, client, listen, quality);
    forall t, c | t in s'.routes && c in s'.routes[t].members
      ensures (t, c) in s'.told && Tracked(s'.routes[t], c, s'.told[(t, c)])
    {
      if t in s.routes && c in s.routes[t].members {
        assert RouteTracked(s, t);
      }
    }
  }

  lemma KeyTracked(s: State, tg: Id, client: ClientId, now: Instant)
    requires AllTracked(s)
    ensures AllTracked(Key(s, tg, client, now))
  {
    hide Key;
    hide Joined;
    hide Settle;
    hide Answered;
    hide Sibling;
    hide RouteTracked;
    if KeyOneResult(s, tg, client, now).Failure? {
      KeyRefusedIs(s, tg, client, now);
    } else {
      KeyAcceptedIs(s, tg, client, now);
      forall t | t in s.routes {
        KeyingOnlyChangesTalkers(s, tg, client, now, t);
      }
    }
    TrackedFrom(s, Key(s, tg, client, now));
  }

  lemma UnkeyAsTracked(s: State, tg: Id, client: ClientId)
    requires AllTracked(s)
    ensures AllTracked(UnkeyAs(s, tg, client))
  {
    hide UnkeyAs;
    hide Joined;
    hide Settle;
    hide RouteTracked;
    UnkeyAsIs(s, tg, client);
    forall t | t in s.routes {
      SettleIgnoresTalkers(s.routes[t], ReleaseRoute(s.routes[t], client));
    }
    TrackedFrom(s, UnkeyAs(s, tg, client));
  }

  lemma UnkeyTracked(s: State, tg: Id)
    requires AllTracked(s)
    ensures AllTracked(Unkey(s, tg))
  {
    hide Unkey;
    hide Joined;
    hide Settle;
    hide TearDown;
    hide RouteTracked;
    UnkeyIs(s, tg);
    if tg in s.routes {
      SettleIgnoresTalkers(s.routes[tg], Silenced(s.routes[tg]));
    }
    TrackedFrom(s, Unkey(s, tg));
  }

  /** Routes only lose members, with whatever was parked for them or without. */
  lemma TrackedWithFewer(s: State, s': State)
    requires AllTracked(s)
    requires s'.told == s.told && s'.routes.Keys <= s.routes.Keys
    requires forall t :: t in s'.routes ==>
      var r, r' := s.routes[t], s'.routes[t];
      forall c :: c in r'.members ==>
        && c in r.members && r'.members[c] == r.members[c]
        && (c in r'.deferred <==> c in r.deferred) && (c in r.deferred ==> r'.deferred[c] == r.deferred[c])
    ensures AllTracked(s')
  {
    forall t | t in s'.routes ensures RouteTracked(s', t) {
      assert RouteTracked(s, t);
    }
  }

  lemma DepartTracked(s: State, who: Departing, parkedToo: bool)
    requires AllTracked(s)
    ensures AllTracked(Depart(s, who, parkedToo))
  {
    hide RouteTracked;
    TrackedWithFewer(s, Depart(s, who, parkedToo));
  }

  lemma ApplyTracked(s: State, op: Op)
    requires AllTracked(s)
    ensures AllTracked(Apply(s, op))
  {
    hide Key;
    hide UnkeyAs;
    hide Unkey;
    hide Depart;
    hide SetMember;
    hide RouteTracked;
    match op
    case KeyOp(tg, client, now) => KeyTracked(s, tg, client, now);
    case UnkeyAsOp(tg, client) => UnkeyAsTracked(s, tg, client);
    case UnkeyOp(tg) => UnkeyTracked(s, tg);
    case SetMemberOp(tg, client, listen, quality) => SetMemberTracked(s, tg, client, listen, quality);
    case ForgetClientOp(client) => DepartTracked(s, One(client), true);
    case ForgetMembershipOp(client) => TrackedWithFewer(s, Apply(s, op));
    case UnbindOp(session) =>
      if session in s.sessionToClient {
        var client := s.sessionToClient[session];
        TrackedFrom(s, LoseSession(s, session, client));
        DepartTracked(LoseSession(s, session, client), One(client), false);
      }
    case DropServerOp(server) =>
      TrackedFrom(s, LoseSessionsOf(s, server));
      DepartTracked(LoseSessionsOf(s, server), Server(server), false);
    case CloseOp(tg) => TrackedWithFewer(s, Apply(s, op));
    case OpenOp(tg, encrypted) => OpenTracked(s, Apply(s, op), tg);
    case OpenConventionalOp(tg, am) => OpenTracked(s, Apply(s, op), tg);
    case BindOp(session, player) => TrackedFrom(s, Apply(s, op));
    case SetPatchesOp(groups) => TrackedFrom(s, Apply(s, op));
  }

  lemma OpenTracked(s: State, s': State, tg: Id)
    requires AllTracked(s) && s'.told == s.told && tg in s'.routes
    requires s'.routes == s.routes[tg := s'.routes[tg]]
    requires if tg in s.routes then
               s'.routes[tg].members == s.routes[tg].members && s'.routes[tg].deferred == s.routes[tg].deferred
             else s'.routes[tg].members == map[]
    ensures AllTracked(s')
  {
    forall t | t in s'.routes ensures RouteTracked(s', t) {
      if t in s.routes {
        assert RouteTracked(s, t);
      }
    }
  }

  lemma {:induction false} RunTracked(s: State, ops: seq<Op>)
    requires AllTracked(s)
    ensures AllTracked(Run(s, ops))
  {
    hide Apply;
    hide AllTracked;
    if ops != [] {
      RunTracked(s, ops[..|ops| - 1]);
      ApplyTracked(Run(s, ops[..|ops| - 1]), ops[|ops| - 1]);
    }
  }

  /** In every reachable state: `listen` is what the node was last told, and the lane
      a member is rendered on is within one step of the told lane, silent only with it. */
  lemma RenderingNeverDrifts(ops: seq<Op>, t: Id, c: ClientId)
    requires t in Run(INIT, ops).routes && c in Run(INIT, ops).routes[t].members
    ensures var s := Run(INIT, ops);
            var m := s.routes[t].members[c];
            && (t, c) in s.told
            && m.listen == s.told[(t, c)].listen
            && NearLane(m.quality, s.told[(t, c)].quality)
            && (if c in s.routes[t].deferred then s.routes[t].deferred[c] else m.quality) == s.told[(t, c)].quality
  {
    RunTracked(INIT, ops);
    assert RouteTracked(Run(INIT, ops), t);
  }
}

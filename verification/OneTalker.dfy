/**
 * Digital never doubles: on one route always, and across a whole patch group
 * for as long as its members stay trunked routes of one group.
 */
module OneTalker {
  import opened Types
  import opened Patches
  import opened Routing
  import opened Steps
  import opened Holding

  // -- One route ------------------------------------------------------------

  /** Only a conventional route ever mixes anybody in. */
  predicate Sound(r: Route) {
    !r.conventional ==> r.also == []
  }

  ghost predicate AllSound(s: State) {
    forall t :: t in s.routes ==> Sound(s.routes[t])
  }

  lemma SiblingSound(s: State, tg: Id, client: ClientId, now: Instant, t: Id)
    requires t in s.routes && Sound(s.routes[t])
    ensures Sound(Sibling(s, tg, client, now, t))
  {
  }

  lemma KeyKeepsSound(s: State, tg: Id, client: ClientId, now: Instant)
    requires AllSound(s)
    ensures AllSound(Key(s, tg, client, now))
  {
    hide Key;
    hide Joined;
    hide Sibling;
    if KeyOneResult(s, tg, client, now).Failure? {
      KeyRefusedIs(s, tg, client, now);
    } else {
      KeyAcceptedIs(s, tg, client, now);
      forall t | t in s.routes ensures Sound(Key(s, tg, client, now).routes[t]) {
        SiblingSound(s, tg, client, now, t);
      }
    }
  }

  lemma ApplyKeepsSound(s: State, op: Op)
    requires AllSound(s)
    ensures AllSound(Apply(s, op))
  {
    hide Key;
    hide Joined;
    match op
    case KeyOp(tg, client, now) => KeyKeepsSound(s, tg, client, now);
    case UnkeyAsOp(tg, client) => UnkeyAsIs(s, tg, client);
    case UnkeyOp(tg) => UnkeyIs(s, tg);
    case _ =>
  }

  lemma {:induction false} RunIsSound(s: State, ops: seq<Op>)
    requires AllSound(s)
    ensures AllSound(Run(s, ops))
  {
    hide Apply;
    if ops != [] {
      RunIsSound(s, ops[..|ops| - 1]);
      ApplyKeepsSound(Run(s, ops[..|ops| - 1]), ops[|ops| - 1]);
    }
  }

  /** In every reachable state a trunked route has at most one talker. */
  lemma TrunkedNeverDoubles(ops: seq<Op>, t: Id, x: ClientId, y: ClientId)
    requires Holds(Run(INIT, ops), t, x) && Holds(Run(INIT, ops), t, y)
    requires !Run(INIT, ops).routes[t].conventional
    ensures x == y
  {
    RunIsSound(INIT, ops);
  }

  // -- A patch group --------------------------------------------------------

  ghost predicate Trunked(r: Route) {
    !r.conventional && r.also == []
  }

  /** The members of one patch group: all trunked routes, all keyed alike, and
      every open record that names one of them names them all. */
  ghost predicate OneChannel(s: State, group: set<Id>) {
    && (forall t :: t in group ==> t in s.routes && Trunked(s.routes[t]))
    && (forall t :: t in group ==> Elements(Group(s, t)) == group)
    && (forall t, u :: t in group && u in group ==> s.routes[t].keyed == s.routes[u].keyed)
    && (forall k :: k in s.took ==> Whole(s.took[k], group))
  }

  ghost predicate Whole(record: seq<Id>, group: set<Id>) {
    (exists t :: t in record && t in group) ==> forall t :: t in group ==> t in record
  }

  /** Steps that leave the members trunked routes of the same group: everything but
      closing one, opening one as a frequency, tearing one down alone, or a new
      patch table that groups them differently. */
  ghost predicate Spares(op: Op, group: set<Id>) {
    match op
    case CloseOp(tg) => tg !in group
    case OpenConventionalOp(tg, _) => tg !in group
    case UnkeyOp(tg) => tg !in group
    case SetPatchesOp(groups) => forall t :: t in group ==> Elements(Joined(groups, t)) == group
    case _ => true
  }

  /** A clear group of trunked routes nobody has a record on is one channel to start with. */
  lemma ClearGroupIsOneChannel(s: State, tg: Id)
    requires AllSound(s) && IsClear(s, tg)
    requires forall t :: t in Group(s, tg) ==> t in s.routes && !s.routes[t].conventional
    requires forall k, t :: k in s.took && t in s.took[k] ==> t !in Group(s, tg)
    ensures OneChannel(s, Elements(Group(s, tg)))
  {
    hide Joined;
    forall t | t in Elements(Group(s, tg)) ensures Elements(Group(s, t)) == Elements(Group(s, tg)) {
      SameGroup(s.patches, tg, t);
    }
  }

  lemma GroupIsWhole(s: State, tg: Id, group: set<Id>)
    requires OneChannel(s, group)
    ensures Whole(Group(s, tg), group)
    ensures tg in group ==> Elements(Group(s, tg)) == group
    ensures tg !in group ==> forall t :: t in group ==> t !in Group(s, tg)
  {
    hide Joined;
    assert Group(s, tg)[0] == tg;
    assert tg in Elements(Group(s, tg));
    if tg !in group {
      forall t | t in group ensures t !in Group(s, tg) {
        if t in Group(s, tg) {
          SameGroup(s.patches, tg, t);
        }
      }
    } else {
      forall t | t in group ensures t in Group(s, tg) {
        assert t in Elements(Group(s, tg));
      }
    }
  }

  /** An accepted key on a member leaves every member keyed by its client. */
  lemma MemberKeyed(s: State, tg: Id, client: ClientId, now: Instant, t: Id)
    requires tg in s.routes && Trunked(s.routes[tg]) && t in s.routes && Trunked(s.routes[t])
    requires s.routes[t].keyed == s.routes[tg].keyed
    requires KeyOneResult(s, tg, client, now).Success?
    ensures Answered(s, tg, client, now) == s.routes[tg].(keyed := Some(client))
    ensures Sibling(s, tg, client, now, t) == s.routes[t].(keyed := Some(client))
  {
  }

  lemma KeyKeepsChannel(s: State, group: set<Id>, tg: Id, client: ClientId, now: Instant)
    requires OneChannel(s, group)
    ensures OneChannel(Key(s, tg, client, now), group)
  {
    hide Key;
    hide Joined;
    hide Sibling;
    hide Answer;
    GroupIsWhole(s, tg, group);
    if KeyOneResult(s, tg, client, now).Failure? {
      KeyRefusedIs(s, tg, client, now);
    } else {
      KeyAcceptedIs(s, tg, client, now);
      var s' := Key(s, tg, client, now);
      if tg in group {
        forall t | t in group ensures s'.routes[t] == s.routes[t].(keyed := Some(client)) {
          MemberKeyed(s, tg, client, now, t);
          assert t in Elements(Group(s, tg));
        }
      }
    }
  }

  lemma ReleaseKeepsChannel(s: State, group: set<Id>, tg: Id, client: ClientId)
    requires OneChannel(s, group)
    ensures OneChannel(UnkeyAs(s, tg, client), group)
  {
    hide UnkeyAs;
    hide Joined;
    hide Settle;
    hide IsClear;
    hide Drained;
    GroupIsWhole(s, tg, group);
    UnkeyAsIs(s, tg, client);
    var mine, s' := Mine(s, tg, client), UnkeyAs(s, tg, client);
    assert Whole(mine, group);
    forall t | t in group
      ensures s'.routes[t].keyed ==
              (if t in mine && s.routes[t].keyed == Some(client) then None else s.routes[t].keyed)
      ensures Trunked(s'.routes[t])
    {
      SettleKeepsTalkers(s.routes[t]);
      SettleKeepsTalkers(ReleaseRoute(s.routes[t], client));
    }
  }

  lemma UnkeyKeepsChannel(s: State, group: set<Id>, tg: Id)
    requires OneChannel(s, group) && tg !in group
    ensures OneChannel(Unkey(s, tg), group)
  {
    hide Unkey;
    hide Joined;
    hide Settle;
    hide TearDown;
    UnkeyIs(s, tg);
    forall t | t in group
      ensures Unkey(s, tg).routes[t].keyed == s.routes[t].keyed && Trunked(Unkey(s, tg).routes[t])
    {
      SettleKeepsTalkers(s.routes[t]);
    }
  }

  lemma DepartKeepsChannel(s: State, group: set<Id>, who: Departing, parkedToo: bool)
    requires OneChannel(s, group)
    ensures OneChannel(Depart(s, who, parkedToo), group)
  {
    hide Joined;
  }

  /** Steps that change nobody's hold on a member. */
  lemma ChannelFrom(s: State, s': State, group: set<Id>)
    requires OneChannel(s, group)
    requires forall t :: t in group ==>
      && t in s'.routes && s'.routes[t].keyed == s.routes[t].keyed && Trunked(s'.routes[t])
      && Elements(Group(s', t)) == group
    requires s'.took == s.took
    ensures OneChannel(s', group)
  {
  }

  lemma MembersKeepChannel(s: State, group: set<Id>, op: Op)
    requires OneChannel(s, group) && (op.SetMemberOp? || op.ForgetMembershipOp?)
    ensures OneChannel(Apply(s, op), group)
  {
    hide Joined;
    hide Parks;
    hide Classify;
    var s' := Apply(s, op);
    forall t | t in group ensures t in s'.routes && s'.routes[t].keyed == s.routes[t].keyed && Trunked(s'.routes[t]) {
    }
    ChannelFrom(s, s', group);
  }

  lemma ApplyKeepsChannel(s: State, group: set<Id>, op: Op)
    requires OneChannel(s, group) && Spares(op, group)
    ensures OneChannel(Apply(s, op), group)
  {
    hide Key;
    hide UnkeyAs;
    hide Unkey;
    hide Depart;
    hide Joined;
    hide SetMember;
    hide ForgetMembership;
    match op
    case KeyOp(tg, client, now) => KeyKeepsChannel(s, group, tg, client, now);
    case UnkeyAsOp(tg, client) => ReleaseKeepsChannel(s, group, tg, client);
    case UnkeyOp(tg) => UnkeyKeepsChannel(s, group, tg);
    case SetMemberOp(_, _, _, _) => MembersKeepChannel(s, group, op);
    case ForgetMembershipOp(_) => MembersKeepChannel(s, group, op);
    case ForgetClientOp(client) => DepartKeepsChannel(s, group, One(client), true);
    case UnbindOp(session) =>
      if session in s.sessionToClient {
        var client := s.sessionToClient[session];
        ChannelFrom(s, LoseSession(s, session, client), group);
        DepartKeepsChannel(LoseSession(s, session, client), group, One(client), false);
      }
    case DropServerOp(server) =>
      ChannelFrom(s, LoseSessionsOf(s, server), group);
      DepartKeepsChannel(LoseSessionsOf(s, server), group, Server(server), false);
    case BindOp(_, _) => ChannelFrom(s, Apply(s, op), group);
    case OpenOp(_, _) => ChannelFrom(s, Apply(s, op), group);
    case OpenConventionalOp(_, _) => ChannelFrom(s, Apply(s, op), group);
    case CloseOp(_) => ChannelFrom(s, Apply(s, op), group);
    case SetPatchesOp(_) => ChannelFrom(s, Apply(s, op), group);
  }

  /** Through any run that leaves the group a group of trunked routes - preemptions,
      departures and everything outside it included - its members are all unkeyed or
      all keyed by one and the same client. */
  lemma {:induction false} OneTalkerPerPatchGroup(s: State, group: set<Id>, ops: seq<Op>)
    requires OneChannel(s, group)
    requires forall op :: op in ops ==> Spares(op, group)
    ensures OneChannel(Run(s, ops), group)
    ensures forall t, u, x, y |
      t in group && u in group && Holds(Run(s, ops), t, x) && Holds(Run(s, ops), u, y) ::
      x == y && Holds(Run(s, ops), u, x)
  {
    hide Apply;
    hide Joined;
    hide Spares;
    if ops != [] {
      var init := ops[..|ops| - 1];
      assert forall op :: op in init ==> op in ops;
      OneTalkerPerPatchGroup(s, group, init);
      ApplyKeepsChannel(Run(s, init), group, ops[|ops| - 1]);
    }
  }
}

/**
 * One server's trouble stays its own: what a lost tap takes with it, and what a
 * lost console gives back.
 */
module Isolation {
  import opened Types
  import opened Patches
  import opened Routing
  import opened Steps
  import opened Holding
  import opened Records
  import opened Audience

  // -- Sessions stay within their server ------------------------------------

  ghost predicate BoundWithin(s: State) {
    && (forall k :: k in s.sessionToClient ==> s.sessionToClient[k].server == k.server)
    && (forall c :: c in s.clientToSession ==> s.clientToSession[c].server == c.server)
  }

  lemma ApplyBoundWithin(s: State, op: Op)
    requires BoundWithin(s)
    ensures BoundWithin(Apply(s, op))
  {
    hide Key;
    hide UnkeyAs;
    hide Unkey;
    hide SetMember;
    hide Vacate;
    hide ForgetMembership;
    match op
    case KeyOp(tg, client, now) =>
      if KeyOneResult(s, tg, client, now).Failure? {
        KeyRefusedIs(s, tg, client, now);
      } else {
        KeyAcceptedIs(s, tg, client, now);
      }
    case UnkeyAsOp(tg, client) => UnkeyAsIs(s, tg, client);
    case UnkeyOp(tg) => UnkeyIs(s, tg);
    case SetMemberOp(tg, client, listen, quality) => MembersBindNobody(s, tg, client, listen, quality);
    case ForgetMembershipOp(client) => ForgettingBindsNobody(s, client);
    case _ =>
  }

  lemma MembersBindNobody(s: State, tg: Id, client: ClientId, listen: bool, quality: Quality)
    ensures var s' := SetMember(s, tg, client, listen, quality);
            s'.sessionToClient == s.sessionToClient && s'.clientToSession == s.clientToSession
  {
  }

  lemma ForgettingBindsNobody(s: State, client: ClientId)
    ensures var s' := ForgetMembership(s, client);
            s'.sessionToClient == s.sessionToClient && s'.clientToSession == s.clientToSession
  {
  }

  lemma {:induction false} BindingsStayHome(ops: seq<Op>)
    ensures BoundWithin(Run(INIT, ops))
  {
    hide Apply;
    if ops != [] {
      BindingsStayHome(ops[..|ops| - 1]);
      ApplyBoundWithin(Run(INIT, ops[..|ops| - 1]), ops[|ops| - 1]);
    }
  }

  // -- Losing a server ------------------------------------------------------

  /** No trace of anybody of this server. */
  ghost predicate Gone(s: State, server: U32) {
    && (forall k :: k in s.sessionToClient ==> k.server != server && s.sessionToClient[k].server != server)
    && (forall c :: c in s.clientToSession ==> c.server != server)
    && (forall c :: c in s.keyedBy ==> c.server != server)
    && (forall k :: k in s.took ==> k.0.server != server)
    && (forall t, c :: t in s.routes && c in s.routes[t].members ==> c.server != server)
    && (forall t, c :: Holds(s, t, c) ==> c.server != server)
  }

  lemma DropServerRemovesIt(s: State, server: U32)
    requires BoundWithin(s)
    ensures Gone(DropServer(s, server), server)
  {
    hide Depart;
    hide Holds;
    var s1 := LoseSessionsOf(s, server);
    var s' := DropServer(s, server);
    forall t, c ensures Holds(s', t, c) ==> c.server != server {
      DepartHolds(s1, Server(server), false, t, c);
    }
    DepartForgets(s1, Server(server), false);
    assert forall c: ClientId :: Server(server).Leaves(c) <==> c.server == server;
    assert forall k :: k in s'.sessionToClient ==> k in s.sessionToClient && k.server != server;
  }

  lemma DepartForgets(s: State, who: Departing, parkedToo: bool)
    ensures var s' := Depart(s, who, parkedToo);
            && s'.sessionToClient == s.sessionToClient && s'.clientToSession == s.clientToSession
            && (forall c :: c in s'.keyedBy ==> !who.Leaves(c))
            && (forall k :: k in s'.took ==> !who.Leaves(k.0))
            && forall t, c :: t in s'.routes && c in s'.routes[t].members ==> !who.Leaves(c)
  {
  }

  lemma DepartOffer(s: State, who: Departing, parkedToo: bool, tg: Id, t: Id, c: ClientId)
    ensures Offer(Depart(s, who, parkedToo), tg, t, c) ==
            if who.Leaves(c) then None else Offer(s, tg, t, c)
  {
  }

  lemma {:induction false} DepartServe(s: State, who: Departing, parkedToo: bool, tg: Id, ts: seq<Id>, c: ClientId)
    ensures Serve(Depart(s, who, parkedToo), tg, ts, c) ==
            if who.Leaves(c) then None else Serve(s, tg, ts, c)
  {
    hide Depart;
    hide Offer;
    if ts != [] {
      DepartServe(s, who, parkedToo, tg, ts[..|ts| - 1], c);
      DepartOffer(s, who, parkedToo, tg, ts[|ts| - 1], c);
    }
  }

  lemma {:induction false} SessionsDontServe(s: State, s': State, tg: Id, ts: seq<Id>, c: ClientId)
    requires s'.routes == s.routes
    ensures Serve(s', tg, ts, c) == Serve(s, tg, ts, c)
  {
    if ts != [] {
      SessionsDontServe(s, s', tg, ts[..|ts| - 1], c);
    }
  }

  /** Everybody else is untouched: same holds, same destination, same audience but for
      the listeners who went. */
  lemma DropServerSparesOthers(s: State, server: U32, speaker: ClientId, c: ClientId, t: Id)
    requires speaker.server != server
    ensures Holds(DropServer(s, server), t, speaker) <==> Holds(s, t, speaker)
    ensures IsDestination(DropServer(s, server), speaker, t) <==> IsDestination(s, speaker, t)
    ensures Hears(DropServer(s, server), t, speaker, c) ==
            if c.server == server then None else Hears(s, t, speaker, c)
  {
    hide Joined;
    hide Depart;
    hide Holds;
    var s1 := LoseSessionsOf(s, server);
    var s' := DropServer(s, server);
    forall u ensures Holds(s', u, speaker) <==> Holds(s, u, speaker) {
      DepartHolds(s1, Server(server), false, u, speaker);
      SessionsDontHold(s, s1, u, speaker);
    }
    DepartKeeps(s1, Server(server), false, speaker);
    DepartServe(s1, Server(server), false, t, Group(s, t), c);
    SessionsDontServe(s, s1, t, Group(s, t), c);
  }

  lemma SessionsDontHold(s: State, s': State, t: Id, c: ClientId)
    requires s'.routes == s.routes
    ensures Holds(s', t, c) <==> Holds(s, t, c)
  {
  }

  lemma DepartKeeps(s: State, who: Departing, parkedToo: bool, c: ClientId)
    requires !who.Leaves(c)
    ensures var s' := Depart(s, who, parkedToo);
            && s'.patches == s.patches
            && (c in s'.keyedBy <==> c in s.keyedBy)
            && (c in s.keyedBy ==> s'.keyedBy[c] == s.keyedBy[c])
  {
  }

  // -- Losing a console -----------------------------------------------------

  /** What the console's other open presses took and it still holds, the one release
      gives back as well. */
  ghost predicate OtherPressesInside(s: State, c: ClientId, tg: Id) {
    forall p, t :: p != tg && (c, p) in s.took && t in s.took[(c, p)] && Holds(s, t, c) ==> t in Mine(s, tg, c)
  }

  /** A dropped socket releases the destination of whatever it was transmitting, once.
      That frees everything exactly when no other press took anything else. */
  lemma DropFreesIff(s: State, c: ClientId, tg: Id)
    requires Covered(s, c) && IsDestination(s, c, tg)
    ensures (forall t :: !Holds(UnkeyAs(s, tg, c), t, c)) <==> OtherPressesInside(s, c, tg)
  {
    hide UnkeyAs;
    hide Holds;
    hide IsDestination;
    forall t ensures Holds(UnkeyAs(s, tg, c), t, c) <==> Holds(s, t, c) && t !in Mine(s, tg, c) {
      ReleaseIsScoped(s, tg, c, t, c);
    }
    if OtherPressesInside(s, c, tg) {
      forall t | Holds(s, t, c) ensures t in Mine(s, tg, c) {
        assert Recorded(s, c, t);
      }
    }
  }

  /** So it frees everything for a console with one press outstanding and still held,
      however the patches moved since it pressed. */
  lemma DropFreesASinglePress(s: State, c: ClientId, tg: Id, pressed: Id)
    requires Covered(s, c) && IsDestination(s, c, tg)
    requires c in s.keyedBy && s.keyedBy[c] == pressed && Holds(s, pressed, c)
    requires forall p :: (c, p) in s.took <==> p == pressed
    ensures forall t :: !Holds(UnkeyAs(s, tg, c), t, c)
  {
    hide UnkeyAs;
    hide Holds;
    DropFreesIff(s, c, tg);
  }

  // -- The run the condition rules out --------------------------------------

  /** Two open talkgroups, pressed one after the other. */
  function PressedTwice(c: ClientId, now: Instant): seq<Op> {
    OpenedPair() + [KeyOp(1, c, now)] + [KeyOp(2, c, now)]
  }

  lemma PressedTwiceLeaves(c: ClientId, now: Instant)
    ensures var s := Run(INIT, PressedTwice(c, now));
            && s.routes == TwoRoutes(c, true, true) && s.keyedBy == map[c := 2]
            && s.took == map[(c, 1) := [1], (c, 2) := [2]]
  {
    hide Joined;
    hide Key;
    hide Run;
    hide OpenedPair;
    OpenedPairLeaves(c);
    RunThen(INIT, OpenedPair(), KeyOp(1, c, now));
    RunThen(INIT, OpenedPair() + [KeyOp(1, c, now)], KeyOp(2, c, now));
    var s := Run(INIT, OpenedPair());
    PressAlone(s, c, now, 1);
    assert Key(s, 1, c, now).routes == TwoRoutes(c, true, false);
    PressAlone(Key(s, 1, c, now), c, now, 2);
  }

  /** A console transmitting on two presses is heard on the second; dropping releases
      that one and the first stays keyed against everybody else. */
  lemma DropStrandsTheFirstPress(c: ClientId, now: Instant)
    requires c.IsConsole()
    ensures var ops := PressedTwice(c, now);
            var s, s' := Run(INIT, ops), Run(INIT, ops + [UnkeyAsOp(2, c)]);
            && Covered(s, c) && IsDestination(s, c, 2)
            && Holds(s', 1, c) && forall x :: x != c ==> KeyOneResult(s', 1, x, now).Failure?
  {
    hide Joined;
    hide UnkeyAs;
    hide Run;
    hide PressedTwice;
    var ops := PressedTwice(c, now);
    PressedTwiceLeaves(c, now);
    RunThen(INIT, ops, UnkeyAsOp(2, c));
    var s := Run(INIT, ops);
    assert Recorded(s, c, 1) && Recorded(s, c, 2);
    FirstPressStays(s, c, now);
  }

  lemma FirstPressStays(s: State, c: ClientId, now: Instant)
    requires c.IsConsole() && s.routes == TwoRoutes(c, true, true) && s.took == map[(c, 1) := [1], (c, 2) := [2]]
    ensures var s' := UnkeyAs(s, 2, c);
            Holds(s', 1, c) && forall x :: x != c ==> KeyOneResult(s', 1, x, now).Failure?
  {
    hide Joined;
    hide UnkeyAs;
    ReleaseIsScoped(s, 2, c, 1, c);
    UnkeyAsIs(s, 2, c);
    SettleKeepsTalkers(s.routes[1]);
  }
}

/**
 * What a press is answered, and who transmits afterwards: first come on a free
 * channel, everybody at once on AM, the first alone on FM, dispatch on its second press.
 */
module Answers {
  import opened Types
  import opened Patches
  import opened Routing
  import opened Steps
  import opened Holding
  import opened Audience

  // -- A free channel -------------------------------------------------------

  /** Nobody has to ask twice for a route nobody holds, nor for one already theirs. */
  lemma GrantedIff(s: State, tg: Id, c: ClientId, now: Instant)
    ensures KeyOneResult(s, tg, c, now) == Success(Granted) <==>
            tg in s.routes && (s.routes[tg].keyed == None || s.routes[tg].keyed == Some(c))
  {
  }

  /** An accepted press puts its client on every free member of the group as well. */
  lemma FreeMembersFollow(s: State, tg: Id, c: ClientId, now: Instant, u: Id)
    requires KeyOneResult(s, tg, c, now).Success?
    requires u in Group(s, tg) && u in s.routes && forall x :: !Holds(s, u, x)
    ensures Holds(Key(s, tg, c, now), u, c)
    ensures forall x :: Holds(Key(s, tg, c, now), u, x) ==> x == c
  {
    hide Joined;
    hide Key;
    KeyAcceptedIs(s, tg, c, now);
    var r := s.routes[u];
    NobodyHoldsAQuietRoute(r);
    assert forall x :: r.HeldBy(x) <==> Holds(s, u, x);
  }

  // -- A frequency ----------------------------------------------------------

  /** A second transmitter on a frequency cuts nobody off. On AM both are on the air and
      collide; on FM the first stays the only one heard. */
  lemma SecondTalkerOnAFrequency(s: State, tg: Id, h: ClientId, c: ClientId, now: Instant)
    requires tg in s.routes && s.routes[tg].conventional && s.routes[tg].keyed == Some(h)
    requires h != c && !Holds(s, tg, c)
    ensures KeyOneResult(s, tg, c, now) == Success(if s.routes[tg].am then Mixed else Doubled)
    ensures var s' := Key(s, tg, c, now);
            && (forall x :: x != c ==> (Holds(s', tg, x) <==> Holds(s, tg, x)))
            && (Holds(s', tg, c) <==> s.routes[tg].am)
            && (s.routes[tg].am ==> Collision(s', tg))
  {
    hide Joined;
    hide Key;
    KeyAcceptedIs(s, tg, c, now);
    var s' := Key(s, tg, c, now);
    assert Holds(s', tg, h) && Group(s', tg)[0] == tg;
    if s.routes[tg].am {
      assert s'.routes[tg].am && Holds(s', tg, c);
      assert TalksIn(s', tg, h) && TalksIn(s', tg, c);
    }
  }

  /** It takes two talkers and an AM route to collide. */
  lemma NoCollisionAlone(s: State, tg: Id, c: ClientId)
    requires (forall t :: t in Group(s, tg) && t in s.routes ==> s.routes[t].Mode() != Am && !s.routes[t].am)
             || forall t, x :: t in Group(s, tg) && Holds(s, t, x) ==> x == c
    ensures !Collision(s, tg)
  {
    hide Joined;
  }

  // -- A trunked channel ----------------------------------------------------

  /** Who is turned away from a talkgroup somebody else holds: a field unit always, a
      console always from another console and the first time from a field unit. */
  lemma TurnedAway(s: State, tg: Id, h: ClientId, c: ClientId, now: Instant)
    requires tg in s.routes && !s.routes[tg].conventional && s.routes[tg].keyed == Some(h) && h != c
    ensures var r := KeyOneResult(s, tg, c, now);
            && (c.server != 0 && h.server == 0 ==> r == Failure(DispatchTransmitting))
            && ((c.server == 0) == (h.server == 0) ==> r == Failure(AlreadyKeyed))
            && (c.server == 0 && h.server != 0 && (tg, c) !in s.pending ==> r == Failure(Busy))
  {
  }

  /** A refusal leaves everybody transmitting, released and heard as before. */
  lemma RefusalChangesNobody(s: State, tg: Id, c: ClientId, now: Instant)
    requires KeyOneResult(s, tg, c, now).Failure?
    ensures var s' := Key(s, tg, c, now);
            && s'.routes == s.routes && s'.took == s.took && s'.keyedBy == s.keyedBy && s'.patches == s.patches
  {
    KeyRefusedIs(s, tg, c, now);
  }

  ghost predicate SamePending(s: State, s': State, k: (Id, ClientId)) {
    (k in s'.pending <==> k in s.pending) && (k in s.pending ==> s'.pending[k] == s.pending[k])
  }

  lemma OthersPressLeavesPending(s: State, tg: Id, x: ClientId, now: Instant, k: (Id, ClientId))
    requires k.1 != x
    ensures SamePending(s, Key(s, tg, x, now), k)
  {
    hide Joined;
    hide Answer;
    hide KeyOne;
    hide KeyEach;
    KeyOneIs(s, tg, x, now);
    OthersAre(s, tg);
    KeyEachIs(Pressed(s, tg, x, now), Others(s, tg), x, now);
  }

  /** A console's claim outlasts everything but its own presses. */
  lemma ClaimStands(s: State, op: Op, k: (Id, ClientId))
    requires !(op.KeyOp? && op.client == k.1)
    ensures SamePending(s, Apply(s, op), k)
  {
    hide Joined;
    hide Key;
    hide UnkeyAs;
    hide Unkey;
    match op
    case KeyOp(tg, client, now) => OthersPressLeavesPending(s, tg, client, now, k);
    case UnkeyAsOp(tg, client) => UnkeyAsIs(s, tg, client);
    case UnkeyOp(tg) => UnkeyIs(s, tg);
    case _ =>
  }

  lemma {:induction false} ClaimStandsOver(s: State, ops: seq<Op>, k: (Id, ClientId))
    requires forall op :: op in ops ==> !(op.KeyOp? && op.client == k.1)
    ensures SamePending(s, Run(s, ops), k)
  {
    hide Apply;
    if ops != [] {
      var before, op := ops[..|ops| - 1], ops[|ops| - 1];
      assert forall o :: o in before ==> o in ops;
      ClaimStandsOver(s, before, k);
      ClaimStands(Run(s, before), op, k);
    }
  }

  lemma RefusalArms(s: State, tg: Id, c: ClientId, now: Instant)
    requires KeyOneResult(s, tg, c, now) == Failure(Busy)
    ensures (tg, c) in Key(s, tg, c, now).pending && Key(s, tg, c, now).pending[(tg, c)] == now
  {
  }

  /** Dispatch is let in on its second press: a console that was refused, and pressed
      nothing since, takes the talkgroup from whichever field unit holds it by then if
      it presses again within four seconds, and is refused again if it is later. */
  lemma SecondPressWins(s: State, ops: seq<Op>, tg: Id, c: ClientId, h: ClientId, refused: Instant, now: Instant)
    requires KeyOneResult(s, tg, c, refused) == Failure(Busy)
    requires forall op :: op in ops ==> !(op.KeyOp? && op.client == c)
    requires var s1 := Run(Key(s, tg, c, refused), ops);
             && tg in s1.routes && !s1.routes[tg].conventional
             && s1.routes[tg].keyed == Some(h) && !h.IsConsole()
    ensures var s1 := Run(Key(s, tg, c, refused), ops);
            && KeyOneResult(s1, tg, c, now) ==
                 (if now <= refused + 4_000_000_000 then Success(Preempted(h)) else Failure(Busy))
            && (now <= refused + 4_000_000_000 ==> Holds(Key(s1, tg, c, now), tg, c))
  {
    hide Joined;
    hide Key;
    hide Run;
    RefusalArms(s, tg, c, refused);
    var s0 := Key(s, tg, c, refused);
    ClaimStandsOver(s0, ops, (tg, c));
    var s1 := Run(s0, ops);
    BusyMeansConsole(s, tg, c, refused);
    if now <= refused + 4_000_000_000 {
      KeyAcceptedIs(s1, tg, c, now);
    }
  }

  /** And the claim is spent: after a preemption the console has no claim left anywhere in
      the group but where it was refused by that very press. */
  lemma PreemptionSpendsClaims(s: State, tg: Id, c: ClientId, now: Instant, u: Id)
    requires Preempting(KeyOneResult(s, tg, c, now)) && u in Group(s, tg)
    ensures var s' := Key(s, tg, c, now);
            (u, c) in s'.pending ==> u != tg && s'.pending[(u, c)] == now
  {
    hide Joined;
    hide KeyEach;
    OthersAre(s, tg);
    var s1 := Pressed(s, tg, c, now);
    assert (u, c) !in s1.pending;
    KeyEachArms(s1, Others(s, tg), c, now, u);
  }

  /** Pressing some routes arms nothing else, and only at this moment. */
  lemma {:induction false} KeyEachArms(s: State, ts: seq<Id>, c: ClientId, now: Instant, u: Id)
    requires (u, c) !in s.pending
    ensures var s' := KeyEach(s, ts, c, now); (u, c) in s'.pending ==> u in ts && s'.pending[(u, c)] == now
  {
    hide Answer;
    if ts != [] {
      var init, last := ts[..|ts| - 1], ts[|ts| - 1];
      assert ts == init + [last];
      KeyEachArms(s, init, c, now, u);
    }
  }

  /** A release forgets what was pressed last, so what is still held is heard from the lowest. */
  lemma ReleaseForgetsThePress(s: State, tg: Id, c: ClientId)
    ensures var s' := UnkeyAs(s, tg, c);
            && c !in s'.keyedBy && (c, tg) !in s'.took
            && (forall t :: IsDestination(s', c, t) ==> forall u :: Holds(s', u, c) ==> t <= u)
            && forall x :: x != c ==> (x in s'.keyedBy <==> x in s.keyedBy) && (x in s.keyedBy ==> s'.keyedBy[x] == s.keyedBy[x])
  {
    hide Joined;
    hide UnkeyAs;
    UnkeyAsIs(s, tg, c);
  }

  lemma BusyMeansConsole(s: State, tg: Id, c: ClientId, now: Instant)
    requires KeyOneResult(s, tg, c, now) == Failure(Busy)
    ensures c.IsConsole()
  {
  }

  // -- Routes ---------------------------------------------------------------

  /** A frequency is heard the way it was opened, by every member listening to it alone. */
  lemma OpenedAsItSounds(s: State, id: Id, am: bool, speaker: ClientId, c: ClientId)
    requires Group(s, id) == [id] && c != speaker
    requires id in s.routes && c in s.routes[id].members && s.routes[id].members[c].listen
    ensures Hears(OpenConventional(s, id, am), id, speaker, c) ==
            Some(Listener(c, s.routes[id].members[c].quality, if am then Am else Fm, false))
  {
    hide Joined;
    var s' := OpenConventional(s, id, am);
    assert Group(s', id) == [id];
    var ts := [id];
    assert ts[..0] == [];
    assert Serve(s', id, ts[..0], c) == None;
  }

  /** What a listener gets comes from one joined route it listens to: as that route sounds,
      over its link there, none of its other links better, and bridged off the pressed one. */
  lemma HeardAsThatRouteSounds(s: State, tg: Id, speaker: ClientId, c: ClientId)
    requires Hears(s, tg, speaker, c).Some?
    ensures var l := Hears(s, tg, speaker, c).value;
            && l.client == c
            && (exists t :: t in Group(s, tg) && t in s.routes && c in s.routes[t].members
                   && s.routes[t].members[c] == Member(true, l.quality)
                   && l.mode == (if !s.routes[t].conventional then P25 else if s.routes[t].am then Am else Fm)
                   && (l.bridged <==> t != tg))
            && forall t ::
                 t in Group(s, tg) && t in s.routes && c in s.routes[t].members && s.routes[t].members[c].listen ==>
                   s.routes[t].members[c].quality <= l.quality
  {
    hide Joined;
    hide Offer;
    var ts := Group(s, tg);
    HearsOnTheBestLink(s, tg, speaker, c);
    forall t { OfferShape(s, tg, t, c); }
    var i: nat :| FirstBest(s, tg, ts, c, i) && Hears(s, tg, speaker, c) == Offer(s, tg, ts[i], c);
    assert ts[i] in ts;
  }

  /** An id nobody opened sounds as its number says: a talkgroup below 2^31; above it AM
      between 108 and 137 MHz, in steps of 100 Hz, and FM elsewhere. */
  lemma UnknownIdSoundsAsItsNumber(s: State, tg: Id, c: ClientId, listen: bool, quality: Quality)
    requires tg !in s.routes
    ensures var s' := SetMember(s, tg, c, listen, quality);
            && tg in s'.routes && s'.routes[tg].Quiet()
            && s'.routes[tg].members == map[c := Member(listen, quality)] && s'.routes[tg].deferred == map[]
            && s'.routes[tg].Mode() ==
                 if tg < 2147483648 then P25
                 else if 108_000_000 <= (tg - 2147483648) * 100 < 137_000_000 then Am else Fm
  {
  }

  /** A talkgroup opened fresh is trunked, free and nobody's; opened again it only changes its key. */
  lemma OpenedTrunked(s: State, tg: Id, encrypted: bool)
    ensures var s' := Open(s, tg, encrypted);
            && tg in s'.routes && s'.routes[tg].encrypted == encrypted
            && (forall x :: Holds(s', tg, x) <==> Holds(s, tg, x))
            && (tg !in s.routes ==> s'.routes[tg].Mode() == P25 && s'.routes[tg].members == map[])
            && (tg in s.routes ==> s'.routes[tg] == s.routes[tg].(encrypted := encrypted))
            && forall t :: t != tg ==> (t in s'.routes <==> t in s.routes) && (t in s.routes ==> s'.routes[t] == s.routes[t])
  {
  }

  // -- Coming and going -----------------------------------------------------

  /** A session that names a player is that player's, until it is lost. */
  lemma BoundIsFound(s: State, session: SessionId, player: U32)
    ensures var c, s' := ClientId(session.server, player), Bind(s, session, Some(player));
            && session in s'.sessionToClient && s'.sessionToClient[session] == c
            && c in s'.clientToSession && s'.clientToSession[c] == session
            && s'.routes == s.routes && Bind(s, session, None) == s
  {
  }

  /** What is left of a client: nothing, and of everybody else everything. */
  ghost predicate GoneFrom(s: State, s': State, c: ClientId) {
    && s'.routes.Keys == s.routes.Keys && s'.patches == s.patches
    && c !in s'.keyedBy && (forall p :: (c, p) !in s'.took)
    && (forall t :: t in s.routes ==> c !in s'.routes[t].members && !Holds(s', t, c))
    && forall x :: x != c ==> KeepsAll(s, s', x)
  }

  ghost predicate KeepsAll(s: State, s': State, x: ClientId) {
    && (x in s'.keyedBy <==> x in s.keyedBy) && (x in s.keyedBy ==> s'.keyedBy[x] == s.keyedBy[x])
    && (forall p :: ((x, p) in s'.took <==> (x, p) in s.took) && ((x, p) in s.took ==> s'.took[(x, p)] == s.took[(x, p)]))
    && forall t :: t in s.routes ==>
         && t in s'.routes
         && (Holds(s', t, x) <==> Holds(s, t, x))
         && (x in s'.routes[t].members <==> x in s.routes[t].members)
         && (x in s.routes[t].members ==> s'.routes[t].members[x] == s.routes[t].members[x])
         && (x in s'.routes[t].deferred <==> x in s.routes[t].deferred)
         && (x in s.routes[t].deferred ==> s'.routes[t].deferred[x] == s.routes[t].deferred[x])
  }

  lemma DepartKeepsAll(s: State, c: ClientId, parkedToo: bool, x: ClientId)
    requires x != c
    ensures KeepsAll(s, Depart(s, One(c), parkedToo), x)
  {
    hide Holds;
    hide Vacate;
    forall t ensures Holds(Depart(s, One(c), parkedToo), t, x) <==> Holds(s, t, x) {
      DepartHolds(s, One(c), parkedToo, t, x);
    }
    forall t | t in s.routes {
      VacateKeeps(s.routes[t], c, parkedToo, x);
    }
  }

  lemma VacateKeeps(r: Route, c: ClientId, parkedToo: bool, x: ClientId)
    requires x != c
    ensures var r' := Vacate(r, One(c), parkedToo);
            && (x in r'.members <==> x in r.members) && (x in r.members ==> r'.members[x] == r.members[x])
            && (x in r'.deferred <==> x in r.deferred) && (x in r.deferred ==> r'.deferred[x] == r.deferred[x])
  {
  }

  lemma DepartIsGone(s: State, c: ClientId, parkedToo: bool)
    ensures GoneFrom(s, Depart(s, One(c), parkedToo), c)
    ensures parkedToo ==> forall t :: t in s.routes ==> c !in Depart(s, One(c), parkedToo).routes[t].deferred
  {
    hide Holds;
    hide KeepsAll;
    forall t ensures !Holds(Depart(s, One(c), parkedToo), t, c) {
      DepartHolds(s, One(c), parkedToo, t, c);
    }
    forall x | x != c ensures KeepsAll(s, Depart(s, One(c), parkedToo), x) {
      DepartKeepsAll(s, c, parkedToo, x);
    }
  }

  lemma SameButSessions(s: State, s1: State, s': State, c: ClientId)
    requires s1.routes == s.routes && s1.keyedBy == s.keyedBy && s1.took == s.took && s1.patches == s.patches
    requires GoneFrom(s1, s', c)
    ensures GoneFrom(s, s', c)
  {
    forall x | x != c ensures KeepsAll(s, s', x) {
      assert KeepsAll(s1, s', x);
    }
  }

  /** A player whose session is lost is gone, alone. */
  lemma UnboundIsGone(s: State, session: SessionId)
    requires session in s.sessionToClient
    ensures var c, s' := s.sessionToClient[session], Unbind(s, session);
            && session !in s'.sessionToClient && c !in s'.clientToSession && GoneFrom(s, s', c)
  {
    hide GoneFrom;
    hide Depart;
    var c := s.sessionToClient[session];
    var s1 := LoseSession(s, session, c);
    DepartIsGone(s1, c, false);
    DepartKeepsSessions(s1, c, false);
    SameButSessions(s, s1, Unbind(s, session), c);
  }

  /** A lost session or server takes nothing that was parked, not even for those it took. */
  lemma LossLeavesWhatIsParked(s: State, session: SessionId, server: U32, t: Id)
    requires t in s.routes
    ensures t in Unbind(s, session).routes && Unbind(s, session).routes[t].deferred == s.routes[t].deferred
    ensures t in DropServer(s, server).routes && DropServer(s, server).routes[t].deferred == s.routes[t].deferred
  {
  }

  lemma DepartKeepsSessions(s: State, c: ClientId, parkedToo: bool)
    ensures var s' := Depart(s, One(c), parkedToo);
            s'.sessionToClient == s.sessionToClient && s'.clientToSession == s.clientToSession
  {
  }

  /** A console that is forgotten is gone, alone, with anything parked for it. */
  lemma ForgottenIsGone(s: State, c: ClientId)
    ensures GoneFrom(s, ForgetClient(s, c), c)
    ensures forall t :: t in s.routes ==> c !in ForgetClient(s, c).routes[t].deferred
  {
    hide GoneFrom;
    DepartIsGone(s, c, true);
  }

  /** A console that stops monitoring is a member of nothing and transmits where it did. */
  lemma StopsMonitoring(s: State, c: ClientId, t: Id)
    requires t in s.routes
    ensures var s' := ForgetMembership(s, c);
            && t in s'.routes && c !in s'.routes[t].members && c !in s'.routes[t].deferred
            && (forall x :: Holds(s', t, x) <==> Holds(s, t, x))
            && s'.took == s.took && s'.keyedBy == s.keyedBy
            && forall x :: x != c ==>
                 && (x in s'.routes[t].members <==> x in s.routes[t].members)
                 && (x in s.routes[t].members ==> s'.routes[t].members[x] == s.routes[t].members[x])
                 && (x in s'.routes[t].deferred <==> x in s.routes[t].deferred)
                 && (x in s.routes[t].deferred ==> s'.routes[t].deferred[x] == s.routes[t].deferred[x])
  {
  }
}

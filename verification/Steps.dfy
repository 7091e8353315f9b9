/**
 * What each step does to one route at a time. Everything proved about runs
 * goes through these.
 */
module Steps {
  import opened Types
  import opened Patches
  import opened Routing

  // -- Draining -------------------------------------------------------------

  ghost predicate Drained(s: State, ts: seq<Id>, t: Id) {
    exists o :: o in ts && IsClear(s, o) && t in Group(s, o)
  }

  lemma SettleTwice(r: Route)
    ensures Settle(Settle(r)) == Settle(r)
  {
    assert Settle(Settle(r)).members == Settle(r).members;
  }

  /** Clearness depends on nothing but the patches and who is talking. */
  lemma SameClear(s: State, s': State, o: Id)
    requires s'.patches == s.patches && s'.routes.Keys == s.routes.Keys
    requires forall t :: t in s.routes ==> s'.routes[t].Quiet() == s.routes[t].Quiet()
    ensures IsClear(s', o) <==> IsClear(s, o)
  {
  }

  lemma DrainRoutes(s: State, tg: Id)
    ensures Drain(s, tg) == s.(routes := Drain(s, tg).routes)
    ensures Drain(s, tg).routes.Keys == s.routes.Keys
    ensures forall t :: t in s.routes ==>
      Drain(s, tg).routes[t] == if Drained(s, [tg], t) then Settle(s.routes[t]) else s.routes[t]
  {
    hide Settle;
    hide Joined;
    assert tg in [tg];
    assert forall t :: Drained(s, [tg], t) <==> IsClear(s, tg) && t in Group(s, tg);
  }

  lemma DrainIs(s: State, tg: Id)
    ensures Drain(s, tg) == s.(routes := Drain(s, tg).routes)
    ensures Drain(s, tg).routes.Keys == s.routes.Keys
    ensures forall t :: t in s.routes ==>
      Drain(s, tg).routes[t] == if Drained(s, [tg], t) then Settle(s.routes[t]) else s.routes[t]
    ensures forall o :: IsClear(Drain(s, tg), o) <==> IsClear(s, o)
  {
    DrainRoutes(s, tg);
    var s' := Drain(s, tg);
    forall o ensures IsClear(s', o) <==> IsClear(s, o) {
      SameClear(s, s', o);
    }
  }

  lemma {:induction false} DrainEachIs(s: State, ts: seq<Id>)
    ensures DrainEach(s, ts) == s.(routes := DrainEach(s, ts).routes)
    ensures DrainEach(s, ts).routes.Keys == s.routes.Keys
    ensures forall t :: t in s.routes ==>
      DrainEach(s, ts).routes[t] == if Drained(s, ts, t) then Settle(s.routes[t]) else s.routes[t]
    ensures forall o :: IsClear(DrainEach(s, ts), o) <==> IsClear(s, o)
  {
    if ts == [] {
    } else {
      var init, last := ts[..|ts| - 1], ts[|ts| - 1];
      var s1 := DrainEach(s, init);
      DrainEachIs(s, init);
      DrainIs(s1, last);
      assert ts == init + [last];
      forall t | t in s.routes
        ensures DrainEach(s, ts).routes[t] == if Drained(s, ts, t) then Settle(s.routes[t]) else s.routes[t]
      {
        SettleTwice(s.routes[t]);
        assert Drained(s, ts, t) <==> Drained(s, init, t) || Drained(s1, [last], t) by {
          assert last in ts && last in [last];
          if Drained(s, init, t) {
            var o :| o in init && IsClear(s, o) && t in Group(s, o);
            assert o in ts;
          }
        }
      }
    }
  }

  /** A release, route by route: who stops talking, and whose parked quality lands. */
  lemma UnkeyAsIs(s: State, tg: Id, client: ClientId)
    ensures var mine, s1 := Mine(s, tg, client), Release(s, tg, client);
            var s' := UnkeyAs(s, tg, client);
            && s' == s1.(routes := s'.routes)
            && s'.routes.Keys == s.routes.Keys
            && (forall o :: IsClear(s', o) <==> IsClear(s1, o))
            && forall t :: t in s.routes ==>
                 var r := if t in mine then ReleaseRoute(s.routes[t], client) else s.routes[t];
                 s'.routes[t] == if Drained(s1, mine, t) then Settle(r) else r
  {
    DrainEachIs(Release(s, tg, client), Mine(s, tg, client));
  }

  lemma TearDownIs(s: State, tg: Id)
    ensures var s1 := TearDown(s, tg);
            && s1 == s.(routes := s1.routes) && s1.routes.Keys == s.routes.Keys
            && forall t :: t in s.routes ==> s1.routes[t] == if t == tg then Silenced(s.routes[t]) else s.routes[t]
  {
  }

  lemma UnkeyIs(s: State, tg: Id)
    ensures var s1, s' := TearDown(s, tg), Unkey(s, tg);
            && s' == s.(routes := s'.routes)
            && s'.routes.Keys == s.routes.Keys
            && (forall o :: IsClear(s', o) <==> IsClear(s1, o))
            && forall t :: t in s.routes ==>
                 var r := if t == tg then Silenced(s.routes[t]) else s.routes[t];
                 s'.routes[t] == if Drained(s1, [tg], t) then Settle(r) else r
  {
    hide Joined;
    hide Settle;
    hide IsClear;
    hide Drained;
    hide Drain;
    hide TearDown;
    TearDownIs(s, tg);
    DrainIs(TearDown(s, tg), tg);
  }

  // -- Keying ---------------------------------------------------------------

  ghost predicate SameButKeys(s: State, s': State) {
    && s'.routes.Keys == s.routes.Keys
    && s'.sessionToClient == s.sessionToClient && s'.clientToSession == s.clientToSession
    && s'.keyedBy == s.keyedBy && s'.patches == s.patches && s'.took == s.took && s'.told == s.told
  }

  ghost predicate PendingOutside(s: State, s': State, ts: seq<Id>, client: ClientId) {
    forall k: (Id, ClientId) :: !(k.0 in ts && k.1 == client) ==>
      (k in s'.pending <==> k in s.pending) && (k in s.pending ==> s'.pending[k] == s.pending[k])
  }

  lemma KeyOneIs(s: State, tg: Id, client: ClientId, now: Instant)
    ensures var s' := KeyOne(s, tg, client, now);
            && SameButKeys(s, s')
            && (forall t :: t in s.routes ==>
                  s'.routes[t] == if t == tg then Answered(s, t, client, now) else s.routes[t])
            && PendingOutside(s, s', [tg], client)
  {
    hide Answer;
    hide Insisting;
    assert tg in [tg];
  }

  lemma {:induction false} KeyEachIs(s: State, ts: seq<Id>, client: ClientId, now: Instant)
    requires NoDuplicates(ts)
    ensures var s' := KeyEach(s, ts, client, now);
            && SameButKeys(s, s')
            && (forall t :: t in s.routes ==>
                  s'.routes[t] == if t in ts then Answered(s, t, client, now) else s.routes[t])
            && PendingOutside(s, s', ts, client)
  {
    if ts == [] {
    } else {
      var init, last := ts[..|ts| - 1], ts[|ts| - 1];
      assert ts == init + [last];
      assert last !in init;
      KeyEachIs(s, init, client, now);
      KeyOneIs(KeyEach(s, init, client, now), last, client, now);
    }
  }

  /** The route as the press left it, before the best-effort key of the siblings. */
  function Seized(s: State, tg: Id, client: ClientId, now: Instant, t: Id): Route
    requires t in s.routes
  {
    var result := KeyOneResult(s, tg, client, now);
    if Preempting(result) then SeizeRoute(s.routes[t], client, result.value.holder) else s.routes[t]
  }

  predicate SiblingInsists(s: State, tg: Id, client: ClientId, now: Instant, t: Id) {
    !Preempting(KeyOneResult(s, tg, client, now)) && Insisting(s, t, client, now)
  }

  lemma OthersAre(s: State, tg: Id)
    ensures NoDuplicates(Others(s, tg))
    ensures forall t :: t in Others(s, tg) <==> t in Group(s, tg) && t != tg
  {
    assert Group(s, tg) == [tg] + Others(s, tg);
  }

  lemma PressedIs(s: State, tg: Id, client: ClientId, now: Instant)
    ensures var s' := Pressed(s, tg, client, now);
            && SameButKeys(s, s')
            && (forall t :: t in s.routes ==>
                  s'.routes[t] ==
                    if t == tg then Answered(s, t, client, now)
                    else if t in Group(s, tg) then Seized(s, tg, client, now, t)
                    else s.routes[t])
            && forall t :: t in Others(s, tg) ==>
                 (Insisting(s', t, client, now) <==> SiblingInsists(s, tg, client, now, t))
  {
    hide Answer;
    hide Joined;
    OthersAre(s, tg);
    KeyOneIs(s, tg, client, now);
  }

  /** What a sibling of the pressed route becomes. */
  function Sibling(s: State, tg: Id, client: ClientId, now: Instant, t: Id): Route
    requires t in s.routes
  {
    Answer(Seized(s, tg, client, now, t), client, SiblingInsists(s, tg, client, now, t)).1
  }

  lemma KeyRefusedIs(s: State, tg: Id, client: ClientId, now: Instant)
    requires KeyOneResult(s, tg, client, now).Failure?
    ensures var s' := Key(s, tg, client, now);
            s' == s.(pending := s'.pending, log := s'.log)
  {
    if tg in s.routes {
      assert Answered(s, tg, client, now) == s.routes[tg];
      assert s.routes[tg := s.routes[tg]] == s.routes;
    }
  }

  /** A key that was accepted, route by route. */
  lemma KeyAcceptedIs(s: State, tg: Id, client: ClientId, now: Instant)
    requires KeyOneResult(s, tg, client, now).Success?
    ensures var s' := Key(s, tg, client, now);
            && SameButKeys(s, s'.(took := s.took, keyedBy := s.keyedBy))
            && s'.took == s.took[(client, tg) := Group(s, tg)]
            && s'.keyedBy == s.keyedBy[client := tg]
            && forall t :: t in s.routes ==>
                 s'.routes[t] ==
                   if t == tg then Answered(s, t, client, now)
                   else if t in Group(s, tg) then Sibling(s, tg, client, now, t)
                   else s.routes[t]
  {
    OthersAre(s, tg);
    PressedIs(s, tg, client, now);
    KeyEachIs(Pressed(s, tg, client, now), Others(s, tg), client, now);
  }
}

/**
 * The router itself: the operations on its own tables, each proved to be the
 * step of the same name in Routing.dfy.
 */
module RouterObject {
  import opened Types
  import opened Lanes
  import opened Patches
  import opened Routing
  import opened Holding
  import opened Audience
  import S = Routing

  // -- One more turn of each loop -------------------------------------------

  function VacateSome(routes: map<Id, Route>, done: set<Id>, who: Departing, parkedToo: bool): map<Id, Route> {
    map t | t in routes :: if t in done then Vacate(routes[t], who, parkedToo) else routes[t]
  }

  function ForgetSome(routes: map<Id, Route>, done: set<Id>, client: ClientId): map<Id, Route> {
    map t | t in routes ::
      if t in done then routes[t].(members := routes[t].members - {client}, deferred := routes[t].deferred - {client})
      else routes[t]
  }

  function ReleaseSome(routes: map<Id, Route>, done: seq<Id>, client: ClientId): map<Id, Route> {
    map t | t in routes :: if t in done then ReleaseRoute(routes[t], client) else routes[t]
  }

  function SettleSome(routes: map<Id, Route>, done: seq<Id>): map<Id, Route> {
    map t | t in routes :: if t in done then Settle(routes[t]) else routes[t]
  }

  lemma ReleaseTwice(r: Route, client: ClientId)
    ensures ReleaseRoute(ReleaseRoute(r, client), client) == ReleaseRoute(r, client)
  {
    WithoutNobody(Without(r.also, One(client)), One(client));
  }

  /** Each client at most once, never the speaker, and exactly those served, as served. */
  ghost predicate Lists(out: seq<Listener>, speaker: ClientId, served: ClientId -> Option<Listener>) {
    && (forall i, j :: 0 <= i < j < |out| ==> out[i].client != out[j].client)
    && (forall i :: 0 <= i < |out| ==> out[i].client != speaker && served(out[i].client) == Some(out[i]))
    && (forall c :: c != speaker && served(c).Some? ==> exists i :: 0 <= i < |out| && out[i].client == c)
  }

  lemma ListsSame(out: seq<Listener>, speaker: ClientId,
                  f: ClientId -> Option<Listener>, g: ClientId -> Option<Listener>)
    requires Lists(out, speaker, f) && forall c :: f(c) == g(c)
    ensures Lists(out, speaker, g)
  {
  }

  /** The listeners over the joined routes `ts`, as each alone would be served. */
  ghost predicate IsAudience(s: State, tg: Id, speaker: ClientId, ts: seq<Id>, out: seq<Listener>) {
    Lists(out, speaker, c => Serve(s, tg, ts, c))
  }

  /** Part way through a route's members: `todo` have not been offered it yet. */
  ghost function ServedSoFar(s: State, tg: Id, ts: seq<Id>, i: nat, todo: set<ClientId>, c: ClientId): Option<Listener>
    requires i < |ts|
  {
    if c in todo then Serve(s, tg, ts[..i], c)
    else Better(Serve(s, tg, ts[..i], c), Offer(s, tg, ts[i], c))
  }

  ghost predicate Merged(s: State, tg: Id, speaker: ClientId, ts: seq<Id>, i: nat, todo: set<ClientId>, out: seq<Listener>)
    requires i < |ts|
  {
    Lists(out, speaker, c => ServedSoFar(s, tg, ts, i, todo, c))
  }

  /** What one client's turn makes of the list. */
  ghost predicate Folded(was: seq<Listener>, out: seq<Listener>, at: nat, c: ClientId, offer: Option<Listener>) {
    && at <= |was| && (at < |was| ==> was[at].client == c)
    && (at == |was| ==> forall j :: 0 <= j < |was| ==> was[j].client != c)
    && out == if offer.None? then was
              else if at == |was| then was + [offer.value]
              else if offer.value.quality > was[at].quality then was[at := offer.value] else was
  }

  lemma FoldKeepsLists(was: seq<Listener>, out: seq<Listener>, at: nat, speaker: ClientId, c: ClientId,
                       offer: Option<Listener>, f: ClientId -> Option<Listener>, g: ClientId -> Option<Listener>)
    requires Lists(was, speaker, f) && Folded(was, out, at, c, offer)
    requires offer.Some? ==> c != speaker && offer.value.client == c
    requires forall x :: x != c ==> g(x) == f(x)
    requires c != speaker ==> g(c) == Better(f(c), offer)
    ensures Lists(out, speaker, g)
  {
    if offer.Some? {
      assert f(c) == if at < |was| then Some(was[at]) else None;
      forall x | x != speaker && g(x).Some? ensures exists j :: 0 <= j < |out| && out[j].client == x {
        if x == c {
          assert out[at].client == c;
        } else {
          var j :| 0 <= j < |was| && was[j].client == x;
          assert out[j].client == x;
        }
      }
    }
  }

  lemma MergeOne(s: State, tg: Id, speaker: ClientId, ts: seq<Id>, i: nat, todo: set<ClientId>, c: ClientId,
                 was: seq<Listener>, out: seq<Listener>, at: nat)
    requires i < |ts| && c in todo && Merged(s, tg, speaker, ts, i, todo, was)
    requires Folded(was, out, at, c, if c == speaker then None else Offer(s, tg, ts[i], c))
    ensures Merged(s, tg, speaker, ts, i, todo - {c}, out)
  {
    hide Serve;
    hide Lists;
    OfferShape(s, tg, ts[i], c);
    FoldKeepsLists(was, out, at, speaker, c, if c == speaker then None else Offer(s, tg, ts[i], c),
                   x => ServedSoFar(s, tg, ts, i, todo, x), x => ServedSoFar(s, tg, ts, i, todo - {c}, x));
  }

  ghost predicate TalksOnSome(s: State, ts: seq<Id>, c: ClientId) {
    exists t :: t in ts && Holds(s, t, c)
  }

  lemma TalksOnOneMore(s: State, ts: seq<Id>, t: Id, c: ClientId)
    ensures TalksOnSome(s, ts + [t], c) <==> TalksOnSome(s, ts, c) || Holds(s, t, c)
  {
    if TalksOnSome(s, ts, c) {
      var u :| u in ts && Holds(s, u, c);
      assert u in ts + [t];
    }
    assert t in ts + [t];
  }

  lemma ServeMore(s: State, tg: Id, ts: seq<Id>, i: nat, c: ClientId)
    requires i < |ts|
    ensures Serve(s, tg, ts[..i + 1], c) == Better(Serve(s, tg, ts[..i], c), Offer(s, tg, ts[i], c))
  {
    assert ts[..i + 1][..i] == ts[..i];
  }

  lemma SeizeNone(s: State, client: ClientId, holder: ClientId)
    ensures Seize(s, [], client, holder) == s
  {
    assert Seize(s, [], client, holder).routes == s.routes;
    assert Seize(s, [], client, holder).pending == s.pending;
  }

  lemma SeizeMore(s: State, ts: seq<Id>, t: Id, client: ClientId, holder: ClientId)
    requires t !in ts
    ensures var s1 := Seize(s, ts, client, holder);
            Seize(s, ts + [t], client, holder) ==
              s1.(routes := if t in s1.routes then s1.routes[t := SeizeRoute(s1.routes[t], client, holder)] else s1.routes,
                  pending := s1.pending - {(t, client)})
  {
    hide SeizeRoute;
    var s1, s2 := Seize(s, ts, client, holder), Seize(s, ts + [t], client, holder);
    assert s2.routes == if t in s1.routes then s1.routes[t := SeizeRoute(s1.routes[t], client, holder)] else s1.routes;
    assert s2.pending == s1.pending - {(t, client)};
  }

  /** A route joined to nothing is keyed alone. */
  lemma AloneIs(s: State, tg: Id, client: ClientId, now: Instant)
    requires KeyOneResult(s, tg, client, now).Success? && Group(s, tg) == [tg]
    ensures var s1 := S.KeyOne(s, tg, client, now);
            Key(s, tg, client, now) == s1.(took := s1.took[(client, tg) := [tg]], keyedBy := s1.keyedBy[client := tg])
  {
    hide Joined;
    hide S.KeyOne;
    hide KeyOneResult;
    assert Others(s, tg) == [];
    var s1 := S.KeyOne(s, tg, client, now);
    var result := KeyOneResult(s, tg, client, now);
    if Preempting(result) {
      SeizeNone(s1, client, result.value.holder);
    }
  }

  lemma SweepGrows(table: Table, start: seq<Id>)
    requires NoDuplicates(start) && Sweep(table, start) != start
    ensures Mentioned(table) - Elements(Sweep(table, start)) < Mentioned(table) - Elements(start)
    ensures Grow(table, start) == Grow(table, Sweep(table, start))
  {
    hide Sweep;
    var next := Sweep(table, start);
    var t := next[|start|];
    assert t in next && t !in start;
    assert t in Mentioned(table) - Elements(start);
  }

  class Router {
    var routes: map<Id, Route>
    var sessionToClient: map<SessionId, ClientId>
    var clientToSession: map<ClientId, SessionId>
    var keyedBy: map<ClientId, Id>
    var patches: Table
    var pending: map<(Id, ClientId), Instant>
    var took: map<(ClientId, Id), seq<Id>>
    ghost var told: map<(Id, ClientId), Member>
    ghost var log: seq<Event>

    ghost function Abs(): State
      reads this
    {
      State(routes, sessionToClient, clientToSession, keyedBy, patches, pending, took, told, log)
    }

    constructor ()
      ensures Abs() == INIT
    {
      routes, sessionToClient, clientToSession, keyedBy := map[], map[], map[], map[];
      patches, pending, took, told, log := [], map[], map[], map[], [];
    }

    // -- Patches ------------------------------------------------------------

    method SetPatches(groups: Table)
      modifies this`patches
      ensures Abs() == S.SetPatches(old(Abs()), groups)
    {
      patches := groups;
    }

    /** Pushes whatever of one patch is not there yet. */
    method Absorb(patch: seq<Id>, start: seq<Id>) returns (out: seq<Id>, grew: bool)
      ensures out == AddAll(start, patch)
      ensures grew <==> out != start
    {
      out, grew := start, false;
      for j := 0 to |patch|
        invariant out == AddAll(start, patch[..j])
        invariant grew <==> out != start
      {
        assert patch[..j + 1][..j] == patch[..j];
        if patch[j] !in out {
          out := out + [patch[j]];
          grew := true;
        }
      }
      assert patch[..|patch|] == patch;
    }

    method SweepOnce(start: seq<Id>) returns (out: seq<Id>, grew: bool)
      ensures out == Sweep(patches, start)
      ensures grew <==> out != start
    {
      hide AddAll;
      out, grew := start, false;
      for i := 0 to |patches|
        invariant out == Sweep(patches[..i], start)
        invariant grew <==> out != start
      {
        assert patches[..i + 1][..i] == patches[..i];
        if Touches(patches[i], out) {
          var more;
          out, more := Absorb(patches[i], out);
          grew := grew || more;
        }
      }
      assert patches[..|patches|] == patches;
    }

    method JoinedTo(tg: Id) returns (out: seq<Id>)
      ensures out == Group(Abs(), tg)
    {
      hide Sweep;
      out := [tg];
      var grew := true;
      while grew
        invariant NoDuplicates(out) && Grow(patches, out) == Joined(patches, tg)
        invariant !grew ==> Sweep(patches, out) == out
        decreases Mentioned(patches) - Elements(out), grew
      {
        ghost var start := out;
        out, grew := SweepOnce(out);
        if grew {
          SweepGrows(patches, start);
        }
      }
    }

    // -- Sessions and departures --------------------------------------------

    method Bind(session: SessionId, player: Option<U32>) returns (r: Option<ClientId>)
      modifies this`sessionToClient, this`clientToSession
      ensures Abs() == S.Bind(old(Abs()), session, player)
      ensures r == if player.Some? then Some(ClientId(session.server, player.value)) else None
    {
      if player.None? {
        return None;
      }
      var client := ClientId(session.server, player.value);
      sessionToClient := sessionToClient[session := client];
      clientToSession := clientToSession[client := session];
      return Some(client);
    }

    /** One turn of the loop that `unbind`, `drop_server` and `forget_client` share. */
    static method VacateRoute(before: Route, who: Departing, parkedToo: bool) returns (route: Route)
      ensures route == Vacate(before, who, parkedToo)
    {
      route := before.(members := map c | c in before.members && !who.Leaves(c) :: before.members[c]);
      if parkedToo {
        route := route.(deferred := map c | c in route.deferred && !who.Leaves(c) :: route.deferred[c]);
      }
      route := route.(also := Without(route.also, who));
      if route.keyed.Some? && who.Leaves(route.keyed.value) {
        route := route.(keyed := None);
      }
    }

    method VacateRoutes(who: Departing, parkedToo: bool)
      modifies this`routes
      ensures routes == map t | t in old(routes) :: Vacate(old(routes)[t], who, parkedToo)
    {
      hide Vacate;
      var todo := routes.Keys;
      while todo != {}
        invariant todo <= old(routes).Keys
        invariant routes == VacateSome(old(routes), old(routes).Keys - todo, who, parkedToo)
        decreases todo
      {
        var t :| t in todo;
        var route := VacateRoute(routes[t], who, parkedToo);
        routes := routes[t := route];
        todo := todo - {t};
      }
    }

    method ForgetHolds(who: Departing)
      modifies this`keyedBy, this`took
      ensures keyedBy == map c | c in old(keyedBy) && !who.Leaves(c) :: old(keyedBy)[c]
      ensures took == map k | k in old(took) && !who.Leaves(k.0) :: old(took)[k]
    {
      keyedBy := map c | c in keyedBy && !who.Leaves(c) :: keyedBy[c];
      took := map k | k in took && !who.Leaves(k.0) :: took[k];
    }

    method Unbind(session: SessionId)
      modifies this
      ensures Abs() == S.Unbind(old(Abs()), session)
    {
      hide Vacate;
      if session in sessionToClient {
        var client := sessionToClient[session];
        sessionToClient := sessionToClient - {session};
        clientToSession := clientToSession - {client};
        VacateRoutes(One(client), false);
        ForgetHolds(One(client));
      }
    }

    method DropServer(server: U32)
      modifies this
      ensures Abs() == S.DropServer(old(Abs()), server)
    {
      hide Vacate;
      sessionToClient := map k | k in sessionToClient && k.server != server :: sessionToClient[k];
      clientToSession := map c | c in clientToSession && c.server != server :: clientToSession[c];
      VacateRoutes(Server(server), false);
      ForgetHolds(Server(server));
    }

    method ForgetClient(client: ClientId)
      modifies this
      ensures Abs() == S.ForgetClient(old(Abs()), client)
    {
      VacateRoutes(One(client), true);
      ForgetHolds(One(client));
    }

    method ForgetMembership(client: ClientId)
      modifies this`routes
      ensures Abs() == S.ForgetMembership(old(Abs()), client)
    {
      var todo := routes.Keys;
      while todo != {}
        invariant todo <= old(routes).Keys
        invariant routes == ForgetSome(old(routes), old(routes).Keys - todo, client)
        decreases todo
      {
        var t :| t in todo;
        var route := routes[t];
        routes := routes[t := route.(members := route.members - {client}, deferred := route.deferred - {client})];
        todo := todo - {t};
      }
    }

    // -- Routes and members -------------------------------------------------

    method Open(tg: Id, encrypted: bool) returns (isNew: bool)
      modifies this`routes
      ensures Abs() == S.Open(old(Abs()), tg, encrypted)
      ensures isNew <==> tg !in old(routes)
    {
      isNew := tg !in routes;
      if isNew {
        routes := routes[tg := FRESH_ROUTE];
      }
      routes := routes[tg := routes[tg].(encrypted := encrypted)];
      assert routes == S.Open(old(Abs()), tg, encrypted).routes;
    }

    method OpenConventional(id: Id, am: bool) returns (isNew: bool)
      modifies this`routes
      ensures Abs() == S.OpenConventional(old(Abs()), id, am)
      ensures isNew <==> id !in old(routes)
    {
      isNew := id !in routes;
      if isNew {
        routes := routes[id := FRESH_ROUTE];
      }
      routes := routes[id := routes[id].(conventional := true, am := am)];
      assert routes == S.OpenConventional(old(Abs()), id, am).routes;
    }

    method Close(tg: Id) returns (was: bool)
      modifies this`routes
      ensures Abs() == S.Close(old(Abs()), tg)
      ensures was <==> tg in old(routes)
    {
      was := tg in routes;
      routes := routes - {tg};
    }

    method Clear(tg: Id) returns (clear: bool)
      ensures clear <==> IsClear(Abs(), tg)
    {
      var group := JoinedTo(tg);
      clear := forall t :: t in group && t in routes ==> routes[t].Quiet();
    }

    method SetMember(tg: Id, client: ClientId, listen: bool, quality: Quality)
      modifies this`routes, this`told
      ensures Abs() == S.SetMember(old(Abs()), tg, client, listen, quality)
    {
      var clear := Clear(tg);
      if tg !in routes {
        var (conventional, am) := Classify(tg);
        routes := routes[tg := FRESH_ROUTE.(conventional := conventional, am := am)];
      }
      var route := routes[tg];
      if client in route.members && !clear && JittersOneLane(route.members[client].quality, quality) {
        var was := route.members[client].quality;
        route := route.(members := route.members[client := Member(listen, was)],
                        deferred := route.deferred[client := quality]);
      } else {
        route := route.(members := route.members[client := Member(listen, quality)],
                        deferred := route.deferred - {client});
      }
      routes := routes[tg := route];
      told := told[(tg, client) := Member(listen, quality)];
      assert routes == S.SetMember(old(Abs()), tg, client, listen, quality).routes;
    }

    // -- Keying -------------------------------------------------------------

    method KeyOne(tg: Id, client: ClientId, now: Instant) returns (r: KeyResult)
      modifies this`routes, this`pending, this`log
      ensures r == KeyOneResult(old(Abs()), tg, client, now)
      ensures Abs() == S.KeyOne(old(Abs()), tg, client, now)
    {
      hide Joined;
      if tg !in routes {
        return Failure(NoSuchRoute);
      }
      var route := routes[tg];
      if route.keyed.None? {
        routes := routes[tg := route.(keyed := Some(client))];
        return Success(Granted);
      }
      var holder := route.keyed.value;
      assert routes[tg := route] == routes;
      if holder == client {
        return Success(Granted);
      }
      if route.conventional && route.am {
        if client !in route.also {
          routes := routes[tg := route.(also := route.also + [client])];
        }
        return Success(Mixed);
      }
      if route.conventional {
        return Success(Doubled);
      }
      if client.IsConsole() && !holder.IsConsole() {
        var insisting := (tg, client) in pending && DurationSince(now, pending[(tg, client)]) <= PREEMPT_WINDOW;
        if insisting {
          pending := pending - {(tg, client)};
          routes := routes[tg := route.(keyed := Some(client))];
          log := log + [Took(tg, client, now, holder)];
          return Success(Preempted(holder));
        }
        pending := pending[(tg, client) := now];
        log := log + [Refused(tg, client, now)];
        return Failure(Busy);
      }
      if !client.IsConsole() && holder.IsConsole() {
        return Failure(DispatchTransmitting);
      }
      return Failure(AlreadyKeyed);
    }

    /** Takes every other member of a patch from whoever was just preempted on one. */
    method SeizeOthers(others: seq<Id>, client: ClientId, holder: ClientId)
      requires NoDuplicates(others)
      modifies this`routes, this`pending
      ensures Abs() == Seize(old(Abs()), others, client, holder)
    {
      hide Joined;
      hide SeizeRoute;
      hide Seize;
      SeizeNone(Abs(), client, holder);
      for i := 0 to |others|
        invariant Abs() == Seize(old(Abs()), others[..i], client, holder)
      {
        var other := others[i];
        assert others[..i + 1] == others[..i] + [other] && other !in others[..i];
        SeizeMore(old(Abs()), others[..i], other, client, holder);
        if other in routes {
          var route := routes[other];
          routes := routes[other := SeizeRoute(route, client, holder)];
        }
        pending := pending - {(other, client)};
      }
      assert others[..|others|] == others;
    }

    method KeyAt(tg: Id, client: ClientId, now: Instant) returns (r: KeyResult)
      modifies this
      ensures r == KeyOneResult(old(Abs()), tg, client, now)
      ensures Abs() == Key(old(Abs()), tg, client, now)
    {
      hide Joined;
      hide S.KeyOne;
      hide KeyEach;
      hide Seize;
      hide KeyOneResult;
      var group := JoinedTo(tg);
      var others := group[1..];
      if others != [] {
        r := KeyOne(tg, client, now);
        if r.Failure? {
          return;
        }
        if r.value.Preempted? {
          SeizeOthers(others, client, r.value.holder);
        }
        KeyOthers(others, client, now);
        took := took[(client, tg) := group];
        keyedBy := keyedBy[client := tg];
        return;
      }
      r := KeyOne(tg, client, now);
      if r.Failure? {
        return;
      }
      assert group == [tg];
      took := took[(client, tg) := [tg]];
      keyedBy := keyedBy[client := tg];
      assert Abs() == Key(old(Abs()), tg, client, now) by {
        AloneIs(old(Abs()), tg, client, now);
      }
    }

    /** Each sibling in turn; what it answers makes no difference to the press. */
    method KeyOthers(others: seq<Id>, client: ClientId, now: Instant)
      modifies this`routes, this`pending, this`log
      ensures Abs() == KeyEach(old(Abs()), others, client, now)
    {
      hide S.KeyOne;
      for i := 0 to |others|
        invariant Abs() == KeyEach(old(Abs()), others[..i], client, now)
      {
        assert others[..i + 1][..i] == others[..i];
        var ignored := KeyOne(others[i], client, now);
      }
      assert others[..|others|] == others;
    }

    // -- Releasing ----------------------------------------------------------

    /** Lands what was parked, once nobody in the group is talking. */
    method DrainDeferred(tg: Id)
      modifies this`routes
      ensures Abs() == Drain(old(Abs()), tg)
    {
      hide Joined;
      hide Settle;
      var clear := Clear(tg);
      if !clear {
        return;
      }
      var group := JoinedTo(tg);
      assert routes == SettleSome(routes, []);
      for i := 0 to |group|
        invariant routes == SettleSome(old(routes), group[..i])
      {
        assert group[..i + 1] == group[..i] + [group[i]] && group[i] !in group[..i];
        if group[i] in routes {
          var route := SettleOne(routes[group[i]]);
          routes := routes[group[i] := route];
        }
      }
      assert group[..|group|] == group;
      assert routes == Drain(old(Abs()), tg).routes;
    }

    static method SettleOne(r: Route) returns (route: Route)
      ensures route == Settle(r)
    {
      route := r;
      var todo := r.deferred.Keys;
      while todo != {}
        invariant todo <= r.deferred.Keys
        invariant route == r.(members := route.members)
        invariant route.members == map c | c in r.members ::
          if c in r.deferred && c !in todo then r.members[c].(quality := r.deferred[c]) else r.members[c]
        decreases todo
      {
        var c :| c in todo;
        if c in route.members {
          route := route.(members := route.members[c := route.members[c].(quality := r.deferred[c])]);
        }
        todo := todo - {c};
      }
      route := route.(deferred := map[]);
    }

    method UnkeyAs(tg: Id, client: ClientId) returns (released: bool)
      modifies this
      ensures Abs() == S.UnkeyAs(old(Abs()), tg, client)
      ensures released <==> exists t :: t in Mine(old(Abs()), tg, client) && Holds(old(Abs()), t, client)
    {
      hide Joined;
      hide Drain;
      var mine;
      if (client, tg) in took {
        mine := took[(client, tg)];
        took := took - {(client, tg)};
      } else {
        mine := JoinedTo(tg);
        assert took == took - {(client, tg)};
      }
      released := ReleaseAll(mine, client);
      keyedBy := keyedBy - {client};
      assert Abs() == Release(old(Abs()), tg, client);
      DrainAll(mine);
    }

    method ReleaseAll(mine: seq<Id>, client: ClientId) returns (released: bool)
      modifies this`routes
      ensures routes == ReleaseSome(old(routes), mine, client)
      ensures released <==> exists t :: t in mine && t in old(routes) && old(routes)[t].HeldBy(client)
    {
      hide ReleaseRoute;
      released := false;
      assert routes == ReleaseSome(routes, [], client);
      for i := 0 to |mine|
        invariant routes == ReleaseSome(old(routes), mine[..i], client)
        invariant released <==> exists t :: t in mine[..i] && t in old(routes) && old(routes)[t].HeldBy(client)
      {
        var t := mine[i];
        assert mine[..i + 1] == mine[..i] + [t];
        if t in routes {
          ReleaseTwice(old(routes)[t], client);
          ReleaseHolds(old(routes)[t], client);
          var let := ReleaseRoute(routes[t], client);
          if routes[t].HeldBy(client) {
            released := true;
          }
          routes := routes[t := let];
        }
      }
      assert mine[..|mine|] == mine;
    }

    method DrainAll(mine: seq<Id>)
      modifies this`routes
      ensures Abs() == DrainEach(old(Abs()), mine)
    {
      hide Drain;
      for i := 0 to |mine|
        invariant Abs() == DrainEach(old(Abs()), mine[..i])
      {
        assert mine[..i + 1][..i] == mine[..i];
        DrainDeferred(mine[i]);
      }
      assert mine[..|mine|] == mine;
    }

    method Unkey(tg: Id)
      modifies this`routes
      ensures Abs() == S.Unkey(old(Abs()), tg)
    {
      hide Drain;
      if tg in routes {
        routes := routes[tg := routes[tg].(keyed := None, also := [])];
      }
      assert Abs() == TearDown(old(Abs()), tg);
      DrainDeferred(tg);
    }

    // -- Who hears what -----------------------------------------------------

    function TalkersOn(tg: Id): (talkers: seq<ClientId>)
      reads this
      ensures forall c :: c in talkers <==> tg in routes && routes[tg].HeldBy(c)
    {
      if tg in routes then routes[tg].Talkers() else []
    }

    function HeldHere(tg: Id, client: ClientId): bool
      reads this
    {
      tg in routes && routes[tg].HeldBy(client)
    }

    /** Listeners of one route, in whatever order its members come. */
    method ListenersOf(tg: Id) returns (out: seq<ClientId>)
      ensures NoDuplicates(out)
      ensures forall c :: c in out <==> tg in routes && c in routes[tg].members && routes[tg].members[c].listen
    {
      out := [];
      if tg !in routes {
        return;
      }
      var todo := routes[tg].members.Keys;
      while todo != {}
        invariant todo <= routes[tg].members.Keys
        invariant NoDuplicates(out) && forall c :: c in out ==> c !in todo
        invariant forall c :: c in out <==>
          c in routes[tg].members && c !in todo && routes[tg].members[c].listen
        decreases todo
      {
        var c :| c in todo;
        todo := todo - {c};
        if routes[tg].members[c].listen {
          out := out + [c];
        }
      }
    }

    /** Everybody who hears `speaker` on `tg`, once each, whatever order the members come in. */
    method ListenersAcross(tg: Id, speaker: ClientId) returns (out: seq<Listener>)
      ensures IsAudience(Abs(), tg, speaker, Group(Abs(), tg), out)
    {
      hide Joined;
      var group := JoinedTo(tg);
      out := [];
      assert IsAudience(Abs(), tg, speaker, group[..0], []);
      hide IsAudience;
      for i := 0 to |group|
        invariant IsAudience(Abs(), tg, speaker, group[..i], out)
      {
        assert group[..i + 1][..i] == group[..i] && group[..i + 1][i] == group[i];
        out := OfferAll(tg, speaker, group, i, out);
      }
      assert group[..|group|] == group;
    }

    /** One joined route's members, merged into who is served already. */
    method OfferAll(tg: Id, speaker: ClientId, group: seq<Id>, i: nat, before: seq<Listener>)
      returns (out: seq<Listener>)
      requires i < |group| && IsAudience(Abs(), tg, speaker, group[..i], before)
      ensures IsAudience(Abs(), tg, speaker, group[..i + 1], out)
    {
      hide Joined;
      hide Serve;
      hide Lists;
      var member := group[i];
      ghost var s := Abs();
      ghost var served := (c: ClientId) => Serve(s, tg, group[..i + 1], c);
      forall c ensures served(c) == Better(Serve(s, tg, group[..i], c), Offer(s, tg, member, c)) {
        ServeMore(s, tg, group, i, c);
      }
      out := before;
      if member !in routes {
        ListsSame(out, speaker, c => Serve(s, tg, group[..i], c), served);
        return;
      }
      var route := routes[member];
      var todo := route.members.Keys;
      ListsSame(out, speaker, c => Serve(s, tg, group[..i], c), c => ServedSoFar(s, tg, group, i, todo, c));
      while todo != {}
        invariant todo <= route.members.Keys
        invariant Merged(s, tg, speaker, group, i, todo, out)
        decreases todo
      {
        var c :| c in todo;
        var at := FindClient(out, c);
        ghost var was := out;
        if route.members[c].listen && c != speaker {
          var listener := Listener(c, route.members[c].quality, route.Mode(), member != tg);
          if at < |out| {
            if route.members[c].quality > out[at].quality {
              out := out[at := listener];
            }
          } else {
            out := out + [listener];
          }
        }
        MergeOne(s, tg, speaker, group, i, todo, c, was, out, at);
        todo := todo - {c};
      }
      ListsSame(out, speaker, c => ServedSoFar(s, tg, group, i, {}, c), served);
    }

    static method FindClient(out: seq<Listener>, c: ClientId) returns (at: nat)
      ensures at <= |out|
      ensures at < |out| ==> out[at].client == c
      ensures forall j :: 0 <= j < at ==> out[j].client != c
    {
      at := 0;
      while at < |out| && out[at].client != c
        invariant at <= |out|
        invariant forall j :: 0 <= j < at ==> out[j].client != c
      {
        at := at + 1;
      }
    }

    /** The lowest route this client transmits on. */
    method LowestHeld(speaker: ClientId) returns (r: Option<Id>)
      ensures r.None? ==> forall t :: !Holds(Abs(), t, speaker)
      ensures r.Some? ==> Holds(Abs(), r.value, speaker) && forall t :: Holds(Abs(), t, speaker) ==> r.value <= t
    {
      r := None;
      var todo := routes.Keys;
      while todo != {}
        invariant todo <= routes.Keys
        invariant r.None? ==> forall t :: t in routes && t !in todo ==> !routes[t].HeldBy(speaker)
        invariant r.Some? ==> Holds(Abs(), r.value, speaker)
                              && forall t :: t in routes && t !in todo && routes[t].HeldBy(speaker) ==> r.value <= t
        decreases todo
      {
        var t :| t in todo;
        todo := todo - {t};
        if HeldHere(t, speaker) && (r.None? || t < r.value) {
          r := Some(t);
        }
      }
    }

    /** The one route a transmission counts as being on, with its audience. */
    method DestinationOf(speaker: ClientId) returns (r: Option<(Id, seq<Listener>)>)
      ensures r.None? <==> forall t :: !Holds(Abs(), t, speaker)
      ensures r.Some? ==> IsDestination(Abs(), speaker, r.value.0)
      ensures r.Some? ==> IsAudience(Abs(), r.value.0, speaker, Group(Abs(), r.value.0), r.value.1)
    {
      hide IsAudience;
      hide Joined;
      var tg: Id;
      if speaker in keyedBy && HeldHere(keyedBy[speaker], speaker) {
        tg := keyedBy[speaker];
      } else {
        var lowest := LowestHeld(speaker);
        if lowest.None? {
          return None;
        }
        tg := lowest.value;
      }
      assert Holds(Abs(), tg, speaker);
      var listeners := ListenersAcross(tg, speaker);
      return Some((tg, listeners));
    }

    /** Whether two or more talk on a group with an AM member. */
    method AmCollision(tg: Id) returns (b: bool)
      ensures b <==> Collision(Abs(), tg)
    {
      hide Joined;
      var group := JoinedTo(tg);
      if !exists t :: t in group && t in routes && routes[t].am {
        return false;
      }
      var talkers: seq<ClientId> := [];
      for i := 0 to |group|
        invariant NoDuplicates(talkers)
        invariant forall c :: c in talkers <==> TalksOnSome(Abs(), group[..i], c)
      {
        forall c ensures TalksOnSome(Abs(), group[..i + 1], c) <==>
                         TalksOnSome(Abs(), group[..i], c) || Holds(Abs(), group[i], c)
        {
          assert group[..i + 1] == group[..i] + [group[i]];
          TalksOnOneMore(Abs(), group[..i], group[i], c);
        }
        var talking := TalkersOn(group[i]);
        assert forall c :: c in talking <==> Holds(Abs(), group[i], c);
        talkers := Distinct(talkers, talking);
      }
      assert group[..|group|] == group;
      assert forall c :: c in talkers <==> TalksIn(Abs(), tg, c);
      b := |talkers| > 1;
      if b {
        assert talkers[0] != talkers[1] && talkers[0] in talkers && talkers[1] in talkers;
      }
    }

    static method Distinct(before: seq<ClientId>, more: seq<ClientId>) returns (out: seq<ClientId>)
      requires NoDuplicates(before)
      ensures NoDuplicates(out) && forall c :: c in out <==> c in before || c in more
    {
      out := before;
      for i := 0 to |more|
        invariant NoDuplicates(out) && forall c :: c in out <==> c in before || c in more[..i]
      {
        if more[i] !in out {
          out := out + [more[i]];
        }
      }
    }
  }
}

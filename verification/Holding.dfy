/**
 * Who transmits where: how holds begin, how they end, and that nothing but a
 * client's own accepted key ever gives it one.
 */
module Holding {
  import opened Types
  import opened Patches
  import opened Routing
  import opened Steps

  // -- One route ------------------------------------------------------------

  lemma NobodyHoldsAQuietRoute(r: Route)
    ensures r.Quiet() <==> forall x :: !r.HeldBy(x)
  {
    if r.also != [] {
      assert r.HeldBy(r.also[0]);
    }
    if r.keyed.Some? {
      assert r.HeldBy(r.keyed.value);
    }
  }

  lemma AnswerHolds(r: Route, client: ClientId, insisting: bool)
    ensures var (result, r') := Answer(r, client, insisting);
            && r' == r.(keyed := r'.keyed, also := r'.also)
            && (forall x :: x != client && r'.HeldBy(x) ==> r.HeldBy(x))
            && (r.HeldBy(client) ==> r'.HeldBy(client))
            && (forall x :: r.HeldBy(x) && !r'.HeldBy(x) ==>
                  result == Success(Preempted(x)) && client.IsConsole() && !x.IsConsole())
            && (result.Success? && !result.value.Doubled? ==> r'.HeldBy(client))
  {
  }

  lemma SeizeHolds(r: Route, client: ClientId, holder: ClientId)
    requires client != holder
    ensures var r' := SeizeRoute(r, client, holder);
            && r' == r.(keyed := r'.keyed, also := r'.also)
            && !r'.HeldBy(holder)
            && (forall x :: x != client && r'.HeldBy(x) ==> r.HeldBy(x))
            && (forall x :: r.HeldBy(x) && x != holder ==> r'.HeldBy(x))
  {
  }

  lemma ReleaseHolds(r: Route, client: ClientId)
    ensures forall x :: ReleaseRoute(r, client).HeldBy(x) <==> r.HeldBy(x) && x != client
  {
  }

  // -- One key --------------------------------------------------------------

  /** Dispatch outranks a field unit; nobody outranks dispatch. */
  lemma PreemptionRanks(s: State, tg: Id, client: ClientId, now: Instant)
    requires Preempting(KeyOneResult(s, tg, client, now))
    ensures client.IsConsole() && !KeyOneResult(s, tg, client, now).value.holder.IsConsole()
  {
  }

  lemma SiblingHolds(s: State, tg: Id, client: ClientId, now: Instant, t: Id, x: ClientId)
    requires t in s.routes
    ensures var r' := Sibling(s, tg, client, now, t);
            && (x != client && r'.HeldBy(x) ==> s.routes[t].HeldBy(x))
            && (s.routes[t].HeldBy(x) && !r'.HeldBy(x) ==> client.IsConsole() && !x.IsConsole())
  {
    hide Answer;
    hide SeizeRoute;
    var result := KeyOneResult(s, tg, client, now);
    var r := Seized(s, tg, client, now, t);
    AnswerHolds(r, client, SiblingInsists(s, tg, client, now, t));
    if Preempting(result) {
      PreemptionRanks(s, tg, client, now);
      SeizeHolds(s.routes[t], client, result.value.holder);
    }
  }

  /** Keying changes who talks on a route and nothing else about it. */
  lemma KeyingOnlyChangesTalkers(s: State, tg: Id, client: ClientId, now: Instant, t: Id)
    requires t in s.routes
    ensures Answered(s, t, client, now) ==
            s.routes[t].(keyed := Answered(s, t, client, now).keyed, also := Answered(s, t, client, now).also)
    ensures Sibling(s, tg, client, now, t) ==
            s.routes[t].(keyed := Sibling(s, tg, client, now, t).keyed, also := Sibling(s, tg, client, now, t).also)
  {
    hide Answer;
    AnswerHolds(s.routes[t], client, Insisting(s, t, client, now));
    AnswerHolds(Seized(s, tg, client, now, t), client, SiblingInsists(s, tg, client, now, t));
  }

  /** A key step never takes anything from dispatch, takes nothing for a field unit,
      and gives holds to nobody but its own client, on the joined routes, when accepted. */
  lemma KeyHolds(s: State, tg: Id, client: ClientId, now: Instant, t: Id, x: ClientId)
    ensures var s' := Key(s, tg, client, now);
            && (Holds(s, t, x) && !Holds(s', t, x) ==>
                  client.IsConsole() && !x.IsConsole() && t in Group(s, tg))
            && (Holds(s', t, x) && !Holds(s, t, x) ==>
                  x == client && t in Group(s, tg) && KeyOneResult(s, tg, client, now).Success?)
  {
    hide Answer;
    hide Joined;
    hide SeizeRoute;
    hide Key;
    if KeyOneResult(s, tg, client, now).Failure? {
      KeyRefusedIs(s, tg, client, now);
    } else {
      KeyAcceptedIs(s, tg, client, now);
      OthersAre(s, tg);
      if t in s.routes {
        SiblingHolds(s, tg, client, now, t, x);
        AnswerHolds(s.routes[t], client, Insisting(s, t, client, now));
      }
    }
  }

  // -- Every other step -----------------------------------------------------

  lemma SettleKeepsTalkers(r: Route)
    ensures Settle(r) == r.(members := Settle(r).members, deferred := map[])
    ensures Settle(r).members.Keys == r.members.Keys
  {
  }

  /** A client-scoped release gives back exactly what the record names, and touches nobody else. */
  lemma ReleaseIsScoped(s: State, tg: Id, client: ClientId, t: Id, x: ClientId)
    ensures Holds(UnkeyAs(s, tg, client), t, x) <==>
            Holds(s, t, x) && !(x == client && t in Mine(s, tg, client))
  {
    hide Settle;
    hide ReleaseRoute;
    hide Mine;
    hide UnkeyAs;
    UnkeyAsIs(s, tg, client);
    if t in s.routes {
      ReleaseHolds(s.routes[t], client);
      SettleKeepsTalkers(s.routes[t]);
      SettleKeepsTalkers(ReleaseRoute(s.routes[t], client));
    }
  }

  lemma UnkeyHolds(s: State, tg: Id, t: Id, x: ClientId)
    ensures Holds(Unkey(s, tg), t, x) <==> Holds(s, t, x) && t != tg
  {
    hide Settle;
    hide Unkey;
    hide TearDown;
    UnkeyIs(s, tg);
    if t in s.routes {
      SettleKeepsTalkers(s.routes[t]);
      SettleKeepsTalkers(Silenced(s.routes[t]));
    }
  }

  lemma DepartHolds(s: State, who: Departing, parkedToo: bool, t: Id, x: ClientId)
    ensures Holds(Depart(s, who, parkedToo), t, x) <==> Holds(s, t, x) && !who.Leaves(x)
  {
  }

  /** Whether this step is an accepted key by `c` on a route joined to `t`. */
  ghost predicate Grants(s: State, op: Op, t: Id, c: ClientId) {
    && op.KeyOp? && op.client == c
    && KeyOneResult(s, op.tg, c, op.now).Success?
    && t in Group(s, op.tg)
  }

  /** The only step that makes anybody transmit anywhere is their own accepted key. */
  lemma OnlyKeysGrant(s: State, op: Op, t: Id, c: ClientId)
    ensures Holds(Apply(s, op), t, c) && !Holds(s, t, c) ==> Grants(s, op, t, c)
  {
    hide Key;
    hide UnkeyAs;
    hide Unkey;
    hide Depart;
    match op
    case KeyOp(tg, client, now) => KeyHolds(s, tg, client, now, t, c);
    case UnkeyAsOp(tg, client) => ReleaseIsScoped(s, tg, client, t, c);
    case UnkeyOp(tg) => UnkeyHolds(s, tg, t, c);
    case ForgetClientOp(client) => DepartHolds(s, One(client), true, t, c);
    case UnbindOp(session) =>
      if session in s.sessionToClient {
        var client := s.sessionToClient[session];
        DepartHolds(LoseSession(s, session, client), One(client), false, t, c);
      }
    case DropServerOp(server) => DepartHolds(LoseSessionsOf(s, server), Server(server), false, t, c);
    case _ =>
  }

  /** Every way a transmission can end: its own release, a teardown, a departure,
      or dispatch keying the group over a field unit. */
  ghost predicate Ends(s: State, op: Op, t: Id, c: ClientId) {
    match op
    case UnkeyAsOp(tg, client) => client == c && t in Mine(s, tg, c)
    case UnkeyOp(tg) => tg == t
    case CloseOp(tg) => tg == t
    case ForgetClientOp(client) => client == c
    case UnbindOp(session) => session in s.sessionToClient && s.sessionToClient[session] == c
    case DropServerOp(server) => c.server == server
    case KeyOp(tg, client, now) => client.IsConsole() && !c.IsConsole() && t in Group(s, tg)
    case _ => false
  }

  lemma HoldsEndOnlySo(s: State, op: Op, t: Id, c: ClientId)
    ensures Holds(s, t, c) && !Holds(Apply(s, op), t, c) ==> Ends(s, op, t, c)
  {
    hide Key;
    hide UnkeyAs;
    hide Unkey;
    hide Depart;
    match op
    case KeyOp(tg, client, now) => KeyHolds(s, tg, client, now, t, c);
    case UnkeyAsOp(tg, client) => ReleaseIsScoped(s, tg, client, t, c);
    case UnkeyOp(tg) => UnkeyHolds(s, tg, t, c);
    case ForgetClientOp(client) => DepartHolds(s, One(client), true, t, c);
    case UnbindOp(session) =>
      if session in s.sessionToClient {
        var client := s.sessionToClient[session];
        DepartHolds(LoseSession(s, session, client), One(client), false, t, c);
      }
    case DropServerOp(server) => DepartHolds(LoseSessionsOf(s, server), Server(server), false, t, c);
    case _ =>
  }

  // -- Whole runs -----------------------------------------------------------

  lemma RunStep(s: State, ops: seq<Op>, i: nat)
    requires i < |ops|
    ensures Run(s, ops[..i + 1]) == Apply(Run(s, ops[..i]), ops[i])
  {
    assert ops[..i + 1][..i] == ops[..i];
  }

  lemma RunThen(s: State, ops: seq<Op>, op: Op)
    ensures Run(s, ops + [op]) == Apply(Run(s, ops), op)
  {
    assert (ops + [op])[..|ops|] == ops;
  }

  /** The key at step `i` gave `c` the route `t`, and `c` has held it ever since. */
  ghost predicate GrantedAt(ops: seq<Op>, i: nat, t: Id, c: ClientId) {
    && i < |ops|
    && Grants(Run(INIT, ops[..i]), ops[i], t, c)
    && forall j :: i < j <= |ops| ==> Holds(Run(INIT, ops[..j]), t, c)
  }

  /** Routed nowhere by default: whoever transmits on a route keyed it, was accepted
      for a group containing it, and has not lost it since. */
  lemma {:induction false} HoldsComeFromKeys(ops: seq<Op>, t: Id, c: ClientId)
    requires Holds(Run(INIT, ops), t, c)
    ensures exists i: nat :: GrantedAt(ops, i, t, c)
  {
    hide Apply;
    hide Grants;
    assert ops[..|ops|] == ops;
    if ops != [] {
      var n := |ops| - 1;
      var before := ops[..n];
      RunStep(INIT, ops, n);
      if Holds(Run(INIT, before), t, c) {
        HoldsComeFromKeys(before, t, c);
        var i: nat :| GrantedAt(before, i, t, c);
        assert before[..i] == ops[..i];
        forall j | i < j <= |ops| ensures Holds(Run(INIT, ops[..j]), t, c) {
          if j <= n {
            assert before[..j] == ops[..j];
          }
        }
        assert GrantedAt(ops, i, t, c);
      } else {
        OnlyKeysGrant(Run(INIT, before), ops[n], t, c);
        assert GrantedAt(ops, n, t, c);
      }
    }
  }
}

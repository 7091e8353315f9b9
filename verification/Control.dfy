/**
 * The control API's key and unkey arms and the console socket's releases: when a
 * call is announced, to whom, and when its recording ends.
 */
module Control {
  import opened Types
  import opened Patches
  import opened Routing
  import opened Steps
  import opened Holding
  import opened Audience
  import opened RouterObject

  /** One call event put to one console's socket. */
  datatype Notice = Notice(to: ClientId, tg: Id, keyed: bool)

  // -- Who is told ----------------------------------------------------------

  predicate Watches(s: State, t: Id, c: ClientId) {
    c.IsConsole() && t in s.routes && c in s.routes[t].members && s.routes[t].members[c].listen
  }

  /** The first of these routes that `c` listens to. */
  ghost predicate FirstWatched(s: State, ts: seq<Id>, c: ClientId, t: Id) {
    exists i :: 0 <= i < |ts| && ts[i] == t && Watches(s, t, c) && forall j :: 0 <= j < i ==> !Watches(s, ts[j], c)
  }

  /** Every console listening on any of the routes once, on the first it listens to. */
  ghost predicate TellsEach(s: State, ts: seq<Id>, keyed: bool, notices: seq<Notice>) {
    && (forall i, j :: 0 <= i < j < |notices| ==> notices[i].to != notices[j].to)
    && (forall n :: n in notices ==> n.keyed == keyed && FirstWatched(s, ts, n.to, n.tg))
    && (forall t, c :: t in ts && Watches(s, t, c) ==> exists n :: n in notices && n.to == c)
  }

  lemma FirstWatchedLater(s: State, ts: seq<Id>, t: Id, c: ClientId)
    ensures forall u :: FirstWatched(s, ts, c, u) ==> FirstWatched(s, ts + [t], c, u)
    ensures Watches(s, t, c) && (forall u :: u in ts ==> !Watches(s, u, c)) ==> FirstWatched(s, ts + [t], c, t)
  {
    forall u | FirstWatched(s, ts, c, u) ensures FirstWatched(s, ts + [t], c, u) {
      var i :| 0 <= i < |ts| && ts[i] == u && Watches(s, u, c) && forall j :: 0 <= j < i ==> !Watches(s, ts[j], c);
      assert (ts + [t])[i] == u;
    }
    if Watches(s, t, c) && forall u :: u in ts ==> !Watches(s, u, c) {
      assert (ts + [t])[|ts|] == t;
    }
  }

  lemma NotYetTold(s: State, ts: seq<Id>, keyed: bool, notices: seq<Notice>, c: ClientId)
    requires TellsEach(s, ts, keyed, notices) && forall n :: n in notices ==> n.to != c
    ensures forall u :: u in ts ==> !Watches(s, u, c)
  {
  }

  // -- What a release means -------------------------------------------------

  /** The end of the call is announced exactly when the release silenced everybody:
      nobody else in the group, and nothing of the caller's the release did not name. */
  lemma EndOfCallIff(s: State, tg: Id, client: ClientId)
    ensures IsClear(UnkeyAs(s, tg, client), tg) <==>
            forall t, x :: t in Group(s, tg) && Holds(s, t, x) ==> x == client && t in Mine(s, tg, client)
  {
    hide Joined;
    hide UnkeyAs;
    hide Mine;
    hide Holds;
    hide IsClear;
    var s' := UnkeyAs(s, tg, client);
    SamePatches(s, tg, client);
    ClearMeansNobodyTalks(s', tg);
    forall t, x ensures Holds(s', t, x) <==> Holds(s, t, x) && !(x == client && t in Mine(s, tg, client)) {
      ReleaseIsScoped(s, tg, client, t, x);
    }
    if forall t, x :: t in Group(s, tg) && Holds(s, t, x) ==> x == client && t in Mine(s, tg, client) {
      forall c ensures !TalksIn(s', tg, c) {
      }
    } else {
      var t, x :| t in Group(s, tg) && Holds(s, t, x) && !(x == client && t in Mine(s, tg, client));
      assert TalksIn(s', tg, x);
    }
  }

  lemma SamePatches(s: State, tg: Id, client: ClientId)
    ensures UnkeyAs(s, tg, client).patches == s.patches
  {
    UnkeyAsIs(s, tg, client);
  }

  /** Whoever is told is a console, and listens to the route it is told about; every
      console that listens anywhere is told, and none of them twice. */
  lemma ToldIffListening(s: State, ts: seq<Id>, keyed: bool, notices: seq<Notice>, c: ClientId)
    requires TellsEach(s, ts, keyed, notices)
    ensures (exists i :: 0 <= i < |notices| && notices[i].to == c) <==>
            c.server == 0 && exists t :: t in ts && t in s.routes && c in s.routes[t].members && s.routes[t].members[c].listen
    ensures forall i, j :: 0 <= i < |notices| && 0 <= j < |notices| && notices[i].to == c && notices[j].to == c ==> i == j
    ensures forall n :: n in notices ==>
      n.tg in ts && n.tg in s.routes && n.to in s.routes[n.tg].members && s.routes[n.tg].members[n.to].listen
  {
    forall n | n in notices ensures n.tg in ts && Watches(s, n.tg, n.to) {
      assert FirstWatched(s, ts, n.to, n.tg);
    }
    if i :| 0 <= i < |notices| && notices[i].to == c {
      assert notices[i] in notices;
    }
    if t :| t in ts && Watches(s, t, c) {
      var n :| n in notices && n.to == c;
      var i :| 0 <= i < |notices| && notices[i] == n;
    }
  }

  /** So a unit that was cut off never ends the call of whoever cut it off. */
  lemma PreemptedReleaseEndsNothing(s: State, tg: Id, client: ClientId, t: Id, x: ClientId)
    requires t in Group(s, tg) && Holds(s, t, x) && x != client
    ensures !IsClear(UnkeyAs(s, tg, client), tg) && Holds(UnkeyAs(s, tg, client), t, x)
  {
    hide Joined;
    hide UnkeyAs;
    EndOfCallIff(s, tg, client);
    ReleaseIsScoped(s, tg, client, t, x);
  }

  /** Whether a release ended the recording and the call, and who had the route on screen. */
  datatype Released = Released(recordingOver: bool, callOver: bool, watching: seq<ClientId>)

  class Node {
    const router: Router
    const records: bool
    var recording: set<Id>
    var sent: seq<Notice>

    constructor (records: bool)
      ensures fresh(router) && router.Abs() == INIT && recording == {} && sent == []
      ensures this.records == records
    {
      this.records := records;
      router := new Router();
      recording, sent := {}, [];
    }

    method AnnounceCall(tg: Id, keyed: bool)
      modifies this`sent
      ensures exists ns :: sent == old(sent) + ns && TellsEach(router.Abs(), Group(router.Abs(), tg), keyed, ns)
    {
      hide Joined;
      hide TellsEach;
      var group := router.JoinedTo(tg);
      var notices: seq<Notice> := [];
      NobodyTold(router.Abs(), keyed);
      assert group[..0] == [];
      for i := 0 to |group|
        invariant sent == old(sent)
        invariant TellsEach(router.Abs(), group[..i], keyed, notices)
      {
        assert group[..i + 1] == group[..i] + [group[i]];
        var listening := router.ListenersOf(group[i]);
        notices := Tell(group[..i], group[i], keyed, listening, notices);
      }
      assert group[..|group|] == group;
      ghost var s := router.Abs();
      assert TellsEach(s, Group(s, tg), keyed, notices);
      sent := sent + notices;
      assert router.Abs() == s;
      assert sent == old(sent) + notices;
    }

    /** The listeners of one joined route, those not told already. */
    method Tell(ghost earlier: seq<Id>, t: Id, keyed: bool, listening: seq<ClientId>, told: seq<Notice>)
      returns (notices: seq<Notice>)
      requires TellsEach(router.Abs(), earlier, keyed, told)
      requires forall c :: c in listening && c.IsConsole() <==> Watches(router.Abs(), t, c)
      ensures TellsEach(router.Abs(), earlier + [t], keyed, notices)
    {
      hide FirstWatched;
      hide Watches;
      ghost var s := router.Abs();
      notices := told;
      forall n | n in told ensures FirstWatched(s, earlier + [t], n.to, n.tg) {
        FirstWatchedLater(s, earlier, t, n.to);
      }
      for i := 0 to |listening|
        invariant told <= notices
        invariant forall i, j :: 0 <= i < j < |notices| ==> notices[i].to != notices[j].to
        invariant forall n :: n in notices ==> n.keyed == keyed && FirstWatched(s, earlier + [t], n.to, n.tg)
        invariant forall c :: c in listening[..i] && c.IsConsole() ==> exists n :: n in notices && n.to == c
      {
        var c := listening[i];
        assert listening[..i + 1] == listening[..i] + [c];
        if c.IsConsole() {
          var was := notices;
          if forall n :: n in notices ==> n.to != c {
            NotYetTold(s, earlier, keyed, told, c);
            FirstWatchedLater(s, earlier, t, c);
            notices := notices + [Notice(c, t, keyed)];
            assert Notice(c, t, keyed) in notices;
          }
          assert forall n :: n in was ==> n in notices;
        }
      }
      assert listening[..|listening|] == listening;
      forall u, c | u in earlier + [t] && Watches(s, u, c) ensures exists n :: n in notices && n.to == c {
        if u in earlier {
          var n :| n in told && n.to == c;
          assert n in notices;
        }
      }
    }

    /** The `key` arm of `dispatch`. */
    method DispatchKey(tg: Id, client: ClientId, now: Instant) returns (r: KeyResult)
      modifies this, router
      ensures r == KeyOneResult(old(router.Abs()), tg, client, now)
      ensures router.Abs() == Key(old(router.Abs()), tg, client, now)
      ensures var isCall := r.Success? && !r.value.Mixed? && !r.value.Doubled?;
              && recording == (if isCall && records then old(recording) + {tg} else old(recording))
              && exists ns :: sent == old(sent) + ns
                   && if isCall then TellsEach(router.Abs(), Group(router.Abs(), tg), true, ns) else ns == []
    {
      hide Joined;
      hide Key;
      hide KeyOneResult;
      hide TellsEach;
      r := router.KeyAt(tg, client, now);
      if r.Success? && !r.value.Mixed? && !r.value.Doubled? {
        AnnounceCall(tg, true);
        if records {
          recording := recording + {tg};
        }
      } else {
        assert sent == old(sent) + [];
      }
    }

    /** The `unkey` arm: scoped to the caller when it names one. The indication covers
        the whole group, the recording only the route. */
    method DispatchUnkey(tg: Id, caller: Option<ClientId>)
      modifies this, router
      ensures router.Abs() == match caller
                case Some(c) => UnkeyAs(old(router.Abs()), tg, c)
                case None => Unkey(old(router.Abs()), tg)
      ensures recording == if router.TalkersOn(tg) == [] then old(recording) - {tg} else old(recording)
      ensures exists ns :: sent == old(sent) + ns
                && if IsClear(router.Abs(), tg) then TellsEach(router.Abs(), Group(router.Abs(), tg), false, ns)
                   else ns == []
    {
      hide Joined;
      hide UnkeyAs;
      hide Unkey;
      hide IsClear;
      hide TellsEach;
      match caller {
        case Some(c) => var released := router.UnkeyAs(tg, c);
        case None => router.Unkey(tg);
      }
      if router.TalkersOn(tg) == [] {
        recording := recording - {tg};
      }
      var clear := router.Clear(tg);
      if clear {
        AnnounceCall(tg, false);
      } else {
        assert sent == old(sent) + [];
      }
    }

    /** The consoles monitoring one route. */
    method ConsolesOn(tg: Id) returns (out: seq<ClientId>)
      ensures NoDuplicates(out) && forall c :: c in out <==> Watches(router.Abs(), tg, c)
    {
      var all := router.ListenersOf(tg);
      out := [];
      for i := 0 to |all|
        invariant NoDuplicates(out) && forall c :: c in out <==> c in all[..i] && c.IsConsole()
      {
        if all[i].IsConsole() {
          out := out + [all[i]];
        }
      }
      assert all[..|all|] == all;
    }

    /** A console letting go of PTT. */
    method ReleaseKey(tg: Id, client: ClientId) returns (r: Released)
      modifies router
      ensures router.Abs() == UnkeyAs(old(router.Abs()), tg, client)
      ensures r.callOver <==> IsClear(router.Abs(), tg)
      ensures r.recordingOver <==> forall c :: !Holds(router.Abs(), tg, c)
      ensures NoDuplicates(r.watching) && forall c :: c in r.watching <==> Watches(router.Abs(), tg, c)
    {
      hide Joined;
      hide UnkeyAs;
      hide IsClear;
      var released := router.UnkeyAs(tg, client);
      var callOver := router.Clear(tg);
      var watching := ConsolesOn(tg);
      var talking := router.TalkersOn(tg);
      assert forall c :: c in talking <==> Holds(router.Abs(), tg, c);
      assert talking != [] ==> talking[0] in talking;
      r := Released(talking == [], callOver, watching);
    }

    /** A socket going away mid-transmission: releases the destination, says whether it fell quiet. */
    method ReleaseOnDrop(client: ClientId) returns (r: Option<(Id, bool)>)
      modifies router
      ensures r.None? ==> router.Abs() == old(router.Abs()) && forall t :: !Holds(router.Abs(), t, client)
      ensures r.Some? ==>
        && IsDestination(old(router.Abs()), client, r.value.0)
        && router.Abs() == UnkeyAs(old(router.Abs()), r.value.0, client)
        && (r.value.1 <==> forall c :: !Holds(router.Abs(), r.value.0, c))
    {
      hide Joined;
      hide UnkeyAs;
      var destination := router.DestinationOf(client);
      if destination.None? {
        return None;
      }
      var tg := destination.value.0;
      var released := router.UnkeyAs(tg, client);
      var talking := router.TalkersOn(tg);
      assert forall c :: c in talking <==> Holds(router.Abs(), tg, c);
      assert talking != [] ==> talking[0] in talking;
      return Some((tg, talking == []));
    }
  }

  lemma NobodyTold(s: State, keyed: bool)
    ensures TellsEach(s, [], keyed, [])
  {
  }
}

/**
 * Who hears a transmission, and on which of the joined routes they are served.
 */
module Audience {
  import opened Types
  import opened Patches
  import opened Routing
  import opened Steps
  import opened Holding

  /** `bridged`: on the far side of a patch from the route that was keyed. */
  datatype Listener = Listener(client: ClientId, quality: Quality, mode: Mode, bridged: bool)

  /** How one joined route would serve one client, if it does. */
  function Offer(s: State, tg: Id, t: Id, c: ClientId): Option<Listener> {
    if t in s.routes && c in s.routes[t].members && s.routes[t].members[c].listen then
      Some(Listener(c, s.routes[t].members[c].quality, s.routes[t].Mode(), t != tg))
    else None
  }

  /** The later offer only wins by being strictly better. */
  function Better(kept: Option<Listener>, offer: Option<Listener>): Option<Listener> {
    if offer.None? || (kept.Some? && offer.value.quality <= kept.value.quality) then kept else offer
  }

  function Serve(s: State, tg: Id, ts: seq<Id>, c: ClientId): Option<Listener> {
    if ts == [] then None
    else Better(Serve(s, tg, ts[..|ts| - 1], c), Offer(s, tg, ts[|ts| - 1], c))
  }

  /** What `c` receives when `speaker` transmits on `tg`. */
  function Hears(s: State, tg: Id, speaker: ClientId, c: ClientId): Option<Listener> {
    if c == speaker then None else Serve(s, tg, Group(s, tg), c)
  }

  /** The first joined route, in order, with the best link on offer. */
  ghost predicate FirstBest(s: State, tg: Id, ts: seq<Id>, c: ClientId, i: nat) {
    && i < |ts| && Offer(s, tg, ts[i], c).Some?
    && (forall j :: 0 <= j < |ts| && Offer(s, tg, ts[j], c).Some? ==>
          Offer(s, tg, ts[j], c).value.quality <= Offer(s, tg, ts[i], c).value.quality)
    && (forall j :: 0 <= j < i && Offer(s, tg, ts[j], c).Some? ==>
          Offer(s, tg, ts[j], c).value.quality < Offer(s, tg, ts[i], c).value.quality)
  }

  lemma {:induction false} ServeIsArgmax(s: State, tg: Id, ts: seq<Id>, c: ClientId)
    ensures Serve(s, tg, ts, c).None? <==> forall t :: t in ts ==> Offer(s, tg, t, c).None?
    ensures Serve(s, tg, ts, c).Some? ==>
      exists i: nat :: FirstBest(s, tg, ts, c, i) && Serve(s, tg, ts, c) == Offer(s, tg, ts[i], c)
  {
    hide Offer;
    if ts != [] {
      var init, last := ts[..|ts| - 1], ts[|ts| - 1];
      assert ts == init + [last];
      ServeIsArgmax(s, tg, init, c);
      var kept, offer := Serve(s, tg, init, c), Offer(s, tg, last, c);
      if Serve(s, tg, ts, c).Some? {
        if Better(kept, offer) == kept && kept.Some? {
          var i: nat :| FirstBest(s, tg, init, c, i) && kept == Offer(s, tg, init[i], c);
          assert FirstBest(s, tg, ts, c, i);
        } else {
          assert FirstBest(s, tg, ts, c, |ts| - 1);
        }
      }
    }
  }

  lemma OfferShape(s: State, tg: Id, t: Id, c: ClientId)
    ensures Offer(s, tg, t, c).Some? <==>
            t in s.routes && c in s.routes[t].members && s.routes[t].members[c].listen
    ensures Offer(s, tg, t, c).Some? ==>
      var l := Offer(s, tg, t, c).value;
      l == Listener(c, s.routes[t].members[c].quality, s.routes[t].Mode(), t != tg)
  {
  }

  /** Never transmitted without `listen`, never to the speaker, once to everybody else,
      on their best link; ties go to the keyed route, the only one that is not bridged. */
  lemma HearsOnTheBestLink(s: State, tg: Id, speaker: ClientId, c: ClientId)
    ensures Hears(s, tg, speaker, c).Some? <==>
            c != speaker && exists t :: t in Group(s, tg) && t in s.routes
                              && c in s.routes[t].members && s.routes[t].members[c].listen
    ensures Hears(s, tg, speaker, c).Some? ==>
      exists i: nat :: FirstBest(s, tg, Group(s, tg), c, i)
                       && Hears(s, tg, speaker, c) == Offer(s, tg, Group(s, tg)[i], c)
                       && (Hears(s, tg, speaker, c).value.bridged <==> i > 0)
  {
    hide Joined;
    hide Offer;
    var ts := Group(s, tg);
    forall t { OfferShape(s, tg, t, c); }
    ServeIsArgmax(s, tg, ts, c);
    if Hears(s, tg, speaker, c).Some? {
      var i: nat :| FirstBest(s, tg, ts, c, i) && Serve(s, tg, ts, c) == Offer(s, tg, ts[i], c);
      assert ts[0] == tg;
      OfferShape(s, tg, ts[i], c);
    }
  }

  // -- Where a speaker is heard ---------------------------------------------

  /** The route a transmission is on: the one pressed while it is held, else the lowest held. */
  ghost predicate IsDestination(s: State, speaker: ClientId, tg: Id) {
    && Holds(s, tg, speaker)
    && if speaker in s.keyedBy && Holds(s, s.keyedBy[speaker], speaker) then tg == s.keyedBy[speaker]
       else forall t :: Holds(s, t, speaker) ==> tg <= t
  }

  /** A key that puts its client on the air puts it on the route it pressed, whatever
      else of the group it took. */
  lemma PressedIsTheDestination(s: State, tg: Id, client: ClientId, now: Instant)
    requires KeyOneResult(s, tg, client, now).Success? && KeyOneResult(s, tg, client, now) != Success(Doubled)
    ensures IsDestination(Key(s, tg, client, now), client, tg)
  {
    hide Key;
    hide Joined;
    hide Answer;
    hide Sibling;
    KeyAcceptedIs(s, tg, client, now);
    AnswerHolds(s.routes[tg], client, Insisting(s, tg, client, now));
  }

  // -- AM collisions --------------------------------------------------------

  ghost predicate TalksIn(s: State, tg: Id, c: ClientId) {
    exists t :: t in Group(s, tg) && Holds(s, t, c)
  }

  ghost predicate Collision(s: State, tg: Id) {
    && (exists t :: t in Group(s, tg) && t in s.routes && s.routes[t].am)
    && exists x, y :: x != y && TalksIn(s, tg, x) && TalksIn(s, tg, y)
  }

  /** A group is one channel: clear, or colliding, for all of it or none of it. */
  lemma OneAnswerPerGroup(s: State, tg: Id, t: Id)
    requires t in Group(s, tg)
    ensures IsClear(s, t) <==> IsClear(s, tg)
    ensures Collision(s, t) <==> Collision(s, tg)
  {
    hide Joined;
    SameGroup(s.patches, tg, t);
    assert forall x :: x in Elements(Group(s, t)) <==> x in Group(s, t);
    assert forall x :: x in Elements(Group(s, tg)) <==> x in Group(s, tg);
    forall c ensures TalksIn(s, t, c) <==> TalksIn(s, tg, c) {
    }
  }

  /** Nothing is clear exactly when somebody talks in the group. */
  lemma ClearMeansNobodyTalks(s: State, tg: Id)
    ensures IsClear(s, tg) <==> forall c :: !TalksIn(s, tg, c)
  {
    hide Joined;
    if !IsClear(s, tg) {
      var t :| t in Group(s, tg) && t in s.routes && !s.routes[t].Quiet();
      var c := if s.routes[t].keyed.Some? then s.routes[t].keyed.value else s.routes[t].also[0];
      assert Holds(s, t, c);
      assert TalksIn(s, tg, c);
    }
    if c :| TalksIn(s, tg, c) {
      var t :| t in Group(s, tg) && Holds(s, t, c);
      assert !s.routes[t].Quiet();
    }
  }
}

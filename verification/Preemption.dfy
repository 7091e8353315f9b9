/**
 * Dispatch priority takes two presses: whoever loses a route to a console loses
 * it to one that was refused there and insisted inside the window.
 */
module Preemption {
  import opened Types
  import opened Patches
  import opened Routing
  import opened Steps
  import opened Holding
  import opened OneTalker

  // -- The log --------------------------------------------------------------

  predicate On(e: Event, tg: Id, c: ClientId) {
    e.tg == tg && e.console == c
  }

  /** Event `j` is a refusal of `c` on `tg` at `at`, with nothing of theirs there before `n`. */
  ghost predicate Outstanding(log: seq<Event>, n: nat, j: nat, tg: Id, c: ClientId, at: Instant)
    requires n <= |log|
  {
    && j < n && log[j] == Refused(tg, c, at)
    && forall k :: j < k < n ==> !On(log[k], tg, c)
  }

  /** The preemption at `i` uses up the refusal at `j`, inside the window. */
  ghost predicate Consumes(log: seq<Event>, i: nat, j: nat) {
    && j < i < |log| && log[i].Took? && log[j].Refused?
    && Outstanding(log, i, j, log[i].tg, log[i].console, log[j].at)
    && DurationSince(log[i].at, log[j].at) <= PREEMPT_WINDOW
  }

  ghost predicate TwoPress(log: seq<Event>) {
    forall i :: 0 <= i < |log| && log[i].Took? ==> exists j :: Consumes(log, i, j)
  }

  /** No refusal pays for two preemptions. */
  lemma ConsumedOnce(log: seq<Event>, i: nat, i': nat, j: nat)
    requires Consumes(log, i, j) && Consumes(log, i', j)
    ensures i == i'
  {
    assert On(log[i], log[j].tg, log[j].console) && On(log[i'], log[j].tg, log[j].console);
  }

  /** What is armed is an outstanding refusal. */
  ghost predicate Armed(s: State, tg: Id, c: ClientId)
    requires (tg, c) in s.pending
  {
    exists j :: Outstanding(s.log, |s.log|, j, tg, c, s.pending[(tg, c)])
  }

  ghost predicate Honest(s: State) {
    && TwoPress(s.log)
    && forall tg, c :: (tg, c) in s.pending ==> Armed(s, tg, c)
  }

  lemma ConsumesGrows(log: seq<Event>, e: Event, i: nat, j: nat)
    requires Consumes(log, i, j)
    ensures Consumes(log + [e], i, j)
  {
  }

  lemma TwoPressGrows(log: seq<Event>, e: Event, j: nat)
    requires TwoPress(log)
    requires e.Took? ==> j < |log| && log[j].Refused? && Outstanding(log, |log|, j, e.tg, e.console, log[j].at)
                         && DurationSince(e.at, log[j].at) <= PREEMPT_WINDOW
    ensures TwoPress(log + [e])
  {
    var log' := log + [e];
    forall i | 0 <= i < |log'| && log'[i].Took? ensures exists j :: Consumes(log', i, j) {
      if i < |log| {
        var j0 :| Consumes(log, i, j0);
        ConsumesGrows(log, e, i, j0);
      } else {
        assert Consumes(log', i, j);
      }
    }
  }

  lemma ArmedGrows(s: State, s': State, e: Event, tg: Id, c: ClientId)
    requires (tg, c) in s.pending && Armed(s, tg, c) && s'.log == s.log + [e] && !On(e, tg, c)
    requires (tg, c) in s'.pending && s'.pending[(tg, c)] == s.pending[(tg, c)]
    ensures Armed(s', tg, c)
  {
    var j :| Outstanding(s.log, |s.log|, j, tg, c, s.pending[(tg, c)]);
    assert Outstanding(s'.log, |s'.log|, j, tg, c, s'.pending[(tg, c)]);
  }

  /** What one request does to the protocol's own state. */
  lemma KeyOneProtocol(s: State, tg: Id, client: ClientId, now: Instant)
    ensures var s', result := KeyOne(s, tg, client, now), KeyOneResult(s, tg, client, now);
            if result == Failure(Busy) then
              s'.pending == s.pending[(tg, client) := now] && s'.log == s.log + [Refused(tg, client, now)]
            else if Preempting(result) then
              && Insisting(s, tg, client, now)
              && s'.pending == s.pending - {(tg, client)}
              && s'.log == s.log + [Took(tg, client, now, result.value.holder)]
            else s'.pending == s.pending && s'.log == s.log
  {
  }

  lemma KeyOneHonest(s: State, tg: Id, client: ClientId, now: Instant)
    requires Honest(s)
    ensures Honest(KeyOne(s, tg, client, now))
  {
    hide KeyOne;
    hide KeyOneResult;
    hide Armed;
    hide TwoPress;
    var s', result := KeyOne(s, tg, client, now), KeyOneResult(s, tg, client, now);
    KeyOneProtocol(s, tg, client, now);
    if result == Failure(Busy) {
      var e := Refused(tg, client, now);
      TwoPressGrows(s.log, e, 0);
      forall t, c | (t, c) in s'.pending ensures Armed(s', t, c) {
        if (t, c) == (tg, client) {
          JustArmed(s', |s.log|, tg, client);
        } else {
          ArmedGrows(s, s', e, t, c);
        }
      }
    } else if Preempting(result) {
      var e := Took(tg, client, now, result.value.holder);
      var j := ArmedBy(s, tg, client);
      TwoPressGrows(s.log, e, j);
      forall t, c | (t, c) in s'.pending ensures Armed(s', t, c) {
        ArmedGrows(s, s', e, t, c);
      }
    } else {
      forall t, c | (t, c) in s'.pending ensures Armed(s', t, c) {
        StillArmed(s, s', t, c);
      }
    }
  }

  lemma JustArmed(s: State, j: nat, tg: Id, c: ClientId)
    requires (tg, c) in s.pending && Outstanding(s.log, |s.log|, j, tg, c, s.pending[(tg, c)])
    ensures Armed(s, tg, c)
  {
  }

  lemma ArmedBy(s: State, tg: Id, c: ClientId) returns (j: nat)
    requires (tg, c) in s.pending && Armed(s, tg, c)
    ensures Outstanding(s.log, |s.log|, j, tg, c, s.pending[(tg, c)])
  {
    j :| Outstanding(s.log, |s.log|, j, tg, c, s.pending[(tg, c)]);
  }

  lemma StillArmed(s: State, s': State, tg: Id, c: ClientId)
    requires (tg, c) in s.pending && Armed(s, tg, c) && s'.log == s.log
    requires (tg, c) in s'.pending && s'.pending[(tg, c)] == s.pending[(tg, c)]
    ensures Armed(s', tg, c)
  {
    var j :| Outstanding(s.log, |s.log|, j, tg, c, s.pending[(tg, c)]);
    assert Outstanding(s'.log, |s'.log|, j, tg, c, s'.pending[(tg, c)]);
  }

  /** Disarming, or changing nothing, is always honest. */
  lemma HonestWithFewer(s: State, s': State)
    requires Honest(s) && s'.log == s.log
    requires forall k :: k in s'.pending ==> k in s.pending && s'.pending[k] == s.pending[k]
    ensures Honest(s')
  {
    hide Armed;
    hide TwoPress;
    forall t, c | (t, c) in s'.pending ensures Armed(s', t, c) {
      StillArmed(s, s', t, c);
    }
  }

  lemma {:induction false} KeyEachHonest(s: State, ts: seq<Id>, client: ClientId, now: Instant)
    requires Honest(s)
    ensures Honest(KeyEach(s, ts, client, now))
  {
    hide Honest;
    hide KeyOne;
    if ts != [] {
      KeyEachHonest(s, ts[..|ts| - 1], client, now);
      KeyOneHonest(KeyEach(s, ts[..|ts| - 1], client, now), ts[|ts| - 1], client, now);
    }
  }

  lemma KeyHonest(s: State, tg: Id, client: ClientId, now: Instant)
    requires Honest(s)
    ensures Honest(Key(s, tg, client, now))
  {
    hide Honest;
    hide KeyOne;
    hide KeyOneResult;
    hide KeyEach;
    hide Joined;
    var s1 := KeyOne(s, tg, client, now);
    KeyOneHonest(s, tg, client, now);
    HonestWithFewer(s1, Pressed(s, tg, client, now));
    KeyEachHonest(Pressed(s, tg, client, now), Others(s, tg), client, now);
    if KeyOneResult(s, tg, client, now).Success? {
      HonestWithFewer(KeyEach(Pressed(s, tg, client, now), Others(s, tg), client, now), Key(s, tg, client, now));
    }
  }

  lemma ApplyHonest(s: State, op: Op)
    requires Honest(s)
    ensures Honest(Apply(s, op))
  {
    hide Honest;
    hide Key;
    hide UnkeyAs;
    hide Unkey;
    hide Joined;
    match op
    case KeyOp(tg, client, now) => KeyHonest(s, tg, client, now);
    case UnkeyAsOp(tg, client) => UnkeyAsIs(s, tg, client); HonestWithFewer(s, Apply(s, op));
    case UnkeyOp(tg) => UnkeyIs(s, tg); HonestWithFewer(s, Apply(s, op));
    case _ => HonestWithFewer(s, Apply(s, op));
  }

  /** In every run, every preemption uses up an earlier refusal of the same console on
      the same route, no older than the window, that no other preemption uses. */
  lemma {:induction false} EveryPreemptionWasAskedForTwice(ops: seq<Op>)
    ensures Honest(Run(INIT, ops))
  {
    hide Apply;
    hide Honest;
    if ops == [] {
      HonestInit();
    } else {
      EveryPreemptionWasAskedForTwice(ops[..|ops| - 1]);
      ApplyHonest(Run(INIT, ops[..|ops| - 1]), ops[|ops| - 1]);
    }
  }

  lemma HonestInit()
    ensures Honest(INIT)
  {
  }

  // -- What a preemption takes ----------------------------------------------

  lemma {:induction false} KeyEachLogs(s: State, ts: seq<Id>, client: ClientId, now: Instant)
    requires NoDuplicates(ts)
    ensures s.log <= KeyEach(s, ts, client, now).log
    ensures forall t :: t in ts && Preempting(KeyOneResult(s, t, client, now)) ==>
      Took(t, client, now, KeyOneResult(s, t, client, now).value.holder) in KeyEach(s, ts, client, now).log[|s.log|..]
  {
    hide Answer;
    hide KeyOne;
    if ts != [] {
      var init, last := ts[..|ts| - 1], ts[|ts| - 1];
      assert ts == init + [last] && last !in init;
      KeyEachLogs(s, init, client, now);
      KeyEachIs(s, init, client, now);
      var s1 := KeyEach(s, init, client, now);
      KeyOneProtocol(s1, last, client, now);
      var e := KeyOne(s1, last, client, now).log;
      assert e[|s.log|..] == s1.log[|s.log|..] + e[|s1.log|..];
      assert KeyOneResult(s1, last, client, now) == KeyOneResult(s, last, client, now);
      if Preempting(KeyOneResult(s, last, client, now)) {
        assert Took(last, client, now, KeyOneResult(s, last, client, now).value.holder) in e[|s1.log|..];
      }
    }
  }

  /** A key by `client` that cost `x` a route logged a preemption of `x` by `client`. */
  ghost predicate LoggedTaking(s: State, s': State, client: ClientId, now: Instant, x: ClientId) {
    s.log <= s'.log && exists t :: Took(t, client, now, x) in s'.log[|s.log|..]
  }

  lemma KeyLogs(s: State, tg: Id, client: ClientId, now: Instant)
    requires KeyOneResult(s, tg, client, now).Success?
    ensures var s1, s' := Pressed(s, tg, client, now), Key(s, tg, client, now);
            && s.log <= s1.log <= s'.log
            && (Preempting(KeyOneResult(s, tg, client, now)) ==>
                  Took(tg, client, now, KeyOneResult(s, tg, client, now).value.holder) in s1.log[|s.log|..])
            && forall t :: t in Others(s, tg) && Preempting(KeyOneResult(s1, t, client, now)) ==>
                 Took(t, client, now, KeyOneResult(s1, t, client, now).value.holder) in s'.log[|s1.log|..]
  {
    hide Joined;
    hide Answer;
    hide KeyOne;
    hide KeyEach;
    KeyOneProtocol(s, tg, client, now);
    OthersAre(s, tg);
    KeyEachLogs(Pressed(s, tg, client, now), Others(s, tg), client, now);
  }

  lemma SiblingTaken(s: State, tg: Id, client: ClientId, now: Instant, t: Id, x: ClientId)
    requires t in s.routes && s.routes[t].HeldBy(x) && !Sibling(s, tg, client, now, t).HeldBy(x)
    ensures var result := KeyOneResult(s, tg, client, now);
            if Preempting(result) then result.value.holder == x
            else Answer(s.routes[t], client, Insisting(s, t, client, now)).0 == Success(Preempted(x))
  {
    var result := KeyOneResult(s, tg, client, now);
    AnswerHolds(Seized(s, tg, client, now, t), client, SiblingInsists(s, tg, client, now, t));
    if Preempting(result) && result.value.holder != x {
      PreemptionRanks(s, tg, client, now);
      SeizeHolds(s.routes[t], client, result.value.holder);
    }
  }

  lemma InBoth(a: seq<Event>, b: seq<Event>, c: seq<Event>, e: Event)
    requires a <= b <= c && (e in b[|a|..] || e in c[|b|..])
    ensures e in c[|a|..]
  {
    assert c[|a|..] == b[|a|..] + c[|b|..];
  }

  /** Nobody ever loses a route to a key without that console having insisted on it:
      the same step logs the preemption, and so an unused refusal before it. */
  lemma DisplacedOnlyByInsisting(s: State, tg: Id, client: ClientId, now: Instant, t: Id, x: ClientId)
    requires Holds(s, t, x) && !Holds(Key(s, tg, client, now), t, x)
    ensures LoggedTaking(s, Key(s, tg, client, now), client, now, x)
  {
    hide Joined;
    hide Answer;
    hide Key;
    hide Sibling;
    hide Pressed;
    KeyHolds(s, tg, client, now, t, x);
    if KeyOneResult(s, tg, client, now).Failure? {
      KeyRefusedIs(s, tg, client, now);
    } else {
      var s1, s' := Pressed(s, tg, client, now), Key(s, tg, client, now);
      KeyLogs(s, tg, client, now);
      KeyAcceptedIs(s, tg, client, now);
      OthersAre(s, tg);
      PressedIs(s, tg, client, now);
      if t == tg {
        AnswerHolds(s.routes[t], client, Insisting(s, t, client, now));
        InBoth(s.log, s1.log, s'.log, Took(tg, client, now, x));
      } else {
        SiblingTaken(s, tg, client, now, t, x);
        if Preempting(KeyOneResult(s, tg, client, now)) {
          InBoth(s.log, s1.log, s'.log, Took(tg, client, now, x));
        } else {
          assert KeyOneResult(s1, t, client, now) == Success(Preempted(x));
          InBoth(s.log, s1.log, s'.log, Took(t, client, now, x));
        }
      }
    }
  }

  /** In every run: a client that loses a route to a key had that console refused there
      or on the pressed route of its group earlier, inside the window, and no other
      preemption spends the same refusal. */
  lemma NobodyIsCutOffUnasked(ops: seq<Op>, n: nat, t: Id, x: ClientId) returns (i: nat, j: nat)
    requires n < |ops| && ops[n].KeyOp?
    requires Holds(Run(INIT, ops[..n]), t, x) && !Holds(Run(INIT, ops[..n + 1]), t, x)
    ensures var before, log := Run(INIT, ops[..n]).log, Run(INIT, ops[..n + 1]).log;
            && |before| <= i < |log| && log[i] == Took(log[i].tg, ops[n].client, ops[n].now, x)
            && Consumes(log, i, j)
            && forall i': nat :: Consumes(log, i', j) ==> i' == i
  {
    hide Key;
    hide Joined;
    var s, s' := Run(INIT, ops[..n]), Run(INIT, ops[..n + 1]);
    RunStep(INIT, ops, n);
    var op := ops[n];
    DisplacedOnlyByInsisting(s, op.tg, op.client, op.now, t, x);
    var p :| Took(p, op.client, op.now, x) in s'.log[|s.log|..];
    var d: nat :| d < |s'.log[|s.log|..]| && s'.log[|s.log|..][d] == Took(p, op.client, op.now, x);
    i := |s.log| + d;
    EveryPreemptionWasAskedForTwice(ops[..n + 1]);
    j :| Consumes(s'.log, i, j);
    forall i': nat | Consumes(s'.log, i', j) ensures i' == i {
      ConsumedOnce(s'.log, i', i, j);
    }
  }

  lemma SiblingOfTheTaken(s: State, tg: Id, client: ClientId, now: Instant, t: Id)
    requires Preempting(KeyOneResult(s, tg, client, now)) && t in s.routes
    ensures !Sibling(s, tg, client, now, t).HeldBy(KeyOneResult(s, tg, client, now).value.holder)
  {
    var holder := KeyOneResult(s, tg, client, now).value.holder;
    PreemptionRanks(s, tg, client, now);
    SeizeHolds(s.routes[t], client, holder);
    AnswerHolds(Seized(s, tg, client, now, t), client, SiblingInsists(s, tg, client, now, t));
  }

  /** One preemption takes the whole channel: the unit that was cut off holds no
      member of the group, and dispatch holds the route it pressed. */
  lemma PreemptionTakesTheGroup(s: State, tg: Id, client: ClientId, now: Instant, holder: ClientId, t: Id)
    requires AllSound(s) && KeyOneResult(s, tg, client, now) == Success(Preempted(holder))
    requires t in Group(s, tg)
    ensures !Holds(Key(s, tg, client, now), t, holder)
    ensures Holds(Key(s, tg, client, now), tg, client)
  {
    hide Joined;
    hide Key;
    hide Sibling;
    KeyAcceptedIs(s, tg, client, now);
    if t in s.routes && t != tg {
      SiblingOfTheTaken(s, tg, client, now, t);
    }
  }
}

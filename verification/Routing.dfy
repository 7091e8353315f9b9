/**
 * The routing table as a state machine: one value per state, one function per
 * operation. The class in Router.dfy performs these steps on its fields.
 */
module Routing {
  import opened Types
  import opened Lanes
  import opened Patches

  /** How long a console has to insist after being refused a busy channel. */
  const PREEMPT_WINDOW: nat := 4_000_000_000

  /** Conventional route ids carry the high bit. */
  const CONV_BASE: Id := 0x8000_0000

  datatype Member = Member(listen: bool, quality: Quality)

  datatype Route = Route(
    encrypted: bool,
    members: map<ClientId, Member>,
    keyed: Option<ClientId>,
    conventional: bool,
    am: bool,
    also: seq<ClientId>,
    deferred: map<ClientId, Quality>)
  {
    /** Transmitting here: as the holder, or mixed in on top of them. */
    predicate HeldBy(c: ClientId) {
      keyed == Some(c) || c in also
    }

    predicate Quiet() {
      keyed.None? && also == []
    }

    function Mode(): Mode {
      if conventional then (if am then Am else Fm) else P25
    }

    function Talkers(): seq<ClientId> {
      (if keyed.Some? then [keyed.value] else []) + also
    }
  }

  const FRESH_ROUTE := Route(false, map[], None, false, false, [], map[])

  datatype Keyed = Granted | Preempted(holder: ClientId) | Doubled | Mixed

  datatype Refusal = NoSuchRoute | Busy | DispatchTransmitting | AlreadyKeyed

  type KeyResult = Result<Keyed, Refusal>

  /** What the two-press protocol did, in the order it did it. */
  datatype Event =
    | Refused(tg: Id, console: ClientId, at: Instant)
    | Took(tg: Id, console: ClientId, at: Instant, holder: ClientId)

  /** `told` and `log` are history: no step ever decides anything by them. */
  datatype State = State(
    routes: map<Id, Route>,
    sessionToClient: map<SessionId, ClientId>,
    clientToSession: map<ClientId, SessionId>,
    keyedBy: map<ClientId, Id>,
    patches: Table,
    pending: map<(Id, ClientId), Instant>,
    took: map<(ClientId, Id), seq<Id>>,
    told: map<(Id, ClientId), Member>,
    log: seq<Event>)

  const INIT := State(map[], map[], map[], map[], [], map[], map[], map[], [])

  // -- Reading the state ----------------------------------------------------

  predicate Holds(s: State, t: Id, c: ClientId) {
    t in s.routes && s.routes[t].HeldBy(c)
  }

  function Group(s: State, tg: Id): seq<Id> {
    Joined(s.patches, tg)
  }

  predicate IsClear(s: State, tg: Id) {
    forall t :: t in Group(s, tg) && t in s.routes ==> s.routes[t].Quiet()
  }

  /** (conventional, am), from the id alone: 108-137 MHz is airband. */
  function Classify(id: Id): (bool, bool) {
    if id < CONV_BASE then (false, false)
    else (true, 1_080_000 <= id - CONV_BASE < 1_370_000)
  }

  // -- Sessions -------------------------------------------------------------

  /** `player` is what the username's `[%d]` prefix says, if it says anything. */
  function Bind(s: State, session: SessionId, player: Option<U32>): State {
    if player.None? then s
    else
      var client := ClientId(session.server, player.value);
      s.(sessionToClient := s.sessionToClient[session := client],
         clientToSession := s.clientToSession[client := session])
  }

  /** A route after somebody left it for good. */
  function Vacate(r: Route, who: Departing, parkedToo: bool): Route {
    r.(members := map c | c in r.members && !who.Leaves(c) :: r.members[c],
       also := Without(r.also, who),
       keyed := if r.keyed.Some? && who.Leaves(r.keyed.value) then None else r.keyed,
       deferred := if parkedToo then map c | c in r.deferred && !who.Leaves(c) :: r.deferred[c]
                   else r.deferred)
  }

  function Depart(s: State, who: Departing, parkedToo: bool): State {
    s.(routes := map t | t in s.routes :: Vacate(s.routes[t], who, parkedToo),
       keyedBy := map c | c in s.keyedBy && !who.Leaves(c) :: s.keyedBy[c],
       took := map k | k in s.took && !who.Leaves(k.0) :: s.took[k])
  }

  function LoseSession(s: State, session: SessionId, client: ClientId): State {
    s.(sessionToClient := s.sessionToClient - {session}, clientToSession := s.clientToSession - {client})
  }

  function Unbind(s: State, session: SessionId): State {
    if session !in s.sessionToClient then s
    else
      var client := s.sessionToClient[session];
      Depart(LoseSession(s, session, client), One(client), false)
  }

  function LoseSessionsOf(s: State, server: U32): State {
    s.(sessionToClient := map k | k in s.sessionToClient && k.server != server :: s.sessionToClient[k],
       clientToSession := map c | c in s.clientToSession && c.server != server :: s.clientToSession[c])
  }

  function DropServer(s: State, server: U32): State {
    Depart(LoseSessionsOf(s, server), Server(server), false)
  }

  function ForgetClient(s: State, client: ClientId): State {
    Depart(s, One(client), true)
  }

  function ForgetMembership(s: State, client: ClientId): State {
    s.(routes := map t | t in s.routes ::
         s.routes[t].(members := s.routes[t].members - {client},
                      deferred := s.routes[t].deferred - {client}))
  }

  // -- Routes, members and patches ------------------------------------------

  function Existing(s: State, tg: Id, blank: Route): Route {
    if tg in s.routes then s.routes[tg] else blank
  }

  function Open(s: State, tg: Id, encrypted: bool): State {
    s.(routes := s.routes[tg := Existing(s, tg, FRESH_ROUTE).(encrypted := encrypted)])
  }

  function OpenConventional(s: State, id: Id, am: bool): State {
    s.(routes := s.routes[id := Existing(s, id, FRESH_ROUTE).(conventional := true, am := am)])
  }

  function Close(s: State, tg: Id): State {
    s.(routes := s.routes - {tg})
  }

  function SetPatches(s: State, groups: Table): State {
    s.(patches := groups)
  }

  /** Whether this update is held back on a channel that is in use. */
  predicate Parks(s: State, tg: Id, client: ClientId, quality: Quality) {
    && !IsClear(s, tg)
    && tg in s.routes && client in s.routes[tg].members
    && JittersOneLane(s.routes[tg].members[client].quality, quality)
  }

  function SetMember(s: State, tg: Id, client: ClientId, listen: bool, quality: Quality): State {
    var route := Existing(s, tg, FRESH_ROUTE.(conventional := Classify(tg).0, am := Classify(tg).1));
    var route' :=
      if Parks(s, tg, client, quality) then
        route.(members := route.members[client := Member(listen, route.members[client].quality)],
               deferred := route.deferred[client := quality])
      else
        route.(members := route.members[client := Member(listen, quality)],
               deferred := route.deferred - {client});
    s.(routes := s.routes[tg := route'], told := s.told[(tg, client) := Member(listen, quality)])
  }

  // -- Keying ---------------------------------------------------------------

  predicate Insisting(s: State, tg: Id, client: ClientId, now: Instant) {
    (tg, client) in s.pending && DurationSince(now, s.pending[(tg, client)]) <= PREEMPT_WINDOW
  }

  /** What one route answers, and what becomes of it. */
  function Answer(r: Route, client: ClientId, insisting: bool): (KeyResult, Route) {
    match r.keyed
    case None => (Success(Granted), r.(keyed := Some(client)))
    case Some(holder) =>
      if holder == client then (Success(Granted), r)
      else if r.conventional && r.am then
        (Success(Mixed), if client in r.also then r else r.(also := r.also + [client]))
      else if r.conventional then (Success(Doubled), r)
      else if client.IsConsole() && !holder.IsConsole() then
        if insisting then (Success(Preempted(holder)), r.(keyed := Some(client)))
        else (Failure(Busy), r)
      else if !client.IsConsole() && holder.IsConsole() then (Failure(DispatchTransmitting), r)
      else (Failure(AlreadyKeyed), r)
  }

  predicate Preempting(result: KeyResult) {
    result.Success? && result.value.Preempted?
  }

  function Answered(s: State, t: Id, client: ClientId, now: Instant): Route
    requires t in s.routes
  {
    Answer(s.routes[t], client, Insisting(s, t, client, now)).1
  }

  function KeyOneResult(s: State, tg: Id, client: ClientId, now: Instant): KeyResult {
    if tg in s.routes then Answer(s.routes[tg], client, Insisting(s, tg, client, now)).0
    else Failure(NoSuchRoute)
  }

  function KeyOne(s: State, tg: Id, client: ClientId, now: Instant): State {
    if tg !in s.routes then s
    else
      var result := KeyOneResult(s, tg, client, now);
      s.(routes := s.routes[tg := Answered(s, tg, client, now)],
         pending :=
           if result == Failure(Busy) then s.pending[(tg, client) := now]
           else if Preempting(result) then s.pending - {(tg, client)}
           else s.pending,
         log :=
           if result == Failure(Busy) then s.log + [Refused(tg, client, now)]
           else if Preempting(result) then s.log + [Took(tg, client, now, result.value.holder)]
           else s.log)
  }

  /** Best effort: whatever each route answers, in turn. */
  function KeyEach(s: State, ts: seq<Id>, client: ClientId, now: Instant): State {
    if ts == [] then s
    else KeyOne(KeyEach(s, ts[..|ts| - 1], client, now), ts[|ts| - 1], client, now)
  }

  function SeizeRoute(r: Route, client: ClientId, holder: ClientId): Route {
    r.(keyed := if r.keyed == Some(holder) then Some(client) else r.keyed,
       also := Without(r.also, One(holder)))
  }

  /** A patch is one channel, so preempting it takes every member the holder had. */
  function Seize(s: State, others: seq<Id>, client: ClientId, holder: ClientId): State {
    s.(routes := map t | t in s.routes ::
         if t in others then SeizeRoute(s.routes[t], client, holder) else s.routes[t],
       pending := map k | k in s.pending && !(k.0 in others && k.1 == client) :: s.pending[k])
  }

  function Others(s: State, tg: Id): seq<Id> {
    Group(s, tg)[1..]
  }

  /** The pressed route answered, and if dispatch took it, its siblings taken with it. */
  function Pressed(s: State, tg: Id, client: ClientId, now: Instant): State {
    var result, s1 := KeyOneResult(s, tg, client, now), KeyOne(s, tg, client, now);
    if Preempting(result) then Seize(s1, Others(s, tg), client, result.value.holder) else s1
  }

  function Key(s: State, tg: Id, client: ClientId, now: Instant): State {
    if KeyOneResult(s, tg, client, now).Failure? then KeyOne(s, tg, client, now)
    else
      var s1 := KeyEach(Pressed(s, tg, client, now), Others(s, tg), client, now);
      s1.(took := s1.took[(client, tg) := Group(s, tg)], keyedBy := s1.keyedBy[client := tg])
  }

  // -- Releasing ------------------------------------------------------------

  function ReleaseRoute(r: Route, client: ClientId): Route {
    r.(keyed := if r.keyed == Some(client) then None else r.keyed,
       also := Without(r.also, One(client)))
  }

  /** What a release of `tg` gives back: what the key took, or the current group. */
  function Mine(s: State, tg: Id, client: ClientId): seq<Id> {
    if (client, tg) in s.took then s.took[(client, tg)] else Group(s, tg)
  }

  function Release(s: State, tg: Id, client: ClientId): State {
    var mine := Mine(s, tg, client);
    s.(routes := map t | t in s.routes ::
         if t in mine then ReleaseRoute(s.routes[t], client) else s.routes[t],
       took := s.took - {(client, tg)},
       keyedBy := s.keyedBy - {client})
  }

  /** Applies what was parked. */
  function Settle(r: Route): Route {
    r.(members := map c | c in r.members ::
         if c in r.deferred then r.members[c].(quality := r.deferred[c]) else r.members[c],
       deferred := map[])
  }

  function Drain(s: State, tg: Id): State {
    if !IsClear(s, tg) then s
    else
      s.(routes := map t | t in s.routes ::
           if t in Group(s, tg) then Settle(s.routes[t]) else s.routes[t])
  }

  function DrainEach(s: State, ts: seq<Id>): State {
    if ts == [] then s else Drain(DrainEach(s, ts[..|ts| - 1]), ts[|ts| - 1])
  }

  function UnkeyAs(s: State, tg: Id, client: ClientId): State {
    DrainEach(Release(s, tg, client), Mine(s, tg, client))
  }

  /** Unconditional, one route. */
  function Silenced(r: Route): Route {
    r.(keyed := None, also := [])
  }

  function TearDown(s: State, tg: Id): State {
    if tg in s.routes then s.(routes := s.routes[tg := Silenced(s.routes[tg])]) else s
  }

  function Unkey(s: State, tg: Id): State {
    Drain(TearDown(s, tg), tg)
  }

  // -- Runs -----------------------------------------------------------------

  datatype Op =
    | BindOp(session: SessionId, player: Option<U32>)
    | UnbindOp(session: SessionId)
    | DropServerOp(server: U32)
    | OpenOp(tg: Id, encrypted: bool)
    | OpenConventionalOp(tg: Id, am: bool)
    | CloseOp(tg: Id)
    | SetMemberOp(tg: Id, client: ClientId, listen: bool, quality: Quality)
    | KeyOp(tg: Id, client: ClientId, now: Instant)
    | UnkeyAsOp(tg: Id, client: ClientId)
    | UnkeyOp(tg: Id)
    | ForgetMembershipOp(client: ClientId)
    | ForgetClientOp(client: ClientId)
    | SetPatchesOp(groups: Table)

  function Apply(s: State, op: Op): State {
    match op
    case BindOp(session, player) => Bind(s, session, player)
    case UnbindOp(session) => Unbind(s, session)
    case DropServerOp(server) => DropServer(s, server)
    case OpenOp(tg, encrypted) => Open(s, tg, encrypted)
    case OpenConventionalOp(tg, am) => OpenConventional(s, tg, am)
    case CloseOp(tg) => Close(s, tg)
    case SetMemberOp(tg, client, listen, quality) => SetMember(s, tg, client, listen, quality)
    case KeyOp(tg, client, now) => Key(s, tg, client, now)
    case UnkeyAsOp(tg, client) => UnkeyAs(s, tg, client)
    case UnkeyOp(tg) => Unkey(s, tg)
    case ForgetMembershipOp(client) => ForgetMembership(s, client)
    case ForgetClientOp(client) => ForgetClient(s, client)
    case SetPatchesOp(groups) => SetPatches(s, groups)
  }

  function Run(s: State, ops: seq<Op>): State {
    if ops == [] then s else Apply(Run(s, ops[..|ops| - 1]), ops[|ops| - 1])
  }
}

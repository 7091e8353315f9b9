/** Identities and small values shared by every component. */
module Types {

  datatype Option<+T> = None | Some(value: T)

  datatype Result<+T, +E> = Success(value: T) | Failure(error: E)

  /** Rust's `u32`: a route id, a server id, a player id or a session id. */
  type U32 = x: int | 0 <= x < 0x1_0000_0000

  /** A talkgroup or, with the high bit set, a conventional frequency. */
  type Id = U32

  /** Rust's `u8`. Link quality is nominally 0..100 but the type allows 255. */
  type Quality = x: int | 0 <= x < 256

  /** A reading of a monotonic clock, in nanoseconds. */
  type Instant = nat

  /** How long after `earlier` the moment `now` is; zero when `earlier` is later. */
  function DurationSince(now: Instant, earlier: Instant): nat
  {
    if now >= earlier then now - earlier else 0
  }

  const CONSOLE_SERVER: U32 := 0

  /** A client, globally: player ids are unique only within one server. */
  datatype ClientId = ClientId(server: U32, player: U32) {
    predicate IsConsole() {
      server == CONSOLE_SERVER
    }
  }

  /** A Mumble session, meaningful only within one tap. */
  datatype SessionId = SessionId(server: U32, session: U32)

  /** The modulation of a route: digital, or one of the two analogue ones. */
  datatype Mode = P25 | Fm | Am

  /** Whoever is leaving: one client, or everybody of one server. */
  datatype Departing = One(client: ClientId) | Server(server: U32) {
    predicate Leaves(c: ClientId) {
      match this
      case One(client) => c == client
      case Server(server) => c.server == server
    }
  }

  ghost predicate NoDuplicates<T>(s: seq<T>) {
    forall i, j :: 0 <= i < j < |s| ==> s[i] != s[j]
  }

  /** Every element of `s` that stays, in order. */
  function Without(s: seq<ClientId>, who: Departing): (kept: seq<ClientId>)
    ensures forall c :: c in kept <==> c in s && !who.Leaves(c)
    ensures NoDuplicates(s) ==> NoDuplicates(kept)
    ensures |kept| <= |s|
  {
    if s == [] then []
    else
      var front := Without(s[..|s| - 1], who);
      var last := s[|s| - 1];
      assert s == s[..|s| - 1] + [last];
      if who.Leaves(last) then front else front + [last]
  }

  /** Nobody leaving means nothing changes. */
  lemma {:induction false} WithoutNobody(s: seq<ClientId>, who: Departing)
    requires forall c :: c in s ==> !who.Leaves(c)
    ensures Without(s, who) == s
  {
    if s == [] {
    } else {
      var init, last := s[..|s| - 1], s[|s| - 1];
      assert s == init + [last];
      assert forall c :: c in init ==> c in s;
      WithoutNobody(init, who);
      assert last in s;
    }
  }
}

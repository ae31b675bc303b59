/** The access-token denylist: one "revoked before" marker per user, which outlives the tokens
    it kills and is then dropped, lazily in process memory or by itself on a Redis server. */
module TokenDenylist {
  import opened Clock

  type UserId = nat

  /** `cutoff` is in whole seconds, like a JWT `iat`; `deadline` is a clock reading. */
  datatype Marker = Marker(cutoff: nat, deadline: nat)

  type Markers = map<UserId, Marker>

  function AfterRevoke(m: Markers, user: UserId, ttlSeconds: nat, now: nat): Markers {
    m[user := Marker(Sec(now), now + ttlSeconds * SECOND)]
  }

  /** The test is inclusive: a token of the very second of the revocation is refused. */
  predicate Revoked(m: Markers, user: UserId, issuedAt: nat, now: nat) {
    user in m && now < m[user].deadline && issuedAt <= m[user].cutoff
  }

  function AfterCheck(m: Markers, user: UserId, now: nat): Markers {
    if user in m && m[user].deadline <= now then m - {user} else m
  }

  class InMemoryTokenDenylist {
    var cutoffs: Markers

    constructor ()
      ensures cutoffs == map[]
    {
      cutoffs := map[];
    }

    /** Until the marker's deadline every token of the user issued up to this second is refused, and no
        later one; other users' verdicts stay. */
    method RevokeUser(user: UserId, ttlSeconds: nat, now: nat)
      modifies this
      ensures cutoffs == AfterRevoke(old(cutoffs), user, ttlSeconds, now)
      ensures forall iat: nat, t: nat ::
                Revoked(cutoffs, user, iat, t) <==> iat <= Sec(now) && t < now + ttlSeconds * SECOND
      ensures forall u, iat: nat, t: nat | u != user ::
                Revoked(cutoffs, u, iat, t) <==> Revoked(old(cutoffs), u, iat, t)
    {
      cutoffs := cutoffs[user := Marker(Sec(now), now + ttlSeconds * SECOND)];
    }

    method IsUserRevoked(user: UserId, issuedAt: nat, now: nat) returns (revoked: bool)
      modifies this
      ensures revoked == Revoked(old(cutoffs), user, issuedAt, now)
      ensures cutoffs == AfterCheck(old(cutoffs), user, now)
    {
      if user !in cutoffs {
        return false;
      }
      var entry := cutoffs[user];
      if now >= entry.deadline {
        cutoffs := cutoffs - {user};
        return false;
      }
      return issuedAt <= entry.cutoff;
    }
  }

  // ------------------------------------------------------------ the Redis twin

  datatype DenylistCall =
    | Revoke(user: UserId, ttlSeconds: nat, at: nat)
    | Check(user: UserId, issuedAt: nat, at: nat)

  function MemoryRun(m: Markers, trace: seq<DenylistCall>): Markers
    decreases |trace|
  {
    if trace == [] then m else
      var m' := match trace[0]
                case Revoke(u, ttl, at) => AfterRevoke(m, u, ttl, at)
                case Check(u, _, at) => AfterCheck(m, u, at);
      MemoryRun(m', trace[1..])
  }

  /** On the server a check is a plain read; an expired key merely stops being visible. */
  function RedisRun(m: Markers, trace: seq<DenylistCall>): Markers
    decreases |trace|
  {
    if trace == [] then m else
      RedisRun(if trace[0].Revoke? then AfterRevoke(m, trace[0].user, trace[0].ttlSeconds, trace[0].at) else m,
               trace[1..])
  }

  /** Deleting expired markers while reading never changes a verdict: after the same calls the
      two denylists refuse exactly the same tokens. */
  lemma {:induction false} SameVerdict(mine: Markers, theirs: Markers, trace: seq<DenylistCall>, from: nat,
                                       user: UserId, issuedAt: nat, now: nat)
    requires forall u, iat, t | from <= t :: Revoked(mine, u, iat, t) == Revoked(theirs, u, iat, t)
    requires forall i | 0 <= i < |trace| :: from <= trace[i].at <= now
    requires forall i, j | 0 <= i < j < |trace| :: trace[i].at <= trace[j].at
    requires from <= now
    ensures Revoked(MemoryRun(mine, trace), user, issuedAt, now)
            == Revoked(RedisRun(theirs, trace), user, issuedAt, now)
    decreases |trace|
  {
    if trace != [] {
      var c := trace[0];
      var mine' := match c
                   case Revoke(u, ttl, at) => AfterRevoke(mine, u, ttl, at)
                   case Check(u, _, at) => AfterCheck(mine, u, at);
      var theirs' := if c.Revoke? then AfterRevoke(theirs, c.user, c.ttlSeconds, c.at) else theirs;
      forall u, iat, t | c.at <= t ensures Revoked(mine', u, iat, t) == Revoked(theirs', u, iat, t) {
        assert Revoked(mine, u, iat, t) == Revoked(theirs, u, iat, t);
      }
      SameVerdict(mine', theirs', trace[1..], c.at, user, issuedAt, now);
    }
  }
}

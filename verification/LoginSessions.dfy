/**
 Login sessions: created at login, valid until they expire or are invalidated.
 */
module LoginSessions {
  import opened Wrappers

  type Sid = string
  type Time = int

  datatype LoginSession = LoginSession(userId: string, tenantId: string, authTime: int, expiresAt: Time,
                                       invalidatedAt: Option<Time>)

  type Table = map<Sid, LoginSession>

  datatype SessionError = InvalidSession

  /** `Math.floor(now / 1000)` for the epoch seconds of a clock in milliseconds. */
  function Seconds(now: Time): int {
    now / 1000
  }

  predicate ValidAt(t: Table, sid: Sid, now: Time) {
    sid in t && t[sid].invalidatedAt.None? && t[sid].expiresAt >= now
  }

  function NewSession(now: Time, durationSeconds: int, userId: string, tenantId: string): LoginSession {
    LoginSession(userId, tenantId, Seconds(now), now + durationSeconds * 1000, None)
  }

  /** UPDATE ... SET invalidated_at WHERE sid */
  function Invalidated(t: Table, sid: Sid, now: Time): Table {
    if sid in t then t[sid := t[sid].(invalidatedAt := Some(now))] else t
  }

  class LoginSessionService {
    const durationSeconds: int
    var rows: Table

    constructor (durationSeconds: int)
      ensures this.durationSeconds == durationSeconds && rows == map[]
    {
      this.durationSeconds := durationSeconds;
      rows := map[];
    }

    method CreateSession(now: Time, sid: Sid, userId: string, tenantId: string)
      modifies this
      ensures rows == old(rows)[sid := NewSession(now, durationSeconds, userId, tenantId)]
      ensures rows[sid].userId == userId && rows[sid].tenantId == tenantId
      ensures rows[sid].authTime * 1000 <= now < rows[sid].authTime * 1000 + 1000
      ensures forall t :: ValidAt(rows, sid, t) <==> t <= now + durationSeconds * 1000
    {
      var authTime := now / 1000;
      var expiresAt := now + durationSeconds * 1000;
      rows := rows[sid := LoginSession(userId, tenantId, authTime, expiresAt, None)];
    }

    method ValidateSession(sid: Sid, now: Time) returns (r: Result<LoginSession, SessionError>)
      ensures r.Ok? <==> ValidAt(rows, sid, now)
      ensures r.Ok? <==> sid in rows && rows[sid].invalidatedAt == None && now <= rows[sid].expiresAt
      ensures r.Ok? ==> r.value == rows[sid]
    {
      if sid !in rows || rows[sid].invalidatedAt.Some? || rows[sid].expiresAt < now {
        return Err(InvalidSession);
      }
      return Ok(rows[sid]);
    }

    method FindSessionBySid(sid: Sid, now: Time) returns (r: Option<LoginSession>)
      ensures r.Some? <==> ValidAt(rows, sid, now)
      ensures r.Some? <==> sid in rows && rows[sid].invalidatedAt == None && now <= rows[sid].expiresAt
      ensures r.Some? ==> r.value == rows[sid]
    {
      if sid !in rows {
        return None;
      }
      var session := rows[sid];
      if session.invalidatedAt.Some? || session.expiresAt < now {
        return None;
      }
      return Some(session);
    }

    method InvalidateSession(sid: Sid, now: Time)
      modifies this
      ensures rows == Invalidated(old(rows), sid, now)
      ensures forall t :: !ValidAt(rows, sid, t)
      ensures rows.Keys == old(rows).Keys && forall k :: k in rows ==>
        rows[k] == if k == sid then old(rows)[k].(invalidatedAt := Some(now)) else old(rows)[k]
    {
      rows := map k | k in rows :: if k == sid then rows[k].(invalidatedAt := Some(now)) else rows[k];
    }
  }
}

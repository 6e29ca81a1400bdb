/**
 * The security manager: credential checks, sessions, role-based
 * permission checks and the audit log, and the login, logout and
 * permission-check flows that combine them.
 *
 * The clock (`now`, seconds since the Unix epoch) and the UUIDs of new
 * sessions and audit entries are parameters. Password hashing, TOTP and
 * encryption are the source's stand-ins: a fixed demo password, a fixed
 * code, and the identity.
 */
module Security {
  import opened Wrappers
  import opened Errors

  datatype AccountStatus = Active | Suspended | Locked | Disabled

  datatype UserCredentials = UserCredentials(userId: string, username: string, passwordHash: string, salt: string, status: AccountStatus)

  datatype UserSession = UserSession(
    sessionId: string, userId: string, createdAt: nat, lastActivity: nat, expiresAt: nat,
    ipAddress: string, userAgent: string, permissions: seq<string>)

  /** How long a session lasts, in seconds. */
  const SessionLifetime: nat := 3600

  datatype AuditEventType = Authentication | Authorization | DataAccess | DataModification | SystemAccess | ConfigurationChange | SecurityEvent

  datatype AuditResult = Success | Failure | Warning | AuditError

  datatype AuditLogEntry = AuditLogEntry(
    id: string, timestamp: nat, userId: Option<string>, sessionId: Option<string>, eventType: AuditEventType,
    resource: Option<string>, action: string, result: AuditResult, ipAddress: Option<string>, userAgent: Option<string>)

  // ---------------------------------------------------------------------
  // Credentials
  // ---------------------------------------------------------------------

  /** `verify_password`: the stand-in accepts one fixed password, whatever the hash. */
  predicate PasswordMatches(password: string, hash: string, salt: string) {
    password == "demo_password"
  }

  /** The outcome of checking a password against one user's credentials: the password first, then the account status. */
  function CredentialOutcome(c: UserCredentials, password: string): (r: Result<string, ClaudeError>)
    ensures r.Ok? <==> PasswordMatches(password, c.passwordHash, c.salt) && c.status == Active
    ensures r.Ok? ==> r.value == c.userId
    ensures !PasswordMatches(password, c.passwordHash, c.salt) ==> r == Err(ConfigError("Invalid credentials"))
  {
    if !PasswordMatches(password, c.passwordHash, c.salt) then Err(ConfigError("Invalid credentials"))
    else match c.status
      case Active => Ok(c.userId)
      case Suspended => Err(ConfigError("Account suspended"))
      case Locked => Err(ConfigError("Account locked"))
      case Disabled => Err(ConfigError("Account disabled"))
  }

  /** `verify_code`: the stand-in accepts one fixed code. */
  function VerifyTotp(code: string): (r: Result<(), ClaudeError>)
    ensures r.Ok? <==> code == "123456"
    ensures r.Err? ==> r.error == ConfigError("Invalid TOTP code")
  {
    if code == "123456" then Ok(()) else Err(ConfigError("Invalid TOTP code"))
  }

  /** The session `create_session` builds: it expires an hour after it is created. */
  function NewSession(sessionId: string, userId: string, ip: string, agent: string, now: nat): (s: UserSession)
    ensures s.sessionId == sessionId && s.userId == userId
    ensures s.createdAt == now && s.lastActivity == now && s.expiresAt == now + SessionLifetime
    ensures s.permissions == []
  {
    UserSession(sessionId, userId, now, now, now + SessionLifetime, ip, agent, [])
  }

  class AuthenticationManager {
    /** Credentials by user id. */
    var credentials: map<string, UserCredentials>
    var sessions: map<string, UserSession>

    constructor()
      ensures credentials == map[] && sessions == map[]
    {
      credentials := map[];
      sessions := map[];
    }

    /**
     * `verify_credentials`: the credentials of some user with this
     * username (whichever the map yields first) decide the outcome; with
     * no such user the credentials are invalid.
     */
    method VerifyCredentials(username: string, password: string) returns (r: Result<string, ClaudeError>)
      ensures (forall id :: id in credentials ==> credentials[id].username != username) ==>
        r == Err(ConfigError("Invalid credentials"))
      ensures (exists id :: id in credentials && credentials[id].username == username) ==>
        exists id :: id in credentials && credentials[id].username == username && r == CredentialOutcome(credentials[id], password)
    {
      if id :| id in credentials && credentials[id].username == username {
        r := CredentialOutcome(credentials[id], password);
      } else {
        r := Err(ConfigError("Invalid credentials"));
      }
    }

    /** `create_session`: stores a fresh session under the new id. */
    method CreateSession(userId: string, ip: string, agent: string, sessionId: string, now: nat)
      returns (r: Result<string, ClaudeError>)
      modifies this
      ensures r == Ok(sessionId)
      ensures sessions == old(sessions)[sessionId := NewSession(sessionId, userId, ip, agent, now)]
      ensures credentials == old(credentials)
    {
      sessions := sessions[sessionId := NewSession(sessionId, userId, ip, agent, now)];
      r := Ok(sessionId);
    }

    /** `get_session`: any stored session, whether or not its expiry time has passed. */
    function GetSession(sessionId: string): (r: Result<UserSession, ClaudeError>)
      reads this
      ensures r.Ok? <==> sessionId in sessions
      ensures r.Ok? ==> r.value == sessions[sessionId]
      ensures r.Err? ==> r.error == ConfigError("Session not found")
    {
      if sessionId in sessions then Ok(sessions[sessionId]) else Err(ConfigError("Session not found"))
    }

    /** `invalidate_session`: removes the session; an unknown id is not an error. */
    method InvalidateSession(sessionId: string) returns (r: Result<(), ClaudeError>)
      modifies this
      ensures r.Ok? && sessions == old(sessions) - {sessionId} && credentials == old(credentials)
    {
      sessions := sessions - {sessionId};
      r := Ok(());
    }
  }

  /** A user whose name is unique and whose account is active logs in with the demo password, and only with it. */
  lemma UniqueActiveUser(credentials: map<string, UserCredentials>, id: string, password: string)
    requires id in credentials && credentials[id].status == Active
    requires forall other :: other in credentials && credentials[other].username == credentials[id].username ==> other == id
    ensures CredentialOutcome(credentials[id], password).Ok? <==> password == "demo_password"
    ensures password == "demo_password" ==> CredentialOutcome(credentials[id], password) == Ok(credentials[id].userId)
  {
  }

  /**
   * A session is returned by `get_session` until it is invalidated, even
   * after its expiry time: nothing reads `expires_at`.
   */
  lemma ExpiredSessionStillFound(m: AuthenticationManager, sessionId: string, now: nat)
    requires sessionId in m.sessions && now > m.sessions[sessionId].expiresAt
    ensures m.GetSession(sessionId) == Ok(m.sessions[sessionId])
  {
  }

  // ---------------------------------------------------------------------
  // Authorization
  // ---------------------------------------------------------------------

  /** The permission string a role must list: `resource:action`. */
  function PermissionString(resource: string, action: string): (p: string)
    ensures |p| == |resource| + 1 + |action| && p[|resource|] == ':'
    ensures p[..|resource|] == resource && p[|resource| + 1..] == action
  {
    resource + ":" + action
  }

  /** Some role of the user lists the permission. */
  predicate Grants(roles: seq<string>, rolePermissions: map<string, seq<string>>, permission: string) {
    exists i :: 0 <= i < |roles| && roles[i] in rolePermissions && permission in rolePermissions[roles[i]]
  }

  class AuthorizationManager {
    var rolePermissions: map<string, seq<string>>
    var userRoles: map<string, seq<string>>

    constructor()
      ensures rolePermissions == map[] && userRoles == map[]
    {
      rolePermissions := map[];
      userRoles := map[];
    }

    /** The user's roles; a user with none recorded has none. */
    function RolesOf(userId: string): seq<string>
      reads this
    {
      if userId in userRoles then userRoles[userId] else []
    }

    /** `check_permission`: granted exactly when one of the user's roles lists `resource:action`. */
    method CheckPermission(userId: string, resource: string, action: string) returns (r: Result<bool, ClaudeError>)
      ensures r.Ok?
      ensures r.value <==> Grants(RolesOf(userId), rolePermissions, PermissionString(resource, action))
    {
      var roles := RolesOf(userId);
      var permission := PermissionString(resource, action);
      for i := 0 to |roles|
        invariant forall j :: 0 <= j < i ==> !(roles[j] in rolePermissions && permission in rolePermissions[roles[j]])
      {
        if roles[i] in rolePermissions && permission in rolePermissions[roles[i]] {
          return Ok(true);
        }
      }
      return Ok(false);
    }
  }

  /** A user without roles is refused everything. */
  lemma NoRolesNoPermission(rolePermissions: map<string, seq<string>>, permission: string)
    ensures !Grants([], rolePermissions, permission)
  {
  }

  // ---------------------------------------------------------------------
  // Audit log
  // ---------------------------------------------------------------------

  /** The entries stamped within `[start, end]`, in log order. */
  function InRange(entries: seq<AuditLogEntry>, start: nat, end: nat): (r: seq<AuditLogEntry>)
    ensures |r| <= |entries|
    ensures forall i :: 0 <= i < |r| ==> start <= r[i].timestamp <= end
  {
    if entries == [] then []
    else
      var e := entries[|entries| - 1];
      InRange(entries[..|entries| - 1], start, end) + (if start <= e.timestamp <= end then [e] else [])
  }

  /** Every entry in the range is kept, and only those. */
  lemma {:induction false} InRangeMembers(entries: seq<AuditLogEntry>, start: nat, end: nat)
    ensures forall e :: e in InRange(entries, start, end) <==> e in entries && start <= e.timestamp <= end
    decreases |entries|
  {
    if entries != [] {
      var init := entries[..|entries| - 1];
      InRangeMembers(init, start, end);
      assert entries == init + [entries[|entries| - 1]];
    }
  }

  /** A reversed range holds nothing. */
  lemma {:induction false} ReversedRangeEmpty(entries: seq<AuditLogEntry>, start: nat, end: nat)
    requires start > end
    ensures InRange(entries, start, end) == []
    decreases |entries|
  {
    if entries != [] {
      ReversedRangeEmpty(entries[..|entries| - 1], start, end);
    }
  }

  class AuditLogger {
    var entries: seq<AuditLogEntry>
    const enabled: bool

    constructor(enabled: bool)
      ensures entries == [] && this.enabled == enabled
    {
      entries := [];
      this.enabled := enabled;
    }

    /** `log_event`: appended when auditing is on, dropped when it is off. */
    method LogEvent(entry: AuditLogEntry) returns (r: Result<(), ClaudeError>)
      modifies this
      ensures r.Ok?
      ensures entries == if enabled then old(entries) + [entry] else old(entries)
    {
      if !enabled {
        return Ok(());
      }
      entries := entries + [entry];
      return Ok(());
    }

    /** `get_logs`: the entries stamped within the inclusive range. */
    method GetLogs(start: nat, end: nat) returns (r: Result<seq<AuditLogEntry>, ClaudeError>)
      ensures r == Ok(InRange(entries, start, end))
    {
      var filtered: seq<AuditLogEntry> := [];
      for i := 0 to |entries|
        invariant filtered == InRange(entries[..i], start, end)
      {
        assert entries[..i + 1][..i] == entries[..i];
        if start <= entries[i].timestamp <= end {
          filtered := filtered + [entries[i]];
        }
      }
      assert entries[..|entries|] == entries;
      return Ok(filtered);
    }
  }

  // ---------------------------------------------------------------------
  // The security manager
  // ---------------------------------------------------------------------

  /** The data `encrypt` and `decrypt` return: the stand-in leaves it as it is. */
  function Encrypt(data: seq<bv8>): (r: Result<seq<bv8>, ClaudeError>)
    ensures r.Ok? && |r.value| == |data|
  {
    Ok(data)
  }

  function Decrypt(data: seq<bv8>): (r: Result<seq<bv8>, ClaudeError>)
    ensures r.Ok? && |r.value| == |data|
  {
    Ok(data)
  }

  /** Decrypting what was encrypted gives the data back. */
  lemma EncryptRoundTrip(data: seq<bv8>)
    ensures Decrypt(Encrypt(data).value) == Ok(data)
  {
  }

  /** The audit entry recorded by the session flows. */
  function SessionEntry(id: string, now: nat, s: UserSession, eventType: AuditEventType, resource: Option<string>, action: string, result: AuditResult)
    : AuditLogEntry
  {
    AuditLogEntry(id, now, Some(s.userId), Some(s.sessionId), eventType, resource, action, result, Some(s.ipAddress), Some(s.userAgent))
  }

  /** The audit entry of a successful login. */
  function LoginEntry(id: string, now: nat, userId: string, sessionId: string, ip: string, agent: string): AuditLogEntry {
    AuditLogEntry(id, now, Some(userId), Some(sessionId), Authentication, None, "login", Success, Some(ip), Some(agent))
  }

  /**
   * What `login` answers once the credentials of the user found have been
   * checked: their error, a missing or rejected TOTP code when two-factor
   * authentication is on, or the new session's id.
   */
  function LoginOutcome(user: Result<string, ClaudeError>, enable2fa: bool, totpCode: Option<string>, sessionId: string)
    : (r: Result<string, ClaudeError>)
    ensures r.Ok? <==> user.Ok? && (!enable2fa || (totpCode.Some? && VerifyTotp(totpCode.value).Ok?))
    ensures r.Ok? ==> r.value == sessionId
    ensures user.Err? ==> r == Err(user.error)
    ensures user.Ok? && enable2fa && totpCode.None? ==> r == Err(ConfigError("TOTP code required"))
    ensures user.Ok? && enable2fa && totpCode.Some? && VerifyTotp(totpCode.value).Err? ==> r == Err(ConfigError("Invalid TOTP code"))
  {
    if user.Err? then Err(user.error)
    else if enable2fa && totpCode.None? then Err(ConfigError("TOTP code required"))
    else if enable2fa && VerifyTotp(totpCode.value).Err? then Err(VerifyTotp(totpCode.value).error)
    else Ok(sessionId)
  }

  class SecurityManager {
    const auth: AuthenticationManager
    const authz: AuthorizationManager
    const audit: AuditLogger
    const enable2fa: bool

    constructor(enable2fa: bool, auditEnabled: bool)
      ensures fresh(auth) && fresh(authz) && fresh(audit)
      ensures auth.sessions == map[] && auth.credentials == map[]
      ensures audit.entries == [] && audit.enabled == auditEnabled && this.enable2fa == enable2fa
    {
      auth := new AuthenticationManager();
      authz := new AuthorizationManager();
      audit := new AuditLogger(auditEnabled);
      this.enable2fa := enable2fa;
    }

    /**
     * `login`: credentials, then (with two-factor on) the TOTP code, then a
     * new session and an Authentication audit entry.
     */
    method Login(username: string, password: string, totpCode: Option<string>, ip: string, agent: string,
                 sessionId: string, entryId: string, now: nat)
      returns (r: Result<string, ClaudeError>)
      modifies auth, audit
      ensures (forall id :: id in auth.credentials ==> auth.credentials[id].username != username) ==>
        r == Err(ConfigError("Invalid credentials"))
      ensures r.Ok? ==>
        (r.value == sessionId
         && exists id :: (id in auth.credentials && auth.credentials[id].username == username
           && CredentialOutcome(auth.credentials[id], password).Ok?
           && auth.sessions == old(auth.sessions)[sessionId := NewSession(sessionId, auth.credentials[id].userId, ip, agent, now)]
           && audit.entries == (if audit.enabled then old(audit.entries) + [LoginEntry(entryId, now, auth.credentials[id].userId, sessionId, ip, agent)] else old(audit.entries))))
      ensures r.Ok? ==> (!enable2fa || (totpCode.Some? && VerifyTotp(totpCode.value).Ok?))
      ensures enable2fa && totpCode.None? ==> r.Err?
      ensures (exists id :: id in old(auth.credentials) && old(auth.credentials)[id].username == username) ==>
        exists id :: id in auth.credentials && auth.credentials[id].username == username
          && r == LoginOutcome(CredentialOutcome(auth.credentials[id], password), enable2fa, totpCode, sessionId)
      ensures ((exists id :: id in old(auth.credentials) && old(auth.credentials)[id].username == username)
               && (forall id :: id in old(auth.credentials) && old(auth.credentials)[id].username == username ==>
                     CredentialOutcome(old(auth.credentials)[id], password).Ok?)
               && (!enable2fa || (totpCode.Some? && VerifyTotp(totpCode.value).Ok?)))
        ==> r == Ok(sessionId)
      ensures r.Err? ==> auth.sessions == old(auth.sessions) && audit.entries == old(audit.entries)
      ensures auth.credentials == old(auth.credentials)
    {
      var user := auth.VerifyCredentials(username, password);
      if user.Err? {
        return Err(user.error);
      }
      var userId := user.value;
      if enable2fa {
        if totpCode.None? {
          return Err(ConfigError("TOTP code required"));
        }
        var totp := VerifyTotp(totpCode.value);
        if totp.Err? {
          return Err(totp.error);
        }
      }
      var created := auth.CreateSession(userId, ip, agent, sessionId, now);
      var logged := audit.LogEvent(LoginEntry(entryId, now, userId, sessionId, ip, agent));
      return Ok(sessionId);
    }

    /** `logout`: an unknown session is an error; a known one is removed and the logout audited. */
    method Logout(sessionId: string, entryId: string, now: nat) returns (r: Result<(), ClaudeError>)
      modifies auth, audit
      ensures sessionId !in old(auth.sessions) ==>
        r == Err(ConfigError("Session not found")) && auth.sessions == old(auth.sessions) && audit.entries == old(audit.entries)
      ensures sessionId in old(auth.sessions) ==>
        r.Ok? && auth.sessions == old(auth.sessions) - {sessionId}
        && audit.entries == (if audit.enabled then old(audit.entries) + [SessionEntry(entryId, now, old(auth.sessions)[sessionId], Authentication, None, "logout", Success)] else old(audit.entries))
      ensures auth.credentials == old(auth.credentials)
    {
      var session := auth.GetSession(sessionId);
      if session.Err? {
        return Err(session.error);
      }
      var removed := auth.InvalidateSession(sessionId);
      var logged := audit.LogEvent(SessionEntry(entryId, now, session.value, Authentication, None, "logout", Success));
      return Ok(());
    }

    /** `check_permission` for a session: the session's user is checked and the answer audited. */
    method CheckPermission(sessionId: string, resource: string, action: string, entryId: string, now: nat)
      returns (r: Result<bool, ClaudeError>)
      modifies audit
      ensures sessionId !in auth.sessions ==> r == Err(ConfigError("Session not found")) && audit.entries == old(audit.entries)
      ensures sessionId in auth.sessions ==>
        var s := auth.sessions[sessionId];
        var granted := Grants(authz.RolesOf(s.userId), authz.rolePermissions, PermissionString(resource, action));
        r == Ok(granted)
        && audit.entries == (if audit.enabled then old(audit.entries) + [SessionEntry(entryId, now, s, Authorization, Some(resource), action, if granted then Success else Failure)] else old(audit.entries))
    {
      var session := auth.GetSession(sessionId);
      if session.Err? {
        return Err(session.error);
      }
      var granted := authz.CheckPermission(session.value.userId, resource, action);
      var result := if granted.value then Success else Failure;
      var logged := audit.LogEvent(SessionEntry(entryId, now, session.value, Authorization, Some(resource), action, result));
      return Ok(granted.value);
    }
  }
}

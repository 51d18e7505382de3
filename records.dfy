/**
 * How the store turns an insert payload into a row (`{ ...payload, id, <stamps>, <defaults> }`)
 * and how an update merges a partial row into a stored one (`{ ...row, ...updates }`).
 */
module Records {
  import opened Wrappers
  import opened Schema

  /** `s || fallback` on an optional string: `undefined`, `null` and `""` are falsy. */
  function StringOr(s: Option<string>, fallback: string): string {
    if s.Some? && s.value != "" then s.value else fallback
  }

  /** `s || null` on an optional string. */
  function StringOrNull(s: Option<string>): (r: Option<string>)
    ensures r == if s == Some("") then None else s
  {
    if s.Some? && s.value != "" then s else None
  }

  /** `j || fallback` on a JSON value. */
  function JsonOr(j: Json, fallback: Json): Json {
    if Truthy(j) then j else fallback
  }

  /** The payload field when it is present, the current value otherwise (`{ ...current, ...patch }`). */
  function Override<T>(patch: Option<T>, current: T): T {
    patch.GetOr(current)
  }

  // ---- Creation ----

  /** `createUser`: role defaults to "user", chittyIdScore to 0, isVerified to false. */
  function NewUser(p: InsertUser, id: string, now: Timestamp): (u: User)
    ensures u.id == id && u.createdAt == now
    ensures u.username == p.username && u.email == p.email
    ensures p.role.Some? && p.role.value != "" ==> u.role == p.role.value
    ensures p.role.None? || p.role == Some("") ==> u.role == "user"
    ensures p.chittyIdScore.Some? ==> u.chittyIdScore == p.chittyIdScore
    ensures p.chittyIdScore.None? ==> u.chittyIdScore == Some(0)
    ensures p.isVerified == Some(true) ==> u.isVerified == Some(true)
    ensures p.isVerified != Some(true) ==> u.isVerified == Some(false)
  {
    User(id, p.username, p.email, StringOr(p.role, DefaultRole),
         Some(p.chittyIdScore.GetOr(DefaultChittyIdScore)),
         Some(p.isVerified == Some(true)),
         now)
  }

  /**
   * `createAgent`: status defaults to "active", performance to "0.00", configuration to {},
   * description and userId to null, each whenever the payload's value is falsy.
   */
  function NewAgent(p: InsertAgent, id: string, now: Timestamp): (a: Agent)
    ensures a.id == id && a.createdAt == now && a.lastActive == now
    ensures a.name == p.name && a.agentType == p.agentType && a.version == p.version
    ensures p.status.Some? && p.status.value != "" ==> a.status == p.status.value
    ensures p.status.None? || p.status == Some("") ==> a.status == "active"
    ensures p.performance.Some? && p.performance.value != "" ==> a.performance == p.performance
    ensures p.performance.None? || p.performance == Some("") ==> a.performance == Some("0.00")
    ensures Truthy(p.configuration) ==> a.configuration == p.configuration
    ensures !Truthy(p.configuration) ==> a.configuration == EmptyObject
    ensures a.description == if p.description == Some("") then None else p.description
    ensures a.userId == if p.userId == Some("") then None else p.userId
  {
    Agent(id, p.name, p.agentType,
          StringOr(p.status, DefaultAgentStatus),
          Some(StringOr(p.performance, DefaultPerformance)),
          p.version,
          StringOrNull(p.description),
          JsonOr(p.configuration, EmptyObject),
          StringOrNull(p.userId),
          now, now)
  }

  /** `createActivity`: metadata defaults to {}, description and agentId to null. */
  function NewActivity(p: InsertActivity, id: string, now: Timestamp): (a: Activity)
    ensures a.id == id && a.timestamp == now
    ensures a.activityType == p.activityType && a.title == p.title
    ensures Truthy(p.metadata) ==> a.metadata == p.metadata
    ensures !Truthy(p.metadata) ==> a.metadata == EmptyObject
    ensures a.description == if p.description == Some("") then None else p.description
    ensures a.agentId == if p.agentId == Some("") then None else p.agentId
  {
    Activity(id, StringOrNull(p.agentId), p.activityType, p.title,
             StringOrNull(p.description), JsonOr(p.metadata, EmptyObject), now)
  }

  /**
   * `createSystemMetric`. The payload never carries `metadata` (it is not a column, so
   * validation strips it), so `insertMetric.metadata || {}` always yields {}.
   */
  function NewSystemMetric(p: InsertSystemMetric, id: string, now: Timestamp): (m: SystemMetric)
    ensures m.id == id && m.timestamp == now && m.metadata == EmptyObject
    ensures m.metricType == p.metricType && m.value == p.value && m.unit == p.unit
  {
    SystemMetric(id, p.metricType, p.value, p.unit, EmptyObject, now)
  }

  /** `createChatMessage`: the payload as given, plus id and timestamp. */
  function NewChatMessage(p: InsertChatMessage, id: string, now: Timestamp): (m: ChatMessage)
    ensures m.id == id && m.timestamp == now
    ensures ChatPayload(m) == p
  {
    ChatMessage(id, p.userId, p.role, p.content, p.metadata, now)
  }

  /** `createNotification`: the payload as given; an omitted isRead stays unset (no default). */
  function NewNotification(p: InsertNotification, id: string, now: Timestamp): (n: Notification)
    ensures n.id == id && n.timestamp == now
    ensures NotificationPayload(n) == p
  {
    Notification(id, p.userId, p.notificationType, p.title, p.message, p.isRead, p.metadata, now)
  }

  /** `createIntegration`: the payload as given; status gets no default and lastSync stays unset. */
  function NewIntegration(p: InsertIntegration, id: string, now: Timestamp): (i: Integration)
    ensures i.id == id && i.createdAt == now && i.lastSync == None
    ensures IntegrationPayload(i) == p
  {
    Integration(id, p.name, p.integrationType, p.status, p.configuration, p.userId, None, now)
  }

  // ---- Rows projected back to payloads (the row minus the server-assigned fields) ----

  function UserPayload(u: User): InsertUser {
    InsertUser(u.username, u.email, Some(u.role), u.chittyIdScore, u.isVerified)
  }

  function AgentPayload(a: Agent): InsertAgent {
    InsertAgent(a.name, a.agentType, Some(a.status), a.performance, a.version,
                a.description, a.configuration, a.userId)
  }

  function ActivityPayload(a: Activity): InsertActivity {
    InsertActivity(a.agentId, a.activityType, a.title, a.description, a.metadata)
  }

  function ChatPayload(m: ChatMessage): InsertChatMessage {
    InsertChatMessage(m.userId, m.role, m.content, m.metadata)
  }

  function NotificationPayload(n: Notification): InsertNotification {
    InsertNotification(n.userId, n.notificationType, n.title, n.message, n.isRead, n.metadata)
  }

  function IntegrationPayload(i: Integration): InsertIntegration {
    InsertIntegration(i.name, i.integrationType, i.status, i.configuration, i.userId)
  }

  /**
   * Create-then-read returns the payload plus the server-assigned fields exactly when no
   * defaulted field of the payload was falsy.
   */
  lemma UserRoundTrip(p: InsertUser, id: string, now: Timestamp)
    ensures UserPayload(NewUser(p, id, now)) == p
        <==> p.role.Some? && p.role.value != "" && p.chittyIdScore.Some? && p.isVerified.Some?
  {
    var u := NewUser(p, id, now);
    if p.isVerified.Some? {
      assert u.isVerified == p.isVerified by {
        if p.isVerified.value { } else { }
      }
    }
  }

  lemma AgentRoundTrip(p: InsertAgent, id: string, now: Timestamp)
    ensures AgentPayload(NewAgent(p, id, now)) == p
        <==> && p.status.Some? && p.status.value != ""
             && p.performance.Some? && p.performance.value != ""
             && p.description != Some("") && p.userId != Some("")
             && Truthy(p.configuration)
  {
  }

  lemma ActivityRoundTrip(p: InsertActivity, id: string, now: Timestamp)
    ensures ActivityPayload(NewActivity(p, id, now)) == p
        <==> p.agentId != Some("") && p.description != Some("") && Truthy(p.metadata)
  {
  }

  // ---- Partial updates ----

  /** A spread field: the patch's value when the patch has the key, the old value otherwise. */
  ghost predicate FieldMerged<T>(patch: Option<T>, before: T, after: T) {
    && (patch.Some? ==> after == patch.value)
    && (patch.None? ==> after == before)
  }

  /** `{ ...user, ...updates }`. */
  function MergeUser(u: User, p: UserPatch): (r: User)
    ensures FieldMerged(p.id, u.id, r.id)
    ensures FieldMerged(p.username, u.username, r.username)
    ensures FieldMerged(p.email, u.email, r.email)
    ensures FieldMerged(p.role, u.role, r.role)
    ensures FieldMerged(p.chittyIdScore, u.chittyIdScore, r.chittyIdScore)
    ensures FieldMerged(p.isVerified, u.isVerified, r.isVerified)
    ensures FieldMerged(p.createdAt, u.createdAt, r.createdAt)
  {
    User(Override(p.id, u.id), Override(p.username, u.username), Override(p.email, u.email),
         Override(p.role, u.role), Override(p.chittyIdScore, u.chittyIdScore),
         Override(p.isVerified, u.isVerified), Override(p.createdAt, u.createdAt))
  }

  /** `{ ...agent, ...updates, lastActive: now }`: a patched lastActive is ignored. */
  function MergeAgent(a: Agent, p: AgentPatch, now: Timestamp): (r: Agent)
    ensures FieldMerged(p.id, a.id, r.id)
    ensures FieldMerged(p.name, a.name, r.name)
    ensures FieldMerged(p.agentType, a.agentType, r.agentType)
    ensures FieldMerged(p.status, a.status, r.status)
    ensures FieldMerged(p.performance, a.performance, r.performance)
    ensures FieldMerged(p.version, a.version, r.version)
    ensures FieldMerged(p.description, a.description, r.description)
    ensures FieldMerged(p.configuration, a.configuration, r.configuration)
    ensures FieldMerged(p.userId, a.userId, r.userId)
    ensures r.lastActive == now
    ensures FieldMerged(p.createdAt, a.createdAt, r.createdAt)
  {
    Agent(Override(p.id, a.id), Override(p.name, a.name), Override(p.agentType, a.agentType),
          Override(p.status, a.status), Override(p.performance, a.performance),
          Override(p.version, a.version), Override(p.description, a.description),
          Override(p.configuration, a.configuration), Override(p.userId, a.userId),
          now, Override(p.createdAt, a.createdAt))
  }

  /** `{ ...integration, ...updates, lastSync: now }`: a patched lastSync is ignored. */
  function MergeIntegration(i: Integration, p: IntegrationPatch, now: Timestamp): (r: Integration)
    ensures FieldMerged(p.id, i.id, r.id)
    ensures FieldMerged(p.name, i.name, r.name)
    ensures FieldMerged(p.integrationType, i.integrationType, r.integrationType)
    ensures FieldMerged(p.status, i.status, r.status)
    ensures FieldMerged(p.configuration, i.configuration, r.configuration)
    ensures FieldMerged(p.userId, i.userId, r.userId)
    ensures r.lastSync == Some(now)
    ensures FieldMerged(p.createdAt, i.createdAt, r.createdAt)
  {
    Integration(Override(p.id, i.id), Override(p.name, i.name),
                Override(p.integrationType, i.integrationType), Override(p.status, i.status),
                Override(p.configuration, i.configuration), Override(p.userId, i.userId),
                Some(now), Override(p.createdAt, i.createdAt))
  }

  const NoUserChanges := UserPatch(None, None, None, None, None, None, None)
  const NoAgentChanges := AgentPatch(None, None, None, None, None, None, None, None, None, None, None)
  const NoIntegrationChanges := IntegrationPatch(None, None, None, None, None, None, None, None)

  /** Applying `p` and then `q` to a user is applying `q` over `p`. */
  function ThenUser(p: UserPatch, q: UserPatch): UserPatch {
    UserPatch(Later(p.id, q.id), Later(p.username, q.username), Later(p.email, q.email),
              Later(p.role, q.role), Later(p.chittyIdScore, q.chittyIdScore),
              Later(p.isVerified, q.isVerified), Later(p.createdAt, q.createdAt))
  }

  /** Applying `p` and then `q` to an integration is applying `q` over `p`. */
  function ThenIntegration(p: IntegrationPatch, q: IntegrationPatch): IntegrationPatch {
    IntegrationPatch(Later(p.id, q.id), Later(p.name, q.name), Later(p.integrationType, q.integrationType),
                     Later(p.status, q.status), Later(p.configuration, q.configuration),
                     Later(p.userId, q.userId), Later(p.lastSync, q.lastSync), Later(p.createdAt, q.createdAt))
  }

  /** Applying `p` and then `q` is applying `q` over `p` (later fields win). */
  function ThenAgent(p: AgentPatch, q: AgentPatch): AgentPatch {
    AgentPatch(Later(p.id, q.id), Later(p.name, q.name), Later(p.agentType, q.agentType),
               Later(p.status, q.status), Later(p.performance, q.performance),
               Later(p.version, q.version), Later(p.description, q.description),
               Later(p.configuration, q.configuration), Later(p.userId, q.userId),
               Later(p.lastActive, q.lastActive), Later(p.createdAt, q.createdAt))
  }

  function Later<T>(first: Option<T>, second: Option<T>): Option<T> {
    if second.Some? then second else first
  }

  /** An empty update only bumps lastActive. */
  lemma MergeAgentEmpty(a: Agent, now: Timestamp)
    ensures MergeAgent(a, NoAgentChanges, now) == a.(lastActive := now)
  {
  }

  /** Two successive agent updates equal one update with the combined patch. */
  lemma MergeAgentCompose(a: Agent, p: AgentPatch, q: AgentPatch, t1: Timestamp, t2: Timestamp)
    ensures MergeAgent(MergeAgent(a, p, t1), q, t2) == MergeAgent(a, ThenAgent(p, q), t2)
  {
  }

  /** Repeating an agent update at the same time changes nothing more. */
  lemma MergeAgentIdempotent(a: Agent, p: AgentPatch, now: Timestamp)
    ensures MergeAgent(MergeAgent(a, p, now), p, now) == MergeAgent(a, p, now)
  {
  }

  /** An empty user update leaves the user as it is (no timestamp is bumped). */
  lemma MergeUserEmpty(u: User)
    ensures MergeUser(u, NoUserChanges) == u
  {
  }

  /** Two successive user updates equal one update with the combined patch. */
  lemma MergeUserCompose(u: User, p: UserPatch, q: UserPatch)
    ensures MergeUser(MergeUser(u, p), q) == MergeUser(u, ThenUser(p, q))
  {
  }

  /** Repeating a user update changes nothing more. */
  lemma MergeUserIdempotent(u: User, p: UserPatch)
    ensures MergeUser(MergeUser(u, p), p) == MergeUser(u, p)
  {
  }

  /** An empty integration update only stamps lastSync. */
  lemma MergeIntegrationEmpty(i: Integration, now: Timestamp)
    ensures MergeIntegration(i, NoIntegrationChanges, now) == i.(lastSync := Some(now))
  {
  }

  /** Two successive integration updates equal one update with the combined patch. */
  lemma MergeIntegrationCompose(i: Integration, p: IntegrationPatch, q: IntegrationPatch, t1: Timestamp, t2: Timestamp)
    ensures MergeIntegration(MergeIntegration(i, p, t1), q, t2) == MergeIntegration(i, ThenIntegration(p, q), t2)
  {
  }

  /** Repeating an integration update at the same time changes nothing more. */
  lemma MergeIntegrationIdempotent(i: Integration, p: IntegrationPatch, now: Timestamp)
    ensures MergeIntegration(MergeIntegration(i, p, now), p, now) == MergeIntegration(i, p, now)
  {
  }
}

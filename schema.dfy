/**
 * Record shapes of the seven tables, the insert payloads (the table shapes minus the
 * fields the server assigns) and the partial-update payloads accepted by the PUT routes.
 *
 * A nullable column, or a column the store may leave unset, is an `Option`: `None`
 * stands for both JavaScript `undefined` and `null`. A jsonb column is a `Json`.
 */
module Schema {
  import opened Wrappers

  /** A JSON value as carried by a request body or a jsonb column. */
  datatype Json =
    | JNull
    | JBool(b: bool)
    | JNum(n: real)
    | JStr(s: string)
    | JArr(items: seq<Json>)
    | JObj(fields: map<string, Json>)

  /** JavaScript truthiness of a JSON value: `null`, `false`, `0` and `""` are falsy. */
  predicate Truthy(j: Json) {
    match j
    case JNull => false
    case JBool(b) => b
    case JNum(n) => n != 0.0
    case JStr(s) => s != ""
    case JArr(_) => true
    case JObj(_) => true
  }

  /** The literal `{}`. */
  const EmptyObject: Json := JObj(map[])

  /** Milliseconds since the epoch, as returned by `Date.getTime()`. */
  type Timestamp = int

  // Column defaults declared by the tables.
  const DefaultRole := "user"
  const DefaultChittyIdScore := 0
  const DefaultAgentStatus := "active"
  const DefaultPerformance := "0.00"
  const DefaultIntegrationStatus := "connected"
  const DefaultIsRead := false

  // ---- Rows (the `$inferSelect` types) ----

  datatype User = User(
    id: string,
    username: string,
    email: string,
    role: string,
    chittyIdScore: Option<int>,
    isVerified: Option<bool>,
    createdAt: Timestamp)

  datatype Agent = Agent(
    id: string,
    name: string,
    agentType: string,
    status: string,
    performance: Option<string>,
    version: string,
    description: Option<string>,
    configuration: Json,
    userId: Option<string>,
    lastActive: Timestamp,
    createdAt: Timestamp)

  datatype Activity = Activity(
    id: string,
    agentId: Option<string>,
    activityType: string,
    title: string,
    description: Option<string>,
    metadata: Json,
    timestamp: Timestamp)

  /** `metadata` is not a column: the store adds it to every metric it creates. */
  datatype SystemMetric = SystemMetric(
    id: string,
    metricType: string,
    value: string,
    unit: Option<string>,
    metadata: Json,
    timestamp: Timestamp)

  datatype ChatMessage = ChatMessage(
    id: string,
    userId: Option<string>,
    role: string,
    content: string,
    metadata: Json,
    timestamp: Timestamp)

  datatype Notification = Notification(
    id: string,
    userId: Option<string>,
    notificationType: string,
    title: string,
    message: string,
    isRead: Option<bool>,
    metadata: Json,
    timestamp: Timestamp)

  datatype Integration = Integration(
    id: string,
    name: string,
    integrationType: string,
    status: Option<string>,
    configuration: Json,
    userId: Option<string>,
    lastSync: Option<Timestamp>,
    createdAt: Timestamp)

  // ---- Insert payloads: the rows without id and the server-stamped times ----
  // A column with a default is optional in the payload.

  datatype InsertUser = InsertUser(
    username: string,
    email: string,
    role: Option<string>,
    chittyIdScore: Option<int>,
    isVerified: Option<bool>)

  datatype InsertAgent = InsertAgent(
    name: string,
    agentType: string,
    status: Option<string>,
    performance: Option<string>,
    version: string,
    description: Option<string>,
    configuration: Json,
    userId: Option<string>)

  datatype InsertActivity = InsertActivity(
    agentId: Option<string>,
    activityType: string,
    title: string,
    description: Option<string>,
    metadata: Json)

  datatype InsertSystemMetric = InsertSystemMetric(
    metricType: string,
    value: string,
    unit: Option<string>)

  datatype InsertChatMessage = InsertChatMessage(
    userId: Option<string>,
    role: string,
    content: string,
    metadata: Json)

  datatype InsertNotification = InsertNotification(
    userId: Option<string>,
    notificationType: string,
    title: string,
    message: string,
    isRead: Option<bool>,
    metadata: Json)

  datatype InsertIntegration = InsertIntegration(
    name: string,
    integrationType: string,
    status: Option<string>,
    configuration: Json,
    userId: Option<string>)

  // ---- Partial updates (`Partial<Row>`): `None` leaves a field as it is ----

  datatype UserPatch = UserPatch(
    id: Option<string>,
    username: Option<string>,
    email: Option<string>,
    role: Option<string>,
    chittyIdScore: Option<Option<int>>,
    isVerified: Option<Option<bool>>,
    createdAt: Option<Timestamp>)

  datatype AgentPatch = AgentPatch(
    id: Option<string>,
    name: Option<string>,
    agentType: Option<string>,
    status: Option<string>,
    performance: Option<Option<string>>,
    version: Option<string>,
    description: Option<Option<string>>,
    configuration: Option<Json>,
    userId: Option<Option<string>>,
    lastActive: Option<Timestamp>,
    createdAt: Option<Timestamp>)

  datatype IntegrationPatch = IntegrationPatch(
    id: Option<string>,
    name: Option<string>,
    integrationType: Option<string>,
    status: Option<Option<string>>,
    configuration: Option<Json>,
    userId: Option<Option<string>>,
    lastSync: Option<Option<Timestamp>>,
    createdAt: Option<Timestamp>)
}

/**
 * The HTTP API over the store: each route handler as a method on the shared `MemStorage`,
 * the dashboard statistics, and the simulated assistant reply to a chat message.
 *
 * Request validation (the zod insert schemas) is given as its outcome, a `Parsed` payload;
 * the reply timer, the random choice and the clock are parameters.
 */
module Routes {
  import opened Wrappers
  import opened Schema
  import opened JsMap
  import opened Lists
  import opened Records
  import opened Queries
  import opened Storage

  /** The outcome of `insert…Schema.parse(req.body)`. */
  datatype Parsed<T> = Parsed(value: T) | Rejected(issues: seq<string>)

  datatype DashboardStats = DashboardStats(
    activeAgents: nat,
    totalAgents: nat,
    recentActivities: nat,
    unreadNotifications: nat,
    systemHealth: string,
    connectedIntegrations: nat,
    analyzers: nat,
    processors: nat,
    generators: nat,
    orchestrators: nat,
    workers: nat)

  datatype Body =
    | NoContent
    | Failure(error: string)
    | Invalid(error: string, details: seq<string>)
    | UserJson(user: User)
    | AgentJson(agent: Agent)
    | AgentList(agents: seq<Agent>)
    | ActivityJson(activity: Activity)
    | ActivityList(activities: seq<Activity>)
    | MetricJson(metric: SystemMetric)
    | MetricList(metrics: seq<SystemMetric>)
    | ChatJson(message: ChatMessage)
    | ChatList(messages: seq<ChatMessage>)
    | NotificationJson(notification: Notification)
    | NotificationList(notifications: seq<Notification>)
    | IntegrationJson(integration: Integration)
    | IntegrationList(integrations: seq<Integration>)
    | StatsJson(stats: DashboardStats)

  datatype Response = Response(status: nat, body: Body)

  const UserIdRequired := Response(400, Failure("userId is required"))

  /** `!userId` for a query parameter: absent or empty. */
  predicate Missing(q: Option<string>) {
    q.None? || q.value == ""
  }

  // ---- Query parameters ----

  /** `req.query.limit ? parseInt(req.query.limit) : undefined`. */
  datatype LimitQuery = NoLimit | Number(n: int) | NotANumber

  /**
   * How many of `total` sorted rows `slice(0, limit)` keeps: the store's default when no
   * limit is given, none for NaN, and for a negative limit all but that many from the end.
   */
  function SliceEnd(q: LimitQuery, default: nat, total: nat): (end: nat)
    ensures q.NoLimit? ==> end == default
    ensures q.NotANumber? ==> end == 0
    ensures q.Number? && q.n >= 0 ==> end == q.n
    ensures q.Number? && q.n < 0 ==> end <= total && (end == 0 || end + (-q.n) == total)
    ensures q.Number? && q.n < 0 && -q.n < total ==> end == total - (-q.n)
  {
    match q
    case NoLimit => default
    case NotANumber => 0
    case Number(n) => if n >= 0 then n else if total + n > 0 then total + n else 0
  }

  // ---- Dashboard statistics ----

  /** `a => a.status === status`. */
  function StatusIs(status: string): Agent -> bool {
    (a: Agent) => a.status == status
  }

  /** `a => a.type === agentType`. */
  function TypeIs(agentType: string): Agent -> bool {
    (a: Agent) => a.agentType == agentType
  }

  /** `i => i.status === "connected"`. */
  predicate Connected(i: Integration) {
    i.status == Some("connected")
  }

  /** `agents.filter(a => a.status === status).length`. */
  function CountStatus(agents: seq<Agent>, status: string): (c: nat)
    ensures c == |Filter(agents, StatusIs(status))|
  {
    if agents == [] then 0
    else
      FilterCons(agents, StatusIs(status));
      (if agents[0].status == status then 1 else 0) + CountStatus(agents[1..], status)
  }

  /** `agents.filter(a => a.type === agentType).length`. */
  function CountType(agents: seq<Agent>, agentType: string): (c: nat)
    ensures c == |Filter(agents, TypeIs(agentType))|
  {
    if agents == [] then 0
    else
      FilterCons(agents, TypeIs(agentType));
      (if agents[0].agentType == agentType then 1 else 0) + CountType(agents[1..], agentType)
  }

  /** `integrations.filter(i => i.status === "connected").length`. */
  function CountConnected(integrations: seq<Integration>): (c: nat)
    ensures c == |Filter(integrations, Connected)|
  {
    if integrations == [] then 0
    else
      FilterCons(integrations, Connected);
      (if integrations[0].status == Some("connected") then 1 else 0) + CountConnected(integrations[1..])
  }

  /** The five per-type counts never add up to more agents than there are. */
  lemma {:induction false} TypeCountsBounded(agents: seq<Agent>)
    ensures CountType(agents, "analyzer") + CountType(agents, "processor") + CountType(agents, "generator")
          + CountType(agents, "orchestrator") + CountType(agents, "worker") <= |agents|
  {
    if agents != [] {
      TypeCountsBounded(agents[1..]);
    }
  }

  /**
   * `metrics.find(m => m.metricType === "health_score")?.value || "0"`: the value of the
   * first health score among the given (newest first) metrics, or "0" when there is none
   * or its value is empty.
   */
  function SystemHealth(recent: seq<SystemMetric>): (h: string)
    ensures h != ""
    ensures (forall m :: m in recent ==> m.metricType != "health_score") ==> h == "0"
    ensures forall i :: 0 <= i < |recent| && recent[i].metricType == "health_score"
                        && (forall j :: 0 <= j < i ==> recent[j].metricType != "health_score")
                        ==> h == (if recent[i].value != "" then recent[i].value else "0")
  {
    var i := Find(recent, (m: SystemMetric) => m.metricType == "health_score");
    if i < |recent| && recent[i].value != "" then recent[i].value else "0"
  }

  /** `GET /api/dashboard/stats` for one user. */
  function Stats(st: StoreState, userId: string): (s: DashboardStats)
    requires st.Valid()
    ensures var agents := AgentsOf(st.agents.Values(), userId);
      && s.totalAgents == |agents|
      && s.activeAgents == |Filter(agents, StatusIs("active"))|
      && s.analyzers == |Filter(agents, TypeIs("analyzer"))|
      && s.processors == |Filter(agents, TypeIs("processor"))|
      && s.generators == |Filter(agents, TypeIs("generator"))|
      && s.orchestrators == |Filter(agents, TypeIs("orchestrator"))|
      && s.workers == |Filter(agents, TypeIs("worker"))|
    ensures s.activeAgents <= s.totalAgents
    ensures s.analyzers + s.processors + s.generators + s.orchestrators + s.workers <= s.totalAgents
    ensures var all := UserActivities(st.agents.Values(), st.activities.Values(), userId);
      s.recentActivities == (if |all| < 10 then |all| else 10)
    ensures s.unreadNotifications == |UserNotifications(st.notifications.Values(), userId, true)|
    ensures s.connectedIntegrations == |Filter(UserIntegrations(st.integrations.Values(), userId), Connected)|
    ensures s.systemHealth == SystemHealth(MetricsOf(st.systemMetrics.Values(), None, DefaultMetricLimit))
  {
    var agents := AgentsOf(st.agents.Values(), userId);
    var activities := ActivitiesOf(st.agents.Values(), st.activities.Values(), userId, 10);
    var notifications := NotificationsOf(st.notifications.Values(), userId, true);
    var metrics := MetricsOf(st.systemMetrics.Values(), None, DefaultMetricLimit);
    var integrations := IntegrationsOf(st.integrations.Values(), userId);
    TypeCountsBounded(agents);
    assert |notifications| == |multiset(notifications)|;
    FilterPermutation(integrations, UserIntegrations(st.integrations.Values(), userId), Connected);
    DashboardStats(
      CountStatus(agents, "active"), |agents|, |activities|, |notifications|,
      SystemHealth(metrics), CountConnected(integrations),
      CountType(agents, "analyzer"), CountType(agents, "processor"), CountType(agents, "generator"),
      CountType(agents, "orchestrator"), CountType(agents, "worker"))
  }

  // ---- Assistant reply ----

  const AIResponses: seq<string> := [
    "I've analyzed your request and here's what I found in your ecosystem. Let me break down the key insights for you.",
    "Based on the current system data, I can provide you with these actionable recommendations.",
    "I've processed the latest metrics from your AI agents. Here are the most important findings:",
    "Let me walk you through the performance data I've gathered from your active systems.",
    "I've identified several optimization opportunities in your current setup. Here's my analysis:"
  ]

  /** `Math.floor(Math.random() * responses.length)` for a draw `random` in [0, 1). */
  function ResponseIndex(random: real): (i: nat)
    requires 0.0 <= random < 1.0
    ensures i < |AIResponses|
    ensures i as real <= random * 5.0 < i as real + 1.0
  {
    (random * 5.0).Floor
  }

  /** `generateAIResponse`: one of the canned responses; the user's message is not consulted. */
  function GenerateAIResponse(userMessage: string, random: real): (r: string)
    requires 0.0 <= random < 1.0
    ensures r in AIResponses
  {
    AIResponses[ResponseIndex(random)]
  }

  /** Every canned response is drawn for some value of `Math.random()`. */
  lemma EveryResponseReachable(userMessage: string, i: nat)
    requires i < |AIResponses|
    ensures 0.0 <= i as real / 5.0 < 1.0
    ensures GenerateAIResponse(userMessage, i as real / 5.0) == AIResponses[i]
  {
    assert (i as real / 5.0) * 5.0 == i as real;
  }

  const ReplyDelayMs := 1000

  /** The reply the chat route schedules with `setTimeout`. */
  datatype ScheduledReply = ScheduledReply(delayMs: nat, userId: Option<string>, prompt: string)

  /** The message the timer stores: an assistant message marked as an automatic response. */
  function AutoReply(reply: ScheduledReply, random: real): (p: InsertChatMessage)
    requires 0.0 <= random < 1.0
    ensures p.role == "assistant" && p.userId == reply.userId && p.content in AIResponses
    ensures p.metadata == JObj(map["responseType" := JStr("auto")])
  {
    InsertChatMessage(reply.userId, "assistant", GenerateAIResponse(reply.prompt, random),
                      JObj(map["responseType" := JStr("auto")]))
  }

  // ---- Users ----

  /** `GET /api/users/:id`. */
  method GetUserRoute(store: MemStorage, id: string) returns (res: Response)
    ensures id in store.users.entries ==> res == Response(200, UserJson(store.users.entries[id]))
    ensures id !in store.users.entries ==> res == Response(404, Failure("User not found"))
  {
    var user := store.GetUser(id);
    if user.None? {
      return Response(404, Failure("User not found"));
    }
    res := Response(200, UserJson(user.value));
  }

  /** `POST /api/users`. */
  method PostUserRoute(store: MemStorage, body: Parsed<InsertUser>, id: string, now: Timestamp) returns (res: Response)
    requires store.Valid()
    modifies store
    ensures store.Valid()
    ensures body.Rejected? ==> res == Response(400, Invalid("Invalid user data", body.issues))
                               && store.State() == old(store.State())
    ensures body.Parsed? ==> res == Response(201, UserJson(NewUser(body.value, id, now)))
    ensures body.Parsed? ==>
      store.State() == old(store.State()).(users := old(store.users).Set(id, NewUser(body.value, id, now)))
  {
    if body.Rejected? {
      return Response(400, Invalid("Invalid user data", body.issues));
    }
    var user := store.CreateUser(body.value, id, now);
    res := Response(201, UserJson(user));
  }

  // ---- Agents ----

  /** `GET /api/agents?userId=`. */
  method GetAgentsRoute(store: MemStorage, userId: Option<string>) returns (res: Response)
    requires store.Valid()
    ensures Missing(userId) ==> res == UserIdRequired
    ensures !Missing(userId) ==> res == Response(200, AgentList(AgentsOf(store.agents.Values(), userId.value)))
  {
    if Missing(userId) {
      return UserIdRequired;
    }
    var agents := store.GetAgents(userId.value);
    res := Response(200, AgentList(agents));
  }

  /** `GET /api/agents/:id`. */
  method GetAgentRoute(store: MemStorage, id: string) returns (res: Response)
    ensures id in store.agents.entries ==> res == Response(200, AgentJson(store.agents.entries[id]))
    ensures id !in store.agents.entries ==> res == Response(404, Failure("Agent not found"))
  {
    var agent := store.GetAgent(id);
    if agent.None? {
      return Response(404, Failure("Agent not found"));
    }
    res := Response(200, AgentJson(agent.value));
  }

  /** `POST /api/agents`. */
  method PostAgentRoute(store: MemStorage, body: Parsed<InsertAgent>, id: string, now: Timestamp) returns (res: Response)
    requires store.Valid()
    modifies store
    ensures store.Valid()
    ensures body.Rejected? ==> res == Response(400, Invalid("Invalid agent data", body.issues))
                               && store.State() == old(store.State())
    ensures body.Parsed? ==> res == Response(201, AgentJson(NewAgent(body.value, id, now)))
    ensures body.Parsed? ==>
      store.State() == old(store.State()).(agents := old(store.agents).Set(id, NewAgent(body.value, id, now)))
  {
    if body.Rejected? {
      return Response(400, Invalid("Invalid agent data", body.issues));
    }
    var agent := store.CreateAgent(body.value, id, now);
    res := Response(201, AgentJson(agent));
  }

  /** `PUT /api/agents/:id`: the body is applied unvalidated as a partial agent. */
  method PutAgentRoute(store: MemStorage, id: string, patch: AgentPatch, now: Timestamp) returns (res: Response)
    requires store.Valid()
    modifies store
    ensures store.Valid()
    ensures id !in old(store.agents.entries) ==>
      res == Response(404, Failure("Agent not found")) && store.State() == old(store.State())
    ensures id in old(store.agents.entries) ==>
      res == Response(200, AgentJson(MergeAgent(old(store.agents.entries[id]), patch, now)))
    ensures id in old(store.agents.entries) ==>
      store.State() == old(store.State()).(agents :=
        old(store.agents).Set(id, MergeAgent(old(store.agents.entries[id]), patch, now)))
  {
    var agent := store.UpdateAgent(id, patch, now);
    if agent.None? {
      return Response(404, Failure("Agent not found"));
    }
    res := Response(200, AgentJson(agent.value));
  }

  /** `DELETE /api/agents/:id`. */
  method DeleteAgentRoute(store: MemStorage, id: string) returns (res: Response)
    requires store.Valid()
    modifies store
    ensures store.Valid()
    ensures res == (if id in old(store.agents.entries) then Response(204, NoContent)
                    else Response(404, Failure("Agent not found")))
    ensures store.State() == old(store.State()).(agents := old(store.agents).Delete(id))
  {
    var success := store.DeleteAgent(id);
    if !success {
      return Response(404, Failure("Agent not found"));
    }
    res := Response(204, NoContent);
  }

  // ---- Activities ----

  /** `GET /api/activities?userId=&limit=`. */
  method GetActivitiesRoute(store: MemStorage, userId: Option<string>, limit: LimitQuery) returns (res: Response)
    requires store.Valid()
    ensures Missing(userId) ==> res == UserIdRequired
    ensures !Missing(userId) ==> res.status == 200 && res.body.ActivityList?
    ensures !Missing(userId) ==>
      var all := UserActivities(store.agents.Values(), store.activities.Values(), userId.value);
      res.body.activities == ActivitiesOf(store.agents.Values(), store.activities.Values(), userId.value,
                                          SliceEnd(limit, DefaultActivityLimit, |all|))
  {
    if Missing(userId) {
      return UserIdRequired;
    }
    var all := UserActivities(store.agents.Values(), store.activities.Values(), userId.value);
    var activities := store.GetActivities(userId.value, SliceEnd(limit, DefaultActivityLimit, |all|));
    res := Response(200, ActivityList(activities));
  }

  /** `POST /api/activities`. */
  method PostActivityRoute(store: MemStorage, body: Parsed<InsertActivity>, id: string, now: Timestamp) returns (res: Response)
    requires store.Valid()
    modifies store
    ensures store.Valid()
    ensures body.Rejected? ==> res == Response(400, Invalid("Invalid activity data", body.issues))
                               && store.State() == old(store.State())
    ensures body.Parsed? ==> res == Response(201, ActivityJson(NewActivity(body.value, id, now)))
    ensures body.Parsed? ==>
      store.State() == old(store.State()).(activities := old(store.activities).Set(id, NewActivity(body.value, id, now)))
  {
    if body.Rejected? {
      return Response(400, Invalid("Invalid activity data", body.issues));
    }
    var activity := store.CreateActivity(body.value, id, now);
    res := Response(201, ActivityJson(activity));
  }

  // ---- System metrics ----

  /** `GET /api/metrics?type=&limit=`: no parameter is required. */
  method GetMetricsRoute(store: MemStorage, metricType: Option<string>, limit: LimitQuery) returns (res: Response)
    requires store.Valid()
    ensures res.status == 200 && res.body.MetricList?
    ensures var all := MetricsOfType(store.systemMetrics.Values(), metricType);
      res.body.metrics == MetricsOf(store.systemMetrics.Values(), metricType, SliceEnd(limit, DefaultMetricLimit, |all|))
  {
    var all := MetricsOfType(store.systemMetrics.Values(), metricType);
    var metrics := store.GetSystemMetrics(metricType, SliceEnd(limit, DefaultMetricLimit, |all|));
    res := Response(200, MetricList(metrics));
  }

  /** `POST /api/metrics`. */
  method PostMetricRoute(store: MemStorage, body: Parsed<InsertSystemMetric>, id: string, now: Timestamp) returns (res: Response)
    requires store.Valid()
    modifies store
    ensures store.Valid()
    ensures body.Rejected? ==> res == Response(400, Invalid("Invalid metric data", body.issues))
                               && store.State() == old(store.State())
    ensures body.Parsed? ==> res == Response(201, MetricJson(NewSystemMetric(body.value, id, now)))
    ensures body.Parsed? ==>
      store.State() == old(store.State()).(systemMetrics := old(store.systemMetrics).Set(id, NewSystemMetric(body.value, id, now)))
  {
    if body.Rejected? {
      return Response(400, Invalid("Invalid metric data", body.issues));
    }
    var metric := store.CreateSystemMetric(body.value, id, now);
    res := Response(201, MetricJson(metric));
  }

  // ---- Chat ----

  /** `GET /api/chat?userId=&limit=`. */
  method GetChatRoute(store: MemStorage, userId: Option<string>, limit: LimitQuery) returns (res: Response)
    requires store.Valid()
    ensures Missing(userId) ==> res == UserIdRequired
    ensures !Missing(userId) ==> res.status == 200 && res.body.ChatList?
    ensures !Missing(userId) ==>
      var all := UserChat(store.chatMessages.Values(), userId.value);
      res.body.messages == ChatOf(store.chatMessages.Values(), userId.value, SliceEnd(limit, DefaultChatLimit, |all|))
  {
    if Missing(userId) {
      return UserIdRequired;
    }
    var all := UserChat(store.chatMessages.Values(), userId.value);
    var messages := store.GetChatMessages(userId.value, SliceEnd(limit, DefaultChatLimit, |all|));
    res := Response(200, ChatList(messages));
  }

  /**
   * `POST /api/chat`: stores the message and, for a user message, schedules the
   * assistant's reply one second later.
   */
  method PostChatRoute(store: MemStorage, body: Parsed<InsertChatMessage>, id: string, now: Timestamp)
    returns (res: Response, reply: Option<ScheduledReply>)
    requires store.Valid()
    modifies store
    ensures store.Valid()
    ensures body.Rejected? ==> res == Response(400, Invalid("Invalid message data", body.issues))
                               && store.State() == old(store.State())
    ensures body.Parsed? ==> res == Response(201, ChatJson(NewChatMessage(body.value, id, now)))
    ensures body.Parsed? ==>
      store.State() == old(store.State()).(chatMessages := old(store.chatMessages).Set(id, NewChatMessage(body.value, id, now)))
    ensures reply.Some? <==> body.Parsed? && body.value.role == "user"
    ensures reply.Some? ==> reply.value == ScheduledReply(ReplyDelayMs, body.value.userId, body.value.content)
  {
    if body.Rejected? {
      return Response(400, Invalid("Invalid message data", body.issues)), None;
    }
    var message := store.CreateChatMessage(body.value, id, now);
    reply := if body.value.role == "user" then Some(ScheduledReply(ReplyDelayMs, body.value.userId, body.value.content)) else None;
    res := Response(201, ChatJson(message));
  }

  /** The timer callback: stores the assistant's reply (which schedules nothing further). */
  method DeliverReply(store: MemStorage, reply: ScheduledReply, random: real, id: string, now: Timestamp)
    returns (m: ChatMessage)
    requires store.Valid() && 0.0 <= random < 1.0
    modifies store
    ensures store.Valid()
    ensures m == NewChatMessage(AutoReply(reply, random), id, now)
    ensures store.State() == old(store.State()).(chatMessages := old(store.chatMessages).Set(id, m))
  {
    m := store.CreateChatMessage(AutoReply(reply, random), id, now);
  }

  // ---- Notifications ----

  /** `GET /api/notifications?userId=&unreadOnly=`: only the exact string "true" filters. */
  method GetNotificationsRoute(store: MemStorage, userId: Option<string>, unreadOnly: Option<string>) returns (res: Response)
    requires store.Valid()
    ensures Missing(userId) ==> res == UserIdRequired
    ensures !Missing(userId) ==>
      res == Response(200, NotificationList(NotificationsOf(store.notifications.Values(), userId.value, unreadOnly == Some("true"))))
  {
    if Missing(userId) {
      return UserIdRequired;
    }
    var notifications := store.GetNotifications(userId.value, unreadOnly == Some("true"));
    res := Response(200, NotificationList(notifications));
  }

  /** `POST /api/notifications`. */
  method PostNotificationRoute(store: MemStorage, body: Parsed<InsertNotification>, id: string, now: Timestamp) returns (res: Response)
    requires store.Valid()
    modifies store
    ensures store.Valid()
    ensures body.Rejected? ==> res == Response(400, Invalid("Invalid notification data", body.issues))
                               && store.State() == old(store.State())
    ensures body.Parsed? ==> res == Response(201, NotificationJson(NewNotification(body.value, id, now)))
    ensures body.Parsed? ==>
      store.State() == old(store.State()).(notifications := old(store.notifications).Set(id, NewNotification(body.value, id, now)))
  {
    if body.Rejected? {
      return Response(400, Invalid("Invalid notification data", body.issues));
    }
    var notification := store.CreateNotification(body.value, id, now);
    res := Response(201, NotificationJson(notification));
  }

  /** `PUT /api/notifications/:id/read`. */
  method MarkReadRoute(store: MemStorage, id: string) returns (res: Response)
    requires store.Valid()
    modifies store
    ensures store.Valid()
    ensures id !in old(store.notifications.entries) ==>
      res == Response(404, Failure("Notification not found")) && store.State() == old(store.State())
    ensures id in old(store.notifications.entries) ==> res == Response(204, NoContent)
    ensures id in old(store.notifications.entries) ==>
      store.State() == old(store.State()).(notifications :=
        old(store.notifications).Set(id, MarkedRead(old(store.notifications.entries[id]))))
  {
    var success := store.MarkNotificationRead(id);
    if !success {
      return Response(404, Failure("Notification not found"));
    }
    res := Response(204, NoContent);
  }

  /**
   * `PUT /api/notifications/mark-all-read` with body `{ userId }`: a falsy userId is
   * refused; a truthy one that is not a string matches no notification.
   */
  method MarkAllReadRoute(store: MemStorage, userId: Json) returns (res: Response)
    requires store.Valid()
    modifies store
    ensures store.Valid()
    ensures !Truthy(userId) ==> res == UserIdRequired && store.State() == old(store.State())
    ensures Truthy(userId) ==> res == Response(204, NoContent)
    ensures userId.JStr? && userId.s != "" ==>
      store.State() == old(store.State()).(notifications := MarkAllRead(old(store.notifications), userId.s))
    ensures !userId.JStr? ==> store.State() == old(store.State())
  {
    if !Truthy(userId) {
      return UserIdRequired;
    }
    if userId.JStr? {
      var _ := store.MarkAllNotificationsRead(userId.s);
    }
    res := Response(204, NoContent);
  }

  // ---- Integrations ----

  /** `GET /api/integrations?userId=`. */
  method GetIntegrationsRoute(store: MemStorage, userId: Option<string>) returns (res: Response)
    requires store.Valid()
    ensures Missing(userId) ==> res == UserIdRequired
    ensures !Missing(userId) ==>
      res == Response(200, IntegrationList(IntegrationsOf(store.integrations.Values(), userId.value)))
  {
    if Missing(userId) {
      return UserIdRequired;
    }
    var integrations := store.GetIntegrations(userId.value);
    res := Response(200, IntegrationList(integrations));
  }

  /** `POST /api/integrations`. */
  method PostIntegrationRoute(store: MemStorage, body: Parsed<InsertIntegration>, id: string, now: Timestamp) returns (res: Response)
    requires store.Valid()
    modifies store
    ensures store.Valid()
    ensures body.Rejected? ==> res == Response(400, Invalid("Invalid integration data", body.issues))
                               && store.State() == old(store.State())
    ensures body.Parsed? ==> res == Response(201, IntegrationJson(NewIntegration(body.value, id, now)))
    ensures body.Parsed? ==>
      store.State() == old(store.State()).(integrations := old(store.integrations).Set(id, NewIntegration(body.value, id, now)))
  {
    if body.Rejected? {
      return Response(400, Invalid("Invalid integration data", body.issues));
    }
    var integration := store.CreateIntegration(body.value, id, now);
    res := Response(201, IntegrationJson(integration));
  }

  /** `PUT /api/integrations/:id`: the body is applied unvalidated as a partial integration. */
  method PutIntegrationRoute(store: MemStorage, id: string, patch: IntegrationPatch, now: Timestamp) returns (res: Response)
    requires store.Valid()
    modifies store
    ensures store.Valid()
    ensures id !in old(store.integrations.entries) ==>
      res == Response(404, Failure("Integration not found")) && store.State() == old(store.State())
    ensures id in old(store.integrations.entries) ==>
      res == Response(200, IntegrationJson(MergeIntegration(old(store.integrations.entries[id]), patch, now)))
    ensures id in old(store.integrations.entries) ==>
      store.State() == old(store.State()).(integrations :=
        old(store.integrations).Set(id, MergeIntegration(old(store.integrations.entries[id]), patch, now)))
  {
    var integration := store.UpdateIntegration(id, patch, now);
    if integration.None? {
      return Response(404, Failure("Integration not found"));
    }
    res := Response(200, IntegrationJson(integration.value));
  }

  // ---- Dashboard ----

  /** `GET /api/dashboard/stats?userId=`. */
  method GetDashboardStatsRoute(store: MemStorage, userId: Option<string>) returns (res: Response)
    requires store.Valid()
    ensures Missing(userId) ==> res == UserIdRequired
    ensures !Missing(userId) ==> res == Response(200, StatsJson(Stats(store.State(), userId.value)))
  {
    if Missing(userId) {
      return UserIdRequired;
    }
    res := Response(200, StatsJson(Stats(store.State(), userId.value)));
  }
}

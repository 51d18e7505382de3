/**
 * `MemStorage`: seven insertion-ordered maps that the store's methods update in place.
 * Record ids (`randomUUID()`) and the clock (`new Date()`) are parameters.
 */
module Storage {
  import opened Wrappers
  import opened Schema
  import opened JsMap
  import opened Lists
  import opened Records
  import opened Queries

  const Minute := 60 * 1000

  // ---- Seed rows ----

  function SeedUser(now: Timestamp): User {
    User("user-1", "admin", "admin@chitty.cc", "admin", Some(847), Some(true), now)
  }

  function SeedAgents(now: Timestamp): seq<Agent> {
    [ Agent("agent-1", "Content Analyzer v2.1", "analyzer", "active", Some("94.00"), "2.1.0",
            Some("Advanced content analysis and processing"),
            JObj(map["maxMemory" := JStr("4GB"), "threads" := JNum(8.0)]), Some("user-1"), now, now),
      Agent("agent-2", "Data Processor Alpha", "processor", "active", Some("87.00"), "1.5.2",
            Some("High-performance data processing engine"),
            JObj(map["batchSize" := JNum(1000.0), "timeout" := JNum(30.0)]), Some("user-1"), now, now),
      Agent("agent-3", "Report Generator", "generator", "processing", Some("76.00"), "3.0.1",
            Some("Automated report generation system"),
            JObj(map["format" := JStr("pdf"), "templates" := JNum(12.0)]), Some("user-1"), now, now) ]
  }

  function SeedActivities(now: Timestamp): seq<Activity> {
    [ Activity("activity-1", Some("agent-1"), "completed", "Data Processor Alpha completed batch analysis",
               Some("Processed 1,247 records in 2.3 seconds"),
               JObj(map["records" := JNum(1247.0), "duration" := JNum(2.3)]), now - 2 * Minute),
      Activity("activity-2", Some("agent-3"), "completed", "Report Generator finished monthly summary",
               Some("Generated 34-page comprehensive report"),
               JObj(map["pages" := JNum(34.0), "format" := JStr("pdf")]), now - 5 * Minute),
      Activity("activity-3", Some("agent-1"), "warning", "Content Analyzer requires attention",
               Some("Memory usage at 85% capacity"),
               JObj(map["memoryUsage" := JNum(85.0), "threshold" := JNum(80.0)]), now - 8 * Minute) ]
  }

  /** The seeded metrics carry no metadata at all. */
  function SeedMetrics(now: Timestamp): seq<SystemMetric> {
    [ SystemMetric("metric-1", "health_score", "94.70", Some("percentage"), JNull, now),
      SystemMetric("metric-2", "processing_speed", "1247.00", Some("requests_per_minute"), JNull, now),
      SystemMetric("metric-3", "memory_usage", "74.20", Some("percentage"), JNull, now) ]
  }

  function SeedNotifications(now: Timestamp): seq<Notification> {
    [ Notification("notif-1", Some("user-1"), "warning", "Memory Warning",
                   "Content Analyzer approaching memory limit", Some(false),
                   JObj(map["agent" := JStr("agent-1"), "level" := JStr("warning")]), now - 15 * Minute),
      Notification("notif-2", Some("user-1"), "success", "Batch Processing Complete",
                   "Monthly reports generated successfully", Some(false),
                   JObj(map["reportCount" := JNum(12.0)]), now - 60 * Minute) ]
  }

  function SeedIntegrations(now: Timestamp): seq<Integration> {
    [ Integration("integration-1", "GitHub", "github", Some("connected"),
                  JObj(map["repos" := JArr([JStr("chitty-corp/main")]), "webhook" := JBool(true)]),
                  Some("user-1"), Some(now), now),
      Integration("integration-2", "Google Workspace", "google_workspace", Some("connected"),
                  JObj(map["domain" := JStr("chitty.cc"), "syncCalendar" := JBool(true)]),
                  Some("user-1"), Some(now), now) ]
  }

  function UserId(u: User): string { u.id }
  function AgentId(a: Agent): string { a.id }
  function ActivityId(a: Activity): string { a.id }
  function MetricId(m: SystemMetric): string { m.id }
  function NotificationId(n: Notification): string { n.id }
  function IntegrationId(i: Integration): string { i.id }

  // Each seed table is loaded with `rows.forEach(r => map.set(r.id, r))`; the seed ids differ
  // in their last character.

  function SeedAgentTable(now: Timestamp): (t: OrderedMap<Agent>)
    ensures t.Valid() && t.Values() == SeedAgents(now)
  {
    var rows := SeedAgents(now);
    assert rows[0].id[6] == '1' && rows[1].id[6] == '2' && rows[2].id[6] == '3';
    FromRows(rows, AgentId)
  }

  function SeedActivityTable(now: Timestamp): (t: OrderedMap<Activity>)
    ensures t.Valid() && t.Values() == SeedActivities(now)
  {
    var rows := SeedActivities(now);
    assert rows[0].id[9] == '1' && rows[1].id[9] == '2' && rows[2].id[9] == '3';
    FromRows(rows, ActivityId)
  }

  function SeedMetricTable(now: Timestamp): (t: OrderedMap<SystemMetric>)
    ensures t.Valid() && t.Values() == SeedMetrics(now)
  {
    var rows := SeedMetrics(now);
    assert rows[0].id[7] == '1' && rows[1].id[7] == '2' && rows[2].id[7] == '3';
    FromRows(rows, MetricId)
  }

  function SeedNotificationTable(now: Timestamp): (t: OrderedMap<Notification>)
    ensures t.Valid() && NotificationsKeyed(t) && t.Values() == SeedNotifications(now)
  {
    var rows := SeedNotifications(now);
    assert rows[0].id[6] == '1' && rows[1].id[6] == '2';
    var t := FromRows(rows, NotificationId);
    KeyedByOwnId(t, rows);
    t
  }

  function SeedIntegrationTable(now: Timestamp): (t: OrderedMap<Integration>)
    ensures t.Valid() && t.Values() == SeedIntegrations(now)
  {
    var rows := SeedIntegrations(now);
    assert rows[0].id[12] == '1' && rows[1].id[12] == '2';
    FromRows(rows, IntegrationId)
  }

  /** `seedData()`: one admin user with its sample agents, activities, metrics, notifications and integrations. */
  function SeedState(now: Timestamp): (st: StoreState)
    ensures st.Valid()
    ensures st.users.Values() == [SeedUser(now)]
    ensures st.agents.Values() == SeedAgents(now)
    ensures st.activities.Values() == SeedActivities(now)
    ensures st.systemMetrics.Values() == SeedMetrics(now)
    ensures st.chatMessages.Values() == []
    ensures st.notifications.Values() == SeedNotifications(now)
    ensures st.integrations.Values() == SeedIntegrations(now)
  {
    StoreState(FromRows([SeedUser(now)], UserId), SeedAgentTable(now), SeedActivityTable(now),
               SeedMetricTable(now), Empty(), SeedNotificationTable(now), SeedIntegrationTable(now))
  }

  /** A table loaded with `rows.forEach(r => map.set(r.id, r))` holds each notification under its id. */
  lemma KeyedByOwnId(t: OrderedMap<Notification>, rows: seq<Notification>)
    requires t.Valid() && |t.keys| == |rows|
    requires forall i :: 0 <= i < |rows| ==> t.keys[i] == rows[i].id
    requires t.Values() == rows
    ensures NotificationsKeyed(t)
  {
    forall k | k in t.entries ensures t.entries[k].id == k {
      var i := IndexOf(t.keys, k);
      assert t.Values()[i] == t.entries[k];
    }
  }

  class MemStorage {
    var users: OrderedMap<User>
    var agents: OrderedMap<Agent>
    var activities: OrderedMap<Activity>
    var systemMetrics: OrderedMap<SystemMetric>
    var chatMessages: OrderedMap<ChatMessage>
    var notifications: OrderedMap<Notification>
    var integrations: OrderedMap<Integration>

    function State(): StoreState
      reads this
    {
      StoreState(users, agents, activities, systemMetrics, chatMessages, notifications, integrations)
    }

    ghost predicate Valid()
      reads this
    {
      State().Valid()
    }

    /** `seedData()`: the store starts out holding the seed tables. */
    constructor(now: Timestamp)
      ensures Valid()
      ensures State() == SeedState(now)
    {
      var st := SeedState(now);
      users := st.users;
      agents := st.agents;
      activities := st.activities;
      systemMetrics := st.systemMetrics;
      chatMessages := st.chatMessages;
      notifications := st.notifications;
      integrations := st.integrations;
      new;
      assert State() == st;
    }

    // ---- Users ----

    method GetUser(id: string) returns (r: Option<User>)
      ensures r.Some? <==> id in users.entries
      ensures r.Some? ==> r.value == users.entries[id]
    {
      r := users.Get(id);
    }

    method GetUserByUsername(username: string) returns (r: Option<User>)
      requires Valid()
      ensures r == UserByUsername(users.Values(), username)
    {
      r := UserByUsername(users.Values(), username);
    }

    method CreateUser(p: InsertUser, id: string, now: Timestamp) returns (u: User)
      requires Valid()
      modifies this
      ensures Valid()
      ensures u == NewUser(p, id, now)
      ensures State() == old(State()).(users := old(users).Set(id, u))
    {
      u := NewUser(p, id, now);
      users := users.Set(id, u);
    }

    /** `updateUser`: merges the patch into the stored user; an unknown id changes nothing. */
    method UpdateUser(id: string, patch: UserPatch) returns (r: Option<User>)
      requires Valid()
      modifies this
      ensures Valid()
      ensures r.Some? <==> id in old(users.entries)
      ensures r.Some? ==> r.value == MergeUser(old(users.entries[id]), patch)
      ensures r.Some? ==> State() == old(State()).(users := old(users).Set(id, r.value))
      ensures r.None? ==> State() == old(State())
    {
      match users.Get(id)
      case None => r := None;
      case Some(u) =>
        var updated := MergeUser(u, patch);
        users := users.Set(id, updated);
        r := Some(updated);
    }

    // ---- Agents ----

    method GetAgents(userId: string) returns (r: seq<Agent>)
      requires Valid()
      ensures r == AgentsOf(agents.Values(), userId)
    {
      r := AgentsOf(agents.Values(), userId);
    }

    method GetAgent(id: string) returns (r: Option<Agent>)
      ensures r.Some? <==> id in agents.entries
      ensures r.Some? ==> r.value == agents.entries[id]
    {
      r := agents.Get(id);
    }

    method CreateAgent(p: InsertAgent, id: string, now: Timestamp) returns (a: Agent)
      requires Valid()
      modifies this
      ensures Valid()
      ensures a == NewAgent(p, id, now)
      ensures State() == old(State()).(agents := old(agents).Set(id, a))
    {
      a := NewAgent(p, id, now);
      agents := agents.Set(id, a);
    }

    /** `updateAgent`: merges the patch and stamps lastActive; an unknown id changes nothing. */
    method UpdateAgent(id: string, patch: AgentPatch, now: Timestamp) returns (r: Option<Agent>)
      requires Valid()
      modifies this
      ensures Valid()
      ensures r.Some? <==> id in old(agents.entries)
      ensures r.Some? ==> r.value == MergeAgent(old(agents.entries[id]), patch, now)
      ensures r.Some? ==> State() == old(State()).(agents := old(agents).Set(id, r.value))
      ensures r.None? ==> State() == old(State())
    {
      match agents.Get(id)
      case None => r := None;
      case Some(a) =>
        var updated := MergeAgent(a, patch, now);
        agents := agents.Set(id, updated);
        r := Some(updated);
    }

    /** `deleteAgent`: `Map.delete`, true iff the id was present; the agent's activities stay. */
    method DeleteAgent(id: string) returns (deleted: bool)
      requires Valid()
      modifies this
      ensures Valid()
      ensures deleted <==> id in old(agents.entries)
      ensures State() == old(State()).(agents := old(agents).Delete(id))
    {
      deleted := id in agents.entries;
      agents := agents.Delete(id);
    }

    // ---- Activities ----

    method GetActivities(userId: string, limit: nat) returns (r: seq<Activity>)
      requires Valid()
      ensures r == ActivitiesOf(agents.Values(), activities.Values(), userId, limit)
    {
      r := ActivitiesOf(agents.Values(), activities.Values(), userId, limit);
    }

    method CreateActivity(p: InsertActivity, id: string, now: Timestamp) returns (a: Activity)
      requires Valid()
      modifies this
      ensures Valid()
      ensures a == NewActivity(p, id, now)
      ensures State() == old(State()).(activities := old(activities).Set(id, a))
    {
      a := NewActivity(p, id, now);
      activities := activities.Set(id, a);
    }

    // ---- System metrics ----

    method GetSystemMetrics(metricType: Option<string>, limit: nat) returns (r: seq<SystemMetric>)
      requires Valid()
      ensures r == MetricsOf(systemMetrics.Values(), metricType, limit)
    {
      r := MetricsOf(systemMetrics.Values(), metricType, limit);
    }

    method CreateSystemMetric(p: InsertSystemMetric, id: string, now: Timestamp) returns (m: SystemMetric)
      requires Valid()
      modifies this
      ensures Valid()
      ensures m == NewSystemMetric(p, id, now)
      ensures State() == old(State()).(systemMetrics := old(systemMetrics).Set(id, m))
    {
      m := NewSystemMetric(p, id, now);
      systemMetrics := systemMetrics.Set(id, m);
    }

    // ---- Chat ----

    method GetChatMessages(userId: string, limit: nat) returns (r: seq<ChatMessage>)
      requires Valid()
      ensures r == ChatOf(chatMessages.Values(), userId, limit)
    {
      r := ChatOf(chatMessages.Values(), userId, limit);
    }

    method CreateChatMessage(p: InsertChatMessage, id: string, now: Timestamp) returns (m: ChatMessage)
      requires Valid()
      modifies this
      ensures Valid()
      ensures m == NewChatMessage(p, id, now)
      ensures State() == old(State()).(chatMessages := old(chatMessages).Set(id, m))
    {
      m := NewChatMessage(p, id, now);
      chatMessages := chatMessages.Set(id, m);
    }

    // ---- Notifications ----

    method GetNotifications(userId: string, unreadOnly: bool) returns (r: seq<Notification>)
      requires Valid()
      ensures r == NotificationsOf(notifications.Values(), userId, unreadOnly)
    {
      r := NotificationsOf(notifications.Values(), userId, unreadOnly);
    }

    method CreateNotification(p: InsertNotification, id: string, now: Timestamp) returns (n: Notification)
      requires Valid()
      modifies this
      ensures Valid()
      ensures n == NewNotification(p, id, now)
      ensures State() == old(State()).(notifications := old(notifications).Set(id, n))
    {
      n := NewNotification(p, id, now);
      notifications := notifications.Set(id, n);
    }

    /** `markNotificationRead`: sets isRead on the stored notification; false for an unknown id. */
    method MarkNotificationRead(id: string) returns (found: bool)
      requires Valid()
      modifies this
      ensures Valid()
      ensures found <==> id in old(notifications.entries)
      ensures found ==> State() == old(State()).(notifications :=
        old(notifications).Set(id, MarkedRead(old(notifications.entries[id]))))
      ensures !found ==> State() == old(State())
    {
      match notifications.Get(id)
      case None => found := false;
      case Some(n) =>
        notifications := notifications.Set(id, MarkedRead(n));
        found := true;
    }

    /**
     * `markAllNotificationsRead`: takes the user's notifications from a snapshot of the
     * table and writes each back, read, under its own id. Always reports success.
     */
    method MarkAllNotificationsRead(userId: string) returns (ok: bool)
      requires Valid()
      modifies this
      ensures Valid() && ok
      ensures State() == old(State()).(notifications := MarkAllRead(old(notifications), userId))
    {
      var snapshot := UserNotifications(notifications.Values(), userId, false);
      ghost var before := notifications;
      var i := 0;
      while i < |snapshot|
        invariant 0 <= i <= |snapshot|
        invariant State() == old(State()).(notifications := notifications)
        invariant MarkedPrefix(before, notifications, snapshot, i)
      {
        MarkStep(before, notifications, snapshot, userId, i);
        var n := snapshot[i];
        notifications := notifications.Set(n.id, MarkedRead(n));
        i := i + 1;
      }
      MarkDone(before, notifications, snapshot, userId);
      ok := true;
    }

    // ---- Integrations ----

    method GetIntegrations(userId: string) returns (r: seq<Integration>)
      requires Valid()
      ensures r == IntegrationsOf(integrations.Values(), userId)
    {
      r := IntegrationsOf(integrations.Values(), userId);
    }

    method CreateIntegration(p: InsertIntegration, id: string, now: Timestamp) returns (i: Integration)
      requires Valid()
      modifies this
      ensures Valid()
      ensures i == NewIntegration(p, id, now)
      ensures State() == old(State()).(integrations := old(integrations).Set(id, i))
    {
      i := NewIntegration(p, id, now);
      integrations := integrations.Set(id, i);
    }

    /** `updateIntegration`: merges the patch and stamps lastSync; an unknown id changes nothing. */
    method UpdateIntegration(id: string, patch: IntegrationPatch, now: Timestamp) returns (r: Option<Integration>)
      requires Valid()
      modifies this
      ensures Valid()
      ensures r.Some? <==> id in old(integrations.entries)
      ensures r.Some? ==> r.value == MergeIntegration(old(integrations.entries[id]), patch, now)
      ensures r.Some? ==> State() == old(State()).(integrations := old(integrations).Set(id, r.value))
      ensures r.None? ==> State() == old(State())
    {
      match integrations.Get(id)
      case None => r := None;
      case Some(it) =>
        var updated := MergeIntegration(it, patch, now);
        integrations := integrations.Set(id, updated);
        r := Some(updated);
    }
  }
}

/**
 * The read side of the in-memory store: every `get…` of `MemStorage` as a function over
 * the insertion-ordered snapshot `Array.from(table.values())`, plus the pure
 * specification of the notification updates.
 */
module Queries {
  import opened Wrappers
  import opened Schema
  import opened JsMap
  import opened Lists

  /** The seven tables of the store, each a JavaScript `Map` keyed by record id. */
  datatype StoreState = StoreState(
    users: OrderedMap<User>,
    agents: OrderedMap<Agent>,
    activities: OrderedMap<Activity>,
    systemMetrics: OrderedMap<SystemMetric>,
    chatMessages: OrderedMap<ChatMessage>,
    notifications: OrderedMap<Notification>,
    integrations: OrderedMap<Integration>)
  {
    ghost predicate Valid() {
      && users.Valid() && agents.Valid() && activities.Valid() && systemMetrics.Valid()
      && chatMessages.Valid() && notifications.Valid() && integrations.Valid()
      && NotificationsKeyed(notifications)
    }
  }

  /**
   * Every notification is stored under its own id. No operation changes a notification's
   * id, and `markAllNotificationsRead` writes each one back under `notif.id`.
   */
  ghost predicate NotificationsKeyed(t: OrderedMap<Notification>) {
    forall k :: k in t.entries ==> t.entries[k].id == k
  }

  const DefaultActivityLimit: nat := 50
  const DefaultMetricLimit: nat := 100
  const DefaultChatLimit: nat := 50

  function ActivityTime(a: Activity): int { a.timestamp }
  function MetricTime(m: SystemMetric): int { m.timestamp }
  function ChatTime(m: ChatMessage): int { m.timestamp }
  function NotificationTime(n: Notification): int { n.timestamp }
  function IntegrationName(i: Integration): string { i.name }

  // ---- Users ----

  /** `getUserByUsername`: the first user in insertion order with that username, if any. */
  function UserByUsername(users: seq<User>, username: string): (r: Option<User>)
    ensures r.None? <==> forall u :: u in users ==> u.username != username
    ensures r.Some? ==>
      exists i :: 0 <= i < |users| && users[i] == r.value && r.value.username == username
                  && forall j :: 0 <= j < i ==> users[j].username != username
  {
    var i := Find(users, (u: User) => u.username == username);
    if i < |users| then Some(users[i]) else None
  }

  // ---- Agents ----

  /** `getAgents`: the agents whose userId is the given one, in insertion order. */
  function AgentsOf(agents: seq<Agent>, userId: string): (r: seq<Agent>)
    ensures forall a :: a in r <==> a in agents && a.userId == Some(userId)
    ensures multiset(r) <= multiset(agents)
    ensures forall a :: multiset(r)[a] == if a.userId == Some(userId) then multiset(agents)[a] else 0
    ensures Subsequence(r, agents)
  {
    var owned := (a: Agent) => a.userId == Some(userId);
    FilterSelects(agents, owned);
    Filter(agents, owned)
  }

  function AgentIds(agents: seq<Agent>): (ids: seq<string>)
    ensures forall id :: id in ids <==> exists a :: a in agents && a.id == id
  {
    if agents == [] then [] else [agents[0].id] + AgentIds(agents[1..])
  }

  // ---- Activities ----

  /** The activities `getActivities` keeps: a truthy agentId that is one of the user's agents. */
  function UserActivities(agents: seq<Agent>, activities: seq<Activity>, userId: string): (r: seq<Activity>)
    ensures forall x :: x in r <==>
      && x in activities && x.agentId.Some? && x.agentId.value != ""
      && exists a :: a in agents && a.userId == Some(userId) && a.id == x.agentId.value
    ensures multiset(r) <= multiset(activities)
    ensures Subsequence(r, activities)
  {
    var ids := AgentIds(AgentsOf(agents, userId));
    var kept := (x: Activity) => x.agentId.Some? && x.agentId.value != "" && x.agentId.value in ids;
    FilterSelects(activities, kept);
    Filter(activities, kept)
  }

  /** `getActivities(userId, limit)`: the user's `limit` newest activities, newest first. */
  function ActivitiesOf(agents: seq<Agent>, activities: seq<Activity>, userId: string, limit: nat): (r: seq<Activity>)
    ensures var all := UserActivities(agents, activities, userId);
      |r| == (if limit < |all| then limit else |all|)
    ensures NewestFirstOrder(r, ActivityTime)
    ensures multiset(r) <= multiset(UserActivities(agents, activities, userId))
    ensures forall x, y :: x in multiset(UserActivities(agents, activities, userId)) - multiset(r) && y in r
                           ==> ActivityTime(x) <= ActivityTime(y)
  {
    NewestFirst(UserActivities(agents, activities, userId), ActivityTime, limit)
  }

  // ---- System metrics ----

  /** The metrics `getSystemMetrics` considers: all of them, or those of a truthy type. */
  function MetricsOfType(metrics: seq<SystemMetric>, metricType: Option<string>): (r: seq<SystemMetric>)
    ensures forall m :: m in r <==>
      m in metrics && (metricType.None? || metricType.value == "" || m.metricType == metricType.value)
    ensures multiset(r) <= multiset(metrics)
    ensures Subsequence(r, metrics)
  {
    if metricType.Some? && metricType.value != "" then
      var ofType := (m: SystemMetric) => m.metricType == metricType.value;
      FilterSelects(metrics, ofType);
      Filter(metrics, ofType)
    else
      SubsequenceOfItself(metrics);
      metrics
  }

  /** `getSystemMetrics(type, limit)`: the `limit` newest candidates, newest first. */
  function MetricsOf(metrics: seq<SystemMetric>, metricType: Option<string>, limit: nat): (r: seq<SystemMetric>)
    ensures var all := MetricsOfType(metrics, metricType);
      |r| == (if limit < |all| then limit else |all|)
    ensures NewestFirstOrder(r, MetricTime)
    ensures multiset(r) <= multiset(MetricsOfType(metrics, metricType))
    ensures forall x, y :: x in multiset(MetricsOfType(metrics, metricType)) - multiset(r) && y in r
                           ==> MetricTime(x) <= MetricTime(y)
  {
    NewestFirst(MetricsOfType(metrics, metricType), MetricTime, limit)
  }

  // ---- Chat ----

  function UserChat(messages: seq<ChatMessage>, userId: string): (r: seq<ChatMessage>)
    ensures forall m :: m in r <==> m in messages && m.userId == Some(userId)
    ensures multiset(r) <= multiset(messages)
    ensures forall m :: multiset(r)[m] == if m.userId == Some(userId) then multiset(messages)[m] else 0
    ensures Subsequence(r, messages)
  {
    var own := (m: ChatMessage) => m.userId == Some(userId);
    FilterSelects(messages, own);
    Filter(messages, own)
  }

  /** `getChatMessages(userId, limit)`: the user's `limit` newest messages, newest first. */
  function ChatOf(messages: seq<ChatMessage>, userId: string, limit: nat): (r: seq<ChatMessage>)
    ensures var all := UserChat(messages, userId);
      |r| == (if limit < |all| then limit else |all|)
    ensures NewestFirstOrder(r, ChatTime)
    ensures multiset(r) <= multiset(UserChat(messages, userId))
    ensures forall x, y :: x in multiset(UserChat(messages, userId)) - multiset(r) && y in r
                           ==> ChatTime(x) <= ChatTime(y)
  {
    NewestFirst(UserChat(messages, userId), ChatTime, limit)
  }

  // ---- Notifications ----

  /** `!notif.isRead`: an unset or false flag counts as unread. */
  predicate Unread(n: Notification) {
    n.isRead != Some(true)
  }

  function UserNotifications(notifs: seq<Notification>, userId: string, unreadOnly: bool): (r: seq<Notification>)
    ensures forall n :: n in r <==> n in notifs && n.userId == Some(userId) && (!unreadOnly || Unread(n))
    ensures multiset(r) <= multiset(notifs)
  {
    Filter(notifs, (n: Notification) => n.userId == Some(userId) && (!unreadOnly || Unread(n)))
  }

  /** The user's notifications keep the table's order, each as often as it is stored. */
  lemma UserNotificationsSelect(notifs: seq<Notification>, userId: string, unreadOnly: bool)
    ensures var r := UserNotifications(notifs, userId, unreadOnly);
      && Subsequence(r, notifs)
      && forall n :: multiset(r)[n] == (if n.userId == Some(userId) && (!unreadOnly || Unread(n))
                                        then multiset(notifs)[n] else 0)
  {
    FilterSelects(notifs, (n: Notification) => n.userId == Some(userId) && (!unreadOnly || Unread(n)));
  }

  /** `getNotifications(userId, unreadOnly)`: all of the user's (unread) notifications, newest first. */
  function NotificationsOf(notifs: seq<Notification>, userId: string, unreadOnly: bool): (r: seq<Notification>)
    ensures forall n :: n in r <==> n in notifs && n.userId == Some(userId) && (!unreadOnly || Unread(n))
    ensures forall i, j :: 0 <= i < j < |r| ==> r[i].timestamp >= r[j].timestamp
    ensures multiset(r) == multiset(UserNotifications(notifs, userId, unreadOnly))
  {
    var all := UserNotifications(notifs, userId, unreadOnly);
    var r := SortNewestFirst(all, NotificationTime);
    SameElements(all, r);
    r
  }

  /** The notification as `markNotificationRead` and `markAllNotificationsRead` leave it. */
  function MarkedRead(n: Notification): (r: Notification)
    ensures !Unread(r)
  {
    n.(isRead := Some(true))
  }

  /** The table after `markAllNotificationsRead(userId)`: the user's notifications are read. */
  function MarkAllRead(t: OrderedMap<Notification>, userId: string): (r: OrderedMap<Notification>)
    requires t.Valid() && NotificationsKeyed(t)
    ensures r.Valid() && NotificationsKeyed(r) && r.keys == t.keys
    ensures forall k :: k in t.entries ==>
      && k in r.entries
      && r.entries[k] == (if t.entries[k].userId == Some(userId) then MarkedRead(t.entries[k]) else t.entries[k])
  {
    OrderedMap(t.keys, map k | k in t.entries ::
      if t.entries[k].userId == Some(userId) then MarkedRead(t.entries[k]) else t.entries[k])
  }

  // ---- The loop of `markAllNotificationsRead`, one snapshot entry at a time ----

  /** Some of the first `i` snapshot entries carries id `k`. */
  predicate InPrefix(snapshot: seq<Notification>, i: nat, k: string) {
    exists j :: 0 <= j < i && j < |snapshot| && snapshot[j].id == k
  }

  /** `current` is `before` with the first `i` notifications of `snapshot` marked read. */
  ghost predicate MarkedPrefix(before: OrderedMap<Notification>, current: OrderedMap<Notification>,
                               snapshot: seq<Notification>, i: nat) {
    && i <= |snapshot|
    && current.Valid() && NotificationsKeyed(current) && current.keys == before.keys
    && (forall k :: k in current.entries <==> k in before.entries)
    && forall k :: k in before.entries ==>
         current.entries[k] == (if InPrefix(snapshot, i, k) then MarkedRead(before.entries[k]) else before.entries[k])
  }

  /** Every snapshot entry is the notification stored under its own id. */
  lemma SnapshotEntry(before: OrderedMap<Notification>, snapshot: seq<Notification>, userId: string, i: nat)
    requires before.Valid() && NotificationsKeyed(before)
    requires snapshot == UserNotifications(before.Values(), userId, false)
    requires i < |snapshot|
    ensures snapshot[i].id in before.entries && before.entries[snapshot[i].id] == snapshot[i]
  {
    assert snapshot[i] in before.Values();
    ValuesMembership(before, snapshot[i]);
  }

  /** Writing back the next snapshot entry, read, extends the marked prefix by one. */
  lemma MarkStep(before: OrderedMap<Notification>, current: OrderedMap<Notification>,
                 snapshot: seq<Notification>, userId: string, i: nat)
    requires before.Valid() && NotificationsKeyed(before)
    requires snapshot == UserNotifications(before.Values(), userId, false)
    requires MarkedPrefix(before, current, snapshot, i) && i < |snapshot|
    ensures MarkedPrefix(before, current.Set(snapshot[i].id, MarkedRead(snapshot[i])), snapshot, i + 1)
  {
    SnapshotEntry(before, snapshot, userId, i);
    PrefixStep(before, current, snapshot, i);
  }

  /** Writing back entry `i`, read, where it is the stored notification of its id. */
  lemma PrefixStep(before: OrderedMap<Notification>, current: OrderedMap<Notification>,
                   snapshot: seq<Notification>, i: nat)
    requires MarkedPrefix(before, current, snapshot, i) && i < |snapshot|
    requires snapshot[i].id in before.entries && before.entries[snapshot[i].id] == snapshot[i]
    ensures MarkedPrefix(before, current.Set(snapshot[i].id, MarkedRead(snapshot[i])), snapshot, i + 1)
  {
    var n := snapshot[i];
    var next := current.Set(n.id, MarkedRead(n));
    forall k | k in before.entries
      ensures next.entries[k] == (if InPrefix(snapshot, i + 1, k) then MarkedRead(before.entries[k]) else before.entries[k])
    {
      if k == n.id {
        assert next.Get(k) == Some(MarkedRead(n));
        assert InPrefix(snapshot, i + 1, k);
      } else {
        assert next.Get(k) == current.Get(k);
        assert InPrefix(snapshot, i + 1, k) == InPrefix(snapshot, i, k);
      }
    }
    KeyedAfterSet(current, n.id, MarkedRead(n));
  }

  /** Storing a notification under its own id keeps the table keyed. */
  lemma KeyedAfterSet(t: OrderedMap<Notification>, k: string, n: Notification)
    requires t.Valid() && NotificationsKeyed(t) && n.id == k
    ensures NotificationsKeyed(t.Set(k, n))
  {
    var next := t.Set(k, n);
    forall k' | k' in next.entries ensures next.entries[k'].id == k' {
      if k' != k { assert next.Get(k') == t.Get(k'); }
      else { assert next.Get(k') == Some(n); }
    }
  }

  /** Once every snapshot entry is written back, the table is `MarkAllRead`. */
  lemma MarkDone(before: OrderedMap<Notification>, current: OrderedMap<Notification>,
                 snapshot: seq<Notification>, userId: string)
    requires before.Valid() && NotificationsKeyed(before)
    requires snapshot == UserNotifications(before.Values(), userId, false)
    requires MarkedPrefix(before, current, snapshot, |snapshot|)
    ensures current == MarkAllRead(before, userId)
  {
    forall k | k in before.entries
      ensures InPrefix(snapshot, |snapshot|, k) <==> before.entries[k].userId == Some(userId)
    {
      SnapshotCoversUser(before, snapshot, userId, k);
    }
    MarkedWhole(before, current, snapshot, userId);
  }

  /** A prefix covering exactly the user's ids is the whole of `MarkAllRead`. */
  lemma MarkedWhole(before: OrderedMap<Notification>, current: OrderedMap<Notification>,
                    snapshot: seq<Notification>, userId: string)
    requires before.Valid() && NotificationsKeyed(before)
    requires MarkedPrefix(before, current, snapshot, |snapshot|)
    requires forall k :: k in before.entries ==>
      (InPrefix(snapshot, |snapshot|, k) <==> before.entries[k].userId == Some(userId))
    ensures current == MarkAllRead(before, userId)
  {
    var target := MarkAllRead(before, userId);
    assert current.entries.Keys == target.entries.Keys;
    assert current.entries == target.entries;
  }

  /** An id occurs in the snapshot exactly when its notification belongs to the user. */
  lemma SnapshotCoversUser(before: OrderedMap<Notification>, snapshot: seq<Notification>, userId: string, k: string)
    requires before.Valid() && NotificationsKeyed(before)
    requires snapshot == UserNotifications(before.Values(), userId, false)
    requires k in before.entries
    ensures InPrefix(snapshot, |snapshot|, k) <==> before.entries[k].userId == Some(userId)
  {
    if before.entries[k].userId == Some(userId) {
      var idx := IndexOf(before.keys, k);
      assert before.Values()[idx] == before.entries[k];
      assert before.entries[k] in snapshot;
      var j :| 0 <= j < |snapshot| && snapshot[j] == before.entries[k];
      assert InPrefix(snapshot, |snapshot|, k);
    } else if InPrefix(snapshot, |snapshot|, k) {
      var j :| 0 <= j < |snapshot| && snapshot[j].id == k;
      assert snapshot[j] in before.Values();
      ValuesMembership(before, snapshot[j]);
    }
  }

  /** After marking all read, the user's unread list is empty. */
  lemma MarkAllReadLeavesNothingUnread(t: OrderedMap<Notification>, userId: string)
    requires t.Valid() && NotificationsKeyed(t)
    ensures NotificationsOf(MarkAllRead(t, userId).Values(), userId, true) == []
  {
    var r := MarkAllRead(t, userId);
    forall n | n in r.Values() && n.userId == Some(userId) ensures !Unread(n) {
      ValuesMembership(r, n);
    }
  }

  /** Marking all read twice is marking all read once. */
  lemma MarkAllReadIdempotent(t: OrderedMap<Notification>, userId: string)
    requires t.Valid() && NotificationsKeyed(t)
    ensures MarkAllRead(MarkAllRead(t, userId), userId) == MarkAllRead(t, userId)
  {
    var once := MarkAllRead(t, userId);
    var twice := MarkAllRead(once, userId);
    assert twice.entries == once.entries;
  }

  /** Marking one user's notifications read leaves every other user's lists as they were. */
  lemma MarkAllReadOthersUnchanged(t: OrderedMap<Notification>, userId: string, other: string, unreadOnly: bool)
    requires t.Valid() && NotificationsKeyed(t) && other != userId
    ensures UserNotifications(MarkAllRead(t, userId).Values(), other, unreadOnly)
         == UserNotifications(t.Values(), other, unreadOnly)
  {
    var r := MarkAllRead(t, userId);
    MarkedValuesFilter(t.Values(), r.Values(), userId, other, unreadOnly);
  }

  lemma {:induction false} MarkedValuesFilter(before: seq<Notification>, after: seq<Notification>,
                                              userId: string, other: string, unreadOnly: bool)
    requires |before| == |after| && other != userId
    requires forall i :: 0 <= i < |before| ==>
      after[i] == (if before[i].userId == Some(userId) then MarkedRead(before[i]) else before[i])
    ensures UserNotifications(after, other, unreadOnly) == UserNotifications(before, other, unreadOnly)
  {
    if before != [] {
      MarkedValuesFilter(before[1..], after[1..], userId, other, unreadOnly);
      assert after[0].userId == before[0].userId;
      assert after[0].userId == Some(other) ==> after[0] == before[0];
    }
  }

  // ---- Integrations ----

  function UserIntegrations(integrations: seq<Integration>, userId: string): (r: seq<Integration>)
    ensures forall i :: i in r <==> i in integrations && i.userId == Some(userId)
    ensures multiset(r) <= multiset(integrations)
    ensures forall i :: multiset(r)[i] == if i.userId == Some(userId) then multiset(integrations)[i] else 0
    ensures Subsequence(r, integrations)
  {
    var own := (i: Integration) => i.userId == Some(userId);
    FilterSelects(integrations, own);
    Filter(integrations, own)
  }

  /** `getIntegrations(userId)`: the user's integrations ordered by name. */
  function IntegrationsOf(integrations: seq<Integration>, userId: string): (r: seq<Integration>)
    ensures forall i :: i in r <==> i in integrations && i.userId == Some(userId)
    ensures forall i, j :: 0 <= i < j < |r| ==> LexLe(r[i].name, r[j].name)
    ensures multiset(r) == multiset(UserIntegrations(integrations, userId))
  {
    var all := UserIntegrations(integrations, userId);
    var r := SortByName(all, IntegrationName);
    SameElements(all, r);
    r
  }

  // ---- Cross-table properties ----

  /**
   * Once an agent is deleted (and no other agent carries its id), none of its activities
   * is listed any more, although the activities themselves stay in the store.
   */
  lemma DeletedAgentActivitiesHidden(agents: OrderedMap<Agent>, k: string, activities: seq<Activity>,
                                     userId: string, limit: nat)
    requires agents.Valid() && k in agents.entries
    requires forall k' :: k' in agents.entries && k' != k ==> agents.entries[k'].id != agents.entries[k].id
    ensures forall x :: x in ActivitiesOf(agents.Delete(k).Values(), activities, userId, limit)
                        ==> x.agentId != Some(agents.entries[k].id)
  {
    var d := agents.Delete(k);
    var shown := ActivitiesOf(d.Values(), activities, userId, limit);
    forall x | x in shown ensures x.agentId != Some(agents.entries[k].id) {
      assert x in multiset(shown);
      assert x in UserActivities(d.Values(), activities, userId);
      var a :| a in d.Values() && a.userId == Some(userId) && a.id == x.agentId.value;
      ValuesMembership(d, a);
      var k' :| k' in d.entries && d.entries[k'] == a;
      assert d.Get(k') == agents.Get(k');
    }
  }
}

/**
 * The dashboard's client-side logic: the colour and icon tables of the agent table,
 * the right sidebar and the activity feed, the agent pause/resume toggle and the sidebar's
 * "mark all read" request. Rendering is not modelled; an icon is its glyph name, its
 * colour class and whether it spins.
 */
module DashboardUi {
  import opened Wrappers
  import opened Schema
  import opened JsMap
  import opened Records
  import opened Queries
  import opened Storage
  import opened Routes

  /** The user every dashboard component asks about. */
  const DefaultUserId := "user-1"

  datatype Icon = Icon(glyph: string, color: string, spinning: bool)

  // ---- Agent management table ----

  /** `getStatusColor`: "paused" and every unknown status share the gray class. */
  function StatusColor(status: string): (r: string)
    ensures r == "text-gray-400" <==> !HasOwnStatusColor(status)
  {
    match status
    case "active" => "chitty-text-success"
    case "processing" => "chitty-text-warning"
    case "error" => "chitty-text-error"
    case _ => "text-gray-400"
  }

  predicate HasOwnStatusColor(status: string) {
    status == "active" || status == "processing" || status == "error"
  }

  /** Two statuses look alike exactly when they are equal or neither has a colour of its own. */
  lemma StatusColorSeparates(s: string, t: string)
    ensures StatusColor(s) == StatusColor(t) <==>
      s == t || (!HasOwnStatusColor(s) && !HasOwnStatusColor(t))
  {
  }

  /** `handleToggleAgent`: a paused agent is resumed, any other agent is paused. */
  function ToggledStatus(status: string): (r: string)
    ensures r == "paused" <==> status != "paused"
    ensures r == "active" <==> status == "paused"
  {
    if status == "paused" then "active" else "paused"
  }

  /** Toggling twice restores the status exactly when it was "active" or "paused". */
  lemma ToggleTwice(status: string)
    ensures ToggledStatus(ToggledStatus(status)) == status <==> status == "active" || status == "paused"
  {
  }

  /** The body of `PUT /api/agents/:id` the toggle sends: only a status. */
  function TogglePatch(agent: Agent): AgentPatch {
    NoAgentChanges.(status := Some(ToggledStatus(agent.status)))
  }

  /** Applied by the server, the toggle's body changes the status and the activity time only. */
  lemma TogglePatchEffect(stored: Agent, agent: Agent, now: Timestamp)
    ensures MergeAgent(stored, TogglePatch(agent), now)
         == stored.(status := ToggledStatus(agent.status), lastActive := now)
  {
  }

  /**
   * Clicking the toggle of an agent row: the request goes to the server's route. The new
   * status is decided from the row the client shows, which may be older than the stored agent.
   */
  method HandleToggleAgent(store: MemStorage, agent: Agent, now: Timestamp) returns (res: Response)
    requires store.Valid()
    modifies store
    ensures store.Valid()
    ensures agent.id !in old(store.agents.entries) ==>
      res.status == 404 && store.State() == old(store.State())
    ensures agent.id in old(store.agents.entries) ==>
      && res.status == 200
      && agent.id in store.agents.entries
      && store.agents.entries[agent.id]
         == old(store.agents.entries[agent.id]).(status := ToggledStatus(agent.status), lastActive := now)
      && store.agents.keys == old(store.agents.keys)
    ensures agent.id in old(store.agents.entries) ==>
      store.State() == old(store.State()).(agents := old(store.agents).Set(agent.id,
        old(store.agents.entries[agent.id]).(status := ToggledStatus(agent.status), lastActive := now)))
  {
    res := PutAgentRoute(store, agent.id, TogglePatch(agent), now);
    if agent.id in old(store.agents.entries) {
      TogglePatchEffect(old(store.agents.entries[agent.id]), agent, now);
      assert store.agents.Get(agent.id).Some?;
    }
  }

  // ---- Right sidebar ----

  /** `getNotificationIcon`. */
  function NotificationIcon(notificationType: string): (r: Icon)
    ensures r.color == TextClass(NotificationTone(notificationType)) && !r.spinning
    ensures r.glyph == "Info" <==> !KnownNotificationType(notificationType)
  {
    match notificationType
    case "success" => Icon("CheckCircle", "text-chitty-success", false)
    case "warning" => Icon("AlertTriangle", "text-chitty-warning", false)
    case "error" => Icon("AlertTriangle", "text-chitty-error", false)
    case _ => Icon("Info", "text-chitty-blue", false)
  }

  /** `getBorderColor`. */
  function BorderColor(notificationType: string): (r: string)
    ensures r == BorderClass(NotificationTone(notificationType))
  {
    match notificationType
    case "success" => "border-l-chitty-success"
    case "warning" => "border-l-chitty-warning"
    case "error" => "border-l-chitty-error"
    case _ => "border-l-chitty-blue"
  }

  predicate KnownNotificationType(notificationType: string) {
    notificationType == "success" || notificationType == "warning" || notificationType == "error"
  }

  /** The colour a notification is drawn in. */
  datatype Tone = Success | Warning | Error | Blue

  function NotificationTone(notificationType: string): Tone {
    match notificationType
    case "success" => Success
    case "warning" => Warning
    case "error" => Error
    case _ => Blue
  }

  function TextClass(tone: Tone): string {
    match tone
    case Success => "text-chitty-success"
    case Warning => "text-chitty-warning"
    case Error => "text-chitty-error"
    case Blue => "text-chitty-blue"
  }

  function BorderClass(tone: Tone): string {
    match tone
    case Success => "border-l-chitty-success"
    case Warning => "border-l-chitty-warning"
    case Error => "border-l-chitty-error"
    case Blue => "border-l-chitty-blue"
  }

  /** Two notifications get the same border exactly when their icons have the same colour. */
  lemma NotificationBorderMatchesIcon(s: string, t: string)
    ensures BorderColor(s) == BorderColor(t) <==> NotificationIcon(s).color == NotificationIcon(t).color
  {
  }

  /** Every type other than success, warning and error is drawn as information. */
  lemma NotificationDefaultStyle(notificationType: string)
    ensures BorderColor(notificationType) == "border-l-chitty-blue" <==> !KnownNotificationType(notificationType)
  {
  }

  /** The colour of an integration's status dot. */
  function IntegrationDotColor(status: string): (r: string)
    ensures r == "bg-gray-400" <==> status != "connected" && status != "error"
  {
    if status == "connected" then "bg-chitty-success"
    else if status == "error" then "bg-chitty-error"
    else "bg-gray-400"
  }

  /** The colour of an integration's status label. */
  function IntegrationTextColor(status: string): (r: string)
    ensures r == "text-gray-400" <==> status != "connected" && status != "error"
  {
    if status == "connected" then "chitty-text-success"
    else if status == "error" then "chitty-text-error"
    else "text-gray-400"
  }

  /** The dot and the label of an integration are gray together, exactly for the other statuses. */
  lemma IntegrationToneAgrees(status: string)
    ensures IntegrationDotColor(status) == "bg-gray-400" <==> IntegrationTextColor(status) == "text-gray-400"
    ensures IntegrationTextColor(status) == "text-gray-400" <==> status != "connected" && status != "error"
  {
  }

  /** `toUpperCase` on one character; only the ASCII letters are modelled. */
  function AsciiUpper(c: char): char {
    if 'a' <= c <= 'z' then (c as int - 'a' as int + 'A' as int) as char else c
  }

  /** `s.charAt(0).toUpperCase() + s.slice(1)`: the label of an integration's status. */
  function StatusLabel(s: string): (r: string)
    ensures |r| == |s|
    ensures s != "" ==> r[0] == AsciiUpper(s[0]) && r[1..] == s[1..]
  {
    if s == "" then "" else [AsciiUpper(s[0])] + s[1..]
  }

  /** A label is already capitalised. */
  lemma StatusLabelIdempotent(s: string)
    ensures StatusLabel(StatusLabel(s)) == StatusLabel(s)
  {
    if s != "" {
      var once := StatusLabel(s);
      assert AsciiUpper(once[0]) == once[0];
      assert StatusLabel(once) == [once[0]] + once[1..];
    }
  }

  /**
   * The sidebar's "mark all read": its body `{ userId: "user-1" }` passes the route's check,
   * and afterwards the user has no unread notification.
   */
  method MarkAllReadClick(store: MemStorage) returns (res: Response)
    requires store.Valid()
    modifies store
    ensures store.Valid()
    ensures res == Response(204, NoContent)
    ensures store.State() == old(store.State()).(notifications := MarkAllRead(old(store.notifications), DefaultUserId))
    ensures NotificationsOf(store.notifications.Values(), DefaultUserId, true) == []
  {
    res := MarkAllReadRoute(store, JStr(DefaultUserId));
    MarkAllReadLeavesNothingUnread(old(store.notifications), DefaultUserId);
  }

  // ---- Activity feed ----

  /** `getActivityIcon`: all icons are white; the processing cog spins. */
  function ActivityIcon(activityType: string): (r: Icon)
    ensures r.color == "text-white"
    ensures r.spinning <==> activityType == "processing"
  {
    match activityType
    case "completed" => Icon("CheckCircle", "text-white", false)
    case "warning" => Icon("AlertTriangle", "text-white", false)
    case "processing" => Icon("Cog", "text-white", true)
    case _ => Icon("Activity", "text-white", false)
  }

  /** `getActivityColor`. */
  function ActivityColor(activityType: string): (r: string)
    ensures r == "bg-chitty-error" <==> activityType == "error"
  {
    match activityType
    case "completed" => "bg-chitty-success"
    case "warning" => "bg-chitty-warning"
    case "processing" => "bg-chitty-blue"
    case "error" => "bg-chitty-error"
    case _ => "bg-chitty-blue"
  }

  /**
   * Only "completed", "warning" and "processing" have an icon of their own, and only the cog
   * spins. An error activity keeps the generic icon but gets the error colour, and any other
   * type is drawn as "info".
   */
  lemma ActivityStyle(activityType: string)
    ensures ActivityIcon(activityType).glyph == "Activity" <==>
      activityType != "completed" && activityType != "warning" && activityType != "processing"
    ensures ActivityIcon(activityType).spinning <==> activityType == "processing"
    ensures ActivityColor(activityType) == "bg-chitty-error" <==> activityType == "error"
    ensures activityType != "completed" && activityType != "warning" && activityType != "processing" ==>
      ActivityIcon(activityType) == ActivityIcon("info")
    ensures activityType != "error" && activityType != "completed" && activityType != "warning" ==>
      ActivityColor(activityType) == ActivityColor("info")
  {
  }
}

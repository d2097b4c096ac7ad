/**
 * `AlertService`: the alert table, the defaults `create` applies, the
 * notifications a critical alert fans out to the active channels, and the
 * acknowledge / resolve transitions.
 */
module Alerts {
  import opened Wrappers
  import opened Seqs
  import opened Entities
  import opened OnCall
  import opened ChannelFactory
  import opened Notifications

  /** A row of `canales_notificacion`; the nullable columns are optional. */
  datatype ChannelRow = ChannelRow(
    id: string,
    nombre: string,
    email: Option<string>,
    slack: Option<string>,
    webhook: Option<string>,
    activo: bool)

  /** `findActive`: the channels whose `activo` flag is set. */
  function FindActive(rows: seq<ChannelRow>): (r: seq<ChannelRow>)
    ensures forall i :: 0 <= i < |r| ==> r[i].activo && r[i] in rows
    ensures forall i :: 0 <= i < |rows| && rows[i].activo ==> rows[i] in r
  {
    var active := (c: ChannelRow) => c.activo;
    FilterMembers(rows, active);
    Filter(rows, active)
  }

  /** A row of `alertas`; `fecha` is the creation time in milliseconds. */
  datatype Alert = Alert(
    id: nat,
    metric_id: Option<string>,
    severity: AlertSeverity,
    estado: AlertStatus,
    title: string,
    explanation: Option<string>,
    merchant_id: Option<string>,
    fecha: int)

  /** The row `create` stores: the request's fields, with the status defaulting to open. */
  function NewAlert(dto: CreateAlertDto, id: nat, now: int): (a: Alert)
    ensures a.id == id && a.fecha == now
    ensures dto.state.None? ==> a.estado == StateOpen
    ensures dto.state.Some? ==> a.estado == dto.state.value
    ensures a.severity == dto.severity && a.title == dto.title && a.explanation == dto.explanation
    ensures a.metric_id == dto.metric_id && a.merchant_id == dto.merchant_id
  {
    Alert(id, dto.metric_id, dto.severity, OrElse(dto.state, StateOpen), dto.title, dto.explanation, dto.merchant_id, now)
  }

  // ---------------------------------------------------------------------------
  // Recipient and channel selection.
  // ---------------------------------------------------------------------------

  /** The on-call user's id and, when the user row was joined, its email and number. */
  datatype OnCallContact = OnCallContact(userId: string, email: Option<string>, number: Option<string>)

  function FindUser(users: seq<User>, id: string): (r: Option<User>)
    ensures r.Some? ==> r.value in users && r.value.id == id
    ensures r.None? ==> forall i :: 0 <= i < |users| ==> users[i].id != id
  {
    match FindFirst(users, (u: User) => u.id == id)
    case None => None
    case Some(i) => Some(users[i])
  }

  /**
   * The priority-1 schedule on duty and its user; none when there is no such
   * schedule or its user id is empty, in which case nothing is sent.
   */
  function OnCallRecipient(schedules: seq<OnCallSchedule>, users: seq<User>, now: int): (c: Option<OnCallContact>)
    ensures c.Some? <==> FindByPriority(schedules, 1, now).Some? && FindByPriority(schedules, 1, now).value.user_id != ""
    ensures c.Some? ==> c.value.userId == FindByPriority(schedules, 1, now).value.user_id
    ensures c.Some? && FindUser(users, c.value.userId).None? ==> c.value.email.None? && c.value.number.None?
    ensures c.Some? && FindUser(users, c.value.userId).Some? ==>
      c.value.email == Some(FindUser(users, c.value.userId).value.email) &&
      c.value.number == Some(FindUser(users, c.value.userId).value.number)
  {
    match FindByPriority(schedules, 1, now)
    case None => None
    case Some(s) =>
      if s.user_id == "" then None
      else
        match FindUser(users, s.user_id)
        case None => Some(OnCallContact(s.user_id, None, None))
        case Some(u) => Some(OnCallContact(s.user_id, Some(u.email), Some(u.number)))
  }

  /** The transport name and the address one notification goes to. */
  datatype Route = Route(channelType: string, recipient: Option<string>)

  /**
   * The selection inside the loop, given the name the channel reports:
   * Slack first, then a webhook, then WhatsApp by name, else e-mail.
   */
  function SelectRoute(ch: ChannelRow, contact: OnCallContact, name: Option<string>): (r: Route)
    ensures Truthy(ch.slack) ==> r == Route("slack", ch.slack)
    ensures !Truthy(ch.slack) && Truthy(ch.webhook) ==> r == Route("webhook", ch.webhook)
    ensures !Truthy(ch.slack) && !Truthy(ch.webhook) && name == Some("whatsapp") ==> r == Route("whatsapp", contact.number)
    ensures !Truthy(ch.slack) && !Truthy(ch.webhook) && name != Some("whatsapp") ==>
      r == Route("gmail", if Truthy(contact.email) then contact.email else ch.email)
  {
    var fallback := if Truthy(contact.email) then contact.email else ch.email;
    if Truthy(ch.slack) then Route("slack", ch.slack)
    else if Truthy(ch.webhook) then Route("webhook", ch.webhook)
    else if name == Some("whatsapp") then Route("whatsapp", contact.number)
    else Route("gmail", fallback)
  }

  /** The selection as written: it reads `channel.name`, which the channel row does not have. */
  function RouteAsWritten(ch: ChannelRow, contact: OnCallContact): (r: Route)
    ensures r == SelectRoute(ch, contact, None)
  {
    SelectRoute(ch, contact, None)
  }

  /** The selection as intended: the name is the row's `nombre`. */
  function RouteFor(ch: ChannelRow, contact: OnCallContact): (r: Route)
    ensures r == SelectRoute(ch, contact, Some(ch.nombre))
  {
    SelectRoute(ch, contact, Some(ch.nombre))
  }

  /** As written, no alert notification ever goes out on WhatsApp. */
  lemma RouteAsWrittenNeverWhatsApp(ch: ChannelRow, contact: OnCallContact)
    ensures RouteAsWritten(ch, contact).channelType != "whatsapp"
    ensures !Truthy(ch.slack) && !Truthy(ch.webhook) ==> RouteAsWritten(ch, contact).channelType == "gmail"
  {
  }

  /** A plain channel named `whatsapp` is routed to the on-call user's number. */
  lemma RouteForWhatsApp(ch: ChannelRow, contact: OnCallContact)
    requires !Truthy(ch.slack) && !Truthy(ch.webhook) && ch.nombre == "whatsapp"
    ensures RouteFor(ch, contact) == Route("whatsapp", contact.number)
    ensures RouteAsWritten(ch, contact) != RouteFor(ch, contact)
  {
  }

  /** The route type is always one of the four transports the loop knows. */
  lemma RouteTypes(ch: ChannelRow, contact: OnCallContact)
    ensures RouteFor(ch, contact).channelType in ["slack", "webhook", "whatsapp", "gmail"]
    ensures RouteFor(ch, contact).channelType == "gmail" ==>
      (Truthy(contact.email) ==> RouteFor(ch, contact).recipient == contact.email)
  {
  }

  // ---------------------------------------------------------------------------
  // The notifications of one alert.
  // ---------------------------------------------------------------------------

  function SeverityUpper(s: AlertSeverity): string
  {
    match s
    case SeverityInfo => "INFO"
    case SeverityWarning => "WARNING"
    case SeverityCritical => "CRITICAL"
  }

  /** The message handed to the transport. */
  function AlertMessage(a: Alert, to: Option<string>): (p: NotificationPayload)
    ensures p.to == to && p.body == "Check your email for more information."
    ensures p.subject == "ALERT " + SeverityUpper(a.severity) + ": " + a.title
  {
    NotificationPayload(to, "ALERT " + SeverityUpper(a.severity) + ": " + a.title, "Check your email for more information.")
  }

  /** The notification request for one channel. */
  function DeliveryRequest(a: Alert, ch: ChannelRow, c: OnCallContact): (dto: CreateNotificationDto)
    ensures dto.alerta_id == a.id && dto.usuario_id == c.userId && dto.canal_id == ch.id && dto.estado.None?
    ensures dto.payload == Some(AlertPayload(a.severity, a.title, a.explanation))
  {
    CreateNotificationDto(a.id, c.userId, ch.id, None, Some(AlertPayload(a.severity, a.title, a.explanation)))
  }

  /** The row one channel leaves behind: created with `id`, then marked by the one send attempt. */
  function Delivery(a: Alert, ch: ChannelRow, c: OnCallContact, id: nat, channels: map<string, Channel>,
                    send: (Channel, NotificationPayload) -> SendOutcome): (n: Notification)
    ensures n.id == id && n.alert_id == a.id && n.user_id == c.userId && n.channel_id == ch.id
    ensures n.payload == Some(AlertPayload(a.severity, a.title, a.explanation))
    ensures n.estado == SendStatus(RouteFor(ch, c).channelType, channels, AlertMessage(a, RouteFor(ch, c).recipient), send)
  {
    var route := RouteFor(ch, c);
    var dto := DeliveryRequest(a, ch, c);
    Notification(id, dto.alerta_id, dto.usuario_id, dto.canal_id,
      SendStatus(route.channelType, channels, AlertMessage(a, route.recipient), send), dto.payload)
  }

  /** One row per channel, in channel order, with consecutive ids from `firstId`. */
  function Deliveries(a: Alert, chs: seq<ChannelRow>, c: OnCallContact, firstId: nat, channels: map<string, Channel>,
                      send: (Channel, NotificationPayload) -> SendOutcome): (ns: seq<Notification>)
    ensures |ns| == |chs|
    ensures forall i :: 0 <= i < |chs| ==> ns[i] == Delivery(a, chs[i], c, firstId + i, channels, send)
  {
    seq(|chs|, i requires 0 <= i < |chs| => Delivery(a, chs[i], c, firstId + i, channels, send))
  }

  lemma DeliveriesSnoc(a: Alert, chs: seq<ChannelRow>, k: nat, c: OnCallContact, firstId: nat,
                       channels: map<string, Channel>, send: (Channel, NotificationPayload) -> SendOutcome)
    requires k < |chs|
    ensures Deliveries(a, chs[..k + 1], c, firstId, channels, send) ==
      Deliveries(a, chs[..k], c, firstId, channels, send) + [Delivery(a, chs[k], c, firstId + k, channels, send)]
  {
    var lhs := Deliveries(a, chs[..k + 1], c, firstId, channels, send);
    var rhs := Deliveries(a, chs[..k], c, firstId, channels, send) + [Delivery(a, chs[k], c, firstId + k, channels, send)];
    assert |lhs| == |rhs|;
    forall i | 0 <= i < |lhs|
      ensures lhs[i] == rhs[i]
    {
      assert chs[..k + 1][i] == chs[i];
      if i < k {
        assert chs[..k][i] == chs[i];
      }
    }
  }

  /** What `sendAlertNotifications` adds: nothing without an on-call contact, else one row per active channel. */
  function Outbox(a: Alert, rows: seq<ChannelRow>, schedules: seq<OnCallSchedule>, users: seq<User>, now: int,
                  firstId: nat, channels: map<string, Channel>,
                  send: (Channel, NotificationPayload) -> SendOutcome): (ns: seq<Notification>)
    ensures OnCallRecipient(schedules, users, now).None? ==> ns == []
    ensures OnCallRecipient(schedules, users, now).Some? ==> |ns| == |FindActive(rows)|
  {
    match OnCallRecipient(schedules, users, now)
    case None => []
    case Some(c) => Deliveries(a, FindActive(rows), c, firstId, channels, send)
  }

  /** Every row of the outbox belongs to one active channel, carries the alert and is no longer pending. */
  lemma OutboxOnePerActiveChannel(a: Alert, rows: seq<ChannelRow>, schedules: seq<OnCallSchedule>, users: seq<User>,
                                  now: int, firstId: nat, channels: map<string, Channel>,
                                  send: (Channel, NotificationPayload) -> SendOutcome)
    requires OnCallRecipient(schedules, users, now).Some?
    ensures var ns := Outbox(a, rows, schedules, users, now, firstId, channels, send);
      forall i :: 0 <= i < |ns| ==>
        ns[i].channel_id == FindActive(rows)[i].id && FindActive(rows)[i].activo &&
        ns[i].alert_id == a.id && ns[i].id == firstId + i && ns[i].estado != StatusPending &&
        ns[i].user_id == FindByPriority(schedules, 1, now).value.user_id
  {
  }

  /** A notification routed to a webhook fails: no transport is registered under that name. */
  lemma WebhookDeliveryFails(a: Alert, ch: ChannelRow, c: OnCallContact, id: nat,
                             send: (Channel, NotificationPayload) -> SendOutcome)
    requires !Truthy(ch.slack) && Truthy(ch.webhook)
    ensures Delivery(a, ch, c, id, DefaultRegistry().channels, send).estado == StatusFailed
  {
    assert "webhook" !in DefaultRegistry().channels;
  }

  /** A delivery ends sent exactly when its transport is registered and reports success. */
  lemma DeliverySentIff(a: Alert, ch: ChannelRow, c: OnCallContact, id: nat, channels: map<string, Channel>,
                        send: (Channel, NotificationPayload) -> SendOutcome)
    ensures var route := RouteFor(ch, c);
      Delivery(a, ch, c, id, channels, send).estado == StatusSent <==>
      route.channelType in channels &&
      send(channels[route.channelType], AlertMessage(a, route.recipient)) == Returned(true)
  {
  }

  // ---------------------------------------------------------------------------
  // Updates.
  // ---------------------------------------------------------------------------

  /** `UpdateAlertDto`: every field optional. */
  datatype UpdateAlertDto = UpdateAlertDto(
    severity: Option<AlertSeverity>,
    state: Option<AlertStatus>,
    title: Option<string>,
    explanation: Option<string>)

  /**
   * `Object.assign(alert, updateDto)` as written: the request's `state`
   * lands on a property the table does not have, so `estado` never changes.
   */
  function ApplyAlertUpdateAsWritten(a: Alert, dto: UpdateAlertDto): (u: Alert)
    ensures u.estado == a.estado
    ensures u == ApplyAlertUpdate(a, dto).(estado := a.estado)
  {
    a.(severity := OrElse(dto.severity, a.severity),
       title := OrElse(dto.title, a.title),
       explanation := if dto.explanation.Some? then dto.explanation else a.explanation)
  }

  /** The intended update: each given field replaces the stored one, `state` setting `estado`. */
  function ApplyAlertUpdate(a: Alert, dto: UpdateAlertDto): (u: Alert)
    ensures u.id == a.id && u.metric_id == a.metric_id && u.merchant_id == a.merchant_id && u.fecha == a.fecha
    ensures u.severity == (if dto.severity.Some? then dto.severity.value else a.severity)
    ensures u.estado == (if dto.state.Some? then dto.state.value else a.estado)
    ensures u.title == (if dto.title.Some? then dto.title.value else a.title)
    ensures u.explanation == (if dto.explanation.Some? then dto.explanation else a.explanation)
  {
    a.(severity := OrElse(dto.severity, a.severity),
       estado := OrElse(dto.state, a.estado),
       title := OrElse(dto.title, a.title),
       explanation := if dto.explanation.Some? then dto.explanation else a.explanation)
  }

  function StateUpdate(s: AlertStatus): UpdateAlertDto
  {
    UpdateAlertDto(None, Some(s), None, None)
  }

  /** As written, acknowledging or resolving leaves the alert exactly as it was. */
  lemma AckAsWrittenKeepsAlert(a: Alert, s: AlertStatus)
    ensures ApplyAlertUpdateAsWritten(a, StateUpdate(s)) == a
    ensures s != a.estado ==> ApplyAlertUpdateAsWritten(a, StateUpdate(s)) != ApplyAlertUpdate(a, StateUpdate(s))
  {
  }

  /** As intended, a status update changes the status and nothing else. */
  lemma StateUpdateSetsOnlyStatus(a: Alert, s: AlertStatus)
    ensures ApplyAlertUpdate(a, StateUpdate(s)) == a.(estado := s)
  {
  }

  /** An update with no fields keeps the alert. */
  lemma EmptyAlertUpdateKeeps(a: Alert)
    ensures ApplyAlertUpdate(a, UpdateAlertDto(None, None, None, None)) == a
  {
  }

  function FindAlert(alerts: seq<Alert>, id: nat): (r: Option<nat>)
    ensures r.Some? ==> r.value < |alerts| && alerts[r.value].id == id
    ensures r.None? ==> forall i :: 0 <= i < |alerts| ==> alerts[i].id != id
  {
    FindFirst(alerts, (a: Alert) => a.id == id)
  }

  /** Distinct ids, all below the next id to hand out. */
  predicate ValidAlerts(alerts: seq<Alert>, nextId: nat)
  {
    (forall i :: 0 <= i < |alerts| ==> alerts[i].id < nextId) &&
    (forall i, j :: 0 <= i < j < |alerts| ==> alerts[i].id != alerts[j].id)
  }

  lemma ReplaceAlertPreservesValid(alerts: seq<Alert>, nextId: nat, i: nat, a: Alert)
    requires ValidAlerts(alerts, nextId) && i < |alerts| && a.id == alerts[i].id
    ensures ValidAlerts(alerts[i := a], nextId)
  {
  }

  class AlertService {
    var alerts: seq<Alert>
    var nextId: nat
    const notifier: NotificationService

    ghost predicate Valid()
      reads this, notifier
    {
      ValidAlerts(alerts, nextId) && notifier.Valid()
    }

    constructor (n: NotificationService)
      requires n.Valid()
      ensures Valid() && alerts == [] && nextId == 0 && notifier == n
    {
      alerts := [];
      nextId := 0;
      notifier := n;
    }

    /** The loop body of `sendAlertNotifications`: create the notification for one channel, then send it once. */
    method DeliverTo(a: Alert, ch: ChannelRow, c: OnCallContact, send: (Channel, NotificationPayload) -> SendOutcome)
      requires notifier.Valid()
      modifies notifier
      ensures notifier.Valid() && notifier.nextId == old(notifier.nextId) + 1
      ensures notifier.notifications ==
        old(notifier.notifications) + [Delivery(a, ch, c, old(notifier.nextId), notifier.channelFactory.channels, send)]
    {
      var route := RouteFor(ch, c);
      var n := notifier.Create(DeliveryRequest(a, ch, c));
      var sent := notifier.SendNotification(n.id, route.channelType, AlertMessage(a, route.recipient), send);
    }

    /**
     * `sendAlertNotifications`: with a priority-1 contact on duty, one
     * notification per active channel, each created and then sent once.
     */
    method SendAlertNotifications(a: Alert, rows: seq<ChannelRow>, schedules: seq<OnCallSchedule>, users: seq<User>,
                                  now: int, send: (Channel, NotificationPayload) -> SendOutcome)
      requires notifier.Valid()
      modifies notifier
      ensures notifier.Valid()
      ensures notifier.notifications == old(notifier.notifications) +
        Outbox(a, rows, schedules, users, now, old(notifier.nextId), notifier.channelFactory.channels, send)
      ensures notifier.nextId == old(notifier.nextId) + |Outbox(a, rows, schedules, users, now, old(notifier.nextId), notifier.channelFactory.channels, send)|
    {
      var active := FindActive(rows);
      var contact := OnCallRecipient(schedules, users, now);
      if contact.None? {
        return;
      }
      var c := contact.value;
      var channels := notifier.channelFactory.channels;
      var firstId := notifier.nextId;
      var k := 0;
      while k < |active|
        invariant 0 <= k <= |active|
        invariant notifier.Valid()
        invariant notifier.channelFactory.channels == channels
        invariant notifier.nextId == firstId + k
        invariant notifier.notifications == old(notifier.notifications) + Deliveries(a, active[..k], c, firstId, channels, send)
      {
        DeliverTo(a, active[k], c, send);
        DeliveriesSnoc(a, active, k, c, firstId, channels, send);
        k := k + 1;
      }
      assert active[..k] == active;
    }

    /** `create`: stores the alert, and notifies the on-call contact when it is critical. */
    method Create(dto: CreateAlertDto, rows: seq<ChannelRow>, schedules: seq<OnCallSchedule>, users: seq<User>,
                  now: int, send: (Channel, NotificationPayload) -> SendOutcome)
      returns (a: Alert)
      requires Valid()
      modifies this, notifier
      ensures Valid()
      ensures a == NewAlert(dto, old(nextId), now)
      ensures alerts == old(alerts) + [a] && nextId == old(nextId) + 1
      ensures dto.severity != SeverityCritical ==> notifier.notifications == old(notifier.notifications)
      ensures dto.severity == SeverityCritical ==>
        (notifier.notifications == old(notifier.notifications) +
         Outbox(a, rows, schedules, users, now, old(notifier.nextId), notifier.channelFactory.channels, send))
    {
      a := NewAlert(dto, nextId, now);
      alerts := alerts + [a];
      nextId := nextId + 1;
      if dto.severity == SeverityCritical {
        SendAlertNotifications(a, rows, schedules, users, now, send);
      }
    }

    /** `update`: NotFound for an unknown id, otherwise the given fields replace the stored ones. */
    method Update(id: nat, dto: UpdateAlertDto) returns (r: Result<Alert>)
      requires Valid()
      modifies this
      ensures Valid() && nextId == old(nextId)
      ensures FindAlert(old(alerts), id).None? ==> r == Err(NotFound) && alerts == old(alerts)
      ensures FindAlert(old(alerts), id).Some? ==>
        var i := FindAlert(old(alerts), id).value;
        r == Ok(ApplyAlertUpdate(old(alerts)[i], dto)) && alerts == old(alerts)[i := r.value]
    {
      var found := FindAlert(alerts, id);
      if found.None? {
        return Err(NotFound);
      }
      var i := found.value;
      var u := ApplyAlertUpdate(alerts[i], dto);
      ReplaceAlertPreservesValid(alerts, nextId, i, u);
      alerts := alerts[i := u];
      r := Ok(u);
    }

    /** `acknowledge`: the alert's status becomes ack, nothing else changes. */
    method Acknowledge(id: nat) returns (r: Result<Alert>)
      requires Valid()
      modifies this
      ensures Valid() && nextId == old(nextId)
      ensures FindAlert(old(alerts), id).None? ==> r == Err(NotFound) && alerts == old(alerts)
      ensures FindAlert(old(alerts), id).Some? ==>
        var i := FindAlert(old(alerts), id).value;
        r == Ok(old(alerts)[i].(estado := StateAck)) && alerts == old(alerts)[i := r.value]
    {
      r := Update(id, StateUpdate(StateAck));
    }

    /** `resolve`: the alert's status becomes resolved, nothing else changes. */
    method Resolve(id: nat) returns (r: Result<Alert>)
      requires Valid()
      modifies this
      ensures Valid() && nextId == old(nextId)
      ensures FindAlert(old(alerts), id).None? ==> r == Err(NotFound) && alerts == old(alerts)
      ensures FindAlert(old(alerts), id).Some? ==>
        var i := FindAlert(old(alerts), id).value;
        r == Ok(old(alerts)[i].(estado := StateResolved)) && alerts == old(alerts)[i := r.value]
    {
      r := Update(id, StateUpdate(StateResolved));
    }

    /** `resendNotifications`: NotFound for an unknown id, otherwise the notifications again, whatever the severity. */
    method ResendNotifications(id: nat, rows: seq<ChannelRow>, schedules: seq<OnCallSchedule>, users: seq<User>,
                               now: int, send: (Channel, NotificationPayload) -> SendOutcome)
      returns (r: Outcome)
      requires Valid()
      modifies notifier
      ensures Valid()
      ensures FindAlert(alerts, id).None? ==> r == Failed(NotFound) && notifier.notifications == old(notifier.notifications)
      ensures FindAlert(alerts, id).Some? ==>
        (r == Done &&
         notifier.notifications == old(notifier.notifications) +
           Outbox(alerts[FindAlert(alerts, id).value], rows, schedules, users, now, old(notifier.nextId),
                  notifier.channelFactory.channels, send))
    {
      var found := FindAlert(alerts, id);
      if found.None? {
        return Failed(NotFound);
      }
      SendAlertNotifications(alerts[found.value], rows, schedules, users, now, send);
      r := Done;
    }
  }
}

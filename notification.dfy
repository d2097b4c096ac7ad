/**
 * `NotificationService`: notification rows, created pending and moved to
 * sent or failed by the outcome of one attempt on the named channel.
 */
module Notifications {
  import opened Wrappers
  import opened Seqs
  import opened Entities
  import opened ChannelFactory

  datatype NotificationStatus = StatusPending | StatusSent | StatusFailed

  /** A row of `notifications`; `estado` is the delivery status. */
  datatype Notification = Notification(
    id: nat,
    alert_id: nat,
    user_id: string,
    channel_id: string,
    estado: NotificationStatus,
    payload: Option<AlertPayload>)

  /** `CreateNotificationDto`; a status given here is overridden by `create`. */
  datatype CreateNotificationDto = CreateNotificationDto(
    alerta_id: nat,
    usuario_id: string,
    canal_id: string,
    estado: Option<NotificationStatus>,
    payload: Option<AlertPayload>)

  /** What one `channel.send(payload)` did: resolved to a flag, or threw. */
  datatype SendOutcome = Returned(success: bool) | Threw

  /** The status `sendNotification` leaves: sent only when a registered channel reports success. */
  function SendStatus(channelType: string, channels: map<string, Channel>, payload: NotificationPayload,
                      send: (Channel, NotificationPayload) -> SendOutcome): (s: NotificationStatus)
    ensures s != StatusPending
    ensures s == StatusSent <==> channelType in channels && send(channels[channelType], payload) == Returned(true)
  {
    if channelType !in channels then StatusFailed
    else match send(channels[channelType], payload)
      case Returned(ok) => if ok then StatusSent else StatusFailed
      case Threw => StatusFailed
  }

  /** An unknown channel type always ends failed, whatever the transport would do. */
  lemma UnknownChannelFails(channelType: string, channels: map<string, Channel>, payload: NotificationPayload,
                            send: (Channel, NotificationPayload) -> SendOutcome)
    requires channelType !in channels
    ensures SendStatus(channelType, channels, payload, send) == StatusFailed
  {
  }

  /** A transport that throws, or resolves to false, leaves the row failed. */
  lemma FailedAttemptFails(channelType: string, channels: map<string, Channel>, payload: NotificationPayload,
                           send: (Channel, NotificationPayload) -> SendOutcome)
    requires channelType in channels && send(channels[channelType], payload) != Returned(true)
    ensures SendStatus(channelType, channels, payload, send) == StatusFailed
  {
  }

  function FindNotification(ns: seq<Notification>, id: nat): (r: Option<nat>)
    ensures r.Some? ==> r.value < |ns| && ns[r.value].id == id
    ensures r.None? ==> forall i :: 0 <= i < |ns| ==> ns[i].id != id
  {
    FindFirst(ns, (n: Notification) => n.id == id)
  }

  /** Distinct ids, all below the next id to hand out. */
  predicate ValidNotifications(ns: seq<Notification>, nextId: nat)
  {
    (forall i :: 0 <= i < |ns| ==> ns[i].id < nextId) &&
    (forall i, j :: 0 <= i < j < |ns| ==> ns[i].id != ns[j].id)
  }

  /** In a valid table the row just appended with the next id is the one found by that id. */
  lemma AppendedFound(ns: seq<Notification>, nextId: nat, n: Notification)
    requires ValidNotifications(ns, nextId) && n.id == nextId
    ensures ValidNotifications(ns + [n], nextId + 1)
    ensures FindNotification(ns + [n], nextId) == Some(|ns|)
  {
    var r := FindNotification(ns + [n], nextId);
    assert (ns + [n])[|ns|].id == nextId;
  }

  lemma SetStatusPreservesValid(ns: seq<Notification>, nextId: nat, i: nat, s: NotificationStatus)
    requires ValidNotifications(ns, nextId) && i < |ns|
    ensures ValidNotifications(ns[i := ns[i].(estado := s)], nextId)
  {
  }

  class NotificationService {
    var notifications: seq<Notification>
    var nextId: nat
    const channelFactory: NotificationChannelFactory

    ghost predicate Valid()
      reads this
    {
      ValidNotifications(notifications, nextId)
    }

    constructor (factory: NotificationChannelFactory)
      ensures Valid() && notifications == [] && nextId == 0 && channelFactory == factory
    {
      notifications := [];
      nextId := 0;
      channelFactory := factory;
    }

    /** `create`: stores the row as pending, whatever status the request carries. */
    method Create(dto: CreateNotificationDto) returns (n: Notification)
      requires Valid()
      modifies this
      ensures Valid()
      ensures n == Notification(old(nextId), dto.alerta_id, dto.usuario_id, dto.canal_id, StatusPending, dto.payload)
      ensures notifications == old(notifications) + [n] && nextId == old(nextId) + 1
      ensures FindNotification(notifications, n.id) == Some(|old(notifications)|)
    {
      n := Notification(nextId, dto.alerta_id, dto.usuario_id, dto.canal_id, StatusPending, dto.payload);
      AppendedFound(notifications, nextId, n);
      notifications := notifications + [n];
      nextId := nextId + 1;
    }

    /** `updateStatus`: sets `estado` on a known row, NotFound otherwise. */
    method UpdateStatus(id: nat, status: NotificationStatus) returns (r: Result<Notification>)
      requires Valid()
      modifies this
      ensures Valid() && nextId == old(nextId)
      ensures FindNotification(old(notifications), id).None? ==> r == Err(NotFound) && notifications == old(notifications)
      ensures FindNotification(old(notifications), id).Some? ==>
        var i := FindNotification(old(notifications), id).value;
        r == Ok(old(notifications)[i].(estado := status)) && notifications == old(notifications)[i := r.value]
    {
      var found := FindNotification(notifications, id);
      if found.None? {
        return Err(NotFound);
      }
      var i := found.value;
      SetStatusPreservesValid(notifications, nextId, i, status);
      var n := notifications[i].(estado := status);
      notifications := notifications[i := n];
      r := Ok(n);
    }

    /**
     * `sendNotification`: one attempt on the channel registered under
     * `channelType`; the row ends sent or failed and the result says which.
     */
    method SendNotification(id: nat, channelType: string, payload: NotificationPayload,
                            send: (Channel, NotificationPayload) -> SendOutcome)
      returns (r: Result<bool>)
      requires Valid()
      modifies this
      ensures Valid() && nextId == old(nextId)
      ensures FindNotification(old(notifications), id).None? ==> r == Err(NotFound) && notifications == old(notifications)
      ensures FindNotification(old(notifications), id).Some? ==>
        var i := FindNotification(old(notifications), id).value;
        var status := SendStatus(channelType, channelFactory.channels, payload, send);
        r == Ok(status == StatusSent) && notifications == old(notifications)[i := old(notifications)[i].(estado := status)]
    {
      var channel := channelFactory.GetChannel(channelType);
      if channel.None? {
        var u := UpdateStatus(id, StatusFailed);
        if u.Err? {
          return Err(u.error);
        }
        return Ok(false);
      }
      var outcome := send(channel.value, payload);
      match outcome {
        case Returned(success) =>
          var u := UpdateStatus(id, if success then StatusSent else StatusFailed);
          if u.Err? {
            // The catch block tries to record the failure, and throws again.
            var u2 := UpdateStatus(id, StatusFailed);
            return Err(u2.error);
          }
          r := Ok(success);
        case Threw =>
          var u := UpdateStatus(id, StatusFailed);
          if u.Err? {
            return Err(u.error);
          }
          r := Ok(false);
      }
    }
  }
}

/**
 * The risk-notification escalation state machine. Each service call runs to
 * completion before the next one starts. Under that assumption, every risky
 * entity found by the failure-prediction engine becomes at most one active
 * record; the
 * on-call guard is reminded every 10 minutes up to 3 attempts, after which
 * the record is escalated to every active YUNO user. A guard may dismiss,
 * propagate or resolve a record by hand; resolved records are deleted after
 * 7 days.
 */
module RiskNotifications {
  import opened Wrappers
  import opened Seqs
  import opened Strings
  import opened Sorting
  import opened Entities
  import opened Phone
  import opened FailurePrediction

  const MINUTE_MS: int := 60 * 1000
  const GUARD_NOTIFICATION_INTERVAL_MS: int := 10 * MINUTE_MS
  const MAX_GUARD_ATTEMPTS: nat := 3
  const DISMISSAL_WINDOW_MS: int := 24 * 60 * MINUTE_MS
  const RETENTION_MS: int := 7 * 24 * 60 * MINUTE_MS
  const WHATSAPP_LIMIT: nat := 1600

  datatype NotificationStatus = GuardNotified | Escalated | Dismissed | ResolvedStatus

  /** The prediction details stored with a record that notified a guard. */
  datatype Metadata = Metadata(signals: seq<Signal>, baseline_comparison: BaselineComparison, trend: Trend,
                               recommended_actions: seq<Action>)

  /** A `risk_notifications` row; timestamps in milliseconds, nullable columns as `Option`. */
  datatype RiskNotification = RiskNotification(
    id: nat,
    entity_type: EntityType,
    entity_id: string,
    entity_name: string,
    risk_level: RiskLevel,
    probability: real,
    status: NotificationStatus,
    guard_attempts: nat,
    last_guard_notification: Option<int>,
    guard_user_id: Option<string>,
    escalated_to_all: bool,
    escalated_at: Option<int>,
    dismissed_by_guard: bool,
    dismissed_by_user_id: Option<string>,
    dismissed_at: Option<int>,
    dismissal_reason: Option<string>,
    resolved: bool,
    resolved_at: Option<int>,
    metadata: Option<Metadata>,
    created_at: int,
    updated_at: int)

  // ---------------------------------------------------------------- pure helpers

  function MapRiskToSeverity(level: RiskLevel): AlertSeverity
  {
    match level
    case CriticalRisk => SeverityCritical
    case HighRisk => SeverityWarning
    case MediumRisk => SeverityWarning
    case LowRisk => SeverityInfo
  }

  function SeverityRank(s: AlertSeverity): nat
  {
    match s
    case SeverityInfo => 0
    case SeverityWarning => 1
    case SeverityCritical => 2
  }

  /** Severity follows the risk level: only critical risk gives CRITICAL, only low gives INFO. */
  lemma SeverityFollowsLevel(a: RiskLevel, b: RiskLevel)
    ensures LevelRank(a) <= LevelRank(b) ==> SeverityRank(MapRiskToSeverity(a)) <= SeverityRank(MapRiskToSeverity(b))
    ensures MapRiskToSeverity(a) == SeverityCritical <==> a == CriticalRisk
    ensures MapRiskToSeverity(a) == SeverityInfo <==> a == LowRisk
  {
  }

  /** `formatWhatsAppTo`: `null` for a missing or empty number, otherwise a cleaned `whatsapp:` address. */
  function FormatWhatsAppTo(phone: Option<string>): (r: Option<string>)
    ensures r.None? <==> phone.None? || phone.value == ""
    ensures r.Some? ==> StartsWith(r.value, WHATSAPP_PREFIX) && Clean(r.value)
    ensures r.Some? && !StartsWith(StripNoise(phone.value), WHATSAPP_PREFIX) ==>
              r.value == WHATSAPP_PREFIX + (if StartsWith(StripNoise(phone.value), "+") then "" else "+") + StripNoise(phone.value)
  {
    if phone.None? || phone.value == "" then None
    else
      var cleaned := StripNoise(phone.value);
      PrefixIsClean();
      if StartsWith(cleaned, WHATSAPP_PREFIX) then Some(cleaned)
      else if StartsWith(cleaned, "+") then
        CleanAppend(WHATSAPP_PREFIX, cleaned);
        assert (WHATSAPP_PREFIX + cleaned)[..|WHATSAPP_PREFIX|] == WHATSAPP_PREFIX;
        Some(WHATSAPP_PREFIX + cleaned)
      else
        CleanAppend(WHATSAPP_PREFIX + "+", cleaned);
        assert (WHATSAPP_PREFIX + "+" + cleaned)[..|WHATSAPP_PREFIX|] == WHATSAPP_PREFIX;
        Some(WHATSAPP_PREFIX + "+" + cleaned)
  }

  /** A formatted address formats to itself. */
  lemma FormatWhatsAppToIdempotent(phone: Option<string>)
    requires FormatWhatsAppTo(phone).Some?
    ensures FormatWhatsAppTo(FormatWhatsAppTo(phone)) == FormatWhatsAppTo(phone)
  {
    var r := FormatWhatsAppTo(phone).value;
    StripClean(r);
  }

  /** `lines.join('\n').slice(0, 1600)`. */
  function WhatsAppBody(lines: seq<string>): (body: string)
    ensures |body| <= WHATSAPP_LIMIT && |body| <= |Join(lines, '\n')|
    ensures body == Join(lines, '\n')[..|body|]
    ensures |Join(lines, '\n')| <= WHATSAPP_LIMIT ==> body == Join(lines, '\n')
  {
    Prefix(Join(lines, '\n'), WHATSAPP_LIMIT)
  }

  predicate IsGuardCandidate(u: User)
  {
    u.utype == Yuno && u.active
  }

  /** `getOnCallGuard`: the active YUNO user with the smallest name; the earlier one on a tie. */
  function OnCallGuard(users: seq<User>): (g: Option<User>)
    ensures g.None? <==> forall i :: 0 <= i < |users| ==> !IsGuardCandidate(users[i])
    ensures g.Some? ==> g.value in users && IsGuardCandidate(g.value)
    ensures g.Some? ==> forall i :: 0 <= i < |users| && IsGuardCandidate(users[i]) ==> !StrLess(users[i].name, g.value.name)
    decreases |users|
  {
    if |users| == 0 then None
    else
      var rest := OnCallGuard(users[1..]);
      assert forall i :: 1 <= i < |users| ==> users[i] == users[1..][i - 1];
      if !IsGuardCandidate(users[0]) then rest
      else if rest.Some? && StrLess(rest.value.name, users[0].name) then
        StrLessAsymmetric(rest.value.name, users[0].name);
        forall i | 0 <= i < |users| && IsGuardCandidate(users[i])
          ensures !StrLess(users[i].name, rest.value.name)
        {
          if i == 0 {
            StrLessAsymmetric(rest.value.name, users[0].name);
          }
        }
        rest
      else
        forall i | 0 <= i < |users| && IsGuardCandidate(users[i])
          ensures !StrLess(users[i].name, users[0].name)
        {
          if i > 0 && StrLess(users[i].name, users[0].name) {
            StrLessTrichotomy(users[i].name, rest.value.name);
            if StrLess(rest.value.name, users[i].name) {
              StrLessTransitive(rest.value.name, users[i].name, users[0].name);
            }
          }
          if i == 0 {
            StrLessIrreflexive(users[0].name);
          }
        }
        Some(users[0])
  }

  lemma {:induction false} StrLessAsymmetric(a: string, b: string)
    ensures StrLess(a, b) ==> !StrLess(b, a)
    decreases |a|
  {
    if |a| > 0 && |b| > 0 && a[0] == b[0] {
      StrLessAsymmetric(a[1..], b[1..]);
    }
  }

  /** Two different names are ordered one way or the other. */
  lemma {:induction false} StrLessTrichotomy(a: string, b: string)
    ensures a == b || StrLess(a, b) || StrLess(b, a)
    decreases |a|
  {
    if |a| > 0 && |b| > 0 && a[0] == b[0] {
      StrLessTrichotomy(a[1..], b[1..]);
      if a[1..] == b[1..] {
        assert a == [a[0]] + a[1..] && b == [b[0]] + b[1..];
      }
    }
  }

  // ---------------------------------------------------------------- dispatches

  datatype ChannelKind = GmailChannel | WhatsAppChannel

  /** One `notificationService.create` + `sendNotification` pair. */
  datatype Dispatch = Dispatch(user_id: string, channel: ChannelKind, to: string)

  /** Which of the gmail and whatsapp channels are active. */
  datatype Channels = Channels(gmail: bool, whatsapp: bool)

  /** The side effects of one operation: alerts created and messages dispatched, in order. */
  datatype Effects = Effects(alerts: seq<AlertSeverity>, dispatches: seq<Dispatch>)

  const NoEffects: Effects := Effects([], [])

  function Then(a: Effects, b: Effects): Effects
  {
    Effects(a.alerts + b.alerts, a.dispatches + b.dispatches)
  }

  /** `sendGuardNotification`: email when gmail is active, WhatsApp when it is active and the number formats. */
  function GuardDispatches(guard: User, ch: Channels): (ds: seq<Dispatch>)
    ensures |ds| <= 2 && forall i :: 0 <= i < |ds| ==> ds[i].user_id == guard.id
    ensures ch.gmail <==> Dispatch(guard.id, GmailChannel, guard.email) in ds
    ensures (exists i :: 0 <= i < |ds| && ds[i].channel == WhatsAppChannel) <==>
              ch.whatsapp && FormatWhatsAppTo(Some(guard.number)).Some?
  {
    var email := if ch.gmail then [Dispatch(guard.id, GmailChannel, guard.email)] else [];
    var wa := FormatWhatsAppTo(Some(guard.number));
    var ds := email + (if ch.whatsapp && wa.Some? then [Dispatch(guard.id, WhatsAppChannel, wa.value)] else []);
    assert ch.whatsapp && wa.Some? ==> ds[|ds| - 1].channel == WhatsAppChannel;
    ds
  }

  /**
   * The messages `escalateToAll` sends to the active YUNO users: nothing when
   * neither channel is active, otherwise an email to each user with an email
   * and a WhatsApp to each user whose `phone` formats.
   */
  function EscalationDispatchesWith(users: seq<User>, ch: Channels, phone: User -> Option<string>): seq<Dispatch>
    decreases |users|
  {
    if !ch.gmail && !ch.whatsapp then []
    else if |users| == 0 then []
    else
      var rest := EscalationDispatchesWith(users[..|users| - 1], ch, phone);
      var u := users[|users| - 1];
      if !IsGuardCandidate(u) then rest
      else
        var wa := FormatWhatsAppTo(phone(u));
        rest + (if ch.gmail && u.email != "" then [Dispatch(u.id, GmailChannel, u.email)] else []) +
               (if ch.whatsapp && wa.Some? then [Dispatch(u.id, WhatsAppChannel, wa.value)] else [])
  }

  /** `(user as any).cellphone ?? (user as any).phone`: neither column exists on a user. */
  function PhoneAsRead(u: User): Option<string>
  {
    None
  }

  /** The user's `number` column, the one the guard notification reads. */
  function PhoneNumber(u: User): Option<string>
  {
    Some(u.number)
  }

  /** The escalation as written never reaches anyone on WhatsApp. */
  lemma {:induction false} EscalationAsWrittenSkipsWhatsApp(users: seq<User>, ch: Channels)
    ensures forall i :: 0 <= i < |EscalationDispatchesWith(users, ch, PhoneAsRead)| ==>
              EscalationDispatchesWith(users, ch, PhoneAsRead)[i].channel == GmailChannel
    decreases |users|
  {
    if |users| > 0 && (ch.gmail || ch.whatsapp) {
      EscalationAsWrittenSkipsWhatsApp(users[..|users| - 1], ch);
    }
  }

  /** Messages of the escalation: reading the user's number. */
  function EscalationDispatches(users: seq<User>, ch: Channels): seq<Dispatch>
  {
    EscalationDispatchesWith(users, ch, PhoneNumber)
  }

  /** With the number read, every active YUNO user with a usable number gets a WhatsApp and one with an email an email. */
  lemma {:induction false} EscalationReachesEveryone(users: seq<User>, ch: Channels, u: User)
    requires u in users && IsGuardCandidate(u)
    ensures ch.whatsapp && u.number != "" ==>
              Dispatch(u.id, WhatsAppChannel, FormatWhatsAppTo(Some(u.number)).value) in EscalationDispatches(users, ch)
    ensures ch.gmail && u.email != "" ==> Dispatch(u.id, GmailChannel, u.email) in EscalationDispatches(users, ch)
    decreases |users|
  {
    var init := users[..|users| - 1];
    if users[|users| - 1] != u {
      assert u in init by {
        var k :| 0 <= k < |users| && users[k] == u;
        assert init[k] == u;
      }
      EscalationReachesEveryone(init, ch, u);
    }
  }

  // ---------------------------------------------------------------- record predicates

  predicate SameEntity(a: RiskNotification, b: RiskNotification)
  {
    a.entity_type == b.entity_type && a.entity_id == b.entity_id
  }

  /** The duplicate check of `processRiskyEntity`: status `guard_notified` and not resolved. */
  predicate IsActive(r: RiskNotification)
  {
    r.status == GuardNotified && !r.resolved
  }

  predicate IsActiveFor(r: RiskNotification, p: FailureProbability)
  {
    r.entity_type == p.entity_type && r.entity_id == p.entity_id && IsActive(r)
  }

  /** Dismissed by the guard less than 24 hours ago (`dismissed_at > now - 24h`). */
  predicate RecentlyDismissedFor(r: RiskNotification, p: FailureProbability, now: int)
  {
    r.entity_type == p.entity_type && r.entity_id == p.entity_id && r.dismissed_by_guard &&
    r.dismissed_at.Some? && r.dismissed_at.value > now - DISMISSAL_WINDOW_MS
  }

  /** Selected by the retry sweep of `checkPendingGuardNotifications`. */
  predicate Pending(r: RiskNotification, now: int)
  {
    r.status == GuardNotified && !r.escalated_to_all && !r.dismissed_by_guard && !r.resolved &&
    r.last_guard_notification.Some? && r.last_guard_notification.value < now - GUARD_NOTIFICATION_INTERVAL_MS
  }

  /** Deleted by `cleanupOldNotifications`. */
  predicate Expired(r: RiskNotification, now: int)
  {
    r.resolved && r.resolved_at.Some? && r.resolved_at.value < now - RETENTION_MS
  }

  /**
   * Ids are below the next id and unique, and no entity has two active records.
   * The service keeps this only while its calls do not overlap.
   */
  predicate ValidStore(rs: seq<RiskNotification>, nextId: nat)
  {
    (forall i :: 0 <= i < |rs| ==> rs[i].id < nextId) &&
    (forall i, j :: 0 <= i < j < |rs| ==> rs[i].id != rs[j].id) &&
    (forall i, j :: 0 <= i < j < |rs| && IsActive(rs[i]) && IsActive(rs[j]) ==> !SameEntity(rs[i], rs[j]))
  }

  // ---------------------------------------------------------------- single-record transitions

  /** The record `notifyGuard` saves after alerting the guard. */
  function NewGuardRecord(id: nat, p: FailureProbability, guard: User, now: int): (r: RiskNotification)
    ensures r.id == id && r.status == GuardNotified && r.guard_attempts == 1
    ensures r.last_guard_notification == Some(now) && r.guard_user_id == Some(guard.id)
    ensures !r.escalated_to_all && !r.dismissed_by_guard && !r.resolved && IsActive(r)
  {
    RiskNotification(id, p.entity_type, p.entity_id, p.entity_name, p.risk_level, p.probability, GuardNotified, 1,
                     Some(now), Some(guard.id), false, None, false, None, None, None, false, None,
                     Some(Metadata(p.signals, p.baseline_comparison, p.trend, p.recommended_actions)), now, now)
  }

  /** The record `escalateToAll` saves when there is no guard to notify. */
  function NewEscalatedRecord(id: nat, p: FailureProbability, now: int): (r: RiskNotification)
    ensures r.id == id && r.status == Escalated && r.guard_attempts == 0
    ensures r.escalated_to_all && r.escalated_at == Some(now) && r.guard_user_id.None?
    ensures !IsActive(r) && !Pending(r, now)
  {
    RiskNotification(id, p.entity_type, p.entity_id, p.entity_name, p.risk_level, p.probability, Escalated, 0,
                     None, None, true, Some(now), false, None, None, None, false, None, None, now, now)
  }

  /** `retryGuardNotification`: one more attempt, stamped now. */
  function Retry(r: RiskNotification, now: int): RiskNotification
  {
    r.(guard_attempts := r.guard_attempts + 1, last_guard_notification := Some(now), updated_at := now)
  }

  /** `escalateToAll` on an existing record. */
  function EscalateRecord(r: RiskNotification, now: int): RiskNotification
  {
    r.(status := Escalated, escalated_to_all := true, escalated_at := Some(now), updated_at := now)
  }

  function DismissRecord(r: RiskNotification, userId: string, reason: string, now: int): RiskNotification
  {
    r.(dismissed_by_guard := true, dismissed_by_user_id := Some(userId), dismissed_at := Some(now),
       dismissal_reason := Some(reason), status := Dismissed, updated_at := now)
  }

  function ResolveRecord(r: RiskNotification, now: int): RiskNotification
  {
    r.(resolved := true, resolved_at := Some(now), status := ResolvedStatus, updated_at := now)
  }

  /** What one sweep does to one record. */
  function Step(r: RiskNotification, now: int): RiskNotification
  {
    if !Pending(r, now) then r
    else if r.guard_attempts < MAX_GUARD_ATTEMPTS then Retry(r, now)
    else EscalateRecord(r, now)
  }

  /** The sweep leaves unselected records alone, widens attempts by one below 3 and escalates from 3 on. */
  lemma StepCases(r: RiskNotification, now: int)
    ensures !Pending(r, now) ==> Step(r, now) == r
    ensures Pending(r, now) && r.guard_attempts < MAX_GUARD_ATTEMPTS ==>
              Step(r, now).guard_attempts == r.guard_attempts + 1 && Step(r, now).status == GuardNotified &&
              Step(r, now).last_guard_notification == Some(now) && !Step(r, now).escalated_to_all
    ensures Pending(r, now) && r.guard_attempts >= MAX_GUARD_ATTEMPTS ==>
              Step(r, now).status == Escalated && Step(r, now).escalated_to_all &&
              Step(r, now).escalated_at == Some(now) && Step(r, now).guard_attempts == r.guard_attempts
    ensures Step(r, now).guard_attempts >= r.guard_attempts
    ensures Step(r, now).id == r.id && SameEntity(Step(r, now), r)
    ensures IsActive(Step(r, now)) ==> IsActive(r)
  {
  }

  /**
   * A guard that never answers: a record created at `t0` with one attempt is
   * reminded on the first and second eligible sweeps and escalated on the third.
   */
  lemma ThirdSweepEscalates(id: nat, p: FailureProbability, guard: User, t0: int, t1: int, t2: int, t3: int)
    requires t1 > t0 + GUARD_NOTIFICATION_INTERVAL_MS
    requires t2 > t1 + GUARD_NOTIFICATION_INTERVAL_MS
    requires t3 > t2 + GUARD_NOTIFICATION_INTERVAL_MS
    ensures var r0 := NewGuardRecord(id, p, guard, t0);
            var r1 := Step(r0, t1);
            var r2 := Step(r1, t2);
            var r3 := Step(r2, t3);
            r1.status == GuardNotified && r1.guard_attempts == 2 &&
            r2.status == GuardNotified && r2.guard_attempts == 3 &&
            r3.status == Escalated && r3.escalated_to_all && r3.escalated_at == Some(t3) && r3.guard_attempts == 3
  {
  }

  /** A sweep less than 10 minutes after the last attempt does nothing. */
  lemma NoReminderTooSoon(r: RiskNotification, now: int)
    requires r.last_guard_notification.Some? && r.last_guard_notification.value >= now - GUARD_NOTIFICATION_INTERVAL_MS
    ensures Step(r, now) == r
  {
  }

  /** A dismissed record is never selected again, so no reminder and no escalation follows. */
  lemma DismissStopsRetries(r: RiskNotification, userId: string, reason: string, t: int, later: int)
    ensures !Pending(DismissRecord(r, userId, reason, t), later)
    ensures Step(DismissRecord(r, userId, reason, t), later) == DismissRecord(r, userId, reason, t)
  {
  }

  /** A resolved record is never selected again. */
  lemma ResolveStopsRetries(r: RiskNotification, t: int, later: int)
    ensures Step(ResolveRecord(r, t), later) == ResolveRecord(r, t)
    ensures !IsActive(ResolveRecord(r, t))
  {
  }

  /** Propagating escalates whatever the attempt count, and an escalated record is never swept again. */
  lemma PropagateEscalates(r: RiskNotification, t: int, later: int)
    ensures EscalateRecord(r, t).status == Escalated && EscalateRecord(r, t).escalated_to_all
    ensures EscalateRecord(r, t).guard_attempts == r.guard_attempts
    ensures Step(EscalateRecord(r, t), later) == EscalateRecord(r, t)
  {
  }

  // ---------------------------------------------------------------- store transitions

  datatype Store = Store(records: seq<RiskNotification>, nextId: nat)

  /** Which branch `processRiskyEntity` takes. */
  datatype Detection = KeepActive(index: nat) | SuppressDismissed | CreateRecord

  function Classify(rs: seq<RiskNotification>, p: FailureProbability, now: int): (d: Detection)
    ensures d.KeepActive? ==> d.index < |rs| && IsActiveFor(rs[d.index], p)
    ensures d.KeepActive? <==> exists i :: 0 <= i < |rs| && IsActiveFor(rs[i], p)
    ensures d.SuppressDismissed? <==>
              (forall i :: 0 <= i < |rs| ==> !IsActiveFor(rs[i], p)) &&
              (exists i :: 0 <= i < |rs| && RecentlyDismissedFor(rs[i], p, now))
  {
    match FindFirst(rs, r => IsActiveFor(r, p))
    case Some(i) => KeepActive(i)
    case None =>
      match FindFirst(rs, r => RecentlyDismissedFor(r, p, now))
      case Some(_) => SuppressDismissed
      case None => CreateRecord
  }

  /** The record a new detection creates: a guard notification, or an escalation when no guard is on call. */
  function NewRecord(id: nat, p: FailureProbability, guard: Option<User>, now: int): RiskNotification
  {
    if guard.Some? then NewGuardRecord(id, p, guard.value, now) else NewEscalatedRecord(id, p, now)
  }

  /** The store after `processRiskyEntity` (with `notifyGuard`). */
  function Detect(s: Store, p: FailureProbability, guard: Option<User>, now: int): (t: Store)
    ensures |t.records| == |s.records| || t.records == s.records + [NewRecord(s.nextId, p, guard, now)]
    ensures t.nextId == s.nextId || t.nextId == s.nextId + 1
  {
    match Classify(s.records, p, now)
    case KeepActive(i) =>
      var r := s.records[i];
      if r.risk_level != p.risk_level then
        Store(s.records[i := r.(risk_level := p.risk_level, probability := p.probability, updated_at := now)], s.nextId)
      else s
    case SuppressDismissed => s
    case CreateRecord => Store(s.records + [NewRecord(s.nextId, p, guard, now)], s.nextId + 1)
  }

  /** The alert and messages of a detection. */
  function DetectEffects(s: Store, p: FailureProbability, users: seq<User>, ch: Channels, now: int): Effects
  {
    if !Classify(s.records, p, now).CreateRecord? then NoEffects
    else
      match OnCallGuard(users)
      case Some(g) => Effects([MapRiskToSeverity(p.risk_level)], GuardDispatches(g, ch))
      case None => Effects([SeverityCritical], EscalationDispatches(users, ch))
  }

  /** An active record for the entity blocks a new one; at most its level and probability change. */
  lemma ActiveRecordBlocksCreation(s: Store, p: FailureProbability, guard: Option<User>, now: int, i: nat)
    requires ValidStore(s.records, s.nextId)
    requires i < |s.records| && IsActiveFor(s.records[i], p)
    ensures var t := Detect(s, p, guard, now);
            |t.records| == |s.records| && t.nextId == s.nextId &&
            forall j :: 0 <= j < |s.records| ==>
              t.records[j] == s.records[j] ||
              (IsActiveFor(s.records[j], p) && s.records[j].risk_level != p.risk_level &&
               t.records[j] == s.records[j].(risk_level := p.risk_level, probability := p.probability, updated_at := now))
    ensures s.records[i].risk_level == p.risk_level ==> Detect(s, p, guard, now) == s
  {
    var d := Classify(s.records, p, now);
    OnlyActive(s.records, s.nextId, p, i, d.index);
  }

  /** In a valid store an entity has at most one active record. */
  lemma OnlyActive(rs: seq<RiskNotification>, nextId: nat, p: FailureProbability, i: nat, j: nat)
    requires ValidStore(rs, nextId)
    requires i < |rs| && j < |rs| && IsActiveFor(rs[i], p) && IsActiveFor(rs[j], p)
    ensures i == j
  {
    if i < j {
      assert SameEntity(rs[i], rs[j]);
    } else if j < i {
      assert SameEntity(rs[j], rs[i]);
    }
  }

  /** A dismissal less than 24 hours old, with no active record, suppresses the detection. */
  lemma DismissalSuppresses(s: Store, p: FailureProbability, guard: Option<User>, now: int, i: nat)
    requires i < |s.records| && RecentlyDismissedFor(s.records[i], p, now)
    requires forall j :: 0 <= j < |s.records| ==> !IsActiveFor(s.records[j], p)
    ensures Detect(s, p, guard, now) == s
  {
  }

  /** Otherwise exactly one record is created, with the fields of the guard or of the escalation path. */
  lemma FreshEntityCreatesRecord(s: Store, p: FailureProbability, guard: Option<User>, now: int)
    requires forall j :: 0 <= j < |s.records| ==> !IsActiveFor(s.records[j], p) && !RecentlyDismissedFor(s.records[j], p, now)
    ensures var t := Detect(s, p, guard, now);
            t.records == s.records + [NewRecord(s.nextId, p, guard, now)] && t.nextId == s.nextId + 1
    ensures guard.Some? ==> var r := NewRecord(s.nextId, p, guard, now);
              r.status == GuardNotified && r.guard_attempts == 1 && r.last_guard_notification == Some(now) &&
              r.guard_user_id == Some(guard.value.id)
    ensures guard.None? ==> var r := NewRecord(s.nextId, p, guard, now);
              r.status == Escalated && r.escalated_to_all && r.guard_attempts == 0
  {
  }

  /** With a guard on call, detecting the same prediction again changes nothing. */
  lemma DetectIdempotentWithGuard(s: Store, p: FailureProbability, g: User, now: int)
    requires ValidStore(s.records, s.nextId)
    ensures Detect(Detect(s, p, Some(g), now), p, Some(g), now) == Detect(s, p, Some(g), now)
  {
    var t := Detect(s, p, Some(g), now);
    match Classify(s.records, p, now)
    case KeepActive(i) =>
      assert IsActiveFor(t.records[i], p);
    case SuppressDismissed =>
    case CreateRecord =>
      assert IsActiveFor(t.records[|s.records|], p);
  }

  /** Without a guard the escalated record is not active, so the same detection creates a second record. */
  lemma DetectRepeatsWithoutGuard(s: Store, p: FailureProbability, now: int)
    requires forall j :: 0 <= j < |s.records| ==> !IsActiveFor(s.records[j], p) && !RecentlyDismissedFor(s.records[j], p, now)
    ensures |Detect(Detect(s, p, None, now), p, None, now).records| == |s.records| + 2
  {
    var t := Detect(s, p, None, now);
    assert forall j :: 0 <= j < |t.records| ==> !IsActiveFor(t.records[j], p) && !RecentlyDismissedFor(t.records[j], p, now) by {
      forall j | 0 <= j < |t.records|
        ensures !IsActiveFor(t.records[j], p) && !RecentlyDismissedFor(t.records[j], p, now)
      {
        if j < |s.records| {
          assert t.records[j] == s.records[j];
        }
      }
    }
  }

  /** A dismissal suppresses detections for 24 hours and no longer. */
  lemma SuppressionWindow(r: RiskNotification, p: FailureProbability, guard: Option<User>, userId: string, reason: string,
                          t: int, nextId: nat)
    requires r.entity_type == p.entity_type && r.entity_id == p.entity_id
    ensures var s := Store([DismissRecord(r, userId, reason, t)], nextId);
            Detect(s, p, guard, t + DISMISSAL_WINDOW_MS - 1) == s
    ensures var s := Store([DismissRecord(r, userId, reason, t)], nextId);
            Detect(s, p, guard, t + DISMISSAL_WINDOW_MS).records == s.records + [NewRecord(nextId, p, guard, t + DISMISSAL_WINDOW_MS)]
  {
    var s := Store([DismissRecord(r, userId, reason, t)], nextId);
    assert RecentlyDismissedFor(s.records[0], p, t + DISMISSAL_WINDOW_MS - 1);
  }

  /** Updating records one by one, without moving ids or entities and without activating any, keeps the store valid. */
  lemma PointwisePreservesValid(rs: seq<RiskNotification>, rs': seq<RiskNotification>, nextId: nat)
    requires ValidStore(rs, nextId) && |rs'| == |rs|
    requires forall i :: 0 <= i < |rs| ==>
               rs'[i].id == rs[i].id && SameEntity(rs'[i], rs[i]) && (IsActive(rs'[i]) ==> IsActive(rs[i]))
    ensures ValidStore(rs', nextId)
  {
    forall i, j | 0 <= i < j < |rs'| && IsActive(rs'[i]) && IsActive(rs'[j])
      ensures !SameEntity(rs'[i], rs'[j])
    {
      assert !SameEntity(rs[i], rs[j]);
    }
  }

  lemma DetectPreservesValid(s: Store, p: FailureProbability, guard: Option<User>, now: int)
    requires ValidStore(s.records, s.nextId)
    ensures ValidStore(Detect(s, p, guard, now).records, Detect(s, p, guard, now).nextId)
  {
    var t := Detect(s, p, guard, now);
    match Classify(s.records, p, now)
    case KeepActive(i) =>
      PointwisePreservesValid(s.records, t.records, s.nextId);
    case SuppressDismissed =>
    case CreateRecord =>
      var n := |s.records|;
      forall i, j | 0 <= i < j < |t.records| && IsActive(t.records[i]) && IsActive(t.records[j])
        ensures !SameEntity(t.records[i], t.records[j])
      {
        if j == n {
          assert t.records[i] == s.records[i];
          assert !IsActiveFor(s.records[i], p);
        } else {
          assert t.records[i] == s.records[i] && t.records[j] == s.records[j];
        }
      }
    }

  /** The store after applying `Step` to every record. */
  function SweepRecords(rs: seq<RiskNotification>, now: int): (rs': seq<RiskNotification>)
    ensures |rs'| == |rs| && forall i :: 0 <= i < |rs| ==> rs'[i] == Step(rs[i], now)
  {
    seq(|rs|, i requires 0 <= i < |rs| => Step(rs[i], now))
  }

  /** The sweep changes only the selected records and never lowers an attempt count. */
  lemma SweepTouchesOnlyPending(rs: seq<RiskNotification>, now: int)
    ensures forall i :: 0 <= i < |rs| && !Pending(rs[i], now) ==> SweepRecords(rs, now)[i] == rs[i]
    ensures forall i :: 0 <= i < |rs| ==> SweepRecords(rs, now)[i].guard_attempts >= rs[i].guard_attempts
  {
  }

  lemma SweepPreservesValid(rs: seq<RiskNotification>, nextId: nat, now: int)
    requires ValidStore(rs, nextId)
    ensures ValidStore(SweepRecords(rs, now), nextId)
  {
    forall i | 0 <= i < |rs|
      ensures IsActive(Step(rs[i], now)) ==> IsActive(rs[i])
    {
      StepCases(rs[i], now);
    }
    PointwisePreservesValid(rs, SweepRecords(rs, now), nextId);
  }

  /** `userRepository.findOne({ where: { id } })`. */
  function FindUser(users: seq<User>, id: Option<string>): Option<User>
  {
    if id.None? then None
    else
      match FindFirst(users, (u: User) => u.id == id.value)
      case Some(k) => Some(users[k])
      case None => None
  }

  /** The alert and messages of one swept record. */
  function StepEffects(r: RiskNotification, users: seq<User>, ch: Channels, now: int): Effects
  {
    if !Pending(r, now) then NoEffects
    else if r.guard_attempts < MAX_GUARD_ATTEMPTS then
      match FindUser(users, r.guard_user_id)
      case Some(g) => Effects([MapRiskToSeverity(r.risk_level)], GuardDispatches(g, ch))
      case None => NoEffects
    else Effects([SeverityCritical], EscalationDispatches(users, ch))
  }

  function SweepEffects(rs: seq<RiskNotification>, users: seq<User>, ch: Channels, now: int): Effects
    decreases |rs|
  {
    if |rs| == 0 then NoEffects
    else Then(SweepEffects(rs[..|rs| - 1], users, ch, now), StepEffects(rs[|rs| - 1], users, ch, now))
  }

  lemma SweepEffectsSnoc(rs: seq<RiskNotification>, r: RiskNotification, users: seq<User>, ch: Channels, now: int)
    ensures SweepEffects(rs + [r], users, ch, now) == Then(SweepEffects(rs, users, ch, now), StepEffects(r, users, ch, now))
  {
    assert (rs + [r])[..|rs|] == rs;
  }

  /**
   * The body of the retry sweep for one record: a selected record below 3
   * attempts is retried and its guard reminded; from 3 on it is escalated to
   * everyone; any other record is left as it is.
   */
  method RemindOrEscalate(r: RiskNotification, users: seq<User>, ch: Channels, now: int)
    returns (updated: RiskNotification, sent: Effects)
    ensures updated == Step(r, now) && sent == StepEffects(r, users, ch, now)
  {
    updated, sent := r, NoEffects;
    if Pending(r, now) {
      if r.guard_attempts < MAX_GUARD_ATTEMPTS {
        updated := Retry(r, now);
        var guard := FindUser(users, updated.guard_user_id);
        if guard.Some? {
          sent := Effects([MapRiskToSeverity(updated.risk_level)], GuardDispatches(guard.value, ch));
        }
      } else {
        updated := EscalateRecord(r, now);
        sent := Effects([SeverityCritical], EscalationDispatches(users, ch));
      }
    }
  }

  /** The records `cleanupOldNotifications` keeps, in order. */
  function KeepFresh(rs: seq<RiskNotification>, now: int): (kept: seq<RiskNotification>)
    ensures |kept| <= |rs|
    decreases |rs|
  {
    if |rs| == 0 then []
    else
      var last := rs[|rs| - 1];
      KeepFresh(rs[..|rs| - 1], now) + (if Expired(last, now) then [] else [last])
  }

  /** Cleanup keeps only unexpired records of the store, and every unexpired one. */
  lemma {:induction false} KeepFreshMembers(rs: seq<RiskNotification>, now: int)
    ensures forall i :: 0 <= i < |KeepFresh(rs, now)| ==> KeepFresh(rs, now)[i] in rs && !Expired(KeepFresh(rs, now)[i], now)
    ensures forall i :: 0 <= i < |rs| && !Expired(rs[i], now) ==> rs[i] in KeepFresh(rs, now)
    decreases |rs|
  {
    if |rs| > 0 {
      var init := rs[..|rs| - 1];
      KeepFreshMembers(init, now);
      assert rs == init + [rs[|rs| - 1]];
    }
  }

  /** Cleanup deletes exactly the records resolved more than 7 days ago. */
  lemma CleanupDeletesExactlyExpired(rs: seq<RiskNotification>, now: int, r: RiskNotification)
    requires r in rs
    ensures r in KeepFresh(rs, now) <==> !Expired(r, now)
  {
    KeepFreshMembers(rs, now);
  }

  lemma {:induction false} KeepFreshPreservesValid(rs: seq<RiskNotification>, nextId: nat, now: int)
    requires ValidStore(rs, nextId)
    ensures ValidStore(KeepFresh(rs, now), nextId)
    decreases |rs|
  {
    if |rs| > 0 {
      var init := rs[..|rs| - 1];
      var last := rs[|rs| - 1];
      assert ValidStore(init, nextId);
      KeepFreshPreservesValid(init, nextId, now);
      KeepFreshMembers(init, now);
      var k := KeepFresh(init, now);
      if !Expired(last, now) {
        assert KeepFresh(rs, now) == k + [last];
        forall i | 0 <= i < |k|
          ensures k[i].id != last.id && (IsActive(k[i]) && IsActive(last) ==> !SameEntity(k[i], last))
        {
          var a :| 0 <= a < |init| && init[a] == k[i];
          assert rs[a] == k[i];
        }
        StoreSnoc(k, last, nextId);
      }
    }
  }

  /** Appending a record whose id is fresh and that clashes with no active record keeps a store valid. */
  lemma StoreSnoc(rs: seq<RiskNotification>, r: RiskNotification, nextId: nat)
    requires ValidStore(rs, nextId) && r.id < nextId
    requires forall i :: 0 <= i < |rs| ==> rs[i].id != r.id && (IsActive(rs[i]) && IsActive(r) ==> !SameEntity(rs[i], r))
    ensures ValidStore(rs + [r], nextId)
  {
    var s := rs + [r];
    assert forall i :: 0 <= i < |rs| ==> s[i] == rs[i];
  }

  // ---------------------------------------------------------------- listing

  datatype MinimalRow = MinimalRow(id: nat, entity_type: EntityType, entity_name: string, risk_level: RiskLevel,
                                   status: NotificationStatus)

  datatype Page = Page(page: int, limit: int, total: nat, pages: nat, items: seq<MinimalRow>)

  function NegCreatedAt(r: RiskNotification): real
  {
    -(r.created_at as real)
  }

  function ToMinimal(r: RiskNotification): MinimalRow
  {
    MinimalRow(r.id, r.entity_type, r.entity_name, r.risk_level, r.status)
  }

  /** `Math.ceil(total / limit)` for a positive limit. */
  function PageCount(total: nat, limit: nat): (pages: nat)
    requires limit > 0
    ensures total <= pages * limit
    ensures pages > 0 ==> (pages - 1) * limit < total
    ensures total == 0 <==> pages == 0
  {
    (total + limit - 1) / limit
  }

  /** The records a status filter keeps (`WHERE rn.status = :status` when one is given). */
  function Matching(rs: seq<RiskNotification>, status: Option<NotificationStatus>): seq<RiskNotification>
  {
    Filter(rs, (r: RiskNotification) => status.None? || r.status == status.value)
  }

  /** `ORDER BY rn.created_at DESC`, stable. */
  function NewestFirst(rs: seq<RiskNotification>, status: Option<NotificationStatus>): seq<RiskNotification>
  {
    SortBy(Matching(rs, status), NegCreatedAt)
  }

  /** The ordered rows are the matching records, all of the requested status, newest first. */
  lemma NewestFirstOrdered(rs: seq<RiskNotification>, status: Option<NotificationStatus>)
    ensures multiset(NewestFirst(rs, status)) == multiset(Matching(rs, status))
    ensures forall i :: 0 <= i < |NewestFirst(rs, status)| ==>
              status.None? || NewestFirst(rs, status)[i].status == status.value
    ensures forall i, j :: 0 <= i < j < |NewestFirst(rs, status)| ==>
              NewestFirst(rs, status)[i].created_at >= NewestFirst(rs, status)[j].created_at
  {
    var sorted := NewestFirst(rs, status);
    SortBySorted(Matching(rs, status), NegCreatedAt);
    forall i | 0 <= i < |sorted|
      ensures status.None? || sorted[i].status == status.value
    {
      SortByMembers(Matching(rs, status), NegCreatedAt, sorted[i]);
      FilterMember(rs, (r: RiskNotification) => status.None? || r.status == status.value, sorted[i]);
    }
    forall i, j | 0 <= i < j < |sorted|
      ensures sorted[i].created_at >= sorted[j].created_at
    {
      assert NegCreatedAt(sorted[i]) <= NegCreatedAt(sorted[j]);
    }
  }

  /** `(page - 1) * limit`: the rows before the requested page. */
  function Offset(page: nat, limit: nat): nat
    requires page >= 1
  {
    (page - 1) * limit
  }

  /** `listMinimal`: one page of the ordered rows, `skip(Offset(page, limit)).take(limit)`, with the page count. */
  function ListMinimal(rs: seq<RiskNotification>, status: Option<NotificationStatus>, page: nat, limit: nat): (p: Page)
    requires page >= 1 && limit > 0
    ensures p.total == |Matching(rs, status)|
    ensures |p.items| <= limit
    ensures Offset(page, limit) >= p.total ==> p.items == []
    ensures page * limit <= p.total ==> |p.items| == limit
    ensures forall i :: 0 <= i < |p.items| ==>
              Offset(page, limit) + i < p.total && p.items[i] == ToMinimal(NewestFirst(rs, status)[Offset(page, limit) + i])
    ensures p.pages * limit >= p.total && (p.pages > 0 ==> (p.pages - 1) * limit < p.total)
  {
    var sorted := NewestFirst(rs, status);
    var window := Window(sorted, Offset(page, limit), limit);
    Page(page, limit, |sorted|, PageCount(|sorted|, limit), seq(|window|, i requires 0 <= i < |window| => ToMinimal(window[i])))
  }

  /** Every listed row has the requested status, and the rows of a page are newest first. */
  lemma ListMinimalRows(rs: seq<RiskNotification>, status: Option<NotificationStatus>, page: nat, limit: nat)
    requires page >= 1 && limit > 0
    ensures var p := ListMinimal(rs, status, page, limit);
            forall i :: 0 <= i < |p.items| ==> status.None? || p.items[i].status == status.value
  {
    var p := ListMinimal(rs, status, page, limit);
    var sorted := NewestFirst(rs, status);
    NewestFirstOrdered(rs, status);
    forall i | 0 <= i < |p.items|
      ensures status.None? || p.items[i].status == status.value
    {
      var k := Offset(page, limit) + i;
      assert p.items[i] == ToMinimal(sorted[k]);
      assert status.None? || sorted[k].status == status.value;
    }
  }

  // ---------------------------------------------------------------- the service

  /**
   * The loop of `checkPendingGuardNotifications` over the stored records:
   * each is reminded or escalated in turn, and its effects follow those of
   * the records before it.
   */
  method SweepPending(rs: seq<RiskNotification>, users: seq<User>, ch: Channels, now: int)
    returns (swept: seq<RiskNotification>, effects: Effects)
    ensures swept == SweepRecords(rs, now)
    ensures effects == SweepEffects(rs, users, ch, now)
  {
    swept := rs;
    effects := NoEffects;
    var i := 0;
    while i < |rs|
      invariant 0 <= i <= |rs| == |swept|
      invariant forall k :: 0 <= k < i ==> swept[k] == Step(rs[k], now)
      invariant forall k :: i <= k < |rs| ==> swept[k] == rs[k]
      invariant effects == SweepEffects(rs[..i], users, ch, now)
    {
      var r := swept[i];
      assert rs[..i + 1] == rs[..i] + [r];
      SweepEffectsSnoc(rs[..i], r, users, ch, now);
      var updated, sent := RemindOrEscalate(r, users, ch, now);
      swept := swept[i := updated];
      effects := Then(effects, sent);
      i := i + 1;
    }
    assert rs[..|rs|] == rs;
  }

  /** The `risk_notifications` table. */
  class RiskNotificationService {
    var records: seq<RiskNotification>
    var nextId: nat

    ghost predicate Valid()
      reads this
    {
      ValidStore(records, nextId)
    }

    constructor ()
      ensures Valid() && records == [] && nextId == 0
    {
      records := [];
      nextId := 0;
    }

    /** `processRiskyEntity`: update an active record, honour a recent dismissal, or notify. */
    method ProcessRiskyEntity(p: FailureProbability, users: seq<User>, ch: Channels, now: int) returns (effects: Effects)
      requires Valid()
      modifies this
      ensures Valid()
      ensures Store(records, nextId) == Detect(old(Store(records, nextId)), p, OnCallGuard(users), now)
      ensures effects == DetectEffects(old(Store(records, nextId)), p, users, ch, now)
    {
      ghost var s := Store(records, nextId);
      DetectPreservesValid(s, p, OnCallGuard(users), now);
      var existing := FindFirst(records, r => IsActiveFor(r, p));
      if existing.Some? {
        var i := existing.value;
        if records[i].risk_level != p.risk_level {
          records := records[i := records[i].(risk_level := p.risk_level, probability := p.probability, updated_at := now)];
        }
        effects := NoEffects;
        return;
      }
      var dismissed := FindFirst(records, r => RecentlyDismissedFor(r, p, now));
      if dismissed.Some? {
        effects := NoEffects;
        return;
      }
      effects := NotifyGuard(p, users, ch, now);
    }

    /** `notifyGuard`: a guard record and the guard's messages, or a direct escalation. */
    method NotifyGuard(p: FailureProbability, users: seq<User>, ch: Channels, now: int) returns (effects: Effects)
      modifies this
      ensures records == old(records) + [NewRecord(old(nextId), p, OnCallGuard(users), now)]
      ensures nextId == old(nextId) + 1
      ensures OnCallGuard(users).Some? ==>
                effects == Effects([MapRiskToSeverity(p.risk_level)], GuardDispatches(OnCallGuard(users).value, ch))
      ensures OnCallGuard(users).None? ==> effects == Effects([SeverityCritical], EscalationDispatches(users, ch))
    {
      var guard := OnCallGuard(users);
      if guard.None? {
        records := records + [NewEscalatedRecord(nextId, p, now)];
        nextId := nextId + 1;
        effects := Effects([SeverityCritical], EscalationDispatches(users, ch));
        return;
      }
      var severity := MapRiskToSeverity(p.risk_level);
      records := records + [NewGuardRecord(nextId, p, guard.value, now)];
      nextId := nextId + 1;
      effects := Effects([severity], GuardDispatches(guard.value, ch));
    }

    /** `checkPendingGuardNotifications`: remind below 3 attempts, escalate from 3 on. */
    method CheckPendingGuardNotifications(users: seq<User>, ch: Channels, now: int) returns (effects: Effects)
      requires Valid()
      modifies this
      ensures Valid()
      ensures records == SweepRecords(old(records), now) && nextId == old(nextId)
      ensures effects == SweepEffects(old(records), users, ch, now)
    {
      SweepPreservesValid(records, nextId, now);
      var swept;
      swept, effects := SweepPending(records, users, ch, now);
      records := swept;
    }

    /** `cleanupOldNotifications`. */
    method CleanupOldNotifications(now: int)
      requires Valid()
      modifies this
      ensures Valid()
      ensures records == KeepFresh(old(records), now) && nextId == old(nextId)
    {
      KeepFreshPreservesValid(records, nextId, now);
      records := KeepFresh(records, now);
    }

    /**
     * `checkAndNotifyRisks`: predict over merchants and providers, run
     * detection over the medium, high and critical predictions in that
     * order, then clean up. The retry sweep runs on its own schedule.
     */
    method CheckAndNotifyRisks(txs: seq<Transaction>, names: NameTables, logistic: real -> real,
                               users: seq<User>, ch: Channels, now: int)
      returns (autoAlerts: seq<AutoAlert>, effects: Effects)
      requires Valid()
      modifies this
      ensures Valid()
      ensures var detected := DetectAll(old(Store(records, nextId)), RiskyPredictions(txs, names, logistic, now), OnCallGuard(users), now);
              records == KeepFresh(detected.records, now) && nextId == detected.nextId
      ensures effects == DetectAllEffects(old(Store(records, nextId)), RiskyPredictions(txs, names, logistic, now), users, ch, now)
      ensures autoAlerts == AutoAlerts(QueryView(txs, RiskQuery(MerchantEntity), names, logistic, now)) +
                            AutoAlerts(QueryView(txs, RiskQuery(ProviderEntity), names, logistic, now))
    {
      var merchants, merchantAlerts := GetPredictions(txs, RiskQuery(MerchantEntity), None, names, logistic, now);
      var providers, providerAlerts := GetPredictions(txs, RiskQuery(ProviderEntity), None, names, logistic, now);
      autoAlerts := merchantAlerts + providerAlerts;
      var risky := Filter(merchants.predictions + providers.predictions, NotLow);
      effects := ProcessEach(risky, users, ch, now);
      CleanupOldNotifications(now);
    }

    /** `for (const entity of riskyEntities) await this.processRiskyEntity(entity)`. */
    method ProcessEach(risky: seq<FailureProbability>, users: seq<User>, ch: Channels, now: int) returns (effects: Effects)
      requires Valid()
      modifies this
      ensures Valid()
      ensures Store(records, nextId) == DetectAll(old(Store(records, nextId)), risky, OnCallGuard(users), now)
      ensures effects == DetectAllEffects(old(Store(records, nextId)), risky, users, ch, now)
    {
      ghost var start := Store(records, nextId);
      effects := NoEffects;
      for i := 0 to |risky|
        invariant Valid()
        invariant Store(records, nextId) == DetectAll(start, risky[..i], OnCallGuard(users), now)
        invariant effects == DetectAllEffects(start, risky[..i], users, ch, now)
      {
        assert risky[..i + 1][..i] == risky[..i];
        var e := ProcessRiskyEntity(risky[i], users, ch, now);
        effects := Then(effects, e);
      }
      assert risky[..|risky|] == risky;
    }

    /** `dismissRiskNotification`. */
    method DismissRiskNotification(id: nat, userId: string, reason: string, now: int) returns (r: Result<RiskNotification>)
      requires Valid()
      modifies this
      ensures Valid() && nextId == old(nextId)
      ensures FindById(old(records), id).None? ==> r == Err(NotFound) && records == old(records)
      ensures FindById(old(records), id).Some? ==>
                var i := FindById(old(records), id).value;
                records == old(records)[i := DismissRecord(old(records)[i], userId, reason, now)] && r == Ok(records[i])
    {
      var found := FindById(records, id);
      if found.None? {
        return Err(NotFound);
      }
      var i := found.value;
      var updated := DismissRecord(records[i], userId, reason, now);
      PointwisePreservesValid(records, records[i := updated], nextId);
      records := records[i := updated];
      r := Ok(updated);
    }

    /** `propagateRiskNotification`: escalate by hand, whatever the attempt count. */
    method PropagateRiskNotification(id: nat, users: seq<User>, ch: Channels, now: int) returns (o: Outcome, effects: Effects)
      requires Valid()
      modifies this
      ensures Valid() && nextId == old(nextId)
      ensures FindById(old(records), id).None? ==> o == Failed(NotFound) && records == old(records) && effects == NoEffects
      ensures FindById(old(records), id).Some? ==>
                var i := FindById(old(records), id).value;
                o == Done && records == old(records)[i := EscalateRecord(old(records)[i], now)] &&
                effects == Effects([SeverityCritical], EscalationDispatches(users, ch))
    {
      var found := FindById(records, id);
      if found.None? {
        return Failed(NotFound), NoEffects;
      }
      var i := found.value;
      var updated := EscalateRecord(records[i], now);
      PointwisePreservesValid(records, records[i := updated], nextId);
      records := records[i := updated];
      o := Done;
      effects := Effects([SeverityCritical], EscalationDispatches(users, ch));
    }

    /** `markAsResolved`. */
    method MarkAsResolved(id: nat, now: int) returns (r: Result<RiskNotification>)
      requires Valid()
      modifies this
      ensures Valid() && nextId == old(nextId)
      ensures FindById(old(records), id).None? ==> r == Err(NotFound) && records == old(records)
      ensures FindById(old(records), id).Some? ==>
                var i := FindById(old(records), id).value;
                records == old(records)[i := ResolveRecord(old(records)[i], now)] && r == Ok(records[i])
    {
      var found := FindById(records, id);
      if found.None? {
        return Err(NotFound);
      }
      var i := found.value;
      var updated := ResolveRecord(records[i], now);
      PointwisePreservesValid(records, records[i := updated], nextId);
      records := records[i := updated];
      r := Ok(updated);
    }
  }

  /** `findOne({ where: { id } })`. */
  function FindById(rs: seq<RiskNotification>, id: nat): (r: Option<nat>)
    ensures r.Some? ==> r.value < |rs| && rs[r.value].id == id
    ensures r.None? ==> forall i :: 0 <= i < |rs| ==> rs[i].id != id
  {
    FindFirst(rs, (n: RiskNotification) => n.id == id)
  }

  /** `{ entity_type, time_window_minutes: 10800, include_low_risk: false }`. */
  function RiskQuery(kind: EntityType): (q: PredictionQuery)
    ensures EntityTypeOf(q) == kind && !q.include_low_risk
    ensures q.time_window_minutes == Some(10800)
    ensures q.merchant_id.None? && q.provider_id.None? && q.method_id.None? && q.country_code.None?
  {
    PredictionQuery(None, None, None, None, Some(10800), None, None, false, Some(kind))
  }

  /** The predictions the periodic check acts on: merchants, then providers, none of them low. */
  function RiskyPredictions(txs: seq<Transaction>, names: NameTables, logistic: real -> real, now: int): seq<FailureProbability>
  {
    Filter(QueryView(txs, RiskQuery(MerchantEntity), names, logistic, now) +
           QueryView(txs, RiskQuery(ProviderEntity), names, logistic, now), NotLow)
  }

  /** Every prediction the periodic check acts on is a medium, high or critical merchant or provider. */
  lemma RiskyPredictionsKinds(txs: seq<Transaction>, names: NameTables, logistic: real -> real, now: int)
    ensures forall i :: 0 <= i < |RiskyPredictions(txs, names, logistic, now)| ==>
              var p := RiskyPredictions(txs, names, logistic, now)[i];
              p.risk_level != LowRisk && (p.entity_type == MerchantEntity || p.entity_type == ProviderEntity)
  {
    var m := QueryView(txs, RiskQuery(MerchantEntity), names, logistic, now);
    var v := QueryView(txs, RiskQuery(ProviderEntity), names, logistic, now);
    QueryPredictions(txs, RiskQuery(MerchantEntity), DefaultConfig, names, logistic, now);
    QueryPredictions(txs, RiskQuery(ProviderEntity), DefaultConfig, names, logistic, now);
    forall x: FailureProbability | x in m + v
      ensures x.entity_type == MerchantEntity || x.entity_type == ProviderEntity
    {
      if x in m {
        var k :| 0 <= k < |m| && m[k] == x;
      } else {
        var k :| 0 <= k < |v| && v[k] == x;
      }
    }
    FilterMembers(m + v, NotLow);
  }

  /** Detection over a list of predictions, one after the other. */
  function DetectAll(s: Store, ps: seq<FailureProbability>, guard: Option<User>, now: int): Store
    decreases |ps|
  {
    if |ps| == 0 then s
    else Detect(DetectAll(s, ps[..|ps| - 1], guard, now), ps[|ps| - 1], guard, now)
  }

  /** The alerts and messages of detection over a list of predictions. */
  function DetectAllEffects(s: Store, ps: seq<FailureProbability>, users: seq<User>, ch: Channels, now: int): Effects
    decreases |ps|
  {
    if |ps| == 0 then NoEffects
    else
      var init := ps[..|ps| - 1];
      Then(DetectAllEffects(s, init, users, ch, now), DetectEffects(DetectAll(s, init, OnCallGuard(users), now), ps[|ps| - 1], users, ch, now))
  }

  /** Detection never deletes or reorders records: the old store is a prefix of the new one. */
  lemma {:induction false} DetectAllExtends(s: Store, ps: seq<FailureProbability>, guard: Option<User>, now: int)
    ensures var t := DetectAll(s, ps, guard, now);
            |s.records| <= |t.records| <= |s.records| + |ps| && s.nextId <= t.nextId <= s.nextId + |ps| &&
            forall i :: 0 <= i < |s.records| ==> t.records[i].id == s.records[i].id && SameEntity(t.records[i], s.records[i])
    decreases |ps|
  {
    if |ps| > 0 {
      DetectAllExtends(s, ps[..|ps| - 1], guard, now);
    }
  }
}

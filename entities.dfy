/** Record shapes shared by the services (the ORM entities and the common enums). */
module Entities {
  import opened Wrappers

  /** `TxStatus`; a stored status outside the enum is kept as `OtherStatus`. */
  datatype TxStatus = Approved | Declined | ErrorStatus | Timeout | OtherStatus(raw: string)

  /** A payment transaction; `date` is in milliseconds, `latency_ms` is nullable. */
  datatype Transaction = Transaction(
    id: string,
    date: int,
    merchant_id: string,
    provider_id: string,
    method_id: string,
    country_code: string,
    status: TxStatus,
    latency_ms: Option<int>)

  /** `UserType`; the column is free text, so other values are possible. */
  datatype UserType = Yuno | MerchantUser | OtherType(raw: string)

  datatype User = User(id: string, email: string, number: string, name: string, utype: UserType, active: bool)

  datatype AlertSeverity = SeverityInfo | SeverityWarning | SeverityCritical

  datatype AlertStatus = StateOpen | StateAck | StateResolved

  /** `CreateAlertDto`: what a caller hands to the alert service. */
  datatype CreateAlertDto = CreateAlertDto(
    metric_id: Option<string>,
    severity: AlertSeverity,
    state: Option<AlertStatus>,
    title: string,
    explanation: Option<string>,
    merchant_id: Option<string>)

  /** The alert summary a notification row stores as JSON. */
  datatype AlertPayload = AlertPayload(severity: AlertSeverity, title: string, explanation: Option<string>)
}

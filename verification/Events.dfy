/** The channel events and source alerts that every component reads.
    Ids are UUIDs, as numbers; times are integers, in microseconds. */
module Events {
  import opened Common
  import opened Sorting

  datatype FraudEvent = FraudEvent(
    eventId: nat,
    channel: string,
    customerId: string,
    accountId: string,
    timestamp: int,
    amountMinorUnits: int,
    deviceId: Option<string>,
    ipAddress: Option<string>,
    counterparty: Option<string>)

  datatype SourceAlert = SourceAlert(
    sourceAlertId: nat,
    sourceSystem: string,
    eventId: nat,
    createdAt: int)

  function EventKey(e: FraudEvent): Key { Key(0.0, e.timestamp, e.eventId) }

  function AlertKey(a: SourceAlert): Key { Key(0.0, a.createdAt, a.sourceAlertId) }

  /** The event id is a primary key: one id never names two different rows. */
  ghost predicate EventIdsIdentify(events: seq<FraudEvent>) {
    forall e, f | e in events && f in events && e.eventId == f.eventId :: e == f
  }

  ghost predicate AlertIdsIdentify(alerts: seq<SourceAlert>) {
    forall a, b | a in alerts && b in alerts && a.sourceAlertId == b.sourceAlertId :: a == b
  }
}

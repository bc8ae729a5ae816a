/** The device fleet page (internal/hub/device_fleet.go): its filters, its summary and the
    label of a device. Times are seconds. */
module Fleet {
  import opened Options

  datatype Device = Device(revoked: bool, current: bool, continuous: bool, lastSeen: Option<int>, partial: bool, failed: bool)

  datatype Status = Reporting | StaleOffline | NeverScanned | PartialScan | FailedScan | RevokedDevice

  const HOUR := 3600

  /** The condition that the query adds for a status. */
  predicate Selects(status: Status, d: Device, now: int) {
    match status
    case Reporting => !d.revoked && d.current && d.continuous && d.lastSeen.Some? && d.lastSeen.value >= now - HOUR
    case StaleOffline => !d.revoked && d.lastSeen.Some? && (!d.current || !d.continuous || d.lastSeen.value < now - HOUR)
    case NeverScanned => !d.revoked && d.lastSeen.None?
    case PartialScan => d.partial
    case FailedScan => d.failed
    case RevokedDevice => d.revoked
  }

  /** deviceLifecycle. */
  function Label(d: Device, now: int): Status {
    if d.revoked then RevokedDevice
    else if d.lastSeen.None? then NeverScanned
    else if d.failed then FailedScan
    else if d.partial then PartialScan
    else if !d.current || !d.continuous || now - d.lastSeen.value > HOUR then StaleOffline
    else Reporting
  }

  function Chosen(fleet: map<string, Device>, status: Status, now: int): set<string> {
    set id | id in fleet && Selects(status, fleet[id], now)
  }

  /** Every device is in exactly one of four lists, so their counts add up to the fleet. */
  lemma SummaryAddsUp(fleet: map<string, Device>, now: int)
    ensures |fleet| == |Chosen(fleet, Reporting, now)| + |Chosen(fleet, StaleOffline, now)|
                       + |Chosen(fleet, NeverScanned, now)| + |Chosen(fleet, RevokedDevice, now)|
  {
    var a, b := Chosen(fleet, Reporting, now), Chosen(fleet, StaleOffline, now);
    var c, d := Chosen(fleet, NeverScanned, now), Chosen(fleet, RevokedDevice, now);
    assert fleet.Keys == a + b + c + d;
    assert a !! b && a + b !! c && a + b + c !! d;
  }

  /** The label agrees with the list of that status, except that a scanned device whose
      last scan failed or was partial shows that instead. */
  lemma LabelIff(d: Device, now: int, status: Status)
    ensures Label(d, now) == status <==>
              && Selects(status, d, now)
              && (status != RevokedDevice ==> !d.revoked)
              && (status != RevokedDevice && status != NeverScanned ==> d.lastSeen.Some?)
              && (status == PartialScan || status == Reporting || status == StaleOffline ==> !d.failed)
              && (status == Reporting || status == StaleOffline ==> !d.partial)
  {
  }
}

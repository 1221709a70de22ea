/** `submitMaintenance(data, isOnline)` of
    frontend/src/pages/driver/driverApi.js: online, the report is posted;
    offline, it is appended to the `pendingMaint` queue in browser storage. */
module DriverApi {
  import opened Common

  /** The JSON values a report's fields hold. */
  datatype Json = JNull | JBool(b: bool) | JNum(n: int) | JStr(s: string)

  /** A report: an object from field names to values. */
  type Report = map<string, Json>

  /** What `pendingMaint` holds: nothing (or an empty text), a text that is
      not a JSON array, or an array of queued reports. */
  datatype StoredQueue = Absent | Unparsable | Queue(entries: seq<Report>)

  /** What `fetch` produced online. */
  datatype PostOutcome = FetchRejected(message: string) | Response(ok: bool, body: Json)

  /** The promise's outcome. */
  datatype SubmitResult = SavedOffline | Posted(body: Json) | Rejected(message: string)

  /** `{ ...data, ts: Date.now() }`. */
  function Stamped(data: Report, now: int): (r: Report)
    ensures r.Keys == data.Keys + {"ts"}
    ensures r["ts"] == JNum(now)
    ensures forall k :: k in data && k != "ts" ==> r[k] == data[k]
  {
    data["ts" := JNum(now)]
  }

  /** The queue the offline branch reads: a missing value is empty. */
  function PendingQueue(stored: StoredQueue): (r: Option<seq<Report>>)
    ensures stored.Absent? ==> r == Some([])
    ensures stored.Unparsable? ==> r.None?
    ensures stored.Queue? ==> r == Some(stored.entries)
  {
    match stored
    case Absent => Some([])
    case Unparsable => None
    case Queue(es) => Some(es)
  }

  /** Browser storage, as far as this function uses it. */
  class DeviceStorage {
    var pendingMaint: StoredQueue

    constructor (initial: StoredQueue)
      ensures pendingMaint == initial
    {
      pendingMaint := initial;
    }
  }

  /** `submitMaintenance`. `online` is what `fetch` gives when it is called;
      offline it is never consulted. */
  method SubmitMaintenance(storage: DeviceStorage, data: Report, isOnline: bool, online: PostOutcome, now: int)
    returns (r: SubmitResult)
    modifies storage
    // online: no storage change; a non-ok response rejects
    ensures isOnline ==> storage.pendingMaint == old(storage.pendingMaint)
    ensures isOnline && online.FetchRejected? ==> r == Rejected(online.message)
    ensures isOnline && online.Response? && !online.ok ==> r == Rejected("Network error")
    ensures isOnline && online.Response? && online.ok ==> r == Posted(online.body)
    // offline: the stamped report is appended and the queue written back
    ensures !isOnline && PendingQueue(old(storage.pendingMaint)).Some? ==>
              && r == SavedOffline
              && storage.pendingMaint == Queue(PendingQueue(old(storage.pendingMaint)).value + [Stamped(data, now)])
    // offline with a stored text that is not an array: `JSON.parse` or `push` throws
    ensures !isOnline && PendingQueue(old(storage.pendingMaint)).None? ==>
              r.Rejected? && storage.pendingMaint == old(storage.pendingMaint)
  {
    if isOnline {
      match online {
        case FetchRejected(m) => return Rejected(m);
        case Response(ok, body) =>
          if !ok {
            return Rejected("Network error");
          }
          return Posted(body);
      }
    }
    var pending := PendingQueue(storage.pendingMaint);
    if pending.None? {
      return Rejected("SyntaxError");
    }
    var queue := pending.value + [Stamped(data, now)];
    storage.pendingMaint := Queue(queue);
    return SavedOffline;
  }

  /** Offline, the queue grows by one, keeps its earlier entries in order and
      ends with the stamped report. */
  method OfflineAppends(storage: DeviceStorage, data: Report, online: PostOutcome, now: int)
    returns (r: SubmitResult)
    requires storage.pendingMaint.Queue?
    modifies storage
    ensures r == SavedOffline && storage.pendingMaint.Queue?
    ensures |storage.pendingMaint.entries| == |old(storage.pendingMaint.entries)| + 1
    ensures storage.pendingMaint.entries[..|old(storage.pendingMaint.entries)|] == old(storage.pendingMaint.entries)
    ensures storage.pendingMaint.entries[|storage.pendingMaint.entries| - 1] == Stamped(data, now)
  {
    r := SubmitMaintenance(storage, data, false, online, now);
  }
}

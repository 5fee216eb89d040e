/**
 * `log_service_request` and the part of `submit_service` that uses it: the
 * log is an append-only sequence of entries, each stamped with `isoformat()`
 * of the clock at the time of logging. A failed write is reported on the
 * console and otherwise ignored, so the log then simply does not grow.
 */
module RequestLog {
  import opened Optional
  import opened Text
  import opened Timestamps
  import opened Priorities
  import opened Submission

  /** One line of the log, before it is serialised as JSON. */
  datatype LogEntry = LogEntry(timestamp: string, equipmentId: Option<string>,
                               serviceType: string, payload: CrmPayload)

  /** A timestamp laid out as `YYYY-MM-DDTHH:MM:SS`, optionally followed by `.ffffff`. */
  predicate IsoShaped(s: string) {
    && (|s| == 19 || |s| == 26)
    && s[4] == '-' && s[7] == '-' && s[10] == 'T' && s[13] == ':' && s[16] == ':'
    && AllDigits(s[0..4]) && AllDigits(s[5..7]) && AllDigits(s[8..10])
    && AllDigits(s[11..13]) && AllDigits(s[14..16]) && AllDigits(s[17..19])
    && (|s| == 26 ==> s[19] == '.' && AllDigits(s[20..26]))
  }

  /** Every `isoformat()` text has that layout. */
  lemma IsoFormatShaped(now: Clock)
    requires now.Valid()
    ensures IsoShaped(IsoFormat(now))
  {
    IsoFormatFields(now);
    if now.microsecond != 0 {
      IsoFormatMicroseconds(now);
    }
  }

  /** An entry written by `submit_service`: its payload was built from its own equipment id and type. */
  predicate FromSubmission(e: LogEntry) {
    && e.payload.equipmentId == e.equipmentId
    && e.payload.serviceType == Upper(e.serviceType)
    && e.payload.priority == ServicePriority(e.serviceType).Name()
    && e.payload.status == Requested
  }

  /** The append-only log file `service_requests.log`. */
  class ServiceLog {
    var entries: seq<LogEntry>

    /** Every entry carries an ISO timestamp. */
    ghost predicate Valid()
      reads this
    {
      forall i :: 0 <= i < |entries| ==> IsoShaped(entries[i].timestamp)
    }

    /** Every entry came from a submission. */
    ghost predicate AllFromSubmission()
      reads this
    {
      forall i :: 0 <= i < |entries| ==> FromSubmission(entries[i])
    }

    /** A log with nothing in it yet. */
    constructor()
      ensures entries == [] && Valid() && AllFromSubmission()
    {
      entries := [];
    }

    /**
     * `log_service_request(equipment_id, service_type, payload)` with the clock
     * read at `now`; `written` is whether opening and appending to the file
     * succeeded. Exactly one entry is appended when it did, none when it did not.
     */
    method LogServiceRequest(equipmentId: Option<string>, serviceType: string,
                             payload: CrmPayload, now: Clock, written: bool)
      requires now.Valid() && Valid()
      modifies this
      ensures Valid()
      ensures written ==> entries == old(entries) + [LogEntry(IsoFormat(now), equipmentId, serviceType, payload)]
      ensures !written ==> entries == old(entries)
    {
      if written {
        IsoFormatShaped(now);
        entries := entries + [LogEntry(IsoFormat(now), equipmentId, serviceType, payload)];
      }
    }
  }

  /**
   * `submit_service` on a log: `now` is the clock reading for the request id,
   * `logNow` the later one for the log entry, `written` whether the file
   * write succeeded. The reply is the pure handler's; a failed submission
   * leaves the log alone, a successful one appends exactly its own entry.
   */
  method SubmitService(log: ServiceLog, body: Option<Body>, now: Clock, logNow: Clock, written: bool)
    returns (reply: Reply, status: int)
    requires now.Valid() && logNow.Valid() && log.Valid()
    modifies log
    ensures log.Valid()
    ensures reply == Submit(body, now).reply && status == StatusCode(reply)
    ensures Submit(body, now).Failed? ==> log.entries == old(log.entries)
    ensures Submit(body, now).Submitted? && written ==> log.entries == old(log.entries) + [EntryOf(body, now, logNow)]
    ensures Submit(body, now).Submitted? && !written ==> log.entries == old(log.entries)
    ensures old(log.AllFromSubmission()) ==> log.AllFromSubmission()
  {
    var outcome := Submit(body, now);
    if outcome.Submitted? {
      var payload := outcome.payload;
      var serviceType := body.value.serviceType.text;
      var entry := EntryOf(body, now, logNow);
      ghost var before := log.entries;
      log.LogServiceRequest(payload.equipmentId, serviceType, payload, logNow, written);
      AppendFromSubmission(before, log.entries, entry);
    }
    reply := outcome.reply;
    status := StatusCode(reply);
  }

  /**
   * `log_entry` of a successful submission, stamped with the later clock
   * reading: an ISO timestamp, and a payload that agrees with the entry's
   * own equipment id and service type.
   */
  function EntryOf(body: Option<Body>, now: Clock, logNow: Clock): (e: LogEntry)
    requires now.Valid() && logNow.Valid() && Submit(body, now).Submitted?
    ensures e.timestamp == IsoFormat(logNow) && IsoShaped(e.timestamp)
    ensures e.equipmentId == Get(body.value.equipmentId) && e.serviceType == body.value.serviceType.text
    ensures e.payload == Submit(body, now).payload && FromSubmission(e)
  {
    IsoFormatShaped(logNow);
    var payload := Submit(body, now).payload;
    LogEntry(IsoFormat(logNow), payload.equipmentId, body.value.serviceType.text, payload)
  }

  /** Appending an entry from a submission, or nothing, keeps every entry one. */
  lemma AppendFromSubmission(before: seq<LogEntry>, after: seq<LogEntry>, entry: LogEntry)
    requires FromSubmission(entry)
    requires after == before || after == before + [entry]
    ensures (forall i :: 0 <= i < |before| ==> FromSubmission(before[i])) ==>
            (forall i :: 0 <= i < |after| ==> FromSubmission(after[i]))
  {
  }
}

/**
 * `submit_service`: a scanned page posts a JSON body; the handler builds the
 * payload meant for the CRM (upper-cased service type, priority, status,
 * metadata with a request id stamped to the second) and answers with a JSON
 * reply. Anything that goes wrong on the way is caught and answered with the
 * exception's text and status 500.
 */
module Submission {
  import opened Optional
  import opened Text
  import opened Timestamps
  import opened Priorities

  /** One member of the posted JSON object: missing, `null`, or a string. */
  datatype JsonField = Absent | Null | Str(text: string)

  /** `data.get(key)`: a missing member and `null` both read as None. */
  function Get(f: JsonField): (r: Option<string>)
    ensures r.Some? <==> f.Str?
    ensures f.Str? ==> r.value == f.text
  {
    if f.Str? then Some(f.text) else None
  }

  /** `data.get(key, default)`: only a missing member takes the default; `null` stays None. */
  function GetOr(f: JsonField, default: string): (r: Option<string>)
    ensures f.Absent? ==> r == Some(default)
    ensures f.Null? ==> r == None
    ensures f.Str? ==> r == Some(f.text)
  {
    match f
    case Absent => Some(default)
    case Null => None
    case Str(s) => Some(s)
  }

  /** The members of the posted object the handler reads. */
  datatype Body = Body(equipmentId: JsonField, serviceType: JsonField, timestamp: JsonField,
                       userAgent: JsonField, location: JsonField)

  datatype Metadata = Metadata(source: string, location: Option<string>, requestId: string)

  /** The record meant for the CRM; `priority` is the classification's text. */
  datatype CrmPayload = CrmPayload(equipmentId: Option<string>, serviceType: string,
                                   timestamp: Option<string>, userAgent: Option<string>,
                                   status: string, priority: string, metadata: Metadata)

  /** The JSON the handler answers with. */
  datatype Reply =
    | Accepted(message: string, equipmentId: Option<string>, serviceType: string, requestId: string)
    | Rejected(error: string)

  /** `success: true` answers with 200, the caught exception with 500. */
  function StatusCode(reply: Reply): (code: int)
    ensures code == 200 <==> reply.Accepted?
    ensures code == 500 <==> reply.Rejected?
  {
    if reply.Accepted? then 200 else 500
  }

  /** What the handler produced: the payload it built and its reply, or only the error reply. */
  datatype Outcome =
    | Submitted(payload: CrmPayload, reply: Reply)
    | Failed(reply: Reply)

  const Requested := "REQUESTED"
  const QrScan := "QR_SCAN"
  /** The exception text when the body is JSON `null`. */
  const NoBodyError := "'NoneType' object has no attribute 'get'"
  /** The exception text when `service_type` is missing or `null`. */
  const NoServiceTypeError := "'NoneType' object has no attribute 'upper'"

  /** How an f-string renders an optional text: a missing one is the word `None`. */
  function Show(v: Option<string>): (r: string)
    ensures v.Some? ==> r == v.value
    ensures v.None? ==> r == "None"
  {
    if v.Some? then v.value else "None"
  }

  /** `{equipment_id}_{service_type}_{YYYYMMDD_HHMMSS}`. */
  function RequestId(equipmentId: Option<string>, serviceType: string, now: Clock): (id: string)
    requires now.Valid()
    ensures |id| == |Show(equipmentId)| + |serviceType| + 17
    ensures id[..|Show(equipmentId)|] == Show(equipmentId)
    ensures id[|Show(equipmentId)|] == '_'
    ensures id[|Show(equipmentId)| + 1..|id| - 16] == serviceType
    ensures id[|id| - 16] == '_'
    ensures id[|id| - 15..] == Strftime(now)
  {
    Show(equipmentId) + "_" + serviceType + "_" + Strftime(now)
  }

  /** The handler, from the parsed body (None for a JSON `null`) and the clock reading the request id is stamped with. */
  function Submit(body: Option<Body>, now: Clock): (r: Outcome)
    requires now.Valid()
    ensures r.Failed? <==> body.None? || !body.value.serviceType.Str?
    ensures body.None? ==> r == Failed(Rejected(NoBodyError))
    ensures body.Some? && !body.value.serviceType.Str? ==> r == Failed(Rejected(NoServiceTypeError))
    ensures r.Submitted? ==>
      var b, st := body.value, body.value.serviceType.text;
      && r.payload.equipmentId == Get(b.equipmentId)
      && r.payload.serviceType == Upper(st)
      && r.payload.timestamp == Get(b.timestamp)
      && r.payload.userAgent == Get(b.userAgent)
      && r.payload.status == Requested
      && r.payload.priority == ServicePriority(st).Name()
      && r.payload.metadata == Metadata(QrScan, GetOr(b.location, ""), RequestId(Get(b.equipmentId), st, now))
      && r.reply == Accepted(Upper(st) + " request submitted successfully", Get(b.equipmentId), st,
                             r.payload.metadata.requestId)
  {
    match body
    case None => Failed(Rejected(NoBodyError))
    case Some(b) =>
      match b.serviceType
      case Str(st) =>
        var equipmentId := Get(b.equipmentId);
        var payload := CrmPayload(equipmentId, Upper(st), Get(b.timestamp), Get(b.userAgent),
                                  Requested, ServicePriority(st).Name(),
                                  Metadata(QrScan, GetOr(b.location, ""), RequestId(equipmentId, st, now)));
        Submitted(payload, Accepted(Upper(st) + " request submitted successfully", equipmentId, st,
                                    payload.metadata.requestId))
      case _ => Failed(Rejected(NoServiceTypeError))
  }

  /** The priority the payload carries is the one its own, upper-cased, service type classifies as. */
  lemma PayloadPriorityAgrees(body: Option<Body>, now: Clock)
    requires now.Valid()
    ensures var r := Submit(body, now);
      r.Submitted? ==> r.payload.priority == ServicePriority(r.payload.serviceType).Name()
  {
    if Submit(body, now).Submitted? {
      PriorityOfUpper(body.value.serviceType.text);
    }
  }

  /** The reply agrees with the payload: same equipment id, same request id, the payload's type in the message. */
  lemma ReplyMatchesPayload(body: Option<Body>, now: Clock)
    requires now.Valid()
    ensures var r := Submit(body, now);
      r.Submitted? ==>
        && StatusCode(r.reply) == 200
        && r.reply.equipmentId == r.payload.equipmentId
        && r.reply.requestId == r.payload.metadata.requestId
        && r.reply.message[..|r.payload.serviceType|] == r.payload.serviceType
        && Upper(r.reply.serviceType) == r.payload.serviceType
  {
  }

  /** A body without `equipment_id` is not rejected: its request id begins with `None_`. */
  lemma MissingEquipmentIdAccepted(b: Body, now: Clock)
    requires now.Valid() && b.serviceType.Str? && !b.equipmentId.Str?
    ensures var r := Submit(Some(b), now);
      && r.Submitted? && r.reply.Accepted?
      && r.payload.equipmentId == None
      && r.reply.requestId[..5] == "None_"
  {
    var id := RequestId(None, b.serviceType.text, now);
    assert id == "None" + "_" + b.serviceType.text + "_" + Strftime(now);
  }

  /** Two submissions of the same body get the same request id exactly when the clock read the same second. */
  lemma RequestIdSecondResolution(body: Option<Body>, a: Clock, b: Clock)
    requires a.Valid() && b.Valid()
    ensures Submit(body, a).Submitted? ==>
      (Submit(body, a) == Submit(body, b) <==> SameSecond(a, b))
  {
    if Submit(body, a).Submitted? {
      var eid, st := Get(body.value.equipmentId), body.value.serviceType.text;
      StrftimeSecondResolution(a, b);
      RequestIdStamp(eid, st, a, b);
    }
  }

  /** With the same equipment id and type, request ids are equal exactly when the stamps are. */
  lemma RequestIdStamp(eid: Option<string>, st: string, a: Clock, b: Clock)
    requires a.Valid() && b.Valid()
    ensures RequestId(eid, st, a) == RequestId(eid, st, b) <==> Strftime(a) == Strftime(b)
  {
    var ia, ib := RequestId(eid, st, a), RequestId(eid, st, b);
    if ia == ib {
      assert ia[|ia| - 15..] == ib[|ib| - 15..];
    }
  }

  /** The date and the time of day the stamp is made of. */
  lemma StampParts(now: Clock)
    requires now.Valid()
    ensures var date := Pad(now.year, 4) + Pad(now.month, 2) + Pad(now.day, 2);
            var time := Pad(now.hour, 2) + Pad(now.minute, 2) + Pad(now.second, 2);
      && Strftime(now) == date + "_" + time
      && AllDigits(date) && AllDigits(time)
  {
  }

  /**
   * Cutting a request id at `_` gives back the equipment id, the service type,
   * the date and the time, provided neither text of the client holds a `_`.
   */
  lemma RequestIdSplits(eid: Option<string>, st: string, now: Clock)
    requires now.Valid() && '_' !in Show(eid) && '_' !in st
    ensures var parts := Split(RequestId(eid, st, now), '_');
      && |parts| == 4 && parts[0] == Show(eid) && parts[1] == st
      && |parts[2]| == 8 && AllDigits(parts[2]) && |parts[3]| == 6 && AllDigits(parts[3])
  {
    var date, time := RequestIdPieces(eid, st, now);
    SplitFour(Show(eid), st, date, time);
  }

  /** The request id written out as its four `_`-separated pieces. */
  lemma RequestIdPieces(eid: Option<string>, st: string, now: Clock) returns (date: string, time: string)
    requires now.Valid()
    ensures RequestId(eid, st, now) == Show(eid) + "_" + st + "_" + date + "_" + time
    ensures |date| == 8 && AllDigits(date) && '_' !in date
    ensures |time| == 6 && AllDigits(time) && '_' !in time
  {
    date, time := StampPieces(now);
    var front := Show(eid) + "_" + st + "_";
    assert front + (date + "_" + time) == Show(eid) + "_" + st + "_" + date + "_" + time;
  }

  /** The date and the time of the stamp, as the eight and six digits on either side of its `_`. */
  lemma StampPieces(now: Clock) returns (date: string, time: string)
    requires now.Valid()
    ensures Strftime(now) == date + "_" + time
    ensures |date| == 8 && AllDigits(date) && '_' !in date
    ensures |time| == 6 && AllDigits(time) && '_' !in time
  {
    StampParts(now);
    date := Pad(now.year, 4) + Pad(now.month, 2) + Pad(now.day, 2);
    time := Pad(now.hour, 2) + Pad(now.minute, 2) + Pad(now.second, 2);
    DigitsHaveNoSeparator(date, '_');
    DigitsHaveNoSeparator(time, '_');
  }

  /** Four texts free of `_`, joined with `_`, split back into the same four. */
  lemma SplitFour(a: string, b: string, c: string, d: string)
    requires '_' !in a && '_' !in b && '_' !in c && '_' !in d
    ensures Split(a + "_" + b + "_" + c + "_" + d, '_') == [a, b, c, d]
  {
    var parts := [a, b, c, d];
    assert Join(parts, '_') == a + "_" + b + "_" + c + "_" + d by {
      JoinFour(a, b, c, d, '_');
    }
    SplitJoin(parts, '_');
  }

  /** A repair request for EQP-001: accepted, classified high, announced in capitals. */
  lemma RepairRequestAccepted(now: Clock)
    requires now.Valid()
    ensures var r := Submit(Some(Body(Str("EQP-001"), Str("repair"), Str("2024-01-01T00:00:00Z"), Absent, Absent)), now);
      && r.Submitted?
      && r.payload.priority == "HIGH"
      && r.payload.serviceType == "REPAIR"
      && r.reply.message == "REPAIR" + " request submitted successfully"
  {
    PriorityTable();
    UpperRepair();
  }

  /** The service type as the payload carries it. */
  lemma UpperRepair()
    ensures Upper("repair") == "REPAIR"
  {
  }
}

/** The Cal.com side of the function-calling client: the HTTP request each
    tool sends (method, URL, query or JSON body, headers, timeout), the
    booking payload, and how the response body becomes the text handed back.
    The request itself is not sent here; its outcome is an input. */
module CalCom {
  import opened Types
  import opened JsonValues
  import Phone

  datatype Verb = HttpGet | HttpPost

  datatype HttpRequest = HttpRequest(
    verb: Verb,
    url: string,
    params: map<string, Json>,   // query parameters of a GET
    body: Option<Json>,          // JSON body of a POST
    headers: map<string, string>,
    timeout: nat)

  const SlotsUrl := "https://api.cal.com/v2/slots/available"
  const BookingsUrl := "https://api.cal.com/v2/bookings"
  const ApiVersion := "2024-08-13"
  const TimeoutSeconds := 20
  /** The value `user_phone` holds until the transport learns the caller's number. */
  const NoPhone := "Nicht verfügbar"
  const OperatorEmail := "anfrage@kiempfang.de"

  /** `self.user_phone and self.user_phone != "Nicht verfügbar"`. */
  predicate PhoneKnown(userPhone: string) {
    userPhone != "" && userPhone != NoPhone
  }

  /** `_headers`: bearer credential and the pinned API version. */
  function Headers(apiKey: string): (h: map<string, string>)
    ensures h.Keys == {"Authorization", "cal-api-version"}
    ensures h["Authorization"] == "Bearer " + apiKey && h["cal-api-version"] == ApiVersion
  {
    map["Authorization" := "Bearer " + apiKey, "cal-api-version" := ApiVersion]
  }

  function GetRequest(url: string, params: map<string, Json>, apiKey: string): HttpRequest {
    HttpRequest(HttpGet, url, params, None, Headers(apiKey), TimeoutSeconds)
  }

  function PostRequest(url: string, payload: map<string, Json>, apiKey: string): HttpRequest {
    HttpRequest(HttpPost, url, map[], Some(JObj(payload)), Headers(apiKey), TimeoutSeconds)
  }

  /** `_check_availability`: a GET of the free slots between two instants. */
  function CheckAvailabilityRequest(eventTypeId: Json, start: Json, end: Json, apiKey: string): (r: HttpRequest)
    ensures r.verb == HttpGet && r.url == SlotsUrl && r.body == None
    ensures r.params == map["eventTypeId" := eventTypeId, "startTime" := start, "endTime" := end]
  {
    GetRequest(SlotsUrl, map["eventTypeId" := eventTypeId, "startTime" := start, "endTime" := end], apiKey)
  }

  // ---- booking payload (_book) -------------------------------------------

  /** The attendee after the phone fallback: a falsy `phoneNumber` is
      replaced by the remembered caller phone when one is known. */
  function WithPhoneFallback(attendee: map<string, Json>, userPhone: string): (a: map<string, Json>)
    ensures forall k :: k in attendee && k != "phoneNumber" ==> k in a && a[k] == attendee[k]
    ensures a.Keys <= attendee.Keys + {"phoneNumber"}
    ensures Truthy(Get(attendee, "phoneNumber")) || !PhoneKnown(userPhone) ==> a == attendee
    ensures !Truthy(Get(attendee, "phoneNumber")) && PhoneKnown(userPhone) ==> "phoneNumber" in a && a["phoneNumber"] == JStr(userPhone)
  {
    if !Truthy(Get(attendee, "phoneNumber")) && PhoneKnown(userPhone)
    then attendee["phoneNumber" := JStr(userPhone)]
    else attendee
  }

  /** The attendee after the email default: a falsy `email` becomes the
      operator's address, a present one is kept. */
  function WithDefaultEmail(attendee: map<string, Json>): (a: map<string, Json>)
    ensures forall k :: k in attendee && k != "email" ==> k in a && a[k] == attendee[k]
    ensures a.Keys == attendee.Keys + {"email"} || a == attendee
    ensures Truthy(Get(attendee, "email")) ==> a == attendee
    ensures !Truthy(Get(attendee, "email")) ==> "email" in a && a["email"] == JStr(OperatorEmail)
  {
    if !Truthy(Get(attendee, "email")) then attendee["email" := JStr(OperatorEmail)] else attendee
  }

  /** `_normalize_phone` applied to whatever JSON value the phone is: a falsy
      value comes back as it is, a string is normalised, anything else has
      no `strip`. */
  function NormalizedPhone(phone: Json): (r: Result<Json, Error>)
    ensures !Truthy(phone) ==> r == Success(phone)
    ensures phone.JStr? && phone.s != "" ==>
              r.Success? && r.value.JStr? && Phone.StartsWith(r.value.s, Phone.CountryPrefix)
              && Some(r.value.s) == Phone.Normalize(Some(phone.s))
    ensures Truthy(phone) && !phone.JStr? ==> r == Failure(NoAttribute(phone, "strip"))
  {
    if !Truthy(phone) then Success(phone)
    else if phone.JStr? then Success(JStr(Phone.Normalize(Some(phone.s)).value))
    else Failure(NoAttribute(phone, "strip"))
  }

  /** The `phone` local of `_book`: the attendee's number, or the remembered one. */
  function CallerPhone(attendee: map<string, Json>, userPhone: string): Json {
    Get(WithPhoneFallback(attendee, userPhone), "phoneNumber")
  }

  /** The JSON body `_book` posts. The attendee keeps its raw number (filled
      from the remembered phone when missing) and gains the operator email
      only when it has none; the normalised number goes to `metadata.phone`. */
  function BookPayload(eventTypeId: Json, start: Json, attendee: map<string, Json>, userPhone: string)
    : (r: Result<map<string, Json>, Error>)
    ensures r.Success? <==> !Truthy(CallerPhone(attendee, userPhone)) || CallerPhone(attendee, userPhone).JStr?
    ensures r.Success? ==>
      && r.value.Keys == {"eventTypeId", "start", "attendee", "metadata"}
      && r.value["eventTypeId"] == eventTypeId
      && r.value["start"] == start
      && r.value["attendee"] == JObj(WithDefaultEmail(WithPhoneFallback(attendee, userPhone)))
      && r.value["metadata"] == JObj(map["phone" := NormalizedPhone(CallerPhone(attendee, userPhone)).value])
  {
    var withPhone := WithPhoneFallback(attendee, userPhone);
    var normPhone :- NormalizedPhone(Get(withPhone, "phoneNumber"));
    var withEmail := WithDefaultEmail(withPhone);
    Success(map[
      "eventTypeId" := eventTypeId,
      "start" := start,
      "attendee" := JObj(withEmail),
      "metadata" := JObj(map["phone" := normPhone])])
  }

  /** What the booking promises about the attendee sent: every field other
      than the phone and email is the model's; a phone or email the model
      gave is kept raw; a missing phone is the remembered one; a missing
      email is the operator's; the metadata phone is the normalised number. */
  lemma BookPayloadAttendee(eventTypeId: Json, start: Json, attendee: map<string, Json>, userPhone: string)
    requires BookPayload(eventTypeId, start, attendee, userPhone).Success?
    ensures var sent := BookPayload(eventTypeId, start, attendee, userPhone).value["attendee"].fields;
      && (forall k :: k in attendee && k != "phoneNumber" && k != "email" ==> k in sent && sent[k] == attendee[k])
      && (Truthy(Get(attendee, "phoneNumber")) ==> sent["phoneNumber"] == attendee["phoneNumber"])
      && (!Truthy(Get(attendee, "phoneNumber")) && PhoneKnown(userPhone) ==> sent["phoneNumber"] == JStr(userPhone))
      && (Truthy(Get(attendee, "email")) ==> sent["email"] == attendee["email"])
      && (!Truthy(Get(attendee, "email")) ==> sent["email"] == JStr(OperatorEmail))
  {
    var withPhone := WithPhoneFallback(attendee, userPhone);
    assert Truthy(Get(attendee, "email")) ==> Get(withPhone, "email") == Get(attendee, "email");
    assert !Truthy(Get(attendee, "email")) ==> !Truthy(Get(withPhone, "email"));
  }

  // ---- the other tools ---------------------------------------------------

  /** `_reschedule`: a POST to the booking's reschedule endpoint. */
  function RescheduleRequest(uid: Json, start: Json, reason: Json, apiKey: string, render: Json -> string)
    : (r: HttpRequest)
    ensures r.verb == HttpPost && r.url == BookingsUrl + "/" + render(uid) + "/reschedule"
    ensures r.body == Some(JObj(map["start" := start, "reschedulingReason" := reason]))
  {
    PostRequest(BookingsUrl + "/" + render(uid) + "/reschedule",
                map["start" := start, "reschedulingReason" := reason], apiKey)
  }

  /** `_cancel`: a POST to the booking's cancel endpoint. */
  function CancelRequest(uid: Json, reason: Json, apiKey: string, render: Json -> string): (r: HttpRequest)
    ensures r.verb == HttpPost && r.url == BookingsUrl + "/" + render(uid) + "/cancel"
    ensures r.body == Some(JObj(map["cancellationReason" := reason]))
  {
    PostRequest(BookingsUrl + "/" + render(uid) + "/cancel", map["cancellationReason" := reason], apiKey)
  }

  /** `_get_bookings`' query: the time window and status, plus the event
      type only when it is truthy. */
  function BookingsQuery(afterStart: Json, beforeEnd: Json, status: Json, eventTypeId: Json)
    : (params: map<string, Json>)
    ensures "eventTypeId" in params <==> Truthy(eventTypeId)
    ensures "eventTypeId" in params ==> params["eventTypeId"] == eventTypeId
    ensures params.Keys - {"eventTypeId"} == {"afterStart", "beforeEnd", "status"}
    ensures params["afterStart"] == afterStart && params["beforeEnd"] == beforeEnd && params["status"] == status
  {
    var params := map["afterStart" := afterStart, "beforeEnd" := beforeEnd, "status" := status];
    if Truthy(eventTypeId) then params["eventTypeId" := eventTypeId] else params
  }

  // ---- dispatch (_execute_tool) --------------------------------------------

  datatype Tool = CheckAvailability | BookAppointment | RescheduleAppointment | CancelAppointment | ListBookings

  const NoToolMessage := "Ich habe kein passendes Tool gefunden."

  /** The tool a function name selects; any other name selects none. */
  function ToolNamed(name: string): (t: Option<Tool>)
    ensures t == Some(CheckAvailability) <==> name == "check_availability_cal"
    ensures t == Some(BookAppointment) <==> name == "book_appointment_cal"
    ensures t == Some(RescheduleAppointment) <==> name == "reschedule_appointment_cal"
    ensures t == Some(CancelAppointment) <==> name == "cancel_appointment_cal"
    ensures t == Some(ListBookings) <==> name == "get_bookings_by_time_range"
  {
    if name == "check_availability_cal" then Some(CheckAvailability)
    else if name == "book_appointment_cal" then Some(BookAppointment)
    else if name == "reschedule_appointment_cal" then Some(RescheduleAppointment)
    else if name == "cancel_appointment_cal" then Some(CancelAppointment)
    else if name == "get_bookings_by_time_range" then Some(ListBookings)
    else None
  }

  /** The arguments a tool subscripts, in the order it reads them. */
  function RequiredKeys(tool: Tool): seq<string> {
    match tool
    case CheckAvailability => ["eventTypeId", "startTime", "endTime"]
    case BookAppointment => ["eventTypeId", "start", "attendee"]
    case RescheduleAppointment => ["bookingUid", "start"]
    case CancelAppointment => ["bookingUid"]
    case ListBookings => ["afterStart", "beforeEnd"]
  }

  /** The request a tool sends for the parsed arguments, or the exception
      raised while reading them. Required arguments are subscripted (a
      missing one is a KeyError); optional ones default to "Reschedule",
      "Stornierung", "accepted" and None. */
  function PlanRequest(tool: Tool, args: Json, userPhone: string, apiKey: string, render: Json -> string)
    : (r: Result<HttpRequest, Error>)
    ensures !args.JObj? ==> r == Failure(NotSubscriptable(args))
    ensures r.Success? ==> args.JObj? && forall key :: key in RequiredKeys(tool) ==> key in args.fields
    ensures tool == CheckAvailability && args.JObj? && "eventTypeId" in args.fields
            && "startTime" in args.fields && "endTime" in args.fields
            ==> r == Success(CheckAvailabilityRequest(args.fields["eventTypeId"], args.fields["startTime"],
                                                      args.fields["endTime"], apiKey))
    ensures tool == BookAppointment && args.JObj? && "eventTypeId" in args.fields && "start" in args.fields
            && "attendee" !in args.fields
            ==> r == Failure(KeyError("attendee"))
    ensures tool == BookAppointment && args.JObj? && "eventTypeId" in args.fields && "start" in args.fields
            && "attendee" in args.fields && !args.fields["attendee"].JObj?
            ==> r == Failure(NoAttribute(args.fields["attendee"], "get"))
    ensures tool == BookAppointment && args.JObj? && "eventTypeId" in args.fields && "start" in args.fields
            && "attendee" in args.fields && args.fields["attendee"].JObj?
            ==> var payload := BookPayload(args.fields["eventTypeId"], args.fields["start"],
                                           args.fields["attendee"].fields, userPhone);
                r == if payload.Success? then Success(PostRequest(BookingsUrl, payload.value, apiKey))
                     else Failure(payload.error)
    ensures tool == RescheduleAppointment && args.JObj? && "bookingUid" in args.fields && "start" in args.fields
            ==> r == Success(RescheduleRequest(args.fields["bookingUid"], args.fields["start"],
                                               GetOrDefault(args.fields, "reschedulingReason", JStr("Reschedule")),
                                               apiKey, render))
    ensures tool == CancelAppointment && args.JObj? && "bookingUid" in args.fields
            ==> r == Success(CancelRequest(args.fields["bookingUid"],
                                           GetOrDefault(args.fields, "cancellationReason", JStr("Stornierung")),
                                           apiKey, render))
    ensures tool == ListBookings && args.JObj? && "afterStart" in args.fields && "beforeEnd" in args.fields
            ==> r == Success(GetRequest(BookingsUrl,
                               BookingsQuery(args.fields["afterStart"], args.fields["beforeEnd"],
                                             GetOrDefault(args.fields, "status", JStr("accepted")),
                                             Get(args.fields, "eventTypeId")),
                               apiKey))
  {
    match tool
    case CheckAvailability =>
      var eventTypeId :- Lookup(args, "eventTypeId");
      var start :- Lookup(args, "startTime");
      var end :- Lookup(args, "endTime");
      Success(CheckAvailabilityRequest(eventTypeId, start, end, apiKey))
    case BookAppointment =>
      var eventTypeId :- Lookup(args, "eventTypeId");
      var start :- Lookup(args, "start");
      var attendee :- Lookup(args, "attendee");
      if !attendee.JObj? then Failure(NoAttribute(attendee, "get"))
      else
        var payload :- BookPayload(eventTypeId, start, attendee.fields, userPhone);
        Success(PostRequest(BookingsUrl, payload, apiKey))
    case RescheduleAppointment =>
      var uid :- Lookup(args, "bookingUid");
      var start :- Lookup(args, "start");
      var reason := GetOrDefault(args.fields, "reschedulingReason", JStr("Reschedule"));
      Success(RescheduleRequest(uid, start, reason, apiKey, render))
    case CancelAppointment =>
      var uid :- Lookup(args, "bookingUid");
      var reason := GetOrDefault(args.fields, "cancellationReason", JStr("Stornierung"));
      Success(CancelRequest(uid, reason, apiKey, render))
    case ListBookings =>
      var afterStart :- Lookup(args, "afterStart");
      var beforeEnd :- Lookup(args, "beforeEnd");
      var status := GetOrDefault(args.fields, "status", JStr("accepted"));
      var eventTypeId := GetOrDefault(args.fields, "eventTypeId", JNull);
      Success(GetRequest(BookingsUrl, BookingsQuery(afterStart, beforeEnd, status, eventTypeId), apiKey))
  }

  /** `data.get("booking", {})`. */
  function BookingOf(fields: map<string, Json>): (b: Json)
    ensures "booking" in fields ==> b == fields["booking"]
    ensures "booking" !in fields ==> b == JObj(map[])
  {
    GetOrDefault(fields, "booking", JObj(map[]))
  }

  /** A tool whose arguments lack a required key raises `KeyError` for the
      first one missing, in the order the tool reads them, and so sends no
      request. */
  lemma MissingKeyRaises(tool: Tool, args: Json, userPhone: string, apiKey: string, render: Json -> string, i: nat)
    requires args.JObj? && i < |RequiredKeys(tool)| && RequiredKeys(tool)[i] !in args.fields
    requires forall j :: 0 <= j < i ==> RequiredKeys(tool)[j] in args.fields
    ensures PlanRequest(tool, args, userPhone, apiKey, render) == Failure(KeyError(RequiredKeys(tool)[i]))
  {
    var keys := RequiredKeys(tool);
    if i > 0 {
      assert keys[0] in args.fields;
    }
    if i > 1 {
      assert keys[1] in args.fields;
    }
  }

  /** The text a tool hands back for the service's response body, or the
      exception raised while reading the body. */
  function Summary(tool: Tool, data: Json, render: Json -> string): (r: Result<string, Error>)
    ensures tool == CheckAvailability ==> r == Success("Verfügbare Slots: " + render(data))
    ensures tool == CancelAppointment ==> r == Success("Termin storniert.")
    ensures tool != CheckAvailability && tool != CancelAppointment && !data.JObj? ==>
              r == Failure(NoAttribute(data, "get"))
    ensures tool == BookAppointment && data.JObj? && "booking" !in data.fields ==>
              r == Success("Termin gebucht. UID: " + render(JNull) + ", Start: " + render(JNull))
    ensures (tool == BookAppointment || tool == RescheduleAppointment) && data.JObj?
            && !BookingOf(data.fields).JObj?
            ==> r == Failure(NoAttribute(BookingOf(data.fields), "get"))
    ensures tool == BookAppointment && data.JObj? && BookingOf(data.fields).JObj?
            ==> r == Success("Termin gebucht. UID: " + render(Get(BookingOf(data.fields).fields, "uid"))
                             + ", Start: " + render(Get(BookingOf(data.fields).fields, "start")))
    ensures tool == RescheduleAppointment && data.JObj? && BookingOf(data.fields).JObj?
            ==> r == Success("Termin verschoben auf " + render(Get(BookingOf(data.fields).fields, "start")))
    ensures tool == ListBookings && data.JObj?
            ==> r == Success("Gefundene Buchungen: "
                             + render(if Truthy(Get(data.fields, "data")) then Get(data.fields, "data")
                                      else if Truthy(Get(data.fields, "bookings")) then Get(data.fields, "bookings")
                                      else JArr([])))
  {
    match tool
    case CheckAvailability => Success("Verfügbare Slots: " + render(data))
    case CancelAppointment => Success("Termin storniert.")
    case BookAppointment =>
      if !data.JObj? then Failure(NoAttribute(data, "get"))
      else
        var booking := BookingOf(data.fields);
        if !booking.JObj? then Failure(NoAttribute(booking, "get"))
        else Success("Termin gebucht. UID: " + render(Get(booking.fields, "uid"))
                     + ", Start: " + render(Get(booking.fields, "start")))
    case RescheduleAppointment =>
      if !data.JObj? then Failure(NoAttribute(data, "get"))
      else
        var booking := BookingOf(data.fields);
        if !booking.JObj? then Failure(NoAttribute(booking, "get"))
        else Success("Termin verschoben auf " + render(Get(booking.fields, "start")))
    case ListBookings =>
      if !data.JObj? then Failure(NoAttribute(data, "get"))
      else
        var listed := Get(data.fields, "data");
        var bookings := Get(data.fields, "bookings");
        Success("Gefundene Buchungen: "
                + render(if Truthy(listed) then listed else if Truthy(bookings) then bookings else JArr([])))
  }

  /** One run of `_execute_tool`: its result and the requests it sent. */
  datatype ToolRun = ToolRun(result: Result<string, Error>, sent: seq<HttpRequest>)

  /** `_execute_tool` as a whole: an unknown name is answered without any
      request; a known one sends at most one request, and only once its
      arguments were read without error; the service's failure is the tool's. */
  function RunTool(name: string, args: Json, userPhone: string, apiKey: string,
                   send: HttpRequest -> Result<Json, string>, render: Json -> string)
    : (run: ToolRun)
    ensures ToolNamed(name).None? ==> run == ToolRun(Success(NoToolMessage), [])
    ensures |run.sent| <= 1
    ensures run.sent != [] <==> ToolNamed(name).Some? && PlanRequest(ToolNamed(name).value, args, userPhone, apiKey, render).Success?
    ensures run.sent != [] ==> run.sent[0] == PlanRequest(ToolNamed(name).value, args, userPhone, apiKey, render).value
    ensures run.sent != [] && send(run.sent[0]).Failure? ==> run.result == Failure(RequestFailed(send(run.sent[0]).error))
    ensures run.sent != [] && send(run.sent[0]).Success?
            ==> run.result == Summary(ToolNamed(name).value, send(run.sent[0]).value, render)
    ensures ToolNamed(name).Some? && PlanRequest(ToolNamed(name).value, args, userPhone, apiKey, render).Failure?
            ==> run.result == Failure(PlanRequest(ToolNamed(name).value, args, userPhone, apiKey, render).error)
  {
    match ToolNamed(name)
    case None => ToolRun(Success(NoToolMessage), [])
    case Some(tool) =>
      match PlanRequest(tool, args, userPhone, apiKey, render)
      case Failure(e) => ToolRun(Failure(e), [])
      case Success(request) =>
        match send(request)
        case Failure(detail) => ToolRun(Failure(RequestFailed(detail)), [request])
        case Success(data) => ToolRun(Summary(tool, data, render), [request])
  }
}

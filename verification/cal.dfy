/** The scheduling adapter (cal_mcp.py): `get_event_types` and
    `get_availability`, which succeed on status 200, and
    `create_booking`, which succeeds only on status 201. */
module Cal {

  import opened Values
  import opened Http
  import Decimal

  /** `CAL_API_KEY` is read without a default, so it may be None. */
  datatype Config = Config(apiKey: Option<string>)

  const EventTypesUrl := "https://api.cal.com/v1/event-types"
  const BookingsUrl := "https://api.cal.com/v1/bookings"
  const EventTypePrefix := "https://api.cal.com/v1/event-types/"
  const AvailabilitySuffix := "/availability"

  /** `f"Bearer {CAL_API_KEY}"`: an unset key is formatted as `None`. */
  function Bearer(cfg: Config): string
  {
    "Bearer " + (match cfg.apiKey case None => "None" case Some(k) => k)
  }

  /** The headers every Cal.com request carries. */
  function CalHeaders(cfg: Config): (hs: seq<(string, string)>)
    ensures Lookup(hs, "Authorization") == Some(Bearer(cfg))
    ensures Lookup(hs, "Content-Type") == Some("application/json")
  {
    var hs := [("Authorization", Bearer(cfg)), ("Content-Type", "application/json")];
    LookupAt(hs, 0);
    LookupAt(hs, 1);
    hs
  }

  /** The request of `get_event_types`: a fixed URL and no parameters. */
  function GetEventTypesRequest(cfg: Config): (r: Request)
    ensures r.verb == Get && r.url == EventTypesUrl && r.params == [] && r.payload.None?
    ensures Header(r, "Authorization") == Some(Bearer(cfg))
    ensures Header(r, "Content-Type") == Some("application/json")
  {
    Request(Get, EventTypesUrl, CalHeaders(cfg), [], None)
  }

  /** The JSON body of `create_booking`. */
  function BookingPayload(eventTypeId: int, startTime: string, attendeeEmail: string, attendeeName: string): Json
  {
    JObject([
      ("eventTypeId", JInt(eventTypeId)),
      ("start", JString(startTime)),
      ("responses", JObject([("email", JString(attendeeEmail)), ("name", JString(attendeeName))]))])
  }

  /** The booking body maps each argument to its field, unchanged. */
  lemma BookingPayloadFields(eventTypeId: int, startTime: string, attendeeEmail: string, attendeeName: string)
    ensures var p := BookingPayload(eventTypeId, startTime, attendeeEmail, attendeeName);
      && At(p, ["eventTypeId"]) == Some(JInt(eventTypeId))
      && At(p, ["start"]) == Some(JString(startTime))
      && At(p, ["responses", "email"]) == Some(JString(attendeeEmail))
      && At(p, ["responses", "name"]) == Some(JString(attendeeName))
  {
    var p := BookingPayload(eventTypeId, startTime, attendeeEmail, attendeeName);
    var responses := [("email", JString(attendeeEmail)), ("name", JString(attendeeName))];
    assert At(p, ["eventTypeId"]) == Some(JInt(eventTypeId)) by {
      AtObject(p.members, 0, []);
      assert ["eventTypeId"] == [p.members[0].0] + [];
    }
    assert At(p, ["start"]) == Some(JString(startTime)) by {
      AtObject(p.members, 1, []);
      assert ["start"] == [p.members[1].0] + [];
    }
    assert At(p, ["responses", "email"]) == Some(JString(attendeeEmail)) by {
      AtObject(p.members, 2, ["email"]);
      assert ["responses", "email"] == [p.members[2].0] + ["email"];
      AtObject(responses, 0, []);
      assert ["email"] == [responses[0].0] + [];
    }
    assert At(p, ["responses", "name"]) == Some(JString(attendeeName)) by {
      AtObject(p.members, 2, ["name"]);
      assert ["responses", "name"] == [p.members[2].0] + ["name"];
      AtObject(responses, 1, []);
      assert ["name"] == [responses[1].0] + [];
    }
  }

  /** The request of `create_booking`. */
  function CreateBookingRequest(cfg: Config, eventTypeId: int, startTime: string, attendeeEmail: string, attendeeName: string): (r: Request)
    ensures r.verb == Post && r.url == BookingsUrl && r.params == []
    ensures Header(r, "Authorization") == Some(Bearer(cfg))
    ensures Header(r, "Content-Type") == Some("application/json")
    ensures r.payload == Some(BookingPayload(eventTypeId, startTime, attendeeEmail, attendeeName))
  {
    Request(Post, BookingsUrl, CalHeaders(cfg), [], Some(BookingPayload(eventTypeId, startTime, attendeeEmail, attendeeName)))
  }

  /** `f"https://api.cal.com/v1/event-types/{event_type_id}/availability"`. */
  function AvailabilityUrl(eventTypeId: int): string
  {
    EventTypePrefix + Decimal.IntToString(eventTypeId) + AvailabilitySuffix
  }

  /** The request of `get_availability`: the date range is exactly the
      two query parameters. */
  function GetAvailabilityRequest(cfg: Config, eventTypeId: int, dateFrom: string, dateTo: string): (r: Request)
    ensures r.verb == Get && r.url == AvailabilityUrl(eventTypeId) && r.payload.None?
    ensures r.params == [("dateFrom", dateFrom), ("dateTo", dateTo)]
    ensures Header(r, "Authorization") == Some(Bearer(cfg))
    ensures Header(r, "Content-Type") == Some("application/json")
  {
    Request(Get, AvailabilityUrl(eventTypeId), CalHeaders(cfg), [("dateFrom", dateFrom), ("dateTo", dateTo)], None)
  }

  /** The event type id can be read back from the availability URL: the
      text between `/event-types/` and `/availability` parses to it. */
  lemma AvailabilityUrlDeterminesId(eventTypeId: int)
    ensures var url := AvailabilityUrl(eventTypeId);
      && |url| > |EventTypePrefix| + |AvailabilitySuffix|
      && url[..|EventTypePrefix|] == EventTypePrefix
      && url[|url| - |AvailabilitySuffix|..] == AvailabilitySuffix
      && Decimal.ParseInt(url[|EventTypePrefix|..|url| - |AvailabilitySuffix|]) == Some(eventTypeId)
  {
    var digits := Decimal.IntToString(eventTypeId);
    var url := AvailabilityUrl(eventTypeId);
    assert url[|EventTypePrefix|..|url| - |AvailabilitySuffix|] == digits;
    Decimal.IntToStringRoundTrip(eventTypeId);
  }

  function GetEventTypes(cfg: Config, send: Request -> Transport): (r: Invocation)
    ensures Normalised(Success(GetEventTypesRequest(cfg)), send, 200, r)
  {
    Perform(Success(GetEventTypesRequest(cfg)), send, 200)
  }

  function CreateBooking(cfg: Config, send: Request -> Transport, eventTypeId: int, startTime: string, attendeeEmail: string, attendeeName: string): (r: Invocation)
    ensures Normalised(Success(CreateBookingRequest(cfg, eventTypeId, startTime, attendeeEmail, attendeeName)), send, 201, r)
  {
    Perform(Success(CreateBookingRequest(cfg, eventTypeId, startTime, attendeeEmail, attendeeName)), send, 201)
  }

  function GetAvailability(cfg: Config, send: Request -> Transport, eventTypeId: int, dateFrom: string, dateTo: string): (r: Invocation)
    ensures Normalised(Success(GetAvailabilityRequest(cfg, eventTypeId, dateFrom, dateTo)), send, 200, r)
  {
    Perform(Success(GetAvailabilityRequest(cfg, eventTypeId, dateFrom, dateTo)), send, 200)
  }
}

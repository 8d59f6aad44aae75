/** What the two HTTP front ends share: the route names, the mux, the
    request builders for upload and the location queries, and the common
    tail of every handler (500 on a Go error, else JSON). Each front end
    writes these out in its own file; the model states them once. */
module Handlers {
  import opened Wrappers
  import opened Records
  import opened Http
  import opened Environ

  /** The handler functions a route can name. */
  datatype HandlerName = getCurrentImage | uploadImage | getImageCount | listImages | getImageById
                       | deleteImage | getLocationFromCoords | getLocationFromName | healthCheck

  /** `http.ServeMux`, as the set of registered patterns. */
  class ServeMux {
    var handlers: map<string, HandlerName>

    constructor ()
      ensures handlers == map[]
    {
      handlers := map[];
    }

    /** `mux.HandleFunc`: registering a pattern twice panics. */
    method HandleFunc(pattern: string, handler: HandlerName)
      requires pattern !in handlers
      modifies this
      ensures handlers == old(handlers)[pattern := handler]
    {
      handlers := handlers[pattern := handler];
    }
  }

  /** `r.FormValue` and `r.URL.Query().Get`: the same lookup as `os.Getenv`,
      reading an absent key as "". */
  function FormValue(values: map<string, string>, key: string): string {
    Getenv(values, key)
  }

  /** An upload's multipart form: whether parsing failed, the "image" file
      (`None` when absent, else the outcome of reading it) and the values. */
  datatype UploadForm = UploadForm(parseErr: Option<string>, image: Option<Result<Bytes>>, values: map<string, string>)

  /** A coordinate field: its parse when it is non-empty and parses, else 0.
      `parse` stands for `strconv.ParseFloat`. */
  function ParsedOrZero(s: string, parse: string -> Option<real>): (v: real)
    ensures s != "" && parse(s).Some? ==> v == parse(s).value
    ensures s == "" || parse(s).None? ==> v == 0.0
  {
    if s != "" && parse(s).Some? then parse(s).value else 0.0
  }

  /** The upload request both front ends build: no id, the form's title and
      description, always a location, the file's bytes. */
  function UploadRequestOf(values: map<string, string>, data: Bytes, parse: string -> Option<real>): (req: UploadImageRequest)
    ensures req.id == "" && req.imageData == data
    ensures req.title == FormValue(values, "title") && req.description == FormValue(values, "description")
    ensures req.location.Some?
    ensures req.location.value.latitude == ParsedOrZero(FormValue(values, "latitude"), parse)
    ensures req.location.value.longitude == ParsedOrZero(FormValue(values, "longitude"), parse)
    ensures req.location.value.name == FormValue(values, "location_name")
    ensures req.location.value.country == FormValue(values, "country")
    ensures req.location.value.city == FormValue(values, "city")
    ensures req.location.value.address == FormValue(values, "address")
  {
    var location := Location(ParsedOrZero(FormValue(values, "latitude"), parse), ParsedOrZero(FormValue(values, "longitude"), parse),
                             FormValue(values, "location_name"), FormValue(values, "country"), FormValue(values, "city"),
                             FormValue(values, "address"));
    UploadImageRequest("", FormValue(values, "title"), FormValue(values, "description"), Some(location), data)
  }

  /** The form step of `uploadImage`, field by field as the handlers do it. */
  method BuildUploadRequest(values: map<string, string>, data: Bytes, parse: string -> Option<real>) returns (req: UploadImageRequest)
    ensures req == UploadRequestOf(values, data, parse)
  {
    var title := FormValue(values, "title");
    var description := FormValue(values, "description");
    var location := EmptyLocation;
    var latStr := FormValue(values, "latitude");
    if latStr != "" {
      var lat := parse(latStr);
      if lat.Some? {
        location := location.(latitude := lat.value);
      }
    }
    var lngStr := FormValue(values, "longitude");
    if lngStr != "" {
      var lng := parse(lngStr);
      if lng.Some? {
        location := location.(longitude := lng.value);
      }
    }
    location := location.(name := FormValue(values, "location_name"));
    location := location.(country := FormValue(values, "country"));
    location := location.(city := FormValue(values, "city"));
    location := location.(address := FormValue(values, "address"));
    req := UploadImageRequest("", title, description, Some(location), data);
  }

  /** The query step of `getLocationFromCoords`: the 400 message, or the
      parsed coordinates. */
  function CoordsRequest(query: map<string, string>, parse: string -> Option<real>): (r: Result<(real, real)>)
    ensures FormValue(query, "lat") == "" || FormValue(query, "lng") == "" ==>
              r == Err("Both lat and lng parameters are required")
    ensures FormValue(query, "lat") != "" && FormValue(query, "lng") != "" && parse(FormValue(query, "lat")).None? ==>
              r == Err("Invalid latitude value")
    ensures FormValue(query, "lat") != "" && FormValue(query, "lng") != "" && parse(FormValue(query, "lat")).Some?
              && parse(FormValue(query, "lng")).None? ==>
              r == Err("Invalid longitude value")
    ensures r.Ok? <==> FormValue(query, "lat") != "" && FormValue(query, "lng") != ""
                       && parse(FormValue(query, "lat")).Some? && parse(FormValue(query, "lng")).Some?
    ensures r.Ok? ==> r.value == (parse(FormValue(query, "lat")).value, parse(FormValue(query, "lng")).value)
  {
    var latStr := FormValue(query, "lat");
    var lngStr := FormValue(query, "lng");
    if latStr == "" || lngStr == "" then Err("Both lat and lng parameters are required")
    else
      var lat := parse(latStr);
      if lat.None? then Err("Invalid latitude value")
      else
        var lng := parse(lngStr);
        if lng.None? then Err("Invalid longitude value")
        else Ok((lat.value, lng.value))
  }

  /** The query step of `getLocationFromName`: only a missing or empty name
      is refused; a name of spaces goes through to the service. */
  function NameRequest(query: map<string, string>): (r: Result<string>)
    ensures r.Err? <==> FormValue(query, "name") == ""
    ensures r.Err? ==> r.error == "name parameter is required"
    ensures r.Ok? ==> r.value == query["name"]
  {
    var name := FormValue(query, "name");
    if name == "" then Err("name parameter is required") else Ok(name)
  }

  /** The response header of a JSON reply. */
  function JsonHeaders(h: map<string, string>): (r: map<string, string>)
    ensures "Content-Type" in r && r["Content-Type"] == "application/json"
    ensures r.Keys == h.Keys + {"Content-Type"}
    ensures forall k :: k in h && k != "Content-Type" ==> r[k] == h[k]
  {
    h["Content-Type" := "application/json"]
  }

  /** `w` holds exactly an `http.Error` reply on a fresh writer with header
      `h0`. */
  predicate SentError(w: ResponseWriter, h0: map<string, string>, message: string, code: int)
    reads w
  {
    w.status == Some(code) && w.sentHeader == ErrorHeaders(h0) && w.body == [Text(message + "\n")]
  }

  /** `w` holds the JSON tail of a handler on a fresh writer with header
      `h0`: status 201 first when `created`; when the encoder fails, either
      an `http.Error` ("Failed to encode response") if the handler checks
      the encoder, or nothing. An `http.Error` after the 201 keeps the 201. */
  predicate SentJson(w: ResponseWriter, h0: map<string, string>, created: bool, payload: Payload, encodeErr: Option<string>, checkEncode: bool)
    reads w
  {
    var h1 := JsonHeaders(h0);
    if encodeErr.None? then
      w.status == Some(if created then StatusCreated else StatusOK) && w.sentHeader == h1 && w.body == [Json(payload)]
    else if !checkEncode then
      w.body == [] && (created ==> w.status == Some(StatusCreated) && w.sentHeader == h1) && (!created ==> w.status.None?)
    else if created then
      w.status == Some(StatusCreated) && w.sentHeader == h1 && w.body == [Text("Failed to encode response" + "\n")]
    else
      w.status == Some(StatusInternalServerError) && w.sentHeader == ErrorHeaders(h1) && w.body == [Text("Failed to encode response" + "\n")]
  }

  /** `http.Error` on a fresh writer. */
  method Fail(w: ResponseWriter, message: string, code: int)
    requires w.Fresh()
    modifies w
    ensures SentError(w, old(w.header), message, code)
  {
    Error(w, message, code);
    assert w.body == [] + [Text(message + "\n")];
  }

  /** The tail every handler shares: a Go error from the service or RPC
      becomes a 500 with `failPrefix` and the error text; otherwise the
      reply is JSON-encoded, after a 201 when `created`. */
  method Respond(w: ResponseWriter, payload: Payload, callErr: Option<string>, failPrefix: string,
                 created: bool, encodeErr: Option<string>, checkEncode: bool)
    requires w.Fresh()
    modifies w
    ensures callErr.Some? ==> SentError(w, old(w.header), failPrefix + callErr.value, StatusInternalServerError)
    ensures callErr.None? ==> SentJson(w, old(w.header), created, payload, encodeErr, checkEncode)
  {
    if callErr.Some? {
      Fail(w, failPrefix + callErr.value, StatusInternalServerError);
      return;
    }
    w.SetHeader("Content-Type", "application/json");
    if created {
      w.WriteHeader(StatusCreated);
    }
    var err := Encode(w, payload, encodeErr);
    if err.Some? && checkEncode {
      assert w.body == [];
      Error(w, "Failed to encode response", StatusInternalServerError);
      assert w.body == [] + [Text("Failed to encode response" + "\n")];
    }
  }

  /** The health body: status, the time of the request, and the service. */
  function HealthBody(service: string, now: string): (fields: map<string, string>)
    ensures fields.Keys == {"status", "timestamp", "service"}
    ensures fields["status"] == "healthy" && fields["timestamp"] == now && fields["service"] == service
  {
    map["status" := "healthy", "timestamp" := now, "service" := service]
  }
}

/** The HTTP front end that calls the services in-process
    (`DirectHTTPHandler`). A service call is an oracle from the request the
    handler builds to the service's reply and Go error; a handler that
    refuses a request returns `None` as the request it sent. Every handler
    except `getCurrentImage` and `healthCheck` reports a failed JSON encoding
    with `http.Error`. */
module DirectHandlers {
  import opened Wrappers
  import opened Records
  import opened Http
  import opened Handlers

  /** The nine routes of `RegisterRoutes`. */
  const Routes: map<string, HandlerName> := map[
    "GET /api/v1/images/current" := getCurrentImage,
    "POST /api/v1/images/upload" := uploadImage,
    "GET /api/v1/images/count" := getImageCount,
    "GET /api/v1/images" := listImages,
    "GET /api/v1/images/{id}" := getImageById,
    "DELETE /api/v1/images/{id}" := deleteImage,
    "GET /api/v1/location/coords" := getLocationFromCoords,
    "GET /api/v1/location/name" := getLocationFromName,
    "GET /health" := healthCheck]

  /** The context deadline, in seconds, each handler puts on its call. */
  function Timeout(h: HandlerName): (seconds: Option<int>)
    ensures seconds.None? <==> h == healthCheck
    ensures seconds.Some? ==> 5 <= seconds.value <= 30 && (seconds.value == 30 <==> h == uploadImage)
  {
    match h
    case getCurrentImage => Some(10)
    case uploadImage => Some(30)
    case getImageCount => Some(5)
    case listImages => Some(10)
    case getImageById => Some(5)
    case deleteImage => Some(10)
    case getLocationFromCoords => Some(5)
    case getLocationFromName => Some(5)
    case healthCheck => None
  }

  /** The route patterns as a set. */
  lemma RoutesKeys()
    ensures Routes.Keys == {"GET /api/v1/images/current", "POST /api/v1/images/upload", "GET /api/v1/images/count", "GET /api/v1/images", "GET /api/v1/images/{id}", "DELETE /api/v1/images/{id}", "GET /api/v1/location/coords", "GET /api/v1/location/name", "GET /health"}
  {
  }

  /** Adding the routes to a disjoint table is registering them one by one,
      in order. */
  lemma RoutesAsUpdates(m: map<string, HandlerName>)
    requires m.Keys !! Routes.Keys
    ensures m + Routes == m["GET /api/v1/images/current" := getCurrentImage]["POST /api/v1/images/upload" := uploadImage]["GET /api/v1/images/count" := getImageCount]["GET /api/v1/images" := listImages]["GET /api/v1/images/{id}" := getImageById]["DELETE /api/v1/images/{id}" := deleteImage]["GET /api/v1/location/coords" := getLocationFromCoords]["GET /api/v1/location/name" := getLocationFromName]["GET /health" := healthCheck]
  {
  }

  /** `RegisterRoutes` on a mux that holds none of the patterns yet. */
  method RegisterRoutes(mux: ServeMux)
    requires mux.handlers.Keys !! Routes.Keys
    modifies mux
    ensures mux.handlers == old(mux.handlers) + Routes
  {
    RoutesKeys();
    RoutesAsUpdates(mux.handlers);
    mux.HandleFunc("GET /api/v1/images/current", getCurrentImage);
    mux.HandleFunc("POST /api/v1/images/upload", uploadImage);
    mux.HandleFunc("GET /api/v1/images/count", getImageCount);
    mux.HandleFunc("GET /api/v1/images", listImages);
    mux.HandleFunc("GET /api/v1/images/{id}", getImageById);
    mux.HandleFunc("DELETE /api/v1/images/{id}", deleteImage);
    mux.HandleFunc("GET /api/v1/location/coords", getLocationFromCoords);
    mux.HandleFunc("GET /api/v1/location/name", getLocationFromName);
    mux.HandleFunc("GET /health", healthCheck);
  }

  /** GET /api/v1/images/current. */
  method GetCurrentImage(w: ResponseWriter, reply: (GetCurrentImageResponse, Option<string>), encodeErr: Option<string>)
    requires w.Fresh()
    modifies w
    ensures reply.1.Some? ==> SentError(w, old(w.header), "Failed to get current image: " + reply.1.value, StatusInternalServerError)
    ensures reply.1.None? ==> SentJson(w, old(w.header), false, CurrentImage(reply.0), encodeErr, false)
  {
    Respond(w, CurrentImage(reply.0), reply.1, "Failed to get current image: ", false, encodeErr, false);
  }

  /** POST /api/v1/images/upload. */
  method UploadImage(w: ResponseWriter, form: UploadForm, parse: string -> Option<real>,
                     call: UploadImageRequest -> (UploadImageResponse, Option<string>), encodeErr: Option<string>)
    returns (sent: Option<UploadImageRequest>)
    requires w.Fresh()
    modifies w
    ensures form.parseErr.Some? ==> sent.None? && SentError(w, old(w.header), "Failed to parse form data", StatusBadRequest)
    ensures form.parseErr.None? && form.image.None? ==>
              sent.None? && SentError(w, old(w.header), "Image file is required", StatusBadRequest)
    ensures form.parseErr.None? && form.image.Some? && form.image.value.Err? ==>
              sent.None? && SentError(w, old(w.header), "Failed to read image data", StatusInternalServerError)
    ensures form.parseErr.None? && form.image.Some? && form.image.value.Ok? ==>
              sent == Some(UploadRequestOf(form.values, form.image.value.value, parse))
    ensures sent.Some? && call(sent.value).1.Some? ==>
              SentError(w, old(w.header), "Failed to upload image: " + call(sent.value).1.value, StatusInternalServerError)
    ensures sent.Some? && call(sent.value).1.None? ==>
              SentJson(w, old(w.header), true, Upload(call(sent.value).0), encodeErr, true)
  {
    if form.parseErr.Some? {
      Fail(w, "Failed to parse form data", StatusBadRequest);
      return None;
    }
    if form.image.None? {
      Fail(w, "Image file is required", StatusBadRequest);
      return None;
    }
    if form.image.value.Err? {
      Fail(w, "Failed to read image data", StatusInternalServerError);
      return None;
    }
    var req := BuildUploadRequest(form.values, form.image.value.value, parse);
    var reply := call(req);
    Respond(w, Upload(reply.0), reply.1, "Failed to upload image: ", true, encodeErr, true);
    return Some(req);
  }

  /** GET /api/v1/images/count. */
  method GetImageCount(w: ResponseWriter, reply: (GetImageCountResponse, Option<string>), encodeErr: Option<string>)
    requires w.Fresh()
    modifies w
    ensures reply.1.Some? ==> SentError(w, old(w.header), "Failed to get image count: " + reply.1.value, StatusInternalServerError)
    ensures reply.1.None? ==> SentJson(w, old(w.header), false, Count(reply.0), encodeErr, true)
  {
    Respond(w, Count(reply.0), reply.1, "Failed to get image count: ", false, encodeErr, true);
  }

  /** GET /api/v1/images. */
  method ListImages(w: ResponseWriter, reply: (ListImagesResponse, Option<string>), encodeErr: Option<string>)
    requires w.Fresh()
    modifies w
    ensures reply.1.Some? ==> SentError(w, old(w.header), "Failed to list images: " + reply.1.value, StatusInternalServerError)
    ensures reply.1.None? ==> SentJson(w, old(w.header), false, List(reply.0), encodeErr, true)
  {
    Respond(w, List(reply.0), reply.1, "Failed to list images: ", false, encodeErr, true);
  }

  /** GET /api/v1/images/{id}. */
  method GetImageById(w: ResponseWriter, pathId: string, call: string -> (GetImageByIdResponse, Option<string>), encodeErr: Option<string>)
    returns (sent: Option<string>)
    requires w.Fresh()
    modifies w
    ensures pathId == "" ==> sent.None? && SentError(w, old(w.header), "Image ID is required", StatusBadRequest)
    ensures pathId != "" ==> sent == Some(pathId)
    ensures pathId != "" && call(pathId).1.Some? ==>
              SentError(w, old(w.header), "Failed to get image: " + call(pathId).1.value, StatusInternalServerError)
    ensures pathId != "" && call(pathId).1.None? ==> SentJson(w, old(w.header), false, ById(call(pathId).0), encodeErr, true)
  {
    if pathId == "" {
      Fail(w, "Image ID is required", StatusBadRequest);
      return None;
    }
    var reply := call(pathId);
    Respond(w, ById(reply.0), reply.1, "Failed to get image: ", false, encodeErr, true);
    return Some(pathId);
  }

  /** DELETE /api/v1/images/{id}. */
  method DeleteImage(w: ResponseWriter, pathId: string, call: string -> (DeleteImageResponse, Option<string>), encodeErr: Option<string>)
    returns (sent: Option<string>)
    requires w.Fresh()
    modifies w
    ensures pathId == "" ==> sent.None? && SentError(w, old(w.header), "Image ID is required", StatusBadRequest)
    ensures pathId != "" ==> sent == Some(pathId)
    ensures pathId != "" && call(pathId).1.Some? ==>
              SentError(w, old(w.header), "Failed to delete image: " + call(pathId).1.value, StatusInternalServerError)
    ensures pathId != "" && call(pathId).1.None? ==> SentJson(w, old(w.header), false, Delete(call(pathId).0), encodeErr, true)
  {
    if pathId == "" {
      Fail(w, "Image ID is required", StatusBadRequest);
      return None;
    }
    var reply := call(pathId);
    Respond(w, Delete(reply.0), reply.1, "Failed to delete image: ", false, encodeErr, true);
    return Some(pathId);
  }

  /** GET /api/v1/location/coords. */
  method GetLocationFromCoords(w: ResponseWriter, query: map<string, string>, parse: string -> Option<real>,
                               call: (real, real) -> (LocationResponse, Option<string>), encodeErr: Option<string>)
    returns (sent: Option<(real, real)>)
    requires w.Fresh()
    modifies w
    ensures CoordsRequest(query, parse).Err? ==>
              sent.None? && SentError(w, old(w.header), CoordsRequest(query, parse).error, StatusBadRequest)
    ensures CoordsRequest(query, parse).Ok? ==> sent == Some(CoordsRequest(query, parse).value)
    ensures sent.Some? && call(sent.value.0, sent.value.1).1.Some? ==>
              SentError(w, old(w.header), "Failed to get location: " + call(sent.value.0, sent.value.1).1.value, StatusInternalServerError)
    ensures sent.Some? && call(sent.value.0, sent.value.1).1.None? ==>
              SentJson(w, old(w.header), false, Place(call(sent.value.0, sent.value.1).0), encodeErr, true)
  {
    var coords := CoordsRequest(query, parse);
    if coords.Err? {
      Fail(w, coords.error, StatusBadRequest);
      return None;
    }
    var reply := call(coords.value.0, coords.value.1);
    Respond(w, Place(reply.0), reply.1, "Failed to get location: ", false, encodeErr, true);
    return Some(coords.value);
  }

  /** GET /api/v1/location/name. */
  method GetLocationFromName(w: ResponseWriter, query: map<string, string>, call: string -> (LocationResponse, Option<string>),
                             encodeErr: Option<string>)
    returns (sent: Option<string>)
    requires w.Fresh()
    modifies w
    ensures NameRequest(query).Err? ==> sent.None? && SentError(w, old(w.header), "name parameter is required", StatusBadRequest)
    ensures NameRequest(query).Ok? ==> sent == Some(NameRequest(query).value)
    ensures sent.Some? && call(sent.value).1.Some? ==>
              SentError(w, old(w.header), "Failed to get location: " + call(sent.value).1.value, StatusInternalServerError)
    ensures sent.Some? && call(sent.value).1.None? ==> SentJson(w, old(w.header), false, Place(call(sent.value).0), encodeErr, true)
  {
    var name := NameRequest(query);
    if name.Err? {
      Fail(w, name.error, StatusBadRequest);
      return None;
    }
    var reply := call(name.value);
    Respond(w, Place(reply.0), reply.1, "Failed to get location: ", false, encodeErr, true);
    return Some(name.value);
  }

  const ServiceName := "image-api-cloudrun"

  /** GET /health; `now` is the clock, formatted. */
  method HealthCheck(w: ResponseWriter, now: string, encodeErr: Option<string>)
    requires w.Fresh()
    modifies w
    ensures SentJson(w, old(w.header), false, Health(HealthBody(ServiceName, now)), encodeErr, false)
  {
    Respond(w, Health(HealthBody(ServiceName, now)), None, "", false, encodeErr, false);
  }
}

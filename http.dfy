/** The parts of `net/http` the handlers rely on: a `ResponseWriter` whose
    status is fixed by the first `WriteHeader` (or the first write), whose
    header map is snapshotted at that moment, and `http.Error`. A JSON body
    is kept as the value that was encoded. */
module Http {
  import opened Wrappers
  import opened Records

  const StatusOK := 200
  const StatusCreated := 201
  const StatusBadRequest := 400
  const StatusInternalServerError := 500

  /** The values the handlers JSON-encode. */
  datatype Payload =
    | CurrentImage(current: GetCurrentImageResponse)
    | Upload(upload: UploadImageResponse)
    | Count(count: GetImageCountResponse)
    | List(list: ListImagesResponse)
    | ById(byId: GetImageByIdResponse)
    | Delete(delete: DeleteImageResponse)
    | Place(place: LocationResponse)
    | Health(fields: map<string, string>)

  /** One write to the body: plain text, or one JSON-encoded value. */
  datatype Chunk = Text(text: string) | Json(payload: Payload)

  /** The headers `http.Error` sends: any Content-Length dropped, plain text
      and no content sniffing. */
  function ErrorHeaders(h: map<string, string>): (r: map<string, string>)
    ensures "Content-Length" !in r
    ensures "Content-Type" in r && r["Content-Type"] == "text/plain; charset=utf-8"
    ensures "X-Content-Type-Options" in r && r["X-Content-Type-Options"] == "nosniff"
    ensures forall k :: k in h && k !in {"Content-Length", "Content-Type", "X-Content-Type-Options"} ==> k in r && r[k] == h[k]
    ensures r.Keys == h.Keys - {"Content-Length"} + {"Content-Type", "X-Content-Type-Options"}
  {
    (h - {"Content-Length"})["Content-Type" := "text/plain; charset=utf-8"]["X-Content-Type-Options" := "nosniff"]
  }

  class ResponseWriter {
    /** `w.Header()`: the map handlers edit. */
    var header: map<string, string>
    /** The status sent, once the header has been written. */
    var status: Option<int>
    /** The header as it was when the status was sent. */
    var sentHeader: map<string, string>
    var body: seq<Chunk>

    /** The writer the server hands a handler, possibly with headers already
        set by middleware. */
    constructor (header: map<string, string>)
      ensures this.header == header && status == None && sentHeader == map[] && body == []
    {
      this.header := header;
      status := None;
      sentHeader := map[];
      body := [];
    }

    /** Whether nothing has been sent yet. */
    predicate Fresh()
      reads this
    {
      status.None? && body == []
    }

    /** The status the client sees: a handler that writes nothing gets 200. */
    function Code(): (code: int)
      reads this
      ensures status.Some? ==> code == status.value
      ensures status.None? ==> code == StatusOK
    {
      if status.Some? then status.value else StatusOK
    }

    /** `w.Header().Set(key, value)`. */
    method SetHeader(key: string, value: string)
      modifies this
      ensures header == old(header)[key := value]
      ensures status == old(status) && sentHeader == old(sentHeader) && body == old(body)
    {
      header := header[key := value];
    }

    /** `w.WriteHeader(code)`: only the first call has an effect. */
    method WriteHeader(code: int)
      modifies this
      ensures old(status).None? ==> status == Some(code) && sentHeader == old(header)
      ensures old(status).Some? ==> status == old(status) && sentHeader == old(sentHeader)
      ensures header == old(header) && body == old(body)
    {
      if status.None? {
        status := Some(code);
        sentHeader := header;
      }
    }

    /** `w.Write`: a write before any `WriteHeader` sends 200 first. */
    method Write(chunk: Chunk)
      modifies this
      ensures old(status).None? ==> status == Some(StatusOK) && sentHeader == old(header)
      ensures old(status).Some? ==> status == old(status) && sentHeader == old(sentHeader)
      ensures header == old(header) && body == old(body) + [chunk]
    {
      if status.None? {
        status := Some(StatusOK);
        sentHeader := header;
      }
      body := body + [chunk];
    }
  }

  /** `http.Error(w, message, code)`: error headers, the status (ignored when
      one was already sent), then the message and a newline. */
  method Error(w: ResponseWriter, message: string, code: int)
    modifies w
    ensures w.header == ErrorHeaders(old(w.header))
    ensures old(w.status).None? ==> w.status == Some(code) && w.sentHeader == ErrorHeaders(old(w.header))
    ensures old(w.status).Some? ==> w.status == old(w.status) && w.sentHeader == old(w.sentHeader)
    ensures w.body == old(w.body) + [Text(message + "\n")]
  {
    w.header := w.header - {"Content-Length"};
    w.SetHeader("Content-Type", "text/plain; charset=utf-8");
    w.SetHeader("X-Content-Type-Options", "nosniff");
    w.WriteHeader(code);
    w.Write(Text(message + "\n"));
  }

  /** `json.NewEncoder(w).Encode(payload)`. `encodeErr` is the encoder's
      failure, if any; a failed encoding writes nothing. */
  method Encode(w: ResponseWriter, payload: Payload, encodeErr: Option<string>) returns (err: Option<string>)
    modifies w
    ensures err == encodeErr
    ensures encodeErr.Some? ==> w.status == old(w.status) && w.sentHeader == old(w.sentHeader) && w.body == old(w.body)
    ensures encodeErr.None? && old(w.status).None? ==> w.status == Some(StatusOK) && w.sentHeader == old(w.header)
    ensures encodeErr.None? && old(w.status).Some? ==> w.status == old(w.status) && w.sentHeader == old(w.sentHeader)
    ensures encodeErr.None? ==> w.body == old(w.body) + [Json(payload)]
    ensures w.header == old(w.header)
  {
    if encodeErr.Some? {
      return encodeErr;
    }
    w.Write(Json(payload));
    return None;
  }
}

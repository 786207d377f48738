/**
 * The parts of `net/http` the handlers rely on: the incoming request as the
 * handlers see it, the response writer (header map, first status wins,
 * implicit 200 on the first write) and `http.NotFound`.
 */
module Http {
  import opened Integration

  /** The request body after JSON decoding: malformed, or an event. */
  datatype Body = Malformed | Decoded(event: Event)

  /** A request: its HTTP method (`verb`), headers and decoded body. */
  datatype Request = Request(verb: string, header: map<string, string>, body: Body)

  /** `r.Header.Get(key)`: the empty string when the header is absent. */
  function HeaderGet(header: map<string, string>, key: string): string
  {
    if key in header then header[key] else ""
  }

  /** What a response writer holds: headers, whether the status line went
      out, the status, and the body written so far. */
  datatype WriterState = WriterState(
    header: map<string, string>,
    wroteHeader: bool,
    status: int,
    body: string)

  /** A writer nothing has been done to yet. */
  const Fresh := WriterState(map[], false, 200, "")

  function AfterSetHeader(s: WriterState, key: string, value: string): (r: WriterState)
    ensures r.header == s.header[key := value]
    ensures r.wroteHeader == s.wroteHeader && r.status == s.status && r.body == s.body
  {
    s.(header := s.header[key := value])
  }

  /** `WriteHeader`: only the first status sent counts. */
  function AfterWriteHeader(s: WriterState, code: int): (r: WriterState)
    ensures r.wroteHeader
    ensures r.status == if s.wroteHeader then s.status else code
    ensures r.header == s.header && r.body == s.body
  {
    if s.wroteHeader then s else s.(wroteHeader := true, status := code)
  }

  /** `Write`: sends status 200 first when no status went out yet. */
  function AfterWrite(s: WriterState, data: string): (r: WriterState)
    ensures r.wroteHeader
    ensures r.status == if s.wroteHeader then s.status else 200
    ensures r.header == s.header
    ensures r.body == s.body + data
  {
    AfterWriteHeader(s, 200).(body := s.body + data)
  }

  const NotFoundText := "404 page not found"

  /** `http.NotFound`: a plain-text 404 whose body is the fixed text and a newline. */
  function AfterNotFound(s: WriterState): (r: WriterState)
    ensures r.header == s.header["Content-Type" := "text/plain; charset=utf-8"]["X-Content-Type-Options" := "nosniff"]
    ensures r.status == (if s.wroteHeader then s.status else 404)
    ensures r.body == s.body + NotFoundText + "\n"
  {
    var h := AfterSetHeader(AfterSetHeader(s, "Content-Type", "text/plain; charset=utf-8"), "X-Content-Type-Options", "nosniff");
    AfterWrite(AfterWriteHeader(h, 404), NotFoundText + "\n")
  }

  /** The response writer a handler is given, updated in place. */
  class ResponseWriter {
    var header: map<string, string>
    var wroteHeader: bool
    var status: int
    var body: string

    function State(): WriterState
      reads this
    {
      WriterState(header, wroteHeader, status, body)
    }

    constructor ()
      ensures State() == Fresh
    {
      header := map[];
      wroteHeader := false;
      status := 200;
      body := "";
    }

    /** `w.Header().Set(key, value)`. */
    method SetHeader(key: string, value: string)
      modifies this
      ensures State() == AfterSetHeader(old(State()), key, value)
    {
      header := header[key := value];
    }

    /** `w.WriteHeader(code)`. */
    method WriteHeader(code: int)
      modifies this
      ensures State() == AfterWriteHeader(old(State()), code)
    {
      if !wroteHeader {
        wroteHeader := true;
        status := code;
      }
    }

    /** `w.Write(data)`. */
    method Write(data: string)
      modifies this
      ensures State() == AfterWrite(old(State()), data)
    {
      WriteHeader(200);
      body := body + data;
    }
  }

  /** `http.NotFound(w, r)`. */
  method NotFound(w: ResponseWriter)
    modifies w
    ensures w.State() == AfterNotFound(old(w.State()))
  {
    w.SetHeader("Content-Type", "text/plain; charset=utf-8");
    w.SetHeader("X-Content-Type-Options", "nosniff");
    w.WriteHeader(404);
    w.Write(NotFoundText + "\n");
  }
}

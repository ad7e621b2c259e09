/** The part of Go's net/http (and gorilla/mux) that the middlewares of the
    sample touch, reduced to values: a request is what the middlewares read
    from it, and a handler is the sequence of effects it produces. */
module Http {

  /** A request as the middlewares see it: the value of the Authorization
      header (`Header.Get`) and the value of the path variable `id`
      (`mux.Vars(req)["id"]`). Both lookups give "" when the entry is
      absent, so an absent entry and an empty one are the same value. */
  datatype Request = Request(auth: string, id: string)

  /** One effect of a handler, in the order it happens. */
  datatype Event =
    | Status(code: int)         // WriteHeader(code) on the ResponseWriter
    | Body(text: string)        // io.WriteString / fmt.Fprintln on the ResponseWriter
    | Log(line: string)         // fmt.Println(line) on the console
    | LogRequest(req: Request)  // fmt.Println(req) on the console

  type Trace = seq<Event>

  /** `http.Handler`, `http.HandlerFunc`: what serving one request does. */
  type Handler = Request -> Trace

  /** `Middleware` and `mux.MiddlewareFunc`: a handler wrapped around `next`. */
  type Middleware = Handler -> Handler

  const Unauthorized: int := 401
  const StatusOK: int := 200

  /** Whether an event reaches the client (as opposed to the console). */
  predicate IsWrite(e: Event) {
    e.Status? || e.Body?
  }

  /** What the ResponseWriter receives, in order: every write, no console line. */
  function Writes(t: Trace): (w: Trace)
    ensures |w| <= |t|
    ensures forall e :: e in w <==> e in t && IsWrite(e)
  {
    if t == [] then []
    else if IsWrite(t[0]) then [t[0]] + Writes(t[1..])
    else Writes(t[1..])
  }

  lemma {:induction false} WritesAppend(a: Trace, b: Trace)
    ensures Writes(a + b) == Writes(a) + Writes(b)
  {
    if a == [] {
      assert a + b == b;
    } else {
      assert (a + b)[1..] == a[1..] + b;
      WritesAppend(a[1..], b);
    }
  }

  /** The status code the client gets under net/http's rules: the first
      WriteHeader decides; a body written before any WriteHeader implies 200;
      a handler that writes nothing answers 200. */
  function StatusOf(t: Trace): int {
    var w := Writes(t);
    if w != [] && w[0].Status? then w[0].code else StatusOK
  }

  /** A trace of console lines only sends nothing to the client. */
  lemma {:induction false} WritesOfConsole(a: Trace)
    requires forall e :: e in a ==> !IsWrite(e)
    ensures Writes(a) == []
  {
    if a != [] {
      assert forall e :: e in a[1..] ==> e in a;
      WritesOfConsole(a[1..]);
    }
  }

  /** Console lines in front of a trace do not change what the client receives. */
  lemma WritesIgnoreConsole(a: Trace, b: Trace)
    requires forall e :: e in a ==> !IsWrite(e)
    ensures Writes(a + b) == Writes(b)
    ensures StatusOf(a + b) == StatusOf(b)
  {
    WritesAppend(a, b);
    WritesOfConsole(a);
  }
}

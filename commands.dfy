/**
 * Commands: the executable form of a job action. An action is resolved to
 * a command, and a command's execution is judged from the HTTP reply it
 * gets. The network exchange itself is an input (`Reply`).
 */
module Commands {
  import opened Wrappers
  import opened Models

  /** The total session timeout used when a command has none (or zero). */
  const DefaultTimeout: int := 360

  /** The type tag every HTTP command carries. */
  const HttpTag: string := "http"

  /** Why resolving or executing a command raised. */
  datatype Error =
    | UnsupportedAction(action: JobAction)  // ValueError from resolution
    | BadStatus(status: int)                // ValueError for a status outside [200, 300)
    | Timeout                               // the session timeout, re-raised
    | TransportFailure                      // any other error of the request, not caught

  /** What running a command amounts to: it returned, or it raised. */
  datatype Outcome = Succeeded | Failed(error: Error)

  /** What the network gave back to a request. */
  datatype Reply =
    | Responded(status: int)
    | TimedOut
    | TransportError

  /** A concrete command; HTTP is the only variant. */
  datatype Command = HTTPCommand(
    url: string,
    httpMethod: string := "GET",
    headers: map<string, string> := map[],
    body: Option<string> := None,
    timeout: Option<int> := None)
  {
    /** The type tag set by the command's constructor. */
    function Type(): (tag: string)
    {
      match this
      case HTTPCommand(_, _, _, _, _) => HttpTag
    }

    /**
     * The base class's rendering of a command, `Command<type>`. HTTP
     * commands override it with their own rendering, which is not modelled.
     */
    function Describe(): (s: string)
      ensures |s| == |Type()| + 9
      ensures s[..8] == "Command<" && s[|s| - 1] == '>'
      ensures s[8..|s| - 1] == Type()
    {
      "Command<" + Type() + ">"
    }
  }

  /** The request an execution issues. */
  datatype HttpRequest = HttpRequest(
    httpMethod: string,
    url: string,
    headers: map<string, string>,
    data: Option<string>,
    totalTimeout: int)

  /**
   * Resolves an action to a command: an HTTP command exactly when the
   * action's http variant is set, and an UnsupportedAction error otherwise.
   * The command carries the action's data unchanged.
   */
  function GetCommand(action: JobAction): (r: Result<Command, Error>)
    ensures r.Ok? <==> action.http.Some?
    ensures r.Err? ==> r.error == UnsupportedAction(action)
    ensures r.Ok? ==> r.value.Type() == HttpTag
    ensures r.Ok? ==> JobData(r.value) == action.http.value
  {
    match action.http
    case Some(d) =>
      Ok(HTTPCommand(url := d.url, httpMethod := d.httpMethod, headers := d.headers,
                     body := d.body, timeout := d.timeout))
    case None => Err(UnsupportedAction(action))
  }

  /** The action data a command was built from. */
  function JobData(c: Command): HTTPJobData
  {
    HTTPJobData(c.url, c.httpMethod, c.headers, c.body, c.timeout)
  }

  /**
   * Resolution and projection are inverse: every command is what its own
   * action data resolves to, and resolving an HTTP action yields a command
   * whose data is that action's.
   */
  lemma GetCommandRoundTrip(c: Command, d: HTTPJobData)
    ensures GetCommand(JobAction(Some(JobData(c)))) == Ok(c)
    ensures GetCommand(JobAction(Some(d))).Ok? && JobData(GetCommand(JobAction(Some(d))).value) == d
  {
  }

  /** An HTTP command's defaults, its type tag, and the base rendering applied to it. */
  lemma HTTPCommandDefaults(url: string)
    ensures HTTPCommand(url).httpMethod == "GET" && HTTPCommand(url).headers == map[]
    ensures HTTPCommand(url).body.None? && HTTPCommand(url).timeout.None?
    ensures HTTPCommand(url).Type() == "http" && HTTPCommand(url).Describe() == "Command<http>"
  {
  }

  /**
   * The total session timeout: the command's own timeout when it is set
   * and non-zero (Python truthiness), and the default otherwise. The
   * result is never zero.
   */
  function EffectiveTimeout(timeout: Option<int>): (t: int)
    ensures t != 0
    ensures timeout.Some? && timeout.value != 0 ==> t == timeout.value
    ensures timeout.None? || timeout.value == 0 ==> t == DefaultTimeout
  {
    match timeout
    case Some(v) => if v != 0 then v else DefaultTimeout
    case None => DefaultTimeout
  }

  /** None and 0 both fall back to 360; a positive timeout is used as given. */
  lemma EffectiveTimeoutCases(n: int)
    ensures EffectiveTimeout(None) == 360 && EffectiveTimeout(Some(0)) == 360
    ensures n > 0 ==> EffectiveTimeout(Some(n)) == n
  {
  }

  /** The request an execution of `c` issues: its own fields and the effective timeout. */
  function Request(c: Command): (q: HttpRequest)
    ensures q.httpMethod == c.httpMethod && q.url == c.url && q.headers == c.headers
    ensures q.data == c.body
    ensures q.totalTimeout == EffectiveTimeout(c.timeout) && q.totalTimeout != 0
  {
    HttpRequest(c.httpMethod, c.url, c.headers, c.body, EffectiveTimeout(c.timeout))
  }

  /** A response status counts as success when it lies in [200, 300). */
  predicate IsSuccessStatus(status: int)
  {
    200 <= status < 300
  }

  /**
   * Executes a command given the network's reply: it succeeds exactly on a
   * response whose status is in [200, 300); any other status raises
   * BadStatus, and a timeout or transport error raises as well.
   */
  function Execute(c: Command, reply: Reply): (o: Outcome)
    ensures o.Succeeded? <==> reply.Responded? && IsSuccessStatus(reply.status)
    ensures reply.Responded? && !IsSuccessStatus(reply.status) ==> o == Failed(BadStatus(reply.status))
    ensures reply.TimedOut? ==> o == Failed(Timeout)
    ensures reply.TransportError? ==> o == Failed(TransportFailure)
  {
    match reply
    case Responded(status) => if IsSuccessStatus(status) then Succeeded else Failed(BadStatus(status))
    case TimedOut => Failed(Timeout)
    case TransportError => Failed(TransportFailure)
  }

  /** Statuses at and beyond the edges of the success range. */
  lemma StatusBoundaries(c: Command)
    ensures Execute(c, Responded(200)).Succeeded? && Execute(c, Responded(299)).Succeeded?
    ensures Execute(c, Responded(199)) == Failed(BadStatus(199))
    ensures Execute(c, Responded(300)) == Failed(BadStatus(300))
    ensures Execute(c, Responded(404)) == Failed(BadStatus(404))
    ensures Execute(c, Responded(500)) == Failed(BadStatus(500))
    ensures Execute(c, TimedOut).Failed?
  {
  }
}

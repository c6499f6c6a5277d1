/**
 * `client.go`: the client's configuration and its reversible options, the
 * token check of `NewClient`, the session flags of `Start` and `Stop`, the
 * offset cursor of the fetch loop, and what `Raw` does with an error
 * envelope. Time is whole seconds; the rate limiter is its abstract state.
 */
module Clients {
  import opened Wrappers
  import opened GoStrings
  import opened Types
  import Errors
  import Routing

  const DefaultHost: string := "api.telegram.org"
  const DefaultRPS: int := 30
  /** `defaultTimeout`, 10 s. */
  const DefaultTimeout: Int64 := 10
  const DefaultUpdates: Int64 := 100
  const NanosPerSecond: int := 1_000_000_000

  /** `clientOption`. */
  datatype Options = Options(host: string, rps: int, timeout: Int64, test: bool)

  /**
   * The abstract `rate.Limiter`: the interval between tokens in nanoseconds
   * (`rate.Every(interval)`), the burst, and the time before which no token
   * is handed out.
   */
  datatype Limiter = Limiter(interval: int, burst: int, resumeAt: int)

  /** A `*http.Client`: shared, so a timeout set through the client is seen by every holder. */
  class HttpClient {
    var timeout: Int64

    constructor (timeout: Int64)
      ensures this.timeout == timeout
    {
      this.timeout := timeout;
    }
  }

  /** `ClientOption` closures, by the setter that made them. `WithHTTPClient(null)` is `WithHTTPClient(nil)`. */
  datatype ClientOption =
    | WithHost(host: string)
    | WithRPS(rps: int)
    | WithTimeout(timeout: Int64)
    | WithTest(test: bool)
    | WithHTTPClient(client: HttpClient?)
    | WithDefaultParseMode(parseMode: string)

  /** `defaultOpts`, in order. */
  const DefaultOpts: seq<ClientOption> := [WithHost(DefaultHost), WithRPS(DefaultRPS), WithTest(false), WithTimeout(DefaultTimeout)]

  /** `buildLinkPrefix`: `https://<host>/bot<token>/`, then `test/` in test mode. */
  function LinkPrefix(test: bool, host: string, token: string): (r: string)
    ensures "https://" + host + "/bot" + token + "/" <= r
    ensures !test ==> r == "https://" + host + "/bot" + token + "/"
  {
    if test then "https://" + host + "/bot" + token + "/test/" else "https://" + host + "/bot" + token + "/"
  }

  /** The test-mode prefix is the normal one followed by `test/`. */
  lemma LinkPrefixTest(host: string, token: string)
    ensures LinkPrefix(true, host, token) == LinkPrefix(false, host, token) + "test/"
  {
  }

  /** The configuration that options read and write, as one value. The HTTP client is kept apart. */
  datatype Settings = Settings(options: Options, linkPrefix: string, limiter: Limiter, defaultParseMode: string)

  /** The limiter a rate implies: one token every second divided by rps (Go's truncating division), and a burst of rps. */
  function LimiterFor(rps: int, resumeAt: int): (l: Limiter)
    requires rps > 0
    ensures l.burst == rps && l.resumeAt == resumeAt
    ensures l.interval * rps <= NanosPerSecond < (l.interval + 1) * rps
  {
    Limiter(NanosPerSecond / rps, rps, resumeAt)
  }

  /** What running one option does to the settings, and the rollback option it returns. */
  function Applied(s: Settings, token: string, opt: ClientOption): (Settings, ClientOption) {
    match opt
    case WithHost(h) =>
      var o := s.options.(host := h);
      (s.(options := o, linkPrefix := LinkPrefix(o.test, o.host, token)), WithHost(s.options.host))
    case WithRPS(r) =>
      var rps := if r <= 0 then DefaultRPS else r;
      (s.(options := s.options.(rps := rps), limiter := LimiterFor(rps, s.limiter.resumeAt)), WithRPS(s.options.rps))
    case WithTimeout(t) =>
      (s.(options := s.options.(timeout := t)), WithTimeout(s.options.timeout))
    case WithTest(t) =>
      var o := s.options.(test := t);
      (s.(options := o, linkPrefix := LinkPrefix(o.test, o.host, token)), WithTest(s.options.test))
    case WithHTTPClient(_) =>
      (s, opt)
    case WithDefaultParseMode(m) =>
      (s.(defaultParseMode := m), WithDefaultParseMode(s.defaultParseMode))
  }

  /** The consistency `Client` keeps: a positive rate that the limiter follows, and a link prefix built from the current host, token and mode. */
  predicate SettingsValid(s: Settings, token: string) {
    s.options.rps > 0
    && s.limiter.interval == NanosPerSecond / s.options.rps && s.limiter.burst == s.options.rps
    && s.linkPrefix == LinkPrefix(s.options.test, s.options.host, token)
  }

  /** Every option keeps the settings consistent; `WithRPS` with a non-positive rate stores 30. */
  lemma AppliedValid(s: Settings, token: string, opt: ClientOption)
    requires SettingsValid(s, token)
    ensures SettingsValid(Applied(s, token, opt).0, token)
    ensures opt.WithRPS? ==> Applied(s, token, opt).0.options.rps == (if opt.rps <= 0 then DefaultRPS else opt.rps)
  {
  }

  /**
   * Every option returns its own inverse: running the rollback restores the
   * settings, for `WithRPS` when the previous rate was positive (a stored 0
   * comes back as 30), and for `WithHTTPClient` trivially, because it does
   * not touch the settings.
   */
  lemma RollbackRestores(s: Settings, token: string, opt: ClientOption)
    requires SettingsValid(s, token)
    ensures var (s1, back) := Applied(s, token, opt);
      Applied(s1, token, back).0 == s
  {
    match opt
    case WithRPS(r) =>
      assert LimiterFor(s.options.rps, s.limiter.resumeAt) == s.limiter;
    case _ =>
  }

  /** Options applied in order, with the rollback of the last one; nil (`None`) for no options. */
  function ApplyAll(s: Settings, token: string, opts: seq<ClientOption>): (Settings, Option<ClientOption>)
    decreases |opts|
  {
    if opts == [] then (s, None)
    else
      var (s1, _) := ApplyAll(s, token, opts[..|opts| - 1]);
      var (s2, back) := Applied(s1, token, opts[|opts| - 1]);
      (s2, Some(back))
  }

  /** The default options make any settings consistent: `NewClient` starts from a valid configuration. */
  lemma DefaultsValid(s: Settings, token: string)
    ensures SettingsValid(ApplyAll(s, token, DefaultOpts).0, token)
    ensures ApplyAll(s, token, DefaultOpts).0.options == Options(DefaultHost, DefaultRPS, DefaultTimeout, false)
  {
    var o := DefaultOpts;
    assert o[..3][..2][..1][..0] == [];
    var s1 := Applied(s, token, o[0]).0;
    assert ApplyAll(s, token, o[..1]).0 == s1 by {
      assert o[..1][..0] == [];
    }
    var s2 := Applied(s1, token, o[1]).0;
    assert ApplyAll(s, token, o[..2]).0 == s2 by {
      assert o[..2][..1] == o[..1];
    }
    var s3 := Applied(s2, token, o[2]).0;
    assert ApplyAll(s, token, o[..3]).0 == s3 by {
      assert o[..3][..2] == o[..2];
    }
    var s4 := Applied(s3, token, o[3]).0;
    assert ApplyAll(s, token, o).0 == s4 by {
      assert o[..|o| - 1] == o[..3];
    }
    assert s2.options.rps == DefaultRPS && s2.limiter.interval == NanosPerSecond / DefaultRPS && s2.limiter.burst == DefaultRPS;
    assert s3.options == Options(DefaultHost, DefaultRPS, s.options.timeout, false);
    assert s3.linkPrefix == LinkPrefix(false, DefaultHost, token);
  }

  /** Consistent settings stay consistent through any list of options. */
  lemma {:induction false} ApplyAllValid(s: Settings, token: string, opts: seq<ClientOption>)
    requires SettingsValid(s, token)
    ensures SettingsValid(ApplyAll(s, token, opts).0, token)
    decreases |opts|
  {
    if opts != [] {
      ApplyAllValid(s, token, opts[..|opts| - 1]);
      AppliedValid(ApplyAll(s, token, opts[..|opts| - 1]).0, token, opts[|opts| - 1]);
    }
  }

  /** The client errors. */
  datatype ClientError = ErrNoToken | ErrInvalidToken | ErrAlreadyStarted

  /** The token check of `NewClient`: the bot id is the integer before the first `:`. */
  function TokenBotID(token: string): (r: Result<Int64, ClientError>)
    ensures token == "" <==> r == Failure(ErrNoToken)
    ensures r.Failure? ==> r.error == ErrNoToken || r.error == ErrInvalidToken
    ensures token != "" ==> (r.Success? <==> ParseInt(Cut(token, ':').before).Some?)
    ensures r.Success? ==> Some(r.value as int) == ParseInt(Cut(token, ':').before)
  {
    if token == "" then Failure(ErrNoToken)
    else
      var id := ParseInt(Cut(token, ':').before);
      if id.None? then Failure(ErrInvalidToken) else Success(id.value)
  }

  /** A token `<id>:<secret>` yields the id. */
  lemma TokenOfID(id: Int64, secret: string)
    ensures TokenBotID(FormatInt(id) + ":" + secret) == Success(id)
  {
    var digits := FormatInt(id);
    assert ':' !in digits by {
      DigitsNoColon(id);
    }
    CutOfSplit(digits, ':', secret);
    ParseFormat(id);
  }

  lemma DigitsNoColon(id: Int64)
    ensures ':' !in FormatInt(id)
  {
    var r := FormatInt(id);
    if id < 0 {
      assert r[1..] == Digits(-(id as int));
      assert forall i :: 1 <= i < |r| ==> r[i] == r[1..][i - 1];
    }
  }

  /** A closable channel; closing one twice panics in Go. */
  class Chan {
    const capacity: nat
    var closed: bool

    constructor (capacity: nat)
      ensures this.capacity == capacity && !closed
    {
      this.capacity := capacity;
      closed := false;
    }
  }

  /** `GetUpdatesParams`, the fields the fetch loop uses. */
  datatype GetUpdatesParams = GetUpdatesParams(offset: Int64, limit: Int64, timeout: Int64)

  /** The polling parameters of a session: the caller's, with a zero limit read as 100, or 100 updates and the client timeout. */
  function LocalParams(params: Option<GetUpdatesParams>, timeout: Int64): (p: GetUpdatesParams)
    ensures p.limit != 0
    ensures params.None? ==> p == GetUpdatesParams(0, DefaultUpdates, timeout)
    ensures params.Some? ==> p == params.value.(limit := if params.value.limit == 0 then DefaultUpdates else params.value.limit)
  {
    if params.None? then GetUpdatesParams(0, DefaultUpdates, timeout)
    else if params.value.limit == 0 then params.value.(limit := DefaultUpdates)
    else params.value
  }

  /** The worker count as written: `min(max(GOMAXPROCS, 1), Limit)`. */
  function WorkerCountAsWritten(maxProcs: int, limit: Int64): int {
    var procs := if maxProcs > 1 then maxProcs else 1;
    if procs < limit then procs else limit
  }

  /** A negative limit makes the count negative, so `wg.Add` panics after the session is marked started. */
  lemma NegativeLimitPanics(maxProcs: int)
    ensures WorkerCountAsWritten(maxProcs, -1) == -1
    ensures LocalParams(Some(GetUpdatesParams(0, -1, 0)), DefaultTimeout).limit == -1
  {
  }

  /** The worker count with the limit held to at least one: between 1 and the processors, and never above a positive limit. */
  function WorkerCount(maxProcs: int, limit: Int64): (n: int)
    ensures 1 <= n
    ensures n <= maxProcs || n == 1
    ensures limit >= 1 ==> n <= limit
    ensures n == WorkerCountAsWritten(maxProcs, limit) || limit < 1
  {
    var procs := if maxProcs > 1 then maxProcs else 1;
    var limit := if limit < 1 then 1 else limit;
    if procs < limit then procs else limit
  }

  /** What the fetch loop does with one batch: queue the updates in order and move the offset past each one. */
  method AdvanceOffset(offset: Int64, updates: seq<Update>) returns (newOffset: Int64, queued: seq<Update>)
    ensures queued == updates
    ensures updates == [] ==> newOffset == offset
    ensures updates != [] ==> newOffset == WrapInt64(updates[|updates| - 1].updateID + 1)
  {
    newOffset := offset;
    queued := [];
    for i := 0 to |updates|
      invariant queued == updates[..i]
      invariant i == 0 ==> newOffset == offset
      invariant i > 0 ==> newOffset == WrapInt64(updates[i - 1].updateID + 1)
    {
      queued := queued + [updates[i]];
      newOffset := WrapInt64(updates[i].updateID + 1);
    }
  }

  /** The decoded response envelope `Response`. */
  datatype Response = Response(ok: bool, result: string, errorCode: int, description: string,
                               parameters: Option<Errors.ResponseParameters>)

  /** What decoding the body gave: an empty body, another decode failure, or an envelope. */
  datatype Decoded = EmptyBody | Malformed(reason: string) | Envelope(response: Response)

  datatype RawError = APIFailure(err: Errors.Error) | DecodeFailure(reason: string)

  /** The error of an empty body: `errors.Join(ErrBadRequest, ErrEOF)`. */
  const EmptyBodyError: Errors.Error := Errors.Joined([Errors.Known(Errors.BadRequest), Errors.Known(Errors.EOF)])

  /** An empty body is a bad request and an EOF; no other decode failure is either. */
  lemma EmptyBodyIs()
    ensures Errors.Is(EmptyBodyError, Errors.BadRequest) && Errors.Is(EmptyBodyError, Errors.EOF)
  {
    var e := EmptyBodyError;
    assert Errors.Is(e.errs[0], Errors.BadRequest);
    assert Errors.Is(e.errs[1], Errors.EOF);
    Errors.AnyIsExists(e.errs, Errors.BadRequest, e);
    Errors.AnyIsExists(e.errs, Errors.EOF, e);
  }

  /** The settings of `new(Client)`: every field zero. */
  const ZeroSettings: Settings := Settings(Options("", 0, 0, false), "", Limiter(0, 0, 0), "")

  class Client {
    const id: Int64
    const token: string
    var options: Options
    var linkPrefix: string
    var limiter: Limiter
    var defaultParseMode: string
    var httpClient: HttpClient
    var updates: Chan?
    var done: Chan?
    var started: bool
    var router: Routing.Router

    /** `new(Client)` with the bot id and token set, everything else zero. */
    constructor (id: Int64, token: string)
      ensures this.id == id && this.token == token
      ensures Snapshot() == ZeroSettings
      ensures fresh(httpClient) && fresh(router) && router.Valid()
      ensures updates == null && done == null && !started
    {
      this.id := id;
      this.token := token;
      options := Options("", 0, 0, false);
      linkPrefix := "";
      limiter := Limiter(0, 0, 0);
      defaultParseMode := "";
      httpClient := new HttpClient(0);
      updates := null;
      done := null;
      started := false;
      router := new Routing.Router();
    }

    /** The configuration part of the state. */
    function Snapshot(): Settings
      reads this
    {
      Settings(options, linkPrefix, limiter, defaultParseMode)
    }

    /** The session flags: an open `done` belongs to a started session and is not yet closed. */
    ghost predicate SessionValid()
      reads this, done
    {
      done != null ==> started && !done.closed
    }

    /**
     * Running one option: the settings change as `Applied` says and the
     * rollback is its second half. `WithTimeout` also sets the timeout of
     * the current HTTP client; `WithHTTPClient` swaps the client, making a
     * new one with the current timeout for nil.
     */
    method Apply(opt: ClientOption) returns (rollback: ClientOption)
      modifies this, httpClient
      ensures Snapshot() == Applied(old(Snapshot()), token, opt).0
      ensures !opt.WithHTTPClient? ==> rollback == Applied(old(Snapshot()), token, opt).1
      ensures opt.WithHTTPClient? ==> rollback == WithHTTPClient(old(httpClient))
      ensures opt.WithHTTPClient? && opt.client != null ==> httpClient == opt.client
      ensures opt.WithHTTPClient? && opt.client == null ==> fresh(httpClient) && httpClient.timeout == options.timeout
      ensures !opt.WithHTTPClient? ==> httpClient == old(httpClient)
      ensures opt.WithTimeout? ==> httpClient.timeout == opt.timeout
      ensures !opt.WithTimeout? && !opt.WithHTTPClient? ==> httpClient.timeout == old(httpClient.timeout)
      ensures updates == old(updates) && done == old(done) && started == old(started) && router == old(router)
    {
      match opt {
        case WithHost(h) =>
          rollback := WithHost(options.host);
          options := options.(host := h);
          linkPrefix := LinkPrefix(options.test, options.host, token);
        case WithRPS(r) =>
          rollback := WithRPS(options.rps);
          var rps := if r <= 0 then DefaultRPS else r;
          options := options.(rps := rps);
          limiter := limiter.(interval := NanosPerSecond / rps, burst := rps);
        case WithTimeout(t) =>
          rollback := WithTimeout(options.timeout);
          options := options.(timeout := t);
          httpClient.timeout := t;
        case WithTest(t) =>
          rollback := WithTest(options.test);
          options := options.(test := t);
          linkPrefix := LinkPrefix(options.test, options.host, token);
        case WithHTTPClient(c) =>
          rollback := WithHTTPClient(httpClient);
          if c == null {
            httpClient := new HttpClient(options.timeout);
          } else {
            httpClient := c;
          }
        case WithDefaultParseMode(m) =>
          rollback := WithDefaultParseMode(defaultParseMode);
          defaultParseMode := m;
      }
    }

    /** `Option`: runs the options in order and returns the rollback of the last, nil for none. */
    method Option(opts: seq<ClientOption>) returns (previous: Option<ClientOption>)
      modifies this, httpClient, set i | 0 <= i < |opts| && opts[i].WithHTTPClient? && opts[i].client != null :: opts[i].client
      ensures Snapshot() == ApplyAll(old(Snapshot()), token, opts).0
      ensures (opts == [] <==> previous.None?)
      ensures opts != [] && !opts[|opts| - 1].WithHTTPClient? ==> previous == ApplyAll(old(Snapshot()), token, opts).1
      ensures opts != [] && opts[|opts| - 1].WithHTTPClient? ==> previous.Some? && previous.value.WithHTTPClient?
      ensures httpClient == old(httpClient) || fresh(httpClient)
        || exists j :: 0 <= j < |opts| && opts[j].WithHTTPClient? && opts[j].client == httpClient
      ensures updates == old(updates) && done == old(done) && started == old(started) && router == old(router)
    {
      previous := None;
      ghost var s0 := Snapshot();
      for i := 0 to |opts|
        invariant Snapshot() == ApplyAll(s0, token, opts[..i]).0
        invariant i == 0 <==> previous.None?
        invariant i > 0 && !opts[i - 1].WithHTTPClient? ==> previous == ApplyAll(s0, token, opts[..i]).1
        invariant i > 0 && opts[i - 1].WithHTTPClient? ==> previous.Some? && previous.value.WithHTTPClient?
        invariant httpClient == old(httpClient) || fresh(httpClient)
          || exists j :: 0 <= j < i && opts[j].WithHTTPClient? && opts[j].client == httpClient
        invariant updates == old(updates) && done == old(done) && started == old(started) && router == old(router)
      {
        ghost var before := Snapshot();
        assert opts[..i + 1][..i] == opts[..i] && opts[..i + 1][i] == opts[i];
        assert ApplyAll(s0, token, opts[..i + 1]) ==
          (Applied(before, token, opts[i]).0, Some(Applied(before, token, opts[i]).1));
        var back := Apply(opts[i]);
        previous := Some(back);
      }
      assert opts[..|opts|] == opts;
    }

    /** `Stop`: closes `done` if it is open and forgets it, so a second `Stop` does nothing. */
    method Stop()
      requires SessionValid()
      modifies this, done
      ensures SessionValid()
      ensures done == null
      ensures old(done) != null ==> old(done).closed
      ensures Snapshot() == old(Snapshot()) && started == old(started) && updates == old(updates)
      ensures httpClient == old(httpClient) && router == old(router)
    {
      if done != null {
        done.closed := true;
        done := null;
      }
    }

    /**
     * The guard and set-up of `Start`: a started client is refused and left
     * as it is; otherwise a fresh queue of 100 updates and a fresh `done`
     * open a session, and the polling parameters and worker count are fixed.
     * The count is the corrected `WorkerCount`; as written, a negative
     * limit makes `wg.Add` panic here (see `NegativeLimitPanics`).
     */
    method BeginSession(params: Option<GetUpdatesParams>, maxProcs: int)
      returns (r: Result<(GetUpdatesParams, int), ClientError>)
      requires SessionValid()
      modifies this
      ensures SessionValid()
      ensures old(started) <==> r.Failure?
      ensures r.Failure? ==> r.error == ErrAlreadyStarted
      ensures old(started) ==> started && updates == old(updates) && done == old(done)
      ensures !old(started) ==> started && fresh(updates) && updates.capacity == DefaultUpdates as nat && fresh(done)
      ensures r.Success? ==> r.value.0 == LocalParams(params, options.timeout)
      ensures r.Success? ==> r.value.1 == WorkerCount(maxProcs, r.value.0.limit)
      ensures Snapshot() == old(Snapshot()) && httpClient == old(httpClient) && router == old(router)
    {
      if started {
        return Failure(ErrAlreadyStarted);
      }
      updates := new Chan(DefaultUpdates as nat);
      done := new Chan(0);
      started := true;
      var local := LocalParams(params, options.timeout);
      r := Success((local, WorkerCount(maxProcs, local.limit)));
    }

    /** The end of `Start`, once every worker has returned: the session's queue and `done` are dropped and the client can start again. */
    method EndSession()
      modifies this
      ensures updates == null && done == null && !started
      ensures SessionValid()
      ensures Snapshot() == old(Snapshot()) && httpClient == old(httpClient) && router == old(router)
    {
      updates := null;
      done := null;
      started := false;
    }

    /**
     * `Start` run sequentially: the guard, then, for an accepted session,
     * its end. The session in between (fetching and workers) is concurrent
     * and outside this model; it ends with the context's error.
     */
    method Start(params: Option<GetUpdatesParams>, maxProcs: int, ctxErr: Option<string>)
      returns (err: Result<Option<string>, ClientError>)
      requires SessionValid()
      modifies this, done
      ensures SessionValid()
      ensures old(started) ==> err == Failure(ErrAlreadyStarted) && started && done == old(done) && updates == old(updates)
      ensures !old(started) ==> err == Success(ctxErr) && !started && done == null && updates == null
      ensures Snapshot() == old(Snapshot()) && httpClient == old(httpClient) && router == old(router)
    {
      var begun := BeginSession(params, maxProcs);
      if begun.Failure? {
        return Failure(begun.error);
      }
      EndSession();
      err := Success(ctxErr);
    }

    /**
     * The error-envelope branch of `Raw`, from the decoded body on: an empty
     * body is `Join(ErrBadRequest, ErrEOF)`, another decode failure is
     * passed on, a successful envelope yields its result. A failed one is
     * classified; an unauthorized or banned bot stops the client, and a
     * retry error holds the limiter back until now plus the wait, leaving
     * its rate as it is.
     */
    method HandleEnvelope(decoded: Decoded, status: string, now: int) returns (r: Result<string, RawError>)
      requires SessionValid()
      modifies this, done
      ensures SessionValid()
      ensures decoded.EmptyBody? ==> r == Failure(APIFailure(EmptyBodyError))
      ensures decoded.Malformed? ==> r == Failure(DecodeFailure(decoded.reason))
      ensures decoded.Envelope? && decoded.response.ok ==> r == Success(decoded.response.result)
      ensures decoded.Envelope? && !decoded.response.ok ==>
        var resp := decoded.response;
        var e := Errors.GenError(resp.errorCode, status, resp.description, resp.parameters);
        && r == Failure(APIFailure(e))
        && var stops := Errors.Is(e, Errors.Unauthorized) || Errors.Is(e, Errors.NotFoundBanned);
        && (stops ==> done == null && (old(done) != null ==> old(done).closed))
        && (!stops ==> done == old(done) && (done != null ==> !done.closed))
        && (Errors.AsRetry(e).Some? ==> limiter == old(limiter).(resumeAt := now + Errors.AsRetry(e).value))
        && (Errors.AsRetry(e).None? ==> limiter == old(limiter))
      ensures !(decoded.Envelope? && !decoded.response.ok) ==> limiter == old(limiter) && done == old(done)
      ensures options == old(options) && linkPrefix == old(linkPrefix) && defaultParseMode == old(defaultParseMode)
      ensures started == old(started) && updates == old(updates) && httpClient == old(httpClient) && router == old(router)
    {
      match decoded {
        case EmptyBody =>
          return Failure(APIFailure(EmptyBodyError));
        case Malformed(reason) =>
          return Failure(DecodeFailure(reason));
        case Envelope(resp) =>
          if resp.ok {
            return Success(resp.result);
          }
          var e := Errors.GenError(resp.errorCode, status, resp.description, resp.parameters);
          if Errors.Is(e, Errors.Unauthorized) || Errors.Is(e, Errors.NotFoundBanned) {
            Stop();
          }
          var retry := Errors.AsRetry(e);
          if retry.Some? {
            limiter := limiter.(resumeAt := now + retry.value);
          }
          return Failure(APIFailure(e));
      }
    }
  }

  /**
   * `NewClient`: an empty token and a token whose part before the first `:`
   * is not an `int64` are refused; otherwise a client with that bot id, the
   * default options, then the caller's.
   */
  method NewClient(token: string, opts: seq<ClientOption>) returns (r: Result<Client, ClientError>)
    modifies set i | 0 <= i < |opts| && opts[i].WithHTTPClient? && opts[i].client != null :: opts[i].client
    ensures token == "" ==> r == Failure(ErrNoToken)
    ensures r.Failure? <==> TokenBotID(token).Failure?
    ensures r.Failure? ==> r.error == TokenBotID(token).error
    ensures r.Success? ==> fresh(r.value) && r.value.id == TokenBotID(token).value && r.value.token == token
    ensures r.Success? ==> r.value.Snapshot() == ApplyAll(ApplyAll(ZeroSettings, token, DefaultOpts).0, token, opts).0
    ensures r.Success? ==> SettingsValid(r.value.Snapshot(), token)
    ensures r.Success? ==> !r.value.started && r.value.SessionValid()
  {
    var id := TokenBotID(token);
    if id.Failure? {
      return Failure(id.error);
    }
    var c := new Client(id.value, token);
    ghost var s0 := c.Snapshot();
    var _ := c.Option(DefaultOpts);
    DefaultsValid(s0, token);
    ghost var s1 := c.Snapshot();
    var _ := c.Option(opts);
    ApplyAllValid(s1, token, opts);
    r := Success(c);
  }
}

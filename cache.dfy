/** The `/top-traders` handler (main.js:8-73): a single in-memory cache slot,
    the decision whether to call the fetcher, and the four ways a request
    can end. */
module TopTraders {
  import opened Options
  import opened Traders

  /** Ten minutes, in milliseconds. */
  const CacheExpirationMs: int := 10 * 60 * 1000

  /** What `await fetchTopTraders()` produced: a resolved object, whose
      `error` field and `data.rank` list may each be missing, or a
      rejection carrying the exception's message. */
  datatype FetchOutcome =
    | Resolved(error: Option<string>, rank: Option<seq<RawEntry>>)
    | Rejected(message: string)

  /** A fetch fails when it was rejected or resolved with a truthy `error`. */
  predicate FetchFailed(outcome: FetchOutcome)
  {
    outcome.Rejected? || Truthy(outcome.error)
  }

  /** The message a failed fetch reports. */
  function FailureMessage(outcome: FetchOutcome): (msg: string)
    requires FetchFailed(outcome)
    ensures outcome.Rejected? ==> msg == outcome.message
    ensures outcome.Resolved? ==> Some(msg) == outcome.error && msg != ""
  {
    if outcome.Rejected? then outcome.message else outcome.error.value
  }

  /** The JSON body the handler answers with. Timestamps are the stored
      milliseconds; their ISO rendering is not modelled. */
  datatype Response =
    | Success(lastUpdated: int, count: nat, traders: seq<Trader>)
    | StaleDataError(error: string, lastUpdated: int, traders: seq<Trader>)
    | StaleDataException(error: string, lastUpdated: int, traders: seq<Trader>)
    | InternalError(error: string)  // HTTP 500 with only an `error` field

  /** The HTTP status of a response. */
  function StatusCode(r: Response): (code: nat)
  {
    if r.InternalError? then 500 else 200
  }

  /** The contents of the cache slot. */
  datatype CacheState = CacheState(data: Option<seq<Trader>>, lastUpdated: Option<int>)

  /** The slot as the process starts. */
  const Initial: CacheState := CacheState(None, None)

  /** The data and the timestamp are present together or not at all. */
  predicate Consistent(s: CacheState)
  {
    s.data.Some? <==> s.lastUpdated.Some?
  }

  /** The cache has expired when a truthy timestamp is more than the
      expiration time old: the age is compared strictly, and a timestamp of
      0, being falsy, never expires. */
  predicate Expired(s: CacheState, now: int)
    ensures s.lastUpdated.None? ==> !Expired(s, now)
    ensures s.lastUpdated.Some? && now - s.lastUpdated.value <= CacheExpirationMs ==> !Expired(s, now)
    ensures Expired(s, now) ==> s.lastUpdated.Some? && s.lastUpdated.value != 0
                                && now >= s.lastUpdated.value + CacheExpirationMs + 1
  {
    TruthyInt(s.lastUpdated) && now - s.lastUpdated.value > CacheExpirationMs
  }

  /** The handler calls the fetcher when a refresh is forced, when there is
      no data (an empty list counts as data), or when the cache expired. */
  predicate ShouldFetch(s: CacheState, refresh: bool, now: int)
    ensures refresh || s.data.None? ==> ShouldFetch(s, refresh, now)
    ensures !refresh && s.data.Some? && s.lastUpdated.Some? && now - s.lastUpdated.value <= CacheExpirationMs
            ==> !ShouldFetch(s, refresh, now)
    ensures !refresh && s.data.Some? && s.lastUpdated == Some(0) ==> !ShouldFetch(s, refresh, now)
  {
    refresh || s.data.None? || Expired(s, now)
  }

  /** What one request does: the response, the slot afterwards, and whether
      the fetcher was called. */
  datatype Reply = Reply(response: Response, next: CacheState, fetched: bool)

  /** The handler on one request, as a function of the slot before it. */
  function Step(s: CacheState, refresh: bool, now: int, outcome: FetchOutcome): (r: Reply)
    requires Consistent(s)
    ensures Consistent(r.next)
    ensures r.fetched == ShouldFetch(s, refresh, now)
    ensures r.response.Success? ==> r.next.data == Some(r.response.traders)
                                    && r.next.lastUpdated == Some(r.response.lastUpdated)
                                    && r.response.count == |r.response.traders|
    ensures !r.response.Success? ==> r.next == s && r.fetched && FetchFailed(outcome)
                                     && r.response.error == FailureMessage(outcome)
    ensures r.fetched && !FetchFailed(outcome) ==> r.next == CacheState(Some(Normalize(outcome.rank)), Some(now))
    ensures !r.fetched ==> r.next == s && r.response.Success?
  {
    if !ShouldFetch(s, refresh, now) then
      Reply(Success(s.lastUpdated.value, |s.data.value|, s.data.value), s, false)
    else if FetchFailed(outcome) then
      var msg := FailureMessage(outcome);
      var response :=
        if s.data.None? then InternalError(msg)
        else if outcome.Rejected? then StaleDataException(msg, s.lastUpdated.value, s.data.value)
        else StaleDataError(msg, s.lastUpdated.value, s.data.value);
      Reply(response, s, true)
    else
      var traders := Normalize(outcome.rank);
      Reply(Success(now, |traders|, traders), CacheState(Some(traders), Some(now)), true)
  }

  /** The age boundary is strict: exactly ten minutes old is still fresh,
      one millisecond more is expired (unless the timestamp is 0). */
  lemma ExpiryBoundary(data: seq<Trader>, t: int)
    requires t != 0
    ensures !Expired(CacheState(Some(data), Some(t)), t + CacheExpirationMs)
    ensures Expired(CacheState(Some(data), Some(t)), t + CacheExpirationMs + 1)
  {
  }

  /** A cache holding data stamped at 0 is never expired, however late. */
  lemma ZeroTimestampNeverExpires(data: seq<Trader>, now: int)
    ensures !ShouldFetch(CacheState(Some(data), Some(0)), false, now)
  {
  }

  /** A successful fetch, even one with no rows or no rank list at all,
      fills the cache with the normalised rows stamped `now`. */
  lemma SuccessfulFetchReplacesCache(s: CacheState, refresh: bool, now: int, outcome: FetchOutcome)
    requires Consistent(s) && ShouldFetch(s, refresh, now) && !FetchFailed(outcome)
    ensures Step(s, refresh, now, outcome).response
            == Success(now, |Normalize(outcome.rank)|, Normalize(outcome.rank))
    ensures Step(s, refresh, now, outcome).next
            == CacheState(Some(Normalize(outcome.rank)), Some(now))
  {
  }

  /** A resolved object whose `error` is the empty string is not a failure. */
  lemma EmptyErrorIsNotFailure(rank: Option<seq<RawEntry>>)
    ensures !FetchFailed(Resolved(Some(""), rank))
  {
  }

  /** When the fetch reports an error and data exists, the old data and
      timestamp are served as `stale_data_error` and the slot is kept. */
  lemma ErrorFieldServesStale(s: CacheState, refresh: bool, now: int, error: string, rank: Option<seq<RawEntry>>)
    requires Consistent(s) && s.data.Some? && ShouldFetch(s, refresh, now) && error != ""
    ensures Step(s, refresh, now, Resolved(Some(error), rank))
            == Reply(StaleDataError(error, s.lastUpdated.value, s.data.value), s, true)
  {
  }

  /** When the fetch throws and data exists, the old data and timestamp are
      served as `stale_data_exception` and the slot is kept. */
  lemma ExceptionServesStale(s: CacheState, refresh: bool, now: int, message: string)
    requires Consistent(s) && s.data.Some? && ShouldFetch(s, refresh, now)
    ensures Step(s, refresh, now, Rejected(message))
            == Reply(StaleDataException(message, s.lastUpdated.value, s.data.value), s, true)
  {
  }

  /** Any failure with no data yet is an HTTP 500 carrying only the message,
      and the slot stays empty. */
  lemma FailureWithoutDataIsInternalError(refresh: bool, now: int, outcome: FetchOutcome)
    requires FetchFailed(outcome)
    ensures Step(Initial, refresh, now, outcome) == Reply(InternalError(FailureMessage(outcome)), Initial, true)
    ensures StatusCode(Step(Initial, refresh, now, outcome).response) == 500
  {
  }

  /** A request is answered with HTTP 500 exactly when the cache holds no
      data, the fetcher is called, and the fetch fails. */
  lemma InternalErrorExactly(s: CacheState, refresh: bool, now: int, outcome: FetchOutcome)
    requires Consistent(s)
    ensures StatusCode(Step(s, refresh, now, outcome).response) == 500
            <==> s.data.None? && ShouldFetch(s, refresh, now) && FetchFailed(outcome)
  {
  }

  /** Two non-forced requests inside the freshness window both answer the
      cached traders, identically, without calling the fetcher. */
  lemma FreshRequestsIdempotent(s: CacheState, now1: int, now2: int, o1: FetchOutcome, o2: FetchOutcome)
    requires Consistent(s) && s.data.Some? && !Expired(s, now1) && !Expired(s, now2)
    ensures !Step(s, false, now1, o1).fetched
    ensures !Step(Step(s, false, now1, o1).next, false, now2, o2).fetched
    ensures Step(Step(s, false, now1, o1).next, false, now2, o2).response
            == Step(s, false, now1, o1).response
            == Success(s.lastUpdated.value, |s.data.value|, s.data.value)
  {
  }

  /** One request to the endpoint and the fetch outcome it would see. */
  datatype Request = Request(refresh: bool, now: int, outcome: FetchOutcome)

  /** The replies to a sequence of requests handled one after another. */
  function Run(s: CacheState, reqs: seq<Request>): (r: seq<Reply>)
    requires Consistent(s)
    ensures |r| == |reqs|
    ensures forall i :: 0 <= i < |r| ==> Consistent(r[i].next)
    decreases |reqs|
  {
    if reqs == [] then []
    else
      var first := Step(s, reqs[0].refresh, reqs[0].now, reqs[0].outcome);
      [first] + Run(first.next, reqs[1..])
  }

  /** The slot after a sequence of requests. */
  function Final(s: CacheState, reqs: seq<Request>): (f: CacheState)
    requires Consistent(s)
    ensures Consistent(f)
    ensures reqs != [] ==> f == Run(s, reqs)[|reqs| - 1].next
    decreases |reqs|
  {
    if reqs == [] then s
    else Final(Step(s, reqs[0].refresh, reqs[0].now, reqs[0].outcome).next, reqs[1..])
  }

  /** Once the cache holds data it never loses it, and no later request is
      answered with HTTP 500: failures are masked by the stale data. */
  lemma {:induction false} OnceFilledNeverInternalError(s: CacheState, reqs: seq<Request>)
    requires Consistent(s) && s.data.Some?
    ensures forall i :: 0 <= i < |reqs| ==> Run(s, reqs)[i].next.data.Some?
    ensures forall i :: 0 <= i < |reqs| ==> !Run(s, reqs)[i].response.InternalError?
    ensures Final(s, reqs).data.Some?
    decreases |reqs|
  {
    if reqs != [] {
      var first := Step(s, reqs[0].refresh, reqs[0].now, reqs[0].outcome);
      OnceFilledNeverInternalError(first.next, reqs[1..]);
      assert Run(s, reqs) == [first] + Run(first.next, reqs[1..]);
    }
  }

  /** Any number of non-forced requests inside the freshness window never
      call the fetcher and all answer the same cached traders. */
  lemma {:induction false} FreshWindowServesSameTraders(s: CacheState, reqs: seq<Request>)
    requires Consistent(s) && s.data.Some?
    requires forall i :: 0 <= i < |reqs| ==> !reqs[i].refresh && !Expired(s, reqs[i].now)
    ensures forall i :: 0 <= i < |reqs| ==>
              !Run(s, reqs)[i].fetched && Run(s, reqs)[i].next == s
              && Run(s, reqs)[i].response == Success(s.lastUpdated.value, |s.data.value|, s.data.value)
    decreases |reqs|
  {
    if reqs != [] {
      var first := Step(s, reqs[0].refresh, reqs[0].now, reqs[0].outcome);
      assert first.next == s;
      FreshWindowServesSameTraders(s, reqs[1..]);
      assert Run(s, reqs) == [first] + Run(s, reqs[1..]);
    }
  }

  /** Every `success` answer in a sequence of requests serves exactly what
      the cache holds right after it, with the matching count. */
  lemma {:induction false} SuccessMatchesCache(s: CacheState, reqs: seq<Request>, i: nat)
    requires Consistent(s) && i < |reqs|
    requires Run(s, reqs)[i].response.Success?
    ensures Run(s, reqs)[i].next.data == Some(Run(s, reqs)[i].response.traders)
    ensures Run(s, reqs)[i].response.count == |Run(s, reqs)[i].response.traders|
    decreases |reqs|
  {
    var first := Step(s, reqs[0].refresh, reqs[0].now, reqs[0].outcome);
    assert Run(s, reqs) == [first] + Run(first.next, reqs[1..]);
    if i > 0 {
      SuccessMatchesCache(first.next, reqs[1..], i - 1);
    }
  }

  /** The process-wide cache slot of main.js:8-11. */
  class Cache {
    var data: Option<seq<Trader>>
    var lastUpdated: Option<int>

    ghost predicate Valid()
      reads this
    {
      Consistent(State())
    }

    /** The abstract contents of the slot. */
    function State(): (st: CacheState)
      reads this
    {
      CacheState(data, lastUpdated)
    }

    /** The slot starts empty. */
    constructor ()
      ensures Valid() && State() == Initial
    {
      data := None;
      lastUpdated := None;
    }

    /** Handle one `/top-traders` request at time `now`; `outcome` is what
        the fetcher would produce if called, and `fetched` tells whether it
        was. */
    method Handle(refresh: bool, now: int, outcome: FetchOutcome) returns (response: Response, fetched: bool)
      requires Valid()
      modifies this
      ensures Valid()
      ensures fetched == ShouldFetch(old(State()), refresh, now)
      ensures !response.Success? ==> State() == old(State())
      ensures Reply(response, State(), fetched) == Step(old(State()), refresh, now, outcome)
    {
      fetched := false;
      if refresh || data.None? || (TruthyInt(lastUpdated) && now - lastUpdated.value > CacheExpirationMs) {
        fetched := true;
        match outcome {
          case Rejected(message) =>
            if data.Some? {
              return StaleDataException(message, lastUpdated.value, data.value), fetched;
            }
            return InternalError(message), fetched;
          case Resolved(error, rank) =>
            if Truthy(error) {
              if data.Some? {
                return StaleDataError(error.value, lastUpdated.value, data.value), fetched;
              }
              return InternalError(error.value), fetched;
            }
            var traders := Normalize(rank);
            data := Some(traders);
            lastUpdated := Some(now);
        }
      }
      response := Success(lastUpdated.value, |data.value|, data.value);
    }
  }

  /** Two non-forced requests to a filled cache inside the freshness window
      get identical answers and leave the slot as it was. */
  method RepeatWithinWindow(c: Cache, now1: int, now2: int, o1: FetchOutcome, o2: FetchOutcome)
    returns (r1: Response, r2: Response, f1: bool, f2: bool)
    requires c.Valid() && c.data.Some? && !Expired(c.State(), now1) && !Expired(c.State(), now2)
    modifies c
    ensures !f1 && !f2
    ensures r1 == r2 && r1.Success? && r1.traders == old(c.data).value
    ensures c.State() == old(c.State())
  {
    r1, f1 := c.Handle(false, now1, o1);
    r2, f2 := c.Handle(false, now2, o2);
  }
}

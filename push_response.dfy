// The Expo push gateway's reply: a ticket per message sent plus optional
// request-level errors, and the predicates and counts the backend derives from it.
module PushResponse {
  import opened Wrappers

  /** The `details` object of an error ticket. */
  datatype Details = Details(error: Option<string>, message: Option<string>)

  /** One ticket per message; `status` is "ok", "error" or anything the gateway sends. */
  datatype Ticket = Ticket(status: Option<string>, id: Option<string>, message: Option<string>,
                           details: Option<Details>)

  /** A request-level error. */
  datatype PushError = PushError(code: Option<string>, message: Option<string>)

  /** Both lists may be absent (JSON null). */
  datatype Response = Response(data: Option<seq<Ticket>>, errors: Option<seq<PushError>>)

  /** `new ExpoPushResponse()`: what the service returns when nothing was sent or a call failed. */
  const EmptyResponse: Response := Response(None, None)

  predicate IsSuccess(t: Ticket) { t.status == Some("ok") }

  predicate IsError(t: Ticket) { t.status == Some("error") }

  predicate IsDeviceNotRegistered(d: Details) { d.error == Some("DeviceNotRegistered") }

  predicate IsInvalidCredentials(d: Details) { d.error == Some("InvalidCredentials") }

  predicate IsMessageTooBig(d: Details) { d.error == Some("MessageTooBig") }

  predicate IsMessageRateExceeded(d: Details) { d.error == Some("MessageRateExceeded") }

  /** The number of tickets satisfying p (a stream filter followed by count()). */
  function Count(ts: seq<Ticket>, p: Ticket -> bool): (n: nat)
    ensures n <= |ts|
  {
    if |ts| == 0 then 0 else Count(ts[..|ts| - 1], p) + (if p(ts[|ts| - 1]) then 1 else 0)
  }

  /** The positions whose ticket satisfies p: the reference definition of a count. */
  function Positions(ts: seq<Ticket>, p: Ticket -> bool): set<nat>
  {
    set i: nat | i < |ts| && p(ts[i])
  }

  predicate HasErrors(r: Response)
  {
    r.errors.Some? && |r.errors.value| > 0
  }

  function SuccessCount(r: Response): nat
  {
    if r.data.None? then 0 else Count(r.data.value, IsSuccess)
  }

  function FailureCount(r: Response): nat
  {
    if r.data.None? then 0 else Count(r.data.value, IsError)
  }

  function TotalCount(r: Response): nat
  {
    if r.data.None? then 0 else |r.data.value|
  }

  predicate IsAllSuccess(r: Response)
  {
    !HasErrors(r) && TotalCount(r) > 0 && FailureCount(r) == 0
  }

  predicate HasPartialSuccess(r: Response)
  {
    SuccessCount(r) > 0 && FailureCount(r) > 0
  }

  /** The ticket predicates: "ok" is success, "error" is error, and every other status is neither. */
  lemma TicketStatusClasses(t: Ticket)
    ensures IsSuccess(t) <==> t.status == Some("ok")
    ensures IsError(t) <==> t.status == Some("error")
    ensures !(IsSuccess(t) && IsError(t))
    ensures t.status.None? ==> !IsSuccess(t) && !IsError(t)
  {
  }

  /** The four detail codes are distinct literals, so at most one detail predicate holds. */
  lemma AtMostOneDetail(d: Details)
    ensures IsDeviceNotRegistered(d) ==> !IsInvalidCredentials(d) && !IsMessageTooBig(d) && !IsMessageRateExceeded(d)
    ensures IsInvalidCredentials(d) ==> !IsMessageTooBig(d) && !IsMessageRateExceeded(d)
    ensures IsMessageTooBig(d) ==> !IsMessageRateExceeded(d)
  {
  }

  /** A count is the number of positions whose ticket satisfies the predicate. */
  lemma {:induction false} CountIsPositions(ts: seq<Ticket>, p: Ticket -> bool)
    ensures Count(ts, p) == |Positions(ts, p)|
  {
    if |ts| > 0 {
      var n := |ts| - 1;
      CountIsPositions(ts[..n], p);
      var before := Positions(ts[..n], p);
      assert Positions(ts, p) == before + (if p(ts[n]) then {n} else {}) by {
        forall i: nat | i < |ts|
          ensures i in Positions(ts, p) <==> i in before + (if p(ts[n]) then {n} else {})
        {
          if i < n { assert ts[..n][i] == ts[i]; }
        }
      }
      assert n !in before;
    }
  }

  /** No position satisfies p exactly when the count is zero. */
  lemma CountZeroIff(ts: seq<Ticket>, p: Ticket -> bool)
    ensures Count(ts, p) == 0 <==> forall i :: 0 <= i < |ts| ==> !p(ts[i])
  {
    CountIsPositions(ts, p);
    if Count(ts, p) == 0 {
      forall i | 0 <= i < |ts| ensures !p(ts[i]) {
        assert i !in Positions(ts, p);
      }
    } else {
      var i :| i in Positions(ts, p);
    }
  }

  /** Counts are zero without data, and success and failure never exceed the total together. */
  lemma {:induction false} CountsBounded(r: Response)
    ensures r.data.None? ==> SuccessCount(r) == 0 && FailureCount(r) == 0 && TotalCount(r) == 0
    ensures SuccessCount(r) + FailureCount(r) <= TotalCount(r)
  {
    if r.data.Some? {
      DisjointCounts(r.data.value);
    }
  }

  lemma {:induction false} DisjointCounts(ts: seq<Ticket>)
    ensures Count(ts, IsSuccess) + Count(ts, IsError) <= |ts|
  {
    if |ts| > 0 {
      DisjointCounts(ts[..|ts| - 1]);
    }
  }

  /**
   * isAllSuccess holds exactly when there are no request-level errors, some
   * ticket came back, and no ticket is an error; tickets with an unknown
   * status do not prevent it.
   */
  lemma AllSuccessIff(r: Response)
    ensures IsAllSuccess(r) <==>
      !HasErrors(r) && r.data.Some? && |r.data.value| > 0
      && forall i :: 0 <= i < |r.data.value| ==> !IsError(r.data.value[i])
  {
    if r.data.Some? {
      CountZeroIff(r.data.value, IsError);
    }
  }

  /** A partial success has an error ticket, so it is never an all-success. */
  lemma PartialExcludesAll(r: Response)
    ensures HasPartialSuccess(r) ==> !IsAllSuccess(r)
  {
  }
}

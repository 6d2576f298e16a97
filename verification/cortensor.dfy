/** The router client's status side: how each of the three reads settles,
    how their results combine into one `NetworkStats` summary, and the
    fixed demo summary. The HTTP requests themselves are not modelled: each
    read is represented by how its request ended. */
module Cortensor {
  import opened Optional
  import opened Types

  /** Body of the status endpoint. The JSON is not validated, so either
      field may be missing. */
  datatype RouterStatus = RouterStatus(status: Option<string>, health: Option<string>, version: Option<string>)

  datatype Miner = Miner(id: string, address: string, status: string, model: Option<string>)

  datatype Session = Session(id: int, status: string, tasks: int)

  /** How one HTTP read ended: a parsed body, a non-2xx status, a transport
      failure thrown by `fetch`, or a 2xx response whose body is not JSON. */
  datatype Response<T> = Body(body: T) | NotOk | TransportError | MalformedBody

  /** How a promise settles. */
  datatype Settled<T> = Resolved(value: T) | Rejected

  // ---------------------------------------------------------------------
  // The three reads
  // ---------------------------------------------------------------------

  /** A read as written: a non-2xx status and a thrown `fetch` are caught
      and give the fallback, but the body is returned as the un-awaited
      promise of `response.json()`, so its rejection escapes the `catch`. */
  function SettleAsWritten<T>(r: Response<T>, fallback: T): (s: Settled<T>)
    ensures s.Rejected? <==> r.MalformedBody?
    ensures r.Body? ==> s == Resolved(r.body)
    ensures r.NotOk? || r.TransportError? ==> s == Resolved(fallback)
  {
    match r
    case Body(b) => Resolved(b)
    case NotOk => Resolved(fallback)
    case TransportError => Resolved(fallback)
    case MalformedBody => Rejected
  }

  /** A read as its `try`/`catch` evidently intends: every failure, the
      body's included, settles to the fallback. */
  function SettleIntended<T>(r: Response<T>, fallback: T): (s: Settled<T>)
    ensures s.Resolved?
    ensures r.Body? ==> s.value == r.body
    ensures !r.Body? ==> s.value == fallback
  {
    match r
    case Body(b) => Resolved(b)
    case _ => Resolved(fallback)
  }

  // ---------------------------------------------------------------------
  // Combining the three results
  // ---------------------------------------------------------------------

  /** `status?.status || 'unknown'`: the router's status when it is a
      non-empty string, otherwise "unknown". */
  function SummaryStatus(status: Option<RouterStatus>): (r: string)
    ensures r != []
    ensures r == "unknown" || (status.Some? && status.value.status == Some(r))
    ensures status.Some? && status.value.status.Some? && status.value.status.value != []
            ==> r == status.value.status.value
  {
    if status.Some? && status.value.status.Some? && status.value.status.value != [] then
      status.value.status.value
    else
      "unknown"
  }

  /** `getNetworkStats` once the three reads have resolved: a `null`
      status and empty lists stand for failed reads. */
  function Combine(status: Option<RouterStatus>, miners: seq<Miner>, sessions: seq<Session>): (r: NetworkStats)
    ensures r.isOnline <==>
      (status.Some? && (status.value.status == Some("ok") || status.value.health == Some("healthy")))
    ensures r.minerCount == |miners| && r.sessionCount == |sessions|
    ensures r.minerCount >= 0 && r.sessionCount >= 0
    ensures r.status == SummaryStatus(status)
  {
    NetworkStats(
      isOnline := status.Some? && (status.value.status == Some("ok") || status.value.health == Some("healthy")),
      minerCount := |miners|,
      sessionCount := |sessions|,
      status := SummaryStatus(status))
  }

  /** When all three reads have failed the summary is offline, empty and
      of unknown status. */
  lemma AllReadsFailed()
    ensures Combine(None, [], []) == NetworkStats(false, 0, 0, "unknown")
  {
  }

  /** A live router that answers "ok" with three miners and one session. */
  lemma HealthyRouterSummary(m: Miner, s: Session)
    ensures Combine(Some(RouterStatus(Some("ok"), None, None)), [m, m, m], [s])
         == NetworkStats(true, 3, 1, "ok")
  {
  }

  /** A router that reports only `health: "healthy"` is online, but its
      summary status is "unknown". */
  lemma HealthOnlyRouterSummary()
    ensures Combine(Some(RouterStatus(None, Some("healthy"), None)), [], [])
         == NetworkStats(true, 0, 0, "unknown")
  {
  }

  /** `getNetworkStats` as written: `Promise.all` rejects as soon as one
      read rejects; otherwise the resolved values are combined. The two
      versions differ exactly on malformed bodies: one rejects the whole
      summary, and without one both give the same summary. */
  function AggregateAsWritten(
    status: Response<Option<RouterStatus>>,
    miners: Response<seq<Miner>>,
    sessions: Response<seq<Session>>): (r: Settled<NetworkStats>)
    ensures r.Rejected? <==> status.MalformedBody? || miners.MalformedBody? || sessions.MalformedBody?
    ensures !(status.MalformedBody? || miners.MalformedBody? || sessions.MalformedBody?)
        ==> r == Aggregate(status, miners, sessions)
  {
    var s := SettleAsWritten(status, None);
    var m := SettleAsWritten(miners, []);
    var n := SettleAsWritten(sessions, []);
    if s.Rejected? || m.Rejected? || n.Rejected? then Rejected
    else Resolved(Combine(s.value, m.value, n.value))
  }

  /** `getNetworkStats` with reads that never reject. */
  function Aggregate(
    status: Response<Option<RouterStatus>>,
    miners: Response<seq<Miner>>,
    sessions: Response<seq<Session>>): (r: Settled<NetworkStats>)
    ensures r.Resolved?
    ensures r.value.minerCount == (if miners.Body? then |miners.body| else 0)
    ensures r.value.sessionCount == (if sessions.Body? then |sessions.body| else 0)
    ensures !status.Body? || status.body.None? ==> !r.value.isOnline && r.value.status == "unknown"
    ensures status.Body? && status.body.Some? ==>
      && (r.value.isOnline <==>
            status.body.value.status == Some("ok") || status.body.value.health == Some("healthy"))
      && r.value.status == SummaryStatus(status.body)
  {
    var s := SettleIntended(status, None);
    var m := SettleIntended(miners, []);
    var n := SettleIntended(sessions, []);
    Resolved(Combine(s.value, m.value, n.value))
  }

  /** The discrepancy on one input: a status body that is not JSON,
      alongside three miners and one session, rejects as written, whereas
      the intended reads give a live summary with three miners. */
  lemma MalformedStatusBodyDiscardsLiveMiners(m: Miner, s: Session)
    ensures AggregateAsWritten(MalformedBody, Body([m, m, m]), Body([s])) == Rejected
    ensures Aggregate(MalformedBody, Body([m, m, m]), Body([s]))
         == Resolved(NetworkStats(false, 3, 1, "unknown"))
  {
  }

  /** `getMockNetworkStats`: the synthetic summary of demo mode. */
  const MockNetworkStats: NetworkStats := NetworkStats(true, 45, 12, "demo")
}

/** The network-status widget: the demo fallback applied to each fetch,
    the loading flag around it, and what the widget renders from its
    state. Polling is modelled as a sequence of fetch cycles that complete
    one after another. */
module NetworkWidget {
  import opened Optional
  import opened Types
  import opened Cortensor

  // ---------------------------------------------------------------------
  // The fallback rule
  // ---------------------------------------------------------------------

  /** The fallback decision: an aggregate without miners is discarded. */
  predicate ShouldUseDemo(data: NetworkStats) {
    !(data.minerCount > 0)
  }

  /** The summary `fetchStats` stores once `getNetworkStats` has settled:
      the live aggregate when it reports miners, the mock summary when it
      reports none or when the call rejected. */
  function SelectStats(outcome: Settled<NetworkStats>): (r: NetworkStats)
    ensures r.minerCount > 0
    ensures r == MockNetworkStats || (outcome.Resolved? && r == outcome.value)
    ensures outcome.Resolved? && outcome.value.minerCount > 0 ==> r == outcome.value
    ensures outcome.Rejected? || outcome.value.minerCount <= 0 ==> r == MockNetworkStats
  {
    match outcome
    case Resolved(data) => if ShouldUseDemo(data) then MockNetworkStats else data
    case Rejected => MockNetworkStats
  }

  /** Applying the fallback to its own result changes nothing: the mock
      summary itself never triggers the fallback. */
  lemma SelectStatsStable(outcome: Settled<NetworkStats>)
    ensures SelectStats(Resolved(SelectStats(outcome))) == SelectStats(outcome)
  {
  }

  // ---------------------------------------------------------------------
  // Widget state and fetch cycles
  // ---------------------------------------------------------------------

  /** The widget's two pieces of React state. */
  datatype WidgetState = WidgetState(stats: Option<NetworkStats>, isLoading: bool)

  /** Mounted, nothing fetched yet, loading. */
  const InitialState: WidgetState := WidgetState(None, true)

  /** What the widget may hold: either nothing yet, or a summary that
      reports at least one miner. */
  predicate Displayable(s: WidgetState) {
    s.stats.Some? ==> s.stats.value.minerCount > 0
  }

  /** On mounting the widget shows the loading placeholder and holds no
      summary, so `Displayable` holds from the start. */
  lemma InitialStateShowsSkeleton()
    ensures Displayable(InitialState)
    ensures Render(InitialState).Skeleton?
    ensures InitialState.stats.None?
  {
  }

  /** `setIsLoading(true)` at the start of `fetchStats`. */
  function BeginFetch(s: WidgetState): (r: WidgetState)
    ensures r.isLoading && r.stats == s.stats
  {
    s.(isLoading := true)
  }

  /** `setStats(...)` then `setIsLoading(false)` once the fetch settled. */
  function FinishFetch(s: WidgetState, outcome: Settled<NetworkStats>): (r: WidgetState)
    ensures !r.isLoading && Displayable(r) && r.stats.Some?
    ensures r.stats == Some(SelectStats(outcome))
  {
    WidgetState(Some(SelectStats(outcome)), false)
  }

  /** One complete run of `fetchStats`. */
  function FetchCycle(s: WidgetState, outcome: Settled<NetworkStats>): (r: WidgetState)
    ensures !r.isLoading && r.stats.Some? && r.stats.value.minerCount > 0
    ensures r.stats == Some(SelectStats(outcome))
  {
    FinishFetch(BeginFetch(s), outcome)
  }

  /** The initial fetch and later polls, completing in order. */
  function RunCycles(s: WidgetState, outcomes: seq<Settled<NetworkStats>>): WidgetState
    decreases |outcomes|
  {
    if outcomes == [] then s
    else RunCycles(FetchCycle(s, outcomes[0]), outcomes[1..])
  }

  /** After any non-empty run, the widget is not loading and shows the
      selection made from the last outcome; earlier outcomes leave no
      trace. */
  lemma {:induction false} RunCyclesLastWins(s: WidgetState, outcomes: seq<Settled<NetworkStats>>)
    requires |outcomes| > 0
    ensures RunCycles(s, outcomes) == WidgetState(Some(SelectStats(outcomes[|outcomes| - 1])), false)
    decreases |outcomes|
  {
    if |outcomes| > 1 {
      RunCyclesLastWins(FetchCycle(s, outcomes[0]), outcomes[1..]);
    }
  }

  /** `Displayable` holds from mounting on, through every fetch cycle. */
  lemma {:induction false} RunCyclesDisplayable(s: WidgetState, outcomes: seq<Settled<NetworkStats>>)
    requires Displayable(s)
    ensures Displayable(RunCycles(s, outcomes))
    ensures outcomes == [] || !RunCycles(s, outcomes).isLoading
    decreases |outcomes|
  {
    if outcomes != [] {
      RunCyclesDisplayable(FetchCycle(s, outcomes[0]), outcomes[1..]);
      if |outcomes| > 1 {
        RunCyclesLastWins(FetchCycle(s, outcomes[0]), outcomes[1..]);
      }
    }
  }

  /** A fetch whose miner read fails or returns no miners shows the demo
      summary, whatever the other reads return. In particular, all three
      reads failing shows the demo summary. */
  lemma NoMinersShowsDemo(
    s: WidgetState,
    status: Response<Option<RouterStatus>>,
    miners: Response<seq<Miner>>,
    sessions: Response<seq<Session>>)
    requires !miners.Body? || miners.body == []
    ensures FetchCycle(s, Aggregate(status, miners, sessions)).stats == Some(MockNetworkStats)
    ensures FetchCycle(s, AggregateAsWritten(status, miners, sessions)).stats == Some(MockNetworkStats)
  {
  }

  // ---------------------------------------------------------------------
  // Rendering
  // ---------------------------------------------------------------------

  /** What the widget renders: a pulsing placeholder while loading,
      nothing when no summary is held, otherwise the status row. */
  datatype Panel =
    | Skeleton
    | Hidden
    | StatsRow(dotClass: string, onlineLabel: string, miners: int, sessions: int, demoBadge: bool)

  function OnlineLabel(isOnline: bool): string {
    if isOnline then "Network Online" else "Network Offline"
  }

  function DotClass(isOnline: bool): string {
    if isOnline then "bg-green-500 animate-pulse" else "bg-red-500"
  }

  function Render(s: WidgetState): (p: Panel)
    ensures p.Skeleton? <==> s.isLoading
    ensures p.Hidden? <==> !s.isLoading && s.stats.None?
    ensures p.StatsRow? ==>
      && s.stats.Some?
      && (p.onlineLabel == "Network Online" <==> s.stats.value.isOnline)
      && (p.onlineLabel == "Network Online" || p.onlineLabel == "Network Offline")
      && (p.dotClass == "bg-green-500 animate-pulse" <==> s.stats.value.isOnline)
      && (p.dotClass == "bg-green-500 animate-pulse" || p.dotClass == "bg-red-500")
      && (p.demoBadge <==> s.stats.value.status == "demo")
      && p.miners == s.stats.value.minerCount
      && p.sessions == s.stats.value.sessionCount
  {
    if s.isLoading then Skeleton
    else if s.stats.None? then Hidden
    else
      var st := s.stats.value;
      StatsRow(DotClass(st.isOnline), OnlineLabel(st.isOnline), st.minerCount, st.sessionCount, st.status == "demo")
  }

  /** After a fetch the status row is shown with a positive miner count;
      the demo badge appears exactly when the fetch rejected, reported no
      miners, or the live router itself reported the status "demo". */
  lemma DemoBadgeAfterFetch(s: WidgetState, outcome: Settled<NetworkStats>)
    ensures var p := Render(FetchCycle(s, outcome));
      && p.StatsRow?
      && p.miners > 0
      && (p.demoBadge <==>
            outcome.Rejected? || outcome.value.minerCount <= 0 || outcome.value.status == "demo")
  {
  }

  /** After a fetch the widget reads "Network Online" unless a live
      aggregate with miners reported the router offline. */
  lemma OnlineLabelAfterFetch(s: WidgetState, outcome: Settled<NetworkStats>)
    ensures var p := Render(FetchCycle(s, outcome));
      p.StatsRow? &&
      (p.onlineLabel == "Network Offline" <==>
         outcome.Resolved? && outcome.value.minerCount > 0 && !outcome.value.isOnline)
  {
  }
}

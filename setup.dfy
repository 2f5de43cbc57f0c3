/**
 * The wiring of __init__.py: the update interval derived from the update
 * window, the gate chosen for each dataset when the coordinator is built,
 * and what the coordinator's gate calls do to a window gate's fields.
 * The constants of const.py are inlined.
 */
module Setup {
  import opened Barrier
  import opened DataCoordinator

  const MIN_SCAN_INTERVAL: int := 60
  const UPDATE_WINDOW_START_MINUTE: int := 50
  const UPDATE_WINDOW_END_MINUTE: int := 59
  const MAX_RETRIES: int := 3
  const MEASURE_MAX_AGE: int := 60 * 50

  /** The interval the coordinator is actually built with, in seconds; the computed one is not used. */
  const COORDINATOR_UPDATE_INTERVAL: int := 30

  /**
   * `_calculate_datacoordinator_update_interval`, for a window from minute
   * `start` to minute `end`: half the window width in seconds, rounded down
   * (Dafny's `/` by a positive divisor rounds down like `math.floor`), and
   * never below the minimum scan interval.
   */
  function UpdateInterval(start: int, end: int): (s: int)
    ensures s >= MIN_SCAN_INTERVAL
    ensures var width := end * 60 - start * 60;
      (s == MIN_SCAN_INTERVAL || (2 * s <= width < 2 * s + 2)) &&
      (width >= 2 * MIN_SCAN_INTERVAL ==> 2 * s <= width < 2 * s + 2) &&
      (width < 2 * MIN_SCAN_INTERVAL + 2 ==> s == MIN_SCAN_INTERVAL)
  {
    var width := end * 60 - start * 60;
    var half := width / 2;
    if MIN_SCAN_INTERVAL >= half then MIN_SCAN_INTERVAL else half
  }

  /** With the shipped window (minutes 50 to 59) the interval would be 270 s, far above the 30 s in use. */
  lemma ShippedInterval()
    ensures UpdateInterval(UPDATE_WINDOW_START_MINUTE, UPDATE_WINDOW_END_MINUTE) == 270
    ensures COORDINATOR_UPDATE_INTERVAL < UpdateInterval(UPDATE_WINDOW_START_MINUTE, UPDATE_WINDOW_END_MINUTE)
  {
  }

  /** A wider window never gives a shorter interval. */
  lemma IntervalMonotone(start: int, end: int, start': int, end': int)
    requires end - start <= end' - start'
    ensures UpdateInterval(start, end) <= UpdateInterval(start', end')
  {
    var w, w' := end * 60 - start * 60, end' * 60 - start' * 60;
    assert w <= w';
    assert w / 2 <= w' / 2;
  }

  /** The kind of gate a dataset is given. */
  datatype GatePolicy =
    | TimeWindow(cfg: Config)
    | TimeDelta(seconds: int)

  /** The barrier map `async_setup_entry` hands to the coordinator. */
  function Policies(): (p: map<DataSetType, GatePolicy>)
    ensures forall t :: t in p <==> IsKind(t)
    ensures Measure in p && HistoricalConsumption in p && HistoricalGeneration in p && HistoricalPowerDemand in p
    ensures p[Measure] == TimeWindow(Config(UPDATE_WINDOW_START_MINUTE, UPDATE_WINDOW_END_MINUTE, MAX_RETRIES, MEASURE_MAX_AGE))
    ensures p[HistoricalConsumption] == TimeDelta(6 * 3600) && p[HistoricalGeneration] == TimeDelta(6 * 3600)
    ensures p[HistoricalPowerDemand] == TimeDelta(36 * 3600)
  {
    map[
      Measure := TimeWindow(Config(UPDATE_WINDOW_START_MINUTE, UPDATE_WINDOW_END_MINUTE, MAX_RETRIES, MEASURE_MAX_AGE)),
      HistoricalConsumption := TimeDelta(6 * 3600),
      HistoricalGeneration := TimeDelta(6 * 3600),
      HistoricalPowerDemand := TimeDelta(36 * 3600)
    ]
  }

  /**
   * With this wiring every dataset the coordinator can request has a gate,
   * so its missing-gate branch is never taken, and the measure gate is the
   * window configuration the barrier scenarios use.
   */
  lemma EveryRequestedDatasetIsGated(datasets: bv4)
    ensures forall t :: t in Requested(datasets) ==> t in Policies()
    ensures Policies()[Measure] == TimeWindow(MEASURE_CONFIG)
  {
  }

  /** A window gate answers the coordinator's check with the barrier's `allowed`. */
  function WindowCheck(cfg: Config, f: Fields, now: int, minute: int): (c: Check)
    ensures c.Admitted? <==> IsAllowed(cfg, f, now, minute)
    ensures c.Denied? ==> !Admits(Verdict(cfg, f, now, minute))
  {
    if IsAllowed(cfg, f, now, minute) then Admitted else Denied("barrier closed")
  }

  /**
   * A window gate wired into the coordinator's loop. For a requested kind
   * whose gate answers as the window barrier does: `success` is called and
   * the kind's keys are written exactly when the barrier's verdict admits
   * and the fetch returns; a cooldown therefore blocks both; and a forced
   * attempt whose fetch returns leaves the gate unforced with the success
   * recorded at `now`.
   */
  lemma WindowGateInTick(cfg: Config, f: Fields, now: int, minute: int, req: seq<DataSetType>,
                         gates: map<DataSetType, Check>, fetch: DataSetType -> FetchOutcome, t: DataSetType)
    requires t in req && IsKind(t) && t in gates && gates[t] == WindowCheck(cfg, f, now, minute)
    ensures var tick := RunTick(req, gates, fetch);
      (SuccessCalled(t) in tick.calls <==> Admits(Verdict(cfg, f, now, minute)) && fetch(t).Fetched?) &&
      (forall k :: k in KeysOf(t) ==> (k in tick.data <==> Admits(Verdict(cfg, f, now, minute)) && fetch(t).Fetched?))
    ensures var tick := RunTick(req, gates, fetch);
      Verdict(cfg, f, now, minute) == CooldownBarrierActive ==>
        SuccessCalled(t) !in tick.calls && forall k :: k in KeysOf(t) ==> k !in tick.data
    ensures f.forceNext && fetch(t).Fetched? ==>
      var g := Replay(cfg, f, Step(t, gates, fetch).calls, t, now);
      SuccessCalled(t) in RunTick(req, gates, fetch).calls && !g.forceNext && g.lastSuccess == now
  {
    TickData(req, gates, fetch);
    TickCalls(req, gates, fetch);
    StepOnGate(cfg, f, t, gates, fetch, now);
  }

  /**
   * The fields of the window gate of `dataset` after the coordinator's gate
   * calls at time `now`: a check runs `get_state`'s housekeeping, a success
   * runs `sucess`, calls on other gates change nothing.
   */
  function Replay(cfg: Config, f: Fields, calls: seq<GateCall>, dataset: DataSetType, now: int): Fields {
    if calls == [] then f
    else
      var g := Replay(cfg, f, calls[..|calls| - 1], dataset, now);
      match calls[|calls| - 1]
      case CheckCalled(t) => if t == dataset then Housekeep(cfg, g, now) else g
      case SuccessCalled(t) => if t == dataset then AfterSuccess(g, now) else g
  }

  /**
   * The coordinator never calls `fail`, so its gate-call trace has no entry
   * for it and `Replay` no case for it; this lemma spells out the
   * consequence of that construction: through any sequence of the
   * coordinator's gate calls a window gate's failure count never grows and
   * its cooldown never moves, so the retry and cooldown rules cannot come
   * into play.
   */
  lemma {:induction false} NoFailureEverCounted(cfg: Config, f: Fields, calls: seq<GateCall>, dataset: DataSetType, now: int)
    ensures Replay(cfg, f, calls, dataset, now).failures <= f.failures
    ensures Replay(cfg, f, calls, dataset, now).cooldown == f.cooldown
  {
    if calls != [] {
      NoFailureEverCounted(cfg, f, calls[..|calls| - 1], dataset, now);
    }
  }

  /**
   * One pass of the loop for `t`: when `t` is refreshed its gate records the
   * success (flag cleared, failures forgotten, success time now); when it is
   * not, the forced flag and the last success stay as they were, so a forced
   * fetch that fails stays forced.
   */
  lemma StepOnGate(cfg: Config, f: Fields, t: DataSetType, gates: map<DataSetType, Check>,
                   fetch: DataSetType -> FetchOutcome, now: int)
    ensures var g := Replay(cfg, f, Step(t, gates, fetch).calls, t, now);
      (Updates(t, gates, fetch) ==> !g.forceNext && g.failures == 0 && g.lastSuccess == now) &&
      (!Updates(t, gates, fetch) ==> g.forceNext == f.forceNext && g.lastSuccess == f.lastSuccess)
  {
    var calls := Step(t, gates, fetch).calls;
    if |calls| == 2 {
      assert calls[..1] == [CheckCalled(t)];
      assert calls[..1][..0] == [];
    } else if |calls| == 1 {
      assert calls[..0] == [];
    }
  }
}

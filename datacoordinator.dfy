/**
 * The refresh orchestrator of datacoordinator.py: the DataSetType bit flags,
 * the union of the registered sensors' interests, the per-dataset
 * gate-then-fetch-then-merge loop, and the key-wise merge into the previous
 * (or default) snapshot.
 *
 * The gates are seen through the interface the loop uses: `check`, which
 * admits or denies, and `success`. A tick receives the answer each dataset's
 * gate gives (a dataset absent from the map has no gate) and reports the
 * gate calls it made, in order. A fetch is a nondeterministic outcome: the
 * reading the remote API returned, or one of the errors the loop catches.
 */
module DataCoordinator {
  import opened Wrappers

  /** The members of the DataSetType IntFlag, in declaration order. */
  datatype DataSetType =
    | NoDataSets
    | Measure
    | HistoricalConsumption
    | HistoricalGeneration
    | HistoricalPowerDemand
    | AllDataSets

  /** The four kinds of data that can be fetched individually. */
  predicate IsKind(t: DataSetType) {
    t == Measure || t == HistoricalConsumption || t == HistoricalGeneration || t == HistoricalPowerDemand
  }

  /** The integer value of each member. */
  function Flag(t: DataSetType): bv4 {
    match t
    case NoDataSets => 0
    case Measure => 1
    case HistoricalConsumption => 2
    case HistoricalGeneration => 4
    case HistoricalPowerDemand => 8
    case AllDataSets => 0xF
  }

  /**
   * The four kinds are single bits, NONE is no bit and ALL is every bit;
   * distinct kinds share no bit and ALL is exactly their union.
   */
  lemma FlagLayout(a: DataSetType, b: DataSetType)
    ensures IsKind(a) <==> Flag(a) != 0 && Flag(a) & (Flag(a) - 1) == 0
    ensures a == NoDataSets <==> Flag(a) == 0
    ensures a == AllDataSets <==> Flag(a) == 0xF
    ensures IsKind(a) && IsKind(b) && a != b ==> Flag(a) & Flag(b) == 0
    ensures Flag(Measure) | Flag(HistoricalConsumption) | Flag(HistoricalGeneration) | Flag(HistoricalPowerDemand)
            == Flag(AllDataSets)
  {
  }

  /** Index of a member in the declaration. */
  function Position(t: DataSetType): nat {
    match t
    case NoDataSets => 0
    case Measure => 1
    case HistoricalConsumption => 2
    case HistoricalGeneration => 3
    case HistoricalPowerDemand => 4
    case AllDataSets => 5
  }

  predicate InDeclarationOrder(ms: seq<DataSetType>) {
    forall i, j :: 0 <= i < j < |ms| ==> Position(ms[i]) < Position(ms[j])
  }

  const DECLARED: seq<DataSetType> :=
    [NoDataSets, Measure, HistoricalConsumption, HistoricalGeneration, HistoricalPowerDemand, AllDataSets]

  /** Putting the head of an ordered declaration in front of members drawn from its tail keeps the order. */
  lemma ConsOrdered(ms: seq<DataSetType>, rest: seq<DataSetType>)
    requires ms != [] && InDeclarationOrder(ms) && InDeclarationOrder(rest)
    requires forall x :: x in rest ==> x in ms[1..]
    ensures InDeclarationOrder([ms[0]] + rest)
  {
    forall x | x in rest ensures Position(ms[0]) < Position(x) {
      var k :| 0 <= k < |ms[1..]| && ms[1..][k] == x;
      assert ms[k + 1] == x;
    }
    var r := [ms[0]] + rest;
    forall i, j | 0 <= i < j < |r| ensures Position(r[i]) < Position(r[j]) {
      assert r[j] == rest[j - 1];
      if i > 0 {
        assert r[i] == rest[i - 1];
      } else {
        assert rest[j - 1] in rest;
      }
    }
  }

  /** The generator filters of `_async_update_data_raw`: drop ALL, keep members that intersect `datasets`. */
  function Select(ms: seq<DataSetType>, datasets: bv4): (r: seq<DataSetType>)
    ensures forall t :: t in r <==> t in ms && t != AllDataSets && Flag(t) & datasets != 0
    ensures InDeclarationOrder(ms) ==> InDeclarationOrder(r)
  {
    if ms == [] then []
    else
      var rest := Select(ms[1..], datasets);
      assert ms == [ms[0]] + ms[1..];
      assert InDeclarationOrder(ms) ==> InDeclarationOrder(ms[1..]);
      if ms[0] != AllDataSets && Flag(ms[0]) & datasets != 0 then
        if InDeclarationOrder(ms) then
          ConsOrdered(ms, rest);
          [ms[0]] + rest
        else
          [ms[0]] + rest
      else rest
  }

  /**
   * The datasets a tick works on: exactly the four kinds whose bit is in
   * `datasets`, each once, in declaration order. NONE and ALL never appear.
   */
  function Requested(datasets: bv4): (r: seq<DataSetType>)
    ensures forall t :: t in r <==> IsKind(t) && Flag(t) & datasets != 0
    ensures InDeclarationOrder(r)
  {
    assert forall t :: t in DECLARED by {
      forall t ensures t in DECLARED {
        assert DECLARED[Position(t)] == t;
      }
    }
    Select(DECLARED, datasets)
  }

  /** Snapshot values. The remote API's payloads are opaque to the coordinator. */
  datatype Value =
    | Null             // Python None
    | EmptyList        // []
    | EmptyHistorical  // {"accumulated": None, "accumulated-co2": None, "historical": []}
    | Payload(id: int) // a value returned by the remote API

  type Snapshot = map<string, Value>

  const MEASURE_ACCUMULATED: string := "measure_accumulated"
  const MEASURE_INSTANT: string := "measure_instant"
  const HISTORICAL_CONSUMPTION: string := "historical_consumption"
  const HISTORICAL_GENERATION: string := "historical_generation"
  const HISTORICAL_POWER_DEMAND: string := "historical_power_demand"

  /** `_DEFAULT_COORDINATOR_DATA`: every key with its empty value. */
  function Defaults(): (d: Snapshot)
    ensures d.Keys == {MEASURE_ACCUMULATED, MEASURE_INSTANT, HISTORICAL_CONSUMPTION,
                       HISTORICAL_GENERATION, HISTORICAL_POWER_DEMAND}
  {
    map[MEASURE_ACCUMULATED := Null, MEASURE_INSTANT := Null,
        HISTORICAL_CONSUMPTION := EmptyHistorical, HISTORICAL_GENERATION := EmptyHistorical,
        HISTORICAL_POWER_DEMAND := EmptyList]
  }

  /** The snapshot keys the fetch of each kind writes. */
  function KeysOf(t: DataSetType): set<string> {
    match t
    case Measure => {MEASURE_ACCUMULATED, MEASURE_INSTANT}
    case HistoricalConsumption => {HISTORICAL_CONSUMPTION}
    case HistoricalGeneration => {HISTORICAL_GENERATION}
    case HistoricalPowerDemand => {HISTORICAL_POWER_DEMAND}
    case _ => {}
  }

  /** The kind whose fetch writes key `k` (NoDataSets for a key no fetch writes). */
  function OwnerOf(k: string): (t: DataSetType)
    ensures forall u :: k in KeysOf(u) <==> IsKind(u) && u == t
  {
    if k == MEASURE_ACCUMULATED || k == MEASURE_INSTANT then Measure
    else if k == HISTORICAL_CONSUMPTION then HistoricalConsumption
    else if k == HISTORICAL_GENERATION then HistoricalGeneration
    else if k == HISTORICAL_POWER_DEMAND then HistoricalPowerDemand
    else NoDataSets
  }

  /** The errors the loop catches: bad encoding, a failed request, an API command error, anything else. */
  datatype FetchError = InvalidEncoding | RequestFailed | CommandError | Unexpected

  /**
   * What one API call gave. A measure reading has two fields (accumulate,
   * instant); a historical series is a single value, carried in `primary`.
   */
  datatype FetchOutcome = Fetched(primary: Value, secondary: Value) | FetchFailed(error: FetchError)

  /** `get_direct_reading_data`. */
  function DirectReadingData(accumulate: Value, instant: Value): Snapshot {
    map[MEASURE_ACCUMULATED := accumulate, MEASURE_INSTANT := instant]
  }

  /** `get_historical_consumption_data`, `get_historical_generation_data`, `get_historical_power_demand_data`. */
  function SeriesData(key: string, series: Value): Snapshot {
    map[key := series]
  }

  /** The keys a successful fetch of kind `t` returns: its own, and no others. */
  function FetchedData(t: DataSetType, primary: Value, secondary: Value): (m: Snapshot)
    requires IsKind(t)
    ensures m.Keys == KeysOf(t)
    ensures t == Measure ==> m[MEASURE_ACCUMULATED] == primary && m[MEASURE_INSTANT] == secondary
    ensures t != Measure ==> forall k :: k in m ==> m[k] == primary
  {
    match t
    case Measure => DirectReadingData(primary, secondary)
    case HistoricalConsumption => SeriesData(HISTORICAL_CONSUMPTION, primary)
    case HistoricalGeneration => SeriesData(HISTORICAL_GENERATION, primary)
    case HistoricalPowerDemand => SeriesData(HISTORICAL_POWER_DEMAND, primary)
  }

  /** The answer of a gate's `check`. */
  datatype Check = Admitted | Denied(reason: string)

  /** A call the loop makes on a gate. There is no call of `fail`: the loop never makes one. */
  datatype GateCall = CheckCalled(dataset: DataSetType) | SuccessCalled(dataset: DataSetType)

  /** What one pass of the dataset loop produced: the keys fetched and the gate calls made. */
  datatype Tick = Tick(data: Snapshot, calls: seq<GateCall>)

  /** Dataset `t` is refreshed: it has a gate, the gate admits, it is a fetchable kind and its fetch returns. */
  predicate Updates(t: DataSetType, gates: map<DataSetType, Check>, fetch: DataSetType -> FetchOutcome) {
    t in gates && gates[t].Admitted? && IsKind(t) && fetch(t).Fetched?
  }

  /** One iteration of the dataset loop. */
  function Step(t: DataSetType, gates: map<DataSetType, Check>, fetch: DataSetType -> FetchOutcome): Tick {
    if t !in gates then Tick(map[], [])
    else if gates[t].Denied? then Tick(map[], [CheckCalled(t)])
    else if !IsKind(t) then Tick(map[], [CheckCalled(t)])
    else
      match fetch(t)
      case FetchFailed(_) => Tick(map[], [CheckCalled(t)])
      case Fetched(p, s) => Tick(FetchedData(t, p, s), [CheckCalled(t), SuccessCalled(t)])
  }

  /** The dataset loop over `req`, in order. */
  function RunTick(req: seq<DataSetType>, gates: map<DataSetType, Check>, fetch: DataSetType -> FetchOutcome): Tick {
    if req == [] then Tick(map[], [])
    else
      var before := RunTick(req[..|req| - 1], gates, fetch);
      var step := Step(req[|req| - 1], gates, fetch);
      Tick(before.data + step.data, before.calls + step.calls)
  }

  /** Running the loop one dataset further adds that dataset's step. */
  lemma RunTickSnoc(req: seq<DataSetType>, i: nat, gates: map<DataSetType, Check>, fetch: DataSetType -> FetchOutcome)
    requires i < |req|
    ensures var before, step := RunTick(req[..i], gates, fetch), Step(req[i], gates, fetch);
      RunTick(req[..i + 1], gates, fetch) == Tick(before.data + step.data, before.calls + step.calls)
  {
    assert req[..i + 1][..i] == req[..i];
  }

  /**
   * The keys a tick writes are exactly the keys of the refreshed datasets,
   * each with the value its own fetch returned.
   */
  lemma {:induction false} TickData(req: seq<DataSetType>, gates: map<DataSetType, Check>, fetch: DataSetType -> FetchOutcome)
    ensures forall k :: k in RunTick(req, gates, fetch).data <==>
      OwnerOf(k) in req && Updates(OwnerOf(k), gates, fetch) && k in KeysOf(OwnerOf(k))
    ensures forall k :: k in RunTick(req, gates, fetch).data ==>
      Updates(OwnerOf(k), gates, fetch) &&
      RunTick(req, gates, fetch).data[k] ==
        FetchedData(OwnerOf(k), fetch(OwnerOf(k)).primary, fetch(OwnerOf(k)).secondary)[k]
  {
    if req != [] {
      var init := req[..|req| - 1];
      TickData(init, gates, fetch);
      assert req == init + [req[|req| - 1]];
    }
  }

  /**
   * The gate calls of a tick: `check` on every requested dataset that has a
   * gate, `success` exactly on the refreshed ones, and each `success` right
   * after the `check` of the same dataset.
   */
  lemma {:induction false} TickCalls(req: seq<DataSetType>, gates: map<DataSetType, Check>, fetch: DataSetType -> FetchOutcome)
    ensures forall t :: CheckCalled(t) in RunTick(req, gates, fetch).calls <==> t in req && t in gates
    ensures forall t :: SuccessCalled(t) in RunTick(req, gates, fetch).calls <==> t in req && Updates(t, gates, fetch)
    ensures forall i :: 0 <= i < |RunTick(req, gates, fetch).calls| && RunTick(req, gates, fetch).calls[i].SuccessCalled? ==>
      i > 0 && RunTick(req, gates, fetch).calls[i - 1] == CheckCalled(RunTick(req, gates, fetch).calls[i].dataset)
  {
    if req != [] {
      var init := req[..|req| - 1];
      TickCalls(init, gates, fetch);
      assert req == init + [req[|req| - 1]];
      var before, step := RunTick(init, gates, fetch).calls, Step(req[|req| - 1], gates, fetch).calls;
      var all := RunTick(req, gates, fetch).calls;
      assert all == before + step;
      forall i | 0 <= i < |all| && all[i].SuccessCalled?
        ensures i > 0 && all[i - 1] == CheckCalled(all[i].dataset)
      {
        if i >= |before| {
          assert step[i - |before|] == all[i];
        }
      }
    }
  }

  /**
   * Over a list of distinct datasets (as `Requested` yields), each gate hears
   * exactly one `check` per tick when its dataset is requested, and none
   * otherwise.
   */
  lemma {:induction false} CheckOncePerTick(req: seq<DataSetType>, gates: map<DataSetType, Check>,
                                            fetch: DataSetType -> FetchOutcome, t: DataSetType)
    requires InDeclarationOrder(req)
    ensures multiset(RunTick(req, gates, fetch).calls)[CheckCalled(t)] == if t in req && t in gates then 1 else 0
  {
    if req != [] {
      var init, last := req[..|req| - 1], req[|req| - 1];
      assert req == init + [last];
      assert InDeclarationOrder(init) by {
        forall i, j | 0 <= i < j < |init| ensures Position(init[i]) < Position(init[j]) {
          assert init[i] == req[i] && init[j] == req[j];
        }
      }
      CheckOncePerTick(init, gates, fetch, t);
      if last == t {
        forall i | 0 <= i < |init| ensures init[i] != t {
          assert Position(req[i]) < Position(req[|req| - 1]);
        }
      }
      var before, step := RunTick(init, gates, fetch).calls, Step(last, gates, fetch).calls;
      StepChecks(last, gates, fetch, t);
      assert RunTick(req, gates, fetch).calls == before + step;
      assert multiset(before + step) == multiset(before) + multiset(step);
    }
  }

  /** One step calls `check` on its own dataset once when it has a gate, and on no other. */
  lemma StepChecks(u: DataSetType, gates: map<DataSetType, Check>, fetch: DataSetType -> FetchOutcome, t: DataSetType)
    ensures multiset(Step(u, gates, fetch).calls)[CheckCalled(t)] == if u == t && t in gates then 1 else 0
  {
  }

  /**
   * Isolation: what a tick does for dataset `u` (its keys, and whether its
   * gate hears `success`) depends on `u`'s own gate and fetch only, not on
   * how the fetches of other datasets turn out.
   */
  lemma FetchIsolation(req: seq<DataSetType>, gates: map<DataSetType, Check>,
                       fetch1: DataSetType -> FetchOutcome, fetch2: DataSetType -> FetchOutcome, u: DataSetType)
    requires fetch1(u) == fetch2(u)
    ensures forall k :: k in KeysOf(u) ==>
      (k in RunTick(req, gates, fetch1).data <==> k in RunTick(req, gates, fetch2).data) &&
      (k in RunTick(req, gates, fetch1).data ==> RunTick(req, gates, fetch1).data[k] == RunTick(req, gates, fetch2).data[k])
    ensures SuccessCalled(u) in RunTick(req, gates, fetch1).calls <==> SuccessCalled(u) in RunTick(req, gates, fetch2).calls
  {
    TickData(req, gates, fetch1);
    TickData(req, gates, fetch2);
    TickCalls(req, gates, fetch1);
    TickCalls(req, gates, fetch2);
  }

  /** Time zones as far as the UTC test cares. */
  datatype Zone = Utc | Naive | OtherZone

  datatype Instant = Instant(seconds: int, zone: Zone)

  datatype UpdateError = NowNotUtc

  /**
   * `self.data or _DEFAULT_COORDINATOR_DATA`: Python truthiness, so an empty
   * dict falls back to the defaults just like None.
   */
  function Base(prev: Option<Snapshot>): (b: Snapshot)
    ensures prev.None? || prev.value == map[] ==> b == Defaults()
    ensures prev.Some? && prev.value != map[] ==> b == prev.value
  {
    if prev.Some? && prev.value != map[] then prev.value else Defaults()
  }

  /**
   * The merge of `_async_update_data`: the base overridden key by key by
   * this tick's results. Untouched keys keep their values, and a base that
   * holds every default key yields a result that does too.
   */
  function Merge(prev: Option<Snapshot>, upd: Snapshot): (r: Snapshot)
    ensures r.Keys == Base(prev).Keys + upd.Keys
    ensures forall k :: k in upd ==> r[k] == upd[k]
    ensures forall k :: k in Base(prev) && k !in upd ==> r[k] == Base(prev)[k]
    ensures (prev.None? || Defaults().Keys <= prev.value.Keys) ==> Defaults().Keys <= r.Keys
  {
    Base(prev) + upd
  }

  /** A sensor and the DataSetType members it declares in I_DE_DATA_SETS. */
  datatype Sensor = Sensor(id: nat, dataSets: seq<DataSetType>)

  /** The OR of a sequence of members, accumulated left to right. */
  function InterestOf(sets: seq<DataSetType>): bv4 {
    if sets == [] then 0 else InterestOf(sets[..|sets| - 1]) | Flag(sets[|sets| - 1])
  }

  /** The OR of every sensor's members, accumulated left to right. */
  function Interests(sensors: seq<Sensor>): bv4 {
    if sensors == [] then 0 else Interests(sensors[..|sensors| - 1]) | InterestOf(sensors[|sensors| - 1].dataSets)
  }

  /** Some declared member covers kind `t`. */
  predicate Declares(sets: seq<DataSetType>, t: DataSetType) {
    exists x :: x in sets && Flag(x) & Flag(t) != 0
  }

  /** Some registered sensor wants kind `t`. */
  predicate Wanted(sensors: seq<Sensor>, t: DataSetType) {
    exists s :: s in sensors && Declares(s.dataSets, t)
  }

  /** Bitwise OR distributes under an intersection test. */
  lemma IntersectsUnion(a: bv4, b: bv4, c: bv4)
    ensures c & (a | b) != 0 <==> c & a != 0 || c & b != 0
  {
  }

  /** Declaring one more member covers `t` iff it, or an earlier member, does. */
  lemma DeclaresSnoc(init: seq<DataSetType>, last: DataSetType, t: DataSetType)
    ensures Declares(init + [last], t) <==> Declares(init, t) || Flag(last) & Flag(t) != 0
  {
    var sets := init + [last];
    if Declares(sets, t) {
      var x :| x in sets && Flag(x) & Flag(t) != 0;
      assert x in init || x == last;
    }
    if Declares(init, t) {
      var x :| x in init && Flag(x) & Flag(t) != 0;
      assert x in sets;
    }
    assert last in sets;
  }

  lemma {:induction false} InterestOfCovers(sets: seq<DataSetType>, t: DataSetType)
    ensures Flag(t) & InterestOf(sets) != 0 <==> Declares(sets, t)
  {
    if sets != [] {
      var init, last := sets[..|sets| - 1], sets[|sets| - 1];
      InterestOfCovers(init, t);
      IntersectsUnion(InterestOf(init), Flag(last), Flag(t));
      DeclaresSnoc(init, last, t);
      assert sets == init + [last];
    }
  }

  /** Registering one more sensor wants `t` iff it, or an earlier sensor, declares a member covering it. */
  lemma WantedSnoc(init: seq<Sensor>, last: Sensor, t: DataSetType)
    ensures Wanted(init + [last], t) <==> Wanted(init, t) || Declares(last.dataSets, t)
  {
    var sensors := init + [last];
    if Wanted(sensors, t) {
      var s :| s in sensors && Declares(s.dataSets, t);
      assert s in init || s == last;
    }
    if Wanted(init, t) {
      var s :| s in init && Declares(s.dataSets, t);
      assert s in sensors;
    }
    assert last in sensors;
  }

  lemma {:induction false} InterestsMask(sensors: seq<Sensor>, t: DataSetType)
    ensures Flag(t) & Interests(sensors) != 0 <==> Wanted(sensors, t)
  {
    if sensors != [] {
      var init, last := sensors[..|sensors| - 1], sensors[|sensors| - 1];
      InterestsMask(init, t);
      InterestOfCovers(last.dataSets, t);
      IntersectsUnion(Interests(init), InterestOf(last.dataSets), Flag(t));
      WantedSnoc(init, last, t);
      assert sensors == init + [last];
    }
  }

  /**
   * A kind is requested in a tick exactly when some registered sensor
   * declares a member covering it; with no sensors the mask is NONE.
   */
  lemma InterestsCover(sensors: seq<Sensor>, t: DataSetType)
    requires IsKind(t)
    ensures t in Requested(Interests(sensors)) <==> Wanted(sensors, t)
    ensures sensors == [] ==> Interests(sensors) == Flag(NoDataSets)
  {
    InterestsMask(sensors, t);
  }

  /** With no sensor registered nothing is checked or fetched and the previous data comes back unchanged. */
  lemma IdleTick(prev: Option<Snapshot>, gates: map<DataSetType, Check>, fetch: DataSetType -> FetchOutcome)
    ensures RunTick(Requested(Interests([])), gates, fetch).calls == []
    ensures Merge(prev, RunTick(Requested(Interests([])), gates, fetch).data) == Base(prev)
  {
    assert Requested(Interests([])) == [];
  }

  /** The first position of `s` in `xs`: the element `list.remove` takes out. */
  function FirstIndex(xs: seq<Sensor>, s: Sensor): (i: nat)
    requires s in xs
    ensures i < |xs| && xs[i] == s && s !in xs[..i]
  {
    if xs[0] == s then 0 else 1 + FirstIndex(xs[1..], s)
  }

  class Coordinator {
    var sensors: seq<Sensor>
    var data: Option<Snapshot>

    constructor ()
      ensures sensors == [] && data == None
    {
      sensors, data := [], None;
    }

    method RegisterSensor(s: Sensor)
      modifies this`sensors
      ensures sensors == old(sensors) + [s]
    {
      sensors := sensors + [s];
    }

    /** `list.remove`: takes out the first occurrence; `removed` is false where Python raises ValueError. */
    method UnregisterSensor(s: Sensor) returns (removed: bool)
      modifies this`sensors
      ensures removed <==> s in old(sensors)
      ensures removed ==>
        var i := FirstIndex(old(sensors), s); sensors == old(sensors)[..i] + old(sensors)[i + 1..]
      ensures !removed ==> sensors == old(sensors)
    {
      if s in sensors {
        var i := FirstIndex(sensors, s);
        sensors := sensors[..i] + sensors[i + 1..];
        removed := true;
      } else {
        removed := false;
      }
    }

    /** `update_internal_data`: here only None (not an empty dict) falls back to the defaults. */
    method UpdateInternalData(upd: Snapshot)
      modifies this`data
      ensures data == Some((if old(data).None? then Defaults() else old(data).value) + upd)
    {
      var current := if data.None? then Defaults() else data.value;
      data := Some(current + upd);
    }

    /** The OR-accumulating loop over the sensors and their declared members. */
    method RequestedDataSets() returns (ds: bv4)
      ensures ds == Interests(sensors)
    {
      ds := Flag(NoDataSets);
      var i := 0;
      while i < |sensors|
        invariant 0 <= i <= |sensors|
        invariant ds == Interests(sensors[..i])
      {
        var sets := sensors[i].dataSets;
        var j := 0;
        while j < |sets|
          invariant 0 <= j <= |sets|
          invariant ds == Interests(sensors[..i]) | InterestOf(sets[..j])
        {
          assert sets[..j + 1][..j] == sets[..j];
          ds := ds | Flag(sets[j]);
          j := j + 1;
        }
        assert sets[..j] == sets;
        assert sensors[..i + 1][..i] == sensors[..i];
        i := i + 1;
      }
      assert sensors[..i] == sensors;
    }

    /**
     * One iteration of the dataset loop: the gate lookup and check, the
     * fetch of the kind, and `success` once the fetch has returned.
     */
    method Visit(dataset: DataSetType, gates: map<DataSetType, Check>, fetch: DataSetType -> FetchOutcome)
      returns (upd: Snapshot, made: seq<GateCall>)
      ensures Tick(upd, made) == Step(dataset, gates, fetch)
    {
      upd, made := map[], [];
      if dataset !in gates {
        return;
      }
      made := [CheckCalled(dataset)];
      if gates[dataset].Denied? {
        return;
      }
      var outcome := fetch(dataset);
      if dataset == Measure {
        if outcome.FetchFailed? { return; }
        upd := DirectReadingData(outcome.primary, outcome.secondary);
      } else if dataset == HistoricalConsumption {
        if outcome.FetchFailed? { return; }
        upd := SeriesData(HISTORICAL_CONSUMPTION, outcome.primary);
      } else if dataset == HistoricalGeneration {
        if outcome.FetchFailed? { return; }
        upd := SeriesData(HISTORICAL_GENERATION, outcome.primary);
      } else if dataset == HistoricalPowerDemand {
        if outcome.FetchFailed? { return; }
        upd := SeriesData(HISTORICAL_POWER_DEMAND, outcome.primary);
      } else {
        return;
      }
      made := made + [SuccessCalled(dataset)];
    }

    /**
     * `_async_update_data_raw`: rejects a `now` that is not in UTC before any
     * gate is consulted, then runs the dataset loop over the requested kinds.
     * A missing `now` stands for the current UTC time.
     */
    method UpdateDataRaw(datasets: bv4, now: Option<Instant>,
                         gates: map<DataSetType, Check>, fetch: DataSetType -> FetchOutcome)
      returns (r: Result<Tick, UpdateError>)
      ensures r.Failure? <==> now.Some? && now.value.zone != Utc
      ensures r.Success? ==> r.value == RunTick(Requested(datasets), gates, fetch)
    {
      if now.Some? && now.value.zone != Utc {
        return Failure(NowNotUtc);
      }
      var requested := Requested(datasets);
      var data: Snapshot := map[];
      var calls: seq<GateCall> := [];
      var i := 0;
      while i < |requested|
        invariant 0 <= i <= |requested|
        invariant Tick(data, calls) == RunTick(requested[..i], gates, fetch)
      {
        var upd, made := Visit(requested[i], gates, fetch);
        RunTickSnoc(requested, i, gates, fetch);
        data, calls := data + upd, calls + made;
        i := i + 1;
      }
      assert requested[..i] == requested;
      return Success(Tick(data, calls));
    }

    /**
     * `_async_update_data`: the union of the sensors' interests, one pass of
     * the dataset loop at the current UTC time (so the UTC guard never
     * fires), and the merge into the previous (or default) data.
     */
    method AsyncUpdateData(gates: map<DataSetType, Check>, fetch: DataSetType -> FetchOutcome)
      returns (r: Tick)
      ensures var tick := RunTick(Requested(Interests(sensors)), gates, fetch);
        r == Tick(Merge(data, tick.data), tick.calls)
    {
      var ds := RequestedDataSets();
      var raw := UpdateDataRaw(ds, None, gates, fetch);
      r := Tick(Base(data) + raw.value.data, raw.value.calls);
    }
  }
}

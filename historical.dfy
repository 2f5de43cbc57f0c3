/**
 * The historical writers of historical_sensor.py (HistoricalSensor and
 * HistoricalEntityStandAlone) and historical_state.py (HistoricalEntity).
 * An entity collects dated states from the provider; the writer keeps the
 * dated ones, sorts them by time, and a recorder job then deletes the
 * entity's "unknown"/"unavailable" rows, finds the latest remaining row,
 * keeps the states strictly later than it and appends one row per state,
 * each chained to its predecessor. The recorder database is a sequence of
 * rows; times are integer seconds in UTC.
 */
module Historical {
  import opened Wrappers
  import opened Hack

  /** A DatedState (historical_sensor.py) or StateAtTimePoint (historical_state.py). */
  datatype DatedState = DatedState(state: RawState, when: int, attributes: Attributes)

  /** What the provider hands back: a dated state, or any other object. */
  datatype Item = Dated(d: DatedState) | Foreign

  /** A row of the recorder's states table; `eventTimeFired` is the time of its state_changed event row, if one is created. */
  datatype Row = Row(
    stateId: nat,
    entityId: string,
    state: string,
    attributes: Attributes,
    lastChanged: int,
    lastUpdated: int,
    oldStateId: Option<nat>,
    eventTimeFired: Option<int>)

  /** Historical entities report no state of their own. */
  const ENTITY_STATE: RawState := NoneState

  // ---------------------------------------------------------------------
  // Normalisation: keep the dated items, sort them by time (stable).
  // ---------------------------------------------------------------------

  /** The dated items, in their original order. */
  function DatedOnly(items: seq<Item>): (r: seq<DatedState>)
    ensures |r| <= |items|
    ensures forall d :: d in r <==> Dated(d) in items
  {
    if items == [] then []
    else
      var init := DatedOnly(items[..|items| - 1]);
      var last := items[|items| - 1];
      assert items == items[..|items| - 1] + [last];
      if last.Dated? then init + [last.d] else init
  }

  /**
   * The filter works item by item and keeps the order: it distributes over
   * concatenation, keeps a dated item's state and drops any other object.
   */
  lemma {:induction false} DatedOnlyAppend(a: seq<Item>, b: seq<Item>)
    ensures DatedOnly(a + b) == DatedOnly(a) + DatedOnly(b)
  {
    if b != [] {
      var b', last := b[..|b| - 1], b[|b| - 1];
      assert (a + b)[..|a + b| - 1] == a + b';
      assert (a + b)[|a + b| - 1] == last;
      DatedOnlyAppend(a, b');
      var tail := if last.Dated? then [last.d] else [];
      assert DatedOnly(a + b) == DatedOnly(a + b') + tail;
      assert DatedOnly(b) == DatedOnly(b') + tail;
    } else {
      assert a + b == a;
    }
  }

  /** Every dated item's state is kept as often as the item occurs. */
  lemma {:induction false} DatedOnlyCounts(items: seq<Item>)
    ensures forall d :: multiset(DatedOnly(items))[d] == multiset(items)[Dated(d)]
  {
    if items != [] {
      var init, last := items[..|items| - 1], items[|items| - 1];
      assert items == init + [last];
      DatedOnlyCounts(init);
    }
  }

  /** A dated item yields its state; any other object yields nothing. */
  lemma DatedOnlySingle(item: Item)
    ensures DatedOnly([item]) == if item.Dated? then [item.d] else []
  {
    assert [item][..0] == [];
  }

  ghost predicate Sorted(s: seq<DatedState>) {
    forall i, j :: 0 <= i < j < |s| ==> s[i].when <= s[j].when
  }

  /** The states dated at time `t`, in order: equal sequences for every `t` mean a stable reordering. */
  function At(s: seq<DatedState>, t: int): seq<DatedState> {
    if s == [] then []
    else At(s[..|s| - 1], t) + (if s[|s| - 1].when == t then [s[|s| - 1]] else [])
  }

  lemma {:induction false} AtAppend(a: seq<DatedState>, b: seq<DatedState>, t: int)
    ensures At(a + b, t) == At(a, t) + At(b, t)
  {
    if b != [] {
      var b' := b[..|b| - 1];
      assert (a + b)[..|a + b| - 1] == a + b';
      AtAppend(a, b', t);
    } else {
      assert a + b == a;
    }
  }

  /** Places `x` after every element dated no later than it. */
  function Insert(s: seq<DatedState>, x: DatedState): (r: seq<DatedState>)
    ensures |r| == |s| + 1
  {
    if s == [] || s[|s| - 1].when <= x.when then s + [x]
    else Insert(s[..|s| - 1], x) + [s[|s| - 1]]
  }

  /** Inserting adds exactly `x` to the elements. */
  lemma {:induction false} InsertPermutes(s: seq<DatedState>, x: DatedState)
    ensures multiset(Insert(s, x)) == multiset(s) + multiset{x}
  {
    if s != [] && s[|s| - 1].when > x.when {
      var init := s[..|s| - 1];
      InsertPermutes(init, x);
      assert s == init + [s[|s| - 1]];
    }
  }

  lemma SortedSnoc(s: seq<DatedState>, x: DatedState)
    requires Sorted(s)
    requires forall i :: 0 <= i < |s| ==> s[i].when <= x.when
    ensures Sorted(s + [x])
  {
  }

  lemma {:induction false} InsertSorted(s: seq<DatedState>, x: DatedState)
    requires Sorted(s)
    ensures Sorted(Insert(s, x))
  {
    if s == [] || s[|s| - 1].when <= x.when {
      SortedSnoc(s, x);
    } else {
      var init, last := s[..|s| - 1], s[|s| - 1];
      assert Sorted(init);
      InsertSorted(init, x);
      InsertPermutes(init, x);
      var r := Insert(init, x);
      forall i | 0 <= i < |r| ensures r[i].when <= last.when {
        assert r[i] in multiset(r);
        if r[i] != x {
          assert r[i] in multiset(init);
          var k :| 0 <= k < |init| && init[k] == r[i];
          assert s[k] == r[i];
        }
      }
      SortedSnoc(r, last);
      assert Insert(s, x) == r + [last];
    }
  }

  lemma {:induction false} InsertStable(s: seq<DatedState>, x: DatedState, t: int)
    ensures At(Insert(s, x), t) == At(s, t) + (if x.when == t then [x] else [])
  {
    if s == [] || s[|s| - 1].when <= x.when {
      AtAppend(s, [x], t);
      assert At([x], t) == At([], t) + (if x.when == t then [x] else []);
    } else {
      var init, last := s[..|s| - 1], s[|s| - 1];
      var xs: seq<DatedState> := if x.when == t then [x] else [];
      var ls: seq<DatedState> := if last.when == t then [last] else [];
      InsertStable(init, x, t);
      assert Insert(s, x) == Insert(init, x) + [last];
      AtAppend(Insert(init, x), [last], t);
      assert At([last], t) == At([], t) + ls;
      assert At(Insert(s, x), t) == At(init, t) + xs + ls;
      assert At(s, t) == At(init, t) + ls;
      assert xs == [] || ls == [];
    }
  }

  /** `sorted(states, key=lambda x: x.when)`: a stable insertion sort. */
  function SortByWhen(s: seq<DatedState>): (r: seq<DatedState>)
    ensures |r| == |s|
  {
    if s == [] then [] else Insert(SortByWhen(s[..|s| - 1]), s[|s| - 1])
  }

  /** The sort yields a sorted permutation of its input. */
  lemma {:induction false} SortedPermutation(s: seq<DatedState>)
    ensures Sorted(SortByWhen(s))
    ensures multiset(SortByWhen(s)) == multiset(s)
  {
    if s != [] {
      var init, last := s[..|s| - 1], s[|s| - 1];
      SortedPermutation(init);
      InsertSorted(SortByWhen(init), last);
      InsertPermutes(SortByWhen(init), last);
      assert s == init + [last];
    }
  }

  /** The sorted sequence holds exactly the elements of the input. */
  lemma SortedMembers(s: seq<DatedState>)
    ensures Sorted(SortByWhen(s))
    ensures forall d :: d in SortByWhen(s) <==> d in s
  {
    SortedPermutation(s);
    assert forall d :: d in SortByWhen(s) <==> d in multiset(SortByWhen(s));
    assert forall d :: d in s <==> d in multiset(s);
  }

  /** The sort is stable: states with the same time keep their relative order. */
  lemma {:induction false} SortStable(s: seq<DatedState>, t: int)
    ensures At(SortByWhen(s), t) == At(s, t)
  {
    if s != [] {
      var init, last := s[..|s| - 1], s[|s| - 1];
      SortStable(init, t);
      InsertStable(SortByWhen(init), last, t);
    }
  }

  /** Sorting an already sorted sequence changes nothing, so the recorder job's second sort is a no-op. */
  lemma {:induction false} SortSortedIsIdentity(s: seq<DatedState>)
    requires Sorted(s)
    ensures SortByWhen(s) == s
  {
    if s != [] {
      var init, last := s[..|s| - 1], s[|s| - 1];
      assert Sorted(init) by {
        forall i, j | 0 <= i < j < |init| ensures init[i].when <= init[j].when {
          assert init[i] == s[i] && init[j] == s[j];
        }
      }
      SortSortedIsIdentity(init);
      if init != [] {
        assert init[|init| - 1] == s[|s| - 2];
      }
      assert SortByWhen(s) == Insert(SortByWhen(init), last);
      assert Insert(init, last) == init + [last];
    }
  }

  /** The normalised list handed to the recorder job. */
  function Normalize(items: seq<Item>): (r: seq<DatedState>)
    ensures Sorted(r)
    ensures forall d :: d in r <==> Dated(d) in items
    ensures multiset(r) == multiset(DatedOnly(items))
  {
    var ds := DatedOnly(items);
    SortedMembers(ds);
    SortedPermutation(ds);
    SortByWhen(ds)
  }

  /** Normalising is stable: dated items with the same time keep their order. */
  lemma NormalizeStable(items: seq<Item>, t: int)
    ensures At(Normalize(items), t) == At(DatedOnly(items), t)
  {
    SortStable(DatedOnly(items), t);
  }

  /** The write job `async_write_ha_historical_states` / `_run_async_update_history` schedules, if any. */
  function ScheduleWrite(items: seq<Item>): (job: Option<seq<DatedState>>)
    ensures job.None? <==> forall i :: 0 <= i < |items| ==> items[i].Foreign?
    ensures job.Some? ==> |job.value| > 0 && Sorted(job.value) &&
                          forall d :: d in job.value <==> Dated(d) in items
    ensures job.Some? ==> multiset(job.value) == multiset(DatedOnly(items))
  {
    var ds := Normalize(items);
    if ds == [] then
      None
    else
      assert exists i :: 0 <= i < |items| && items[i].Dated? by {
        assert Dated(ds[0]) in items;
      }
      Some(ds)
  }

  // ---------------------------------------------------------------------
  // The recorder job.
  // ---------------------------------------------------------------------

  /** A row of entity `e` whose state is "unknown" or "unavailable": the cleanup deletes these. */
  predicate IsInvalid(row: Row, e: string) {
    row.entityId == e && (row.state == STATE_UNKNOWN || row.state == STATE_UNAVAILABLE)
  }

  /** A row of entity `e` that may serve as the latest state. */
  predicate IsValidOf(row: Row, e: string) {
    row.entityId == e && row.state != STATE_UNKNOWN && row.state != STATE_UNAVAILABLE
  }

  /** The table after the cleanup: exactly the rows that are not invalid rows of `e`, in order. */
  function Cleaned(rows: seq<Row>, e: string): (r: seq<Row>)
    ensures |r| <= |rows|
    ensures forall row :: row in r <==> row in rows && !IsInvalid(row, e)
  {
    if rows == [] then []
    else
      var init, last := rows[..|rows| - 1], rows[|rows| - 1];
      assert rows == init + [last];
      Cleaned(init, e) + (if IsInvalid(last, e) then [] else [last])
  }

  /** The cleanup keeps every row that is not an invalid row of `e` as often as it occurs, and no other. */
  lemma {:induction false} CleanedCounts(rows: seq<Row>, e: string)
    ensures forall row :: multiset(Cleaned(rows, e))[row] == if IsInvalid(row, e) then 0 else multiset(rows)[row]
  {
    if rows != [] {
      var init, last := rows[..|rows| - 1], rows[|rows| - 1];
      assert rows == init + [last];
      CleanedCounts(init, e);
    }
  }

  /** The cleanup works row by row and keeps the order of the rows it keeps. */
  lemma {:induction false} CleanedAppend(a: seq<Row>, b: seq<Row>, e: string)
    ensures Cleaned(a + b, e) == Cleaned(a, e) + Cleaned(b, e)
  {
    if b != [] {
      var b', last := b[..|b| - 1], b[|b| - 1];
      assert (a + b)[..|a + b| - 1] == a + b';
      assert (a + b)[|a + b| - 1] == last;
      CleanedAppend(a, b', e);
      assert Cleaned(a + b, e) == Cleaned(a + b', e) + (if IsInvalid(last, e) then [] else [last]);
      assert Cleaned(b, e) == Cleaned(b', e) + (if IsInvalid(last, e) then [] else [last]);
    } else {
      assert a + b == a;
    }
  }

  /** A single row is kept iff it is not an invalid row of `e`. */
  lemma CleanedSingle(row: Row, e: string)
    ensures Cleaned([row], e) == if IsInvalid(row, e) then [] else [row]
  {
    assert [row][..0] == [];
  }

  /** Cleaning twice deletes nothing more. */
  lemma {:induction false} CleanedNoInvalid(rows: seq<Row>, e: string)
    requires forall row :: row in rows ==> !IsInvalid(row, e)
    ensures Cleaned(rows, e) == rows
  {
    if rows != [] {
      var init := rows[..|rows| - 1];
      assert rows == init + [rows[|rows| - 1]];
      CleanedNoInvalid(init, e);
    }
  }

  /** The valid row of `e` with the greatest last_updated (the first such row on a tie), or None. */
  function Latest(rows: seq<Row>, e: string): (r: Option<Row>)
    ensures r.None? <==> forall row :: row in rows ==> !IsValidOf(row, e)
    ensures r.Some? ==> r.value in rows && IsValidOf(r.value, e) &&
                        forall row :: row in rows && IsValidOf(row, e) ==> row.lastUpdated <= r.value.lastUpdated
  {
    if rows == [] then None
    else
      var init, last := rows[..|rows| - 1], rows[|rows| - 1];
      assert rows == init + [last];
      var l := Latest(init, e);
      if !IsValidOf(last, e) then l
      else if l.None? || l.value.lastUpdated < last.lastUpdated then Some(last)
      else l
  }

  /** The states dated strictly after `cutoff`, in order. */
  function After(ds: seq<DatedState>, cutoff: int): (r: seq<DatedState>)
    ensures |r| <= |ds|
    ensures forall d :: d in r <==> d in ds && d.when > cutoff
  {
    if ds == [] then []
    else
      assert ds == [ds[0]] + ds[1..];
      (if ds[0].when > cutoff then [ds[0]] else []) + After(ds[1..], cutoff)
  }

  /** The cutoff filter keeps every later state as often as it occurs, and no other. */
  lemma {:induction false} AfterCounts(ds: seq<DatedState>, cutoff: int)
    ensures forall d :: multiset(After(ds, cutoff))[d] == if d.when > cutoff then multiset(ds)[d] else 0
  {
    if ds != [] {
      assert ds == [ds[0]] + ds[1..];
      AfterCounts(ds[1..], cutoff);
    }
  }

  /** The cutoff filter works state by state and keeps the order. */
  lemma {:induction false} AfterAppend(a: seq<DatedState>, b: seq<DatedState>, cutoff: int)
    ensures After(a + b, cutoff) == After(a, cutoff) + After(b, cutoff)
  {
    if a == [] {
      assert a + b == b;
    } else {
      assert (a + b)[0] == a[0] && (a + b)[1..] == a[1..] + b;
      AfterAppend(a[1..], b, cutoff);
    }
  }

  /** The cutoff filter is stable: the states it keeps at each time are all of them, in order. */
  lemma {:induction false} AfterAt(s: seq<DatedState>, cutoff: int, t: int)
    ensures At(After(s, cutoff), t) == if t > cutoff then At(s, t) else []
  {
    if s != [] {
      var init, last := s[..|s| - 1], s[|s| - 1];
      assert s == init + [last];
      AfterAppend(init, [last], cutoff);
      AfterAt(init, cutoff, t);
      var tail := After([last], cutoff);
      assert [last][1..] == [];
      assert tail == if last.when > cutoff then [last] else [];
      AtAppend(After(init, cutoff), tail, t);
      assert [last][..0] == [];
      assert At(tail, t) == if last.when > cutoff && last.when == t then [last] else [];
    }
  }

  lemma {:induction false} AfterSorted(ds: seq<DatedState>, cutoff: int)
    requires Sorted(ds)
    ensures Sorted(After(ds, cutoff))
  {
    if ds != [] {
      AfterSorted(ds[1..], cutoff);
      var rest := After(ds[1..], cutoff);
      forall y | y in rest ensures ds[0].when <= y.when {
        var k :| 0 <= k < |ds[1..]| && ds[1..][k] == y;
        assert ds[k + 1] == y;
      }
    }
  }

  /** The row the recorder job builds for one dated state. */
  function MakeRow(d: DatedState, id: nat, e: string, oldStateId: Option<nat>,
                   available: bool, base: Attributes, withEvent: bool): Row
  {
    Row(id, e, StringifyState(available, d.state), base + d.attributes, d.when, d.when,
        oldStateId, if withEvent then Some(d.when) else None)
  }

  /** The rows built for the kept states, one per state; `RecordsAt` says what each row holds. */
  function Records(ds: seq<DatedState>, startId: nat, e: string, prev: Option<nat>,
                   available: bool, base: Attributes, withEvent: bool): (r: seq<Row>)
    ensures |r| == |ds|
  {
    if ds == [] then []
    else
      var n := |ds|;
      var init := Records(ds[..n - 1], startId, e, prev, available, base, withEvent);
      var link := if n == 1 then prev else Some(init[n - 2].stateId);
      init + [MakeRow(ds[n - 1], startId + n - 1, e, link, available, base, withEvent)]
  }

  /**
   * Row `i` of the records: id `startId + i`, the entity, both times equal to
   * the state's time, the stringified state, the built attributes overridden
   * by the state's own, an event time when events are built; the first row
   * is chained to `prev` (the latest database row) and every later one to the
   * row before it.
   */
  lemma {:induction false} RecordsAt(ds: seq<DatedState>, startId: nat, e: string, prev: Option<nat>,
                                     available: bool, base: Attributes, withEvent: bool, i: nat)
    requires i < |ds|
    ensures var r := Records(ds, startId, e, prev, available, base, withEvent);
      r[i].stateId == startId + i && r[i].entityId == e &&
      r[i].lastChanged == ds[i].when && r[i].lastUpdated == ds[i].when &&
      r[i].state == StringifyState(available, ds[i].state) &&
      r[i].attributes == base + ds[i].attributes &&
      r[i].eventTimeFired == (if withEvent then Some(ds[i].when) else None) &&
      r[i].oldStateId == (if i == 0 then prev else Some(r[i - 1].stateId))
  {
    var n := |ds|;
    var init := ds[..n - 1];
    RecordsUnfold(ds, startId, e, prev, available, base, withEvent);
    if i < n - 1 {
      RecordsAt(init, startId, e, prev, available, base, withEvent, i);
      assert ds[i] == init[i];
    } else if n > 1 {
      RecordsAt(init, startId, e, prev, available, base, withEvent, n - 2);
    }
  }

  /** The records of all but the last state, then the row of the last state. */
  lemma RecordsUnfold(ds: seq<DatedState>, startId: nat, e: string, prev: Option<nat>,
                      available: bool, base: Attributes, withEvent: bool)
    requires ds != []
    ensures var n, r := |ds|, Records(ds, startId, e, prev, available, base, withEvent);
      var ri := Records(ds[..n - 1], startId, e, prev, available, base, withEvent);
      (forall k :: 0 <= k < n - 1 ==> r[k] == ri[k]) &&
      r[n - 1] == MakeRow(ds[n - 1], startId + n - 1, e, if n == 1 then prev else Some(ri[n - 2].stateId),
                          available, base, withEvent)
  {
  }

  /** The recorder's table together with the next state id it hands out. */
  datatype Store = Store(rows: seq<Row>, nextId: nat)

  /** Every row's id is below the next id to hand out. */
  ghost predicate StoreValid(st: Store) {
    forall i :: 0 <= i < |st.rows| ==> st.rows[i].stateId < st.nextId
  }

  /** The cutoff: the last_updated of the latest valid row, if there is one. */
  function Cutoff(rows: seq<Row>, e: string): Option<int> {
    var latest := Latest(rows, e);
    if latest.None? then None else Some(latest.value.lastUpdated)
  }

  /** The states the recorder job keeps: sorted, and strictly later than the cutoff if there is one. */
  function Kept(rows: seq<Row>, ds: seq<DatedState>, e: string): (r: seq<DatedState>)
    ensures Sorted(r)
    ensures forall d :: d in r <==> d in ds && (Cutoff(rows, e).Some? ==> d.when > Cutoff(rows, e).value)
  {
    var sorted := SortByWhen(ds);
    SortedMembers(ds);
    var latest := Latest(rows, e);
    if latest.None? then sorted
    else
      AfterSorted(sorted, latest.value.lastUpdated);
      After(sorted, latest.value.lastUpdated)
  }

  /**
   * The recorder job keeps each given state as often as it was given when it
   * is later than the cutoff (or there is none), and drops it otherwise.
   */
  lemma KeptCounts(rows: seq<Row>, ds: seq<DatedState>, e: string)
    ensures forall d ::
      multiset(Kept(rows, ds, e))[d] ==
        if Cutoff(rows, e).Some? && d.when <= Cutoff(rows, e).value then 0 else multiset(ds)[d]
  {
    SortedPermutation(ds);
    var latest := Latest(rows, e);
    if latest.Some? {
      AfterCounts(SortByWhen(ds), latest.value.lastUpdated);
    }
  }

  /** The kept states at each time are exactly the given ones at that time, in their given order. */
  lemma KeptStable(rows: seq<Row>, ds: seq<DatedState>, e: string, t: int)
    ensures At(Kept(rows, ds, e), t) ==
      if Cutoff(rows, e).Some? && t <= Cutoff(rows, e).value then [] else At(ds, t)
  {
    SortStable(ds, t);
    var latest := Latest(rows, e);
    if latest.Some? {
      AfterAt(SortByWhen(ds), latest.value.lastUpdated, t);
    }
  }

  /** The id of the row the first new row is chained to. */
  function PrevId(latest: Option<Row>): Option<nat> {
    if latest.None? then None else Some(latest.value.stateId)
  }

  /** `_save_states_into_recorder` / `_recorder_write_states` on the store. */
  function Write(st: Store, ds: seq<DatedState>, e: string, available: bool,
                 base: Attributes, withEvent: bool): Store
  {
    var cleaned := Cleaned(st.rows, e);
    var kept := Kept(cleaned, ds, e);
    if kept == [] then Store(cleaned, st.nextId)
    else Store(cleaned + Records(kept, st.nextId, e, PrevId(Latest(cleaned, e)), available, base, withEvent),
               st.nextId + |kept|)
  }

  /** The job's result: the cleaned table followed by one new row per kept state. */
  lemma WriteAppends(st: Store, ds: seq<DatedState>, e: string, available: bool,
                     base: Attributes, withEvent: bool)
    ensures var r, cleaned := Write(st, ds, e, available, base, withEvent), Cleaned(st.rows, e);
      var kept := Kept(cleaned, ds, e);
      r.rows == cleaned + Records(kept, st.nextId, e, PrevId(Latest(cleaned, e)), available, base, withEvent) &&
      r.nextId == st.nextId + |kept|
  {
    var cleaned := Cleaned(st.rows, e);
    var kept := Kept(cleaned, ds, e);
    if kept == [] {
      assert cleaned + Records(kept, st.nextId, e, PrevId(Latest(cleaned, e)), available, base, withEvent) == cleaned;
    }
  }

  /**
   * Every new row belongs to the entity, has a fresh id and is later than
   * every valid row of the entity already in the table.
   */
  lemma NewRowsAfterCutoff(st: Store, ds: seq<DatedState>, e: string, available: bool,
                           base: Attributes, withEvent: bool)
    ensures var r := Write(st, ds, e, available, base, withEvent);
      |Cleaned(st.rows, e)| <= |r.rows| &&
      forall i :: |Cleaned(st.rows, e)| <= i < |r.rows| ==>
        r.rows[i].entityId == e && r.rows[i].stateId == st.nextId + (i - |Cleaned(st.rows, e)|) &&
        forall prior :: prior in st.rows && IsValidOf(prior, e) ==> prior.lastUpdated < r.rows[i].lastUpdated
  {
    WriteAppends(st, ds, e, available, base, withEvent);
    var cleaned := Cleaned(st.rows, e);
    var latest := Latest(cleaned, e);
    var kept := Kept(cleaned, ds, e);
    var added := Records(kept, st.nextId, e, PrevId(latest), available, base, withEvent);
    var rows := cleaned + added;
    assert Write(st, ds, e, available, base, withEvent).rows == rows;
    forall i | |cleaned| <= i < |rows|
      ensures rows[i].entityId == e && rows[i].stateId == st.nextId + (i - |cleaned|)
      ensures forall prior :: prior in st.rows && IsValidOf(prior, e) ==> prior.lastUpdated < rows[i].lastUpdated
    {
      var k := i - |cleaned|;
      RecordsAt(kept, st.nextId, e, PrevId(latest), available, base, withEvent, k);
      assert rows[i] == added[k];
      assert kept[k] in kept;
      forall prior | prior in st.rows && IsValidOf(prior, e) ensures prior.lastUpdated < rows[i].lastUpdated {
        assert prior in cleaned;
      }
    }
  }

  /** The job deletes exactly the invalid rows of its own entity, and ids stay below the next id. */
  lemma DeletesOnlyInvalid(st: Store, ds: seq<DatedState>, e: string, available: bool,
                           base: Attributes, withEvent: bool)
    requires StoreValid(st)
    ensures var r := Write(st, ds, e, available, base, withEvent);
      StoreValid(r) &&
      forall row :: row in st.rows ==> (row in r.rows <==> !IsInvalid(row, e))
  {
    NewRowsAfterCutoff(st, ds, e, available, base, withEvent);
    WriteAppends(st, ds, e, available, base, withEvent);
    var r := Write(st, ds, e, available, base, withEvent);
    var cleaned := Cleaned(st.rows, e);
    forall i | 0 <= i < |r.rows| ensures r.rows[i].stateId < r.nextId {
      if i < |cleaned| {
        assert r.rows[i] in cleaned;
        var k :| 0 <= k < |st.rows| && st.rows[k] == r.rows[i];
      }
    }
  }

  /** When no state is later than the latest valid row, the job only cleans up. */
  lemma NothingNewAddsNothing(st: Store, ds: seq<DatedState>, e: string, available: bool,
                              base: Attributes, withEvent: bool)
    requires var cutoff := Cutoff(Cleaned(st.rows, e), e);
      cutoff.Some? && forall d :: d in ds ==> d.when <= cutoff.value
    ensures Write(st, ds, e, available, base, withEvent) == Store(Cleaned(st.rows, e), st.nextId)
  {
  }

  /** The rows a state renders to are valid ones: the entity is available and no state reads "unknown" or "unavailable". */
  predicate RendersValid(available: bool, d: DatedState) {
    var s := StringifyState(available, d.state);
    s != STATE_UNKNOWN && s != STATE_UNAVAILABLE
  }

  /** After the job, the table holds no invalid row of the entity when every written state renders valid. */
  lemma WriteLeavesNoInvalid(st: Store, ds: seq<DatedState>, e: string, available: bool,
                             base: Attributes, withEvent: bool)
    requires forall d :: d in ds ==> RendersValid(available, d)
    ensures forall row :: row in Write(st, ds, e, available, base, withEvent).rows ==> !IsInvalid(row, e)
  {
    WriteAppends(st, ds, e, available, base, withEvent);
    var r := Write(st, ds, e, available, base, withEvent);
    var cleaned := Cleaned(st.rows, e);
    var kept := Kept(cleaned, ds, e);
    var added := Records(kept, st.nextId, e, PrevId(Latest(cleaned, e)), available, base, withEvent);
    forall i | 0 <= i < |r.rows| ensures !IsInvalid(r.rows[i], e) {
      if i >= |cleaned| {
        var k := i - |cleaned|;
        RecordsAt(kept, st.nextId, e, PrevId(Latest(cleaned, e)), available, base, withEvent, k);
        assert r.rows[i] == added[k];
        assert kept[k] in kept;
      } else {
        assert r.rows[i] in cleaned;
      }
    }
  }

  /** A valid row of the entity at or after `d` bounds `d` by the cutoff. */
  lemma CoveredBy(rows: seq<Row>, e: string, d: DatedState, bound: Row)
    requires bound in rows && IsValidOf(bound, e) && d.when <= bound.lastUpdated
    ensures Cutoff(rows, e).Some? && d.when <= Cutoff(rows, e).value
  {
  }

  /**
   * The table `cleaned + added` bounds every state of `ds` by its cutoff when
   * each state either was kept, and so has a valid new row at its time, or is
   * no later than a valid row already in `cleaned`.
   */
  lemma CoveredByAppend(cleaned: seq<Row>, added: seq<Row>, kept: seq<DatedState>,
                        ds: seq<DatedState>, e: string, latest: Option<Row>)
    requires |added| == |kept|
    requires forall k :: 0 <= k < |kept| ==> IsValidOf(added[k], e) && added[k].lastUpdated == kept[k].when
    requires latest.Some? ==> latest.value in cleaned && IsValidOf(latest.value, e)
    requires forall d :: d in ds ==> d in kept || (latest.Some? && d.when <= latest.value.lastUpdated)
    ensures forall d :: d in ds ==> Cutoff(cleaned + added, e).Some? && d.when <= Cutoff(cleaned + added, e).value
  {
    var rows := cleaned + added;
    forall d | d in ds ensures Cutoff(rows, e).Some? && d.when <= Cutoff(rows, e).value {
      if latest.Some? && d.when <= latest.value.lastUpdated {
        CoveredBy(rows, e, d, latest.value);
      } else {
        var k :| 0 <= k < |kept| && kept[k] == d;
        assert rows[|cleaned| + k] == added[k];
        CoveredBy(rows, e, d, added[k]);
      }
    }
  }

  /** After the job, every written state is no later than the latest valid row of the entity. */
  lemma WriteCoversStates(st: Store, ds: seq<DatedState>, e: string, available: bool,
                          base: Attributes, withEvent: bool)
    requires forall d :: d in ds ==> RendersValid(available, d)
    ensures var r := Write(st, ds, e, available, base, withEvent);
      forall d :: d in ds ==> Cutoff(r.rows, e).Some? && d.when <= Cutoff(r.rows, e).value
  {
    WriteAppends(st, ds, e, available, base, withEvent);
    var cleaned := Cleaned(st.rows, e);
    var latest := Latest(cleaned, e);
    var kept := Kept(cleaned, ds, e);
    var added := Records(kept, st.nextId, e, PrevId(latest), available, base, withEvent);
    assert Write(st, ds, e, available, base, withEvent).rows == cleaned + added;
    forall k | 0 <= k < |kept| ensures IsValidOf(added[k], e) && added[k].lastUpdated == kept[k].when {
      RecordsAt(kept, st.nextId, e, PrevId(latest), available, base, withEvent, k);
      assert kept[k] in kept;
      assert RendersValid(available, kept[k]);
    }
    CoveredByAppend(cleaned, added, kept, ds, e, latest);
  }

  /**
   * Writing the same states twice adds nothing the second time, provided
   * every written state renders valid; otherwise the next run deletes those
   * rows and writes them again.
   */
  lemma WriteIdempotent(st: Store, ds: seq<DatedState>, e: string, available: bool,
                        base: Attributes, withEvent: bool)
    requires forall d :: d in ds ==> RendersValid(available, d)
    ensures var once := Write(st, ds, e, available, base, withEvent);
      Write(once, ds, e, available, base, withEvent) == once
  {
    var once := Write(st, ds, e, available, base, withEvent);
    WriteLeavesNoInvalid(st, ds, e, available, base, withEvent);
    CleanedNoInvalid(once.rows, e);
    if ds != [] {
      WriteCoversStates(st, ds, e, available, base, withEvent);
      NothingNewAddsNothing(once, ds, e, available, base, withEvent);
    }
  }

  /**
   * The state a historical entity reports of its own accord (none) is
   * recorded as "unknown" or "unavailable": exactly the rows the cleanup
   * deletes.
   */
  lemma OwnStateIsCleanedUp(e: string, available: bool, id: nat, t: int, attrs: Attributes)
    ensures IsInvalid(Row(id, e, StringifyState(available, ENTITY_STATE), attrs, t, t, None, None), e)
  {
  }

  /** The recorder: its table of rows and the next state id. */
  class Recorder {
    var rows: seq<Row>
    var nextId: nat

    function Contents(): Store
      reads this
    {
      Store(rows, nextId)
    }

    constructor (rows0: seq<Row>, nextId0: nat)
      ensures Contents() == Store(rows0, nextId0)
    {
      rows, nextId := rows0, nextId0;
    }

    /** The cleanup loop: every invalid row of `e` is deleted. */
    method DeleteInvalid(e: string)
      modifies this
      ensures rows == Cleaned(old(rows), e) && nextId == old(nextId)
    {
      var kept := [];
      var i := 0;
      while i < |rows|
        invariant 0 <= i <= |rows|
        invariant kept == Cleaned(rows[..i], e)
      {
        assert rows[..i + 1][..i] == rows[..i];
        if !IsInvalid(rows[i], e) {
          kept := kept + [rows[i]];
        }
        i := i + 1;
      }
      assert rows[..i] == rows;
      rows := kept;
    }

    /** The job body: cleanup, cutoff, sort, filter, then one appended row per kept state. */
    method SaveStates(ds: seq<DatedState>, e: string, available: bool, base: Attributes, withEvent: bool)
      modifies this
      ensures Contents() == Write(old(Contents()), ds, e, available, base, withEvent)
    {
      ghost var start := Contents();
      WriteAppends(start, ds, e, available, base, withEvent);
      DeleteInvalid(e);
      assert rows == Cleaned(start.rows, e) && nextId == start.nextId;
      var latest := Latest(rows, e);
      var kept := SortByWhen(ds);
      if latest.Some? {
        kept := After(kept, latest.value.lastUpdated);
      }
      assert kept == Kept(rows, ds, e);
      if kept == [] {
        return;
      }
      var added := BuildRecords(kept, nextId, e, PrevId(latest), available, base, withEvent);
      assert |added| == |kept|;
      rows := rows + added;
      nextId := nextId + |added|;
    }
  }

  /** Building the rows for one more state appends one row, linked to the previous new row. */
  lemma {:induction false} RecordsSnoc(ds: seq<DatedState>, n: nat, startId: nat, e: string, prev: Option<nat>,
                                       available: bool, base: Attributes, withEvent: bool)
    requires n < |ds|
    ensures var before := Records(ds[..n], startId, e, prev, available, base, withEvent);
      Records(ds[..n + 1], startId, e, prev, available, base, withEvent)
        == before + [MakeRow(ds[n], startId + n, e, if n > 0 then Some(before[n - 1].stateId) else prev,
                             available, base, withEvent)]
  {
    assert ds[..n + 1][..n] == ds[..n];
    assert ds[..n + 1][n] == ds[n];
  }

  /** The loop that builds the rows, linking each to the previous one built. */
  method BuildRecords(ds: seq<DatedState>, startId: nat, e: string, prev: Option<nat>,
                      available: bool, base: Attributes, withEvent: bool) returns (db: seq<Row>)
    ensures db == Records(ds, startId, e, prev, available, base, withEvent)
  {
    db := [];
    for idx := 0 to |ds|
      invariant db == Records(ds[..idx], startId, e, prev, available, base, withEvent)
    {
      var link := if idx > 0 then Some(db[idx - 1].stateId) else prev;
      var row := MakeRow(ds[idx], startId + idx, e, link, available, base, withEvent);
      RecordsSnoc(ds, idx, startId, e, prev, available, base, withEvent);
      db := db + [row];
    }
    assert ds[..|ds|] == ds;
  }
}

# ha-ideenergy core, modelled in Dafny

This project models the core of the ha-ideenergy Home Assistant integration.
The integration reads an electricity meter through the i-DE (Iberdrola
Distribución) customer API and publishes the readings as Home Assistant
sensors. The modelled parts are these:

- **The polling gate** of `barrier.py` (module `Barrier`). It has:
  - a time-of-hour update window;
  - bounded retries, with a cooldown once the retry budget is spent;
  - a minimum age between successes;
  - a sticky "force the next attempt" flag.

  `get_state` is specified by `Verdict`, which gives each of the six
  verdicts its full condition on the gate's fields. The class `Barrier`
  keeps the four mutable fields, and each method ties the new fields to a
  function of the old ones.
- **The data coordinator** of `datacoordinator.py` (module `DataCoordinator`):
  - the `DataSetType` bit flags;
  - the union of the registered sensors' interests;
  - the per-dataset loop: gate check, fetch, merge of the keys that
    arrived, then `success`;
  - the merge into the previous or the default snapshot;
  - the UTC guard;
  - sensor registration and `update_internal_data`.

  The loops are methods of class `Coordinator`, proved against the
  specification functions `Interests`, `Step` and `RunTick`. Lemmas about
  those functions state which keys a tick writes, which gate calls it
  makes, and that datasets do not influence each other.
- **The entity identity builders** of `entity.py` (module `Entity`): the
  unique id, the entity id and the display name.
- **The patched state machine** of `hack.py` (module `Hack`):
  - `async_set`, which writes a state with a caller-chosen `time_fired`,
    or returns early when nothing changed;
  - `_stringify_state`, without its float branch.
- **The historical writers** of `historical_sensor.py` and
  `historical_state.py` (module `Historical`):
  - normalisation: keep the dated states and sort them stably by time;
  - scheduling of the recorder job;
  - the job itself: delete the entity's "unknown"/"unavailable" rows; find
    the latest remaining row; keep only the states strictly later than it;
    append one row per state, each chained to its predecessor.

  The recorder database is a sequence of rows plus the next state id.
  Class `Recorder` runs the job in place, and lemmas prove what the job
  does to the table, including that it is idempotent when every state
  renders as a valid state. It is not idempotent in general: an unavailable
  entity's states render as "unavailable" and a None state as "unknown"
  (`hack.py:123-126`), so the next run deletes those rows and writes them
  again under new state ids. Historical entities report no state of their
  own (`historical_state.py:167-169`) and are never polled
  (`historical_state.py:145-149`).
- **The wiring** of `__init__.py` (module `Setup`):
  - the update-interval computation;
  - the map from dataset to gate policy;
  - what the coordinator's gate calls do to a window gate.

  The constants of `const.py` are inlined.

Two helper modules complete the model:
- `Wrappers` holds `Option` and `Result`.
- `Text` holds ASCII case mapping, `str.split`/`join` support and decimal
  rendering of integers.

Times are integer seconds since the epoch, in UTC. The local
minute-of-hour that the window rule reads is a separate parameter.

### Behaviour of the code worth knowing

- **No call to `fail()`.** The coordinator never calls `fail()`: every
  error branch of `datacoordinator.py:152-207` only `continue`s, and no gate
  method except `check()` and `success()` is ever called. The model's
  gate-call trace has no `fail` entry, and `Setup.NoFailureEverCounted`
  proves that, through any run of the coordinator, a gate's failure count
  never grows and its cooldown never moves.
- **A forced attempt that spends the retry budget stops being forced.**
  `barrier.py:167-169` clears `_force_next` once the budget is spent, so the
  next `get_state` answers COOLDOWN_BARRIER_ACTIVE
  (`Barrier.ThreeFailuresScenario`).
- **Methods the callers use but `barrier.py` does not define.**
  - `__init__.py` and `datacoordinator.py` use `TimeWindowBarrier`,
    `TimeDeltaBarrier`, `check()`, `success()` and `BarrierDeniedError`.
    None of them is defined in `barrier.py`.
  - `barrier.py` defines `Barrier` with `allowed()` and `sucess()` (so
    spelled).

  The coordinator therefore sees each gate only through its answer to
  `check` (`DataCoordinator.Check`). `Setup.WindowCheck` and `Setup.Replay`
  read a window gate as answering `check` with `allowed` and `success` with
  `sucess`; `Setup.WindowGateInTick` follows such a gate through a tick.
- **The "not implemented yet" branch is unreachable.** `Step` and
  `Coordinator.Visit` model it: a dataset that is not one of the four kinds
  is checked and then skipped. `Requested` only ever yields the four kinds,
  so no tick reaches that branch.
- **The update interval.** `_calculate_datacoordinator_update_interval`
  computes an interval, but the coordinator is built with a fixed 30
  seconds (`__init__.py:100`). Both are modelled, and
  `Setup.ShippedInterval` relates them.

## Model

| member | source | states |
|---|---|---|
| Text.Lower | custom_components/ideenergy/entity.py:128 | `str.lower` on ASCII: same length, each character lowered, and the result is all lower case |
| Text.LowerIdempotent | custom_components/ideenergy/hack.py:78 | lowering an already lowered entity id changes nothing |
| Text.IntToString | custom_components/ideenergy/hack.py:131 | `str()` of an integer: a leading "-" exactly for negatives, then decimal digits whose value is the magnitude, with no leading zero |
| Barrier.Housekeep | custom_components/ideenergy/barrier.py:115-118 | the only mutation of `get_state`: the failure count is reset exactly when the budget is spent and the cooldown is over; every other field is untouched |
| Barrier.Verdict | custom_components/ideenergy/barrier.py:102-147 | each of the six verdicts holds exactly under its own order-free condition on the fields before the call: FORCED iff forced; COOLDOWN iff not forced and before the cooldown; RETRYING iff 0 < failures < max; window closed, too recent or ready otherwise |
| Barrier.IsAllowed | custom_components/ideenergy/barrier.py:176-177 | `allowed` is true iff the attempt is forced, or retrying after the cooldown, or the window rules apply with the window open and the last success older than the window width |
| Barrier.AfterForce | custom_components/ideenergy/barrier.py:149-150 | `force_next` raises the flag and changes nothing else |
| Barrier.AfterSuccess | custom_components/ideenergy/barrier.py:152-157 | a success clears the flag, forgets the failures, records the success time and leaves the cooldown alone |
| Barrier.AfterFail | custom_components/ideenergy/barrier.py:161-169 | a failure adds one; reaching the budget clears the flag and sets the cooldown to now plus half the maximum age; below the budget nothing else changes |
| Barrier.FailsAccumulate | custom_components/ideenergy/barrier.py:161-169 | n consecutive failures add n; below the budget nothing else moves; once the budget is spent the flag is down and the cooldown runs from the last failure |
| Barrier.RetryBound | custom_components/ideenergy/barrier.py:131-133 | from a fresh gate, fewer failures than the budget make every later check RETRYING, whatever the window |
| Barrier.CooldownAfterBudget | custom_components/ideenergy/barrier.py:124-129 | once the budget is spent, every check before the cooldown ends is denied, even if the attempt had been forced |
| Barrier.SuccessArmsRecency | custom_components/ideenergy/barrier.py:139-144 | after a success, an open window answers TOO_RECENT until the window width has elapsed |
| Barrier.SuccessIdempotent | custom_components/ideenergy/barrier.py:152-157 | two successes at the same instant equal one |
| Barrier.HousekeepingKeepsVerdict | custom_components/ideenergy/barrier.py:115-133 | the failure reset of `get_state` never changes the verdict of the same call |
| Barrier.FreshBarrierScenarios | custom_components/ideenergy/barrier.py:69-75 | a fresh measure gate answers UPDATE_WINDOW_CLOSED at minute 30 and READY at minute 55 |
| Barrier.ThreeFailuresScenario | custom_components/ideenergy/barrier.py:164-169 | three failures with the production settings start a 1500 s cooldown that denies an immediate check, forced or not |
| Barrier.Barrier.constructor | custom_components/ideenergy/barrier.py:50-75 | a new gate: not forced, no failures, last success and cooldown at the epoch |
| Barrier.Barrier.GetState | custom_components/ideenergy/barrier.py:102-147 | returns `Verdict` of the fields before the call and leaves the fields as `Housekeep` says |
| Barrier.Barrier.ForceNext | custom_components/ideenergy/barrier.py:149-150 | the fields become `AfterForce` of the old ones |
| Barrier.Barrier.Sucess | custom_components/ideenergy/barrier.py:152-159 | the fields become `AfterSuccess` of the old ones |
| Barrier.Barrier.Fail | custom_components/ideenergy/barrier.py:161-174 | the fields become `AfterFail` of the old ones |
| Barrier.Barrier.Allowed | custom_components/ideenergy/barrier.py:176-177 | answers `IsAllowed` of the fields before the call, with `get_state`'s housekeeping applied |
| DataCoordinator.FlagLayout | custom_components/ideenergy/datacoordinator.py:44-51 | a member is one of the four kinds iff its flag is a single bit; NONE iff the flag is 0 and ALL iff it is 0b1111; distinct kinds share no bit, and ALL is exactly their union |
| DataCoordinator.Select | custom_components/ideenergy/datacoordinator.py:145-147 | the generator filters keep exactly the members other than ALL that intersect the mask, in declaration order |
| DataCoordinator.Requested | custom_components/ideenergy/datacoordinator.py:145-148 | a tick works on exactly the four kinds whose bit is in the mask, each once, in declaration order; NONE and ALL never appear |
| DataCoordinator.Defaults | custom_components/ideenergy/datacoordinator.py:56-70 | the default snapshot has exactly the five data keys |
| DataCoordinator.OwnerOf | custom_components/ideenergy/datacoordinator.py:169-179 | every data key is written by exactly one kind's fetch |
| DataCoordinator.FetchedData | custom_components/ideenergy/datacoordinator.py:215-240 | a fetch returns exactly its own kind's keys: the measure both readings, a historical series its single key |
| DataCoordinator.TickData | custom_components/ideenergy/datacoordinator.py:150-213 | a tick's data holds a key iff its owner kind was requested, has a gate, was admitted and fetched without error; the value is the one that fetch returned |
| DataCoordinator.TickCalls | custom_components/ideenergy/datacoordinator.py:152-205 | `check` is called on every requested dataset with a gate, `success` exactly on the refreshed ones, each right after its own `check` |
| DataCoordinator.CheckOncePerTick | custom_components/ideenergy/datacoordinator.py:152-156 | over the requested datasets, a gate hears exactly one `check` per tick when its dataset is requested and none otherwise |
| DataCoordinator.FetchIsolation | custom_components/ideenergy/datacoordinator.py:168-205 | what a tick does for one dataset (its keys, its `success`) does not depend on how other datasets' fetches turn out |
| DataCoordinator.Base | custom_components/ideenergy/datacoordinator.py:135 | `self.data or defaults`: None and an empty dict both fall back to the defaults, any other dict is kept |
| DataCoordinator.Merge | custom_components/ideenergy/datacoordinator.py:135 | fetched keys override, the other keys keep their old values, no key is lost, and every default key stays present |
| DataCoordinator.InterestOfCovers | custom_components/ideenergy/datacoordinator.py:127-128 | one sensor's OR of members covers a kind iff some member it declares covers it |
| DataCoordinator.InterestsMask | custom_components/ideenergy/datacoordinator.py:125-128 | the OR over all sensors covers a kind iff some registered sensor declares a member covering it |
| DataCoordinator.InterestsCover | custom_components/ideenergy/datacoordinator.py:125-148 | a kind is requested in a tick iff some registered sensor wants it; with no sensors the mask is NONE |
| DataCoordinator.IdleTick | custom_components/ideenergy/datacoordinator.py:125-136 | with no sensor registered, no gate is called and the previous (or default) data comes back unchanged |
| DataCoordinator.FirstIndex | custom_components/ideenergy/datacoordinator.py:99 | `list.remove` takes out the first occurrence: the index holds the sensor and no earlier one does |
| DataCoordinator.Coordinator.constructor | custom_components/ideenergy/datacoordinator.py:86-89 | a new coordinator has no sensors and no data |
| DataCoordinator.Coordinator.RegisterSensor | custom_components/ideenergy/datacoordinator.py:94-96 | the sensor is appended |
| DataCoordinator.Coordinator.UnregisterSensor | custom_components/ideenergy/datacoordinator.py:98-100 | removes the first occurrence; reports failure (Python's ValueError) and changes nothing when the sensor is not registered |
| DataCoordinator.Coordinator.UpdateInternalData | custom_components/ideenergy/datacoordinator.py:102-106 | the data becomes the old data (or the defaults when there is none) overridden by the update |
| DataCoordinator.Coordinator.RequestedDataSets | custom_components/ideenergy/datacoordinator.py:125-128 | the nested OR loop computes `Interests` of the registered sensors |
| DataCoordinator.Coordinator.Visit | custom_components/ideenergy/datacoordinator.py:153-207 | one loop iteration yields exactly `Step`: nothing without a gate, only `check` when denied or when the fetch errors, else the fetched keys and `success` |
| DataCoordinator.Coordinator.UpdateDataRaw | custom_components/ideenergy/datacoordinator.py:138-213 | fails iff a given `now` is not UTC; otherwise the loop's result is `RunTick` over `Requested(datasets)` |
| DataCoordinator.Coordinator.AsyncUpdateData | custom_components/ideenergy/datacoordinator.py:108-136 | runs the tick at the current UTC time, so it never fails; the result is the tick over the sensors' interests, merged into the previous or default data |
| Entity.Cups | custom_components/ideenergy/entity.py:127 | the "cups" identifier is missing exactly when no identifier pair has that key |
| Entity.CupsIsLastPair | custom_components/ideenergy/entity.py:127 | when present, the "cups" identifier is the value of a "cups" pair with no "cups" pair after it |
| Entity.UniqueId | custom_components/ideenergy/entity.py:124-128 | defined iff the device has a cups; then entry id, cups and sensor type joined by "-", lower-cased, and entirely lower case |
| Entity.EntityId | custom_components/ideenergy/entity.py:131-140 | defined iff the device has a cups; then the lowered platform, a dot, and the lowered slug of "ideenergy_<cups>_<type>" |
| Entity.Split | custom_components/ideenergy/entity.py:148 | `str.split(sep)` gives one more piece than there are separators, and no piece holds the separator |
| Entity.JoinSplit | custom_components/ideenergy/entity.py:148 | joining the pieces of a split with the same separator gives the string back |
| Entity.Capitalize | custom_components/ideenergy/entity.py:148 | `str.capitalize`: first character upper-cased, the others lower-cased, same length |
| Entity.CapitalizeAll | custom_components/ideenergy/entity.py:148 | every piece is capitalised, in place |
| Entity.NameAt | custom_components/ideenergy/entity.py:143-148 | the name has the type's length; each "-" becomes a space, each word start is upper-cased and every other character lower-cased |
| Entity.NameWords | custom_components/ideenergy/entity.py:146-148 | the name is built from one more word than the type has "-", and contains no "-" |
| Entity.NameExample | custom_components/ideenergy/entity.py:143-148 | "historical-consumption" is named "Historical Consumption" |
| Hack.PyStr | custom_components/ideenergy/hack.py:131 | `str()` of a text, integer, boolean or None state: the text itself, the decimal digits without leading zeros (after a "-" for negatives), "True"/"False", "None" |
| Hack.StringifyState | custom_components/ideenergy/hack.py:121-131 | "unavailable" when the entity is unavailable, "unknown" for a None state, else `str()` of the state; "unknown" only comes from those cases or from the text "unknown" itself |
| Hack.Lookup | custom_components/ideenergy/hack.py:81 | the old state is present iff the lowered id is in the table, and is its entry |
| Hack.Transition | custom_components/ideenergy/hack.py:78-105 | early return iff an old state exists with the same state text, no force and equal attributes; else the new state has the lowered id, `str()` state, attributes (or {}), `time_fired` (or the clock); it keeps `last_changed` only when the state text is unchanged and not forced, and validates the id iff there was no old state |
| Hack.Apply | custom_components/ideenergy/hack.py:106 | on an early return the table is unchanged; otherwise only the lowered id's entry is replaced |
| Hack.RepeatIsNoOp | custom_components/ideenergy/hack.py:81-91 | repeating a call without `force_update` returns early the second time, whatever its time |
| Hack.CaseInsensitive | custom_components/ideenergy/hack.py:78 | an id and its lower-cased form write the same state |
| Hack.StateMachine.AsyncSet | custom_components/ideenergy/hack.py:62-113 | the table becomes `Apply` of `Transition`; a state_changed event (id, old state, new state, time fired) is appended exactly when a state is written |
| Historical.DatedOnly | custom_components/ideenergy/historical_sensor.py:318-320 | the normalisation keeps exactly the dated items, never more than were given |
| Historical.DatedOnlyCounts | custom_components/ideenergy/historical_sensor.py:318-320 | each dated item's state is kept exactly as often as the item occurs |
| Historical.DatedOnlyAppend | custom_components/ideenergy/historical_sensor.py:318-320 | the filter distributes over concatenation, so it keeps the items' order |
| Historical.DatedOnlySingle | custom_components/ideenergy/historical_sensor.py:318-320 | a dated item yields its state, any other object nothing |
| Historical.InsertPermutes | custom_components/ideenergy/historical_sensor.py:321 | inserting a state into the list adds exactly that state, losing and duplicating none |
| Historical.SortedPermutation | custom_components/ideenergy/historical_sensor.py:321 | the sort by time yields a sorted permutation of its input |
| Historical.SortedMembers | custom_components/ideenergy/historical_sensor.py:321 | the sorted list is sorted by time and holds exactly the states of its input |
| Historical.SortStable | custom_components/ideenergy/historical_sensor.py:321 | the sort is stable: states with equal times keep their relative order |
| Historical.SortSortedIsIdentity | custom_components/ideenergy/historical_sensor.py:385 | re-sorting inside the recorder job leaves the already sorted list unchanged |
| Historical.Normalize | custom_components/ideenergy/historical_state.py:201-204 | the normalised list is sorted by time and is a permutation of the dated items, duplicates included |
| Historical.NormalizeStable | custom_components/ideenergy/historical_state.py:201-204 | dated items with the same time keep their original order |
| Historical.ScheduleWrite | custom_components/ideenergy/historical_sensor.py:318-332 | no job iff no item is dated; a job gets a non-empty sorted permutation of the dated items, duplicates included |
| Historical.Cleaned | custom_components/ideenergy/historical_sensor.py:346-361 | the cleanup keeps exactly the rows that are not "unknown"/"unavailable" rows of this entity |
| Historical.CleanedCounts | custom_components/ideenergy/historical_sensor.py:346-361 | each row that is not an invalid row of the entity survives exactly as often as it occurs; invalid rows never |
| Historical.CleanedAppend | custom_components/ideenergy/historical_sensor.py:346-361 | the cleanup distributes over concatenation, so surviving rows keep their order |
| Historical.CleanedSingle | custom_components/ideenergy/historical_sensor.py:346-361 | a single row survives iff it is not an invalid row of the entity |
| Historical.CleanedNoInvalid | custom_components/ideenergy/historical_state.py:269-284 | a table with no invalid row of the entity is left untouched by the cleanup |
| Historical.Latest | custom_components/ideenergy/historical_sensor.py:366-379 | none iff the entity has no valid row; else a valid row of the entity with the greatest last_updated |
| Historical.After | custom_components/ideenergy/historical_sensor.py:393 | the filter keeps exactly the states strictly later than the cutoff |
| Historical.AfterCounts | custom_components/ideenergy/historical_sensor.py:393 | each state later than the cutoff is kept exactly as often as it occurs, every other state never |
| Historical.AfterAppend | custom_components/ideenergy/historical_sensor.py:393 | the filter distributes over concatenation, so kept states keep their order |
| Historical.AfterAt | custom_components/ideenergy/historical_sensor.py:393 | at each time after the cutoff the filter keeps all the states of that time in order, at other times none |
| Historical.AfterSorted | custom_components/ideenergy/historical_sensor.py:385-393 | filtering a sorted list keeps it sorted |
| Historical.Kept | custom_components/ideenergy/historical_sensor.py:385-397 | the kept states are sorted and are exactly the given states strictly later than the latest valid row, or all of them when there is none |
| Historical.KeptCounts | custom_components/ideenergy/historical_sensor.py:385-397 | each given state is kept exactly as often as it was given when later than the cutoff (or there is none), otherwise dropped |
| Historical.KeptStable | custom_components/ideenergy/historical_sensor.py:385-397 | at each time the kept states are the given states of that time in their given order, or none at or before the cutoff |
| Historical.RecordsAt | custom_components/ideenergy/historical_sensor.py:408-435 | row i of the records is built from kept state i: consecutive ids, the entity id, both times equal to the state's time, the stringified state, the built attributes overridden by the state's own, an event time iff events are built; the first row chains to the latest database row and each later row to its predecessor |
| Historical.WriteAppends | custom_components/ideenergy/historical_sensor.py:337-440 | the job leaves the cleaned table followed by the records of the kept states, and hands out one id per kept state |
| Historical.NewRowsAfterCutoff | custom_components/ideenergy/historical_sensor.py:386-433 | every new row belongs to the entity, has a fresh consecutive id and is later than every valid row already stored |
| Historical.DeletesOnlyInvalid | custom_components/ideenergy/historical_sensor.py:346-361 | an old row survives the job iff it is not an invalid row of this entity; all ids stay below the next id |
| Historical.NothingNewAddsNothing | custom_components/ideenergy/historical_sensor.py:395-397 | when no state is later than the latest valid row, the job only cleans up |
| Historical.WriteLeavesNoInvalid | custom_components/ideenergy/historical_state.py:262-364 | when every state renders valid, the table afterwards holds no invalid row of the entity |
| Historical.WriteCoversStates | custom_components/ideenergy/historical_state.py:289-359 | when every state renders valid, every given state is afterwards no later than the latest valid row |
| Historical.WriteIdempotent | custom_components/ideenergy/historical_sensor.py:337-440 | running the job twice with the same valid-rendering states adds nothing the second time |
| Historical.OwnStateIsCleanedUp | custom_components/ideenergy/historical_state.py:166-169 | a historical entity's own state (None) is recorded as "unknown" or "unavailable", exactly what the cleanup deletes |
| Historical.Recorder.constructor | custom_components/ideenergy/historical_sensor.py:340-342 | the recorder holds the given table and next id |
| Historical.Recorder.DeleteInvalid | custom_components/ideenergy/historical_state.py:279-284 | the deletion loop leaves the table as `Cleaned` and hands out no id |
| Historical.Recorder.SaveStates | custom_components/ideenergy/historical_state.py:262-364 | the recorder ends as `Write` of the old table: cleanup, cutoff, filter, chained rows |
| Historical.BuildRecords | custom_components/ideenergy/historical_state.py:334-359 | the row-building loop, events included, yields exactly `Records` |
| Setup.UpdateInterval | custom_components/ideenergy/__init__.py:146-156 | never below 60 s; above it, the floor of half the window width in seconds |
| Setup.ShippedInterval | custom_components/ideenergy/__init__.py:98-100 | the shipped window would give 270 s, longer than the 30 s the coordinator is built with |
| Setup.IntervalMonotone | custom_components/ideenergy/__init__.py:150-154 | a wider window never gives a shorter interval |
| Setup.Policies | custom_components/ideenergy/__init__.py:79-97 | every kind has a gate: the measure a window gate (minutes 50-59, 3 retries, 3000 s), consumption and generation 6 h, power demand 36 h |
| Setup.EveryRequestedDatasetIsGated | custom_components/ideenergy/__init__.py:79-97 | every dataset the coordinator can request has a gate, so its missing-gate branch is never taken |
| Setup.WindowCheck | custom_components/ideenergy/datacoordinator.py:155 | a window gate admits iff `allowed` holds, and a denial means a non-admitting verdict |
| Setup.WindowGateInTick | custom_components/ideenergy/datacoordinator.py:152-205 | for a requested kind behind a window gate, `success` is called and its keys written iff the barrier's verdict admits and the fetch returns; a cooldown blocks both; a forced attempt whose fetch returns leaves the gate unforced with the success at `now` |
| Setup.NoFailureEverCounted | custom_components/ideenergy/datacoordinator.py:152-205 | through any sequence of the coordinator's gate calls a window gate's failure count never grows and its cooldown never moves |
| Setup.StepOnGate | custom_components/ideenergy/datacoordinator.py:154-205 | a refreshed dataset's gate ends unforced with no failures and the success time now; otherwise its flag and last success are unchanged, so a forced attempt whose fetch fails stays forced |

## Left out

- Barrier.AfterFail: the cooldown is `now + max_age / 2` in whole seconds, rounded down. Python divides exactly, so an odd maximum age gives a half second more there.
- Barrier.Barrier.Fail: the same rounding as `AfterFail`.
- `Barrier.delay` and its two delay bounds are not modelled. They only cause a random sleep.
- The gate's `state` property is `get_state()` at the current time, which `Barrier.Barrier.GetState` models. Its `attributes` property only reports the fields and is not modelled.
- Time zones are not modelled. Times are UTC seconds. The local minute of the hour that the window rule reads is a parameter. The UTC guard of the coordinator is modelled as a zone tag on `now`.
- The i-DE API client is not modelled.
  - Each fetch is an arbitrary outcome passed in as a function: a value, or one of the four caught errors.
  - Payload values are opaque.
- Home Assistant's DataUpdateCoordinator machinery is not modelled: scheduling, storing the returned data, `last_update_success`, the coordinator name.
- Gate implementations are not modelled.
  - The coordinator sees a gate only as the answer of its `check`, plus the calls it makes on it.
  - `TimeWindowBarrier`, `TimeDeltaBarrier`, `check`, `success` and `BarrierDeniedError` are not part of this model: `barrier.py` does not define them.
  - The time-delta gates have no model beyond their configured delta.
- DataCoordinator.Coordinator.UpdateInternalData: the source assigns the module-level default dict itself and then updates it in place, so later fallbacks see the mutated defaults. The model treats snapshots as values and does not capture that aliasing.
- Entity.EntityId: Home Assistant's `slugify` is a parameter.
- Text.Lower: only ASCII letters are case-mapped. Python's `str.lower`, `str.upper` and `str.capitalize` map all of Unicode.
- The device `identifiers` are a set in `__init__.py`. The model takes them as a sequence of pairs, and the last "cups" pair wins, as when building a dict.
- The float branch of `_stringify_state` is not modelled. Floating point is out of scope.
- `_build_attributes` is not modelled. It reads entity properties, customisation and temperature units. The attributes it builds are the parameter `base` of the recorder job.
- In `async_set`, the `Context` object and the event's origin are not modelled.
- Hack.StateMachine.AsyncSet: the validation done by Home Assistant's `State` constructor is not modelled, nor are its exceptions. It raises `InvalidEntityFormatError` for an invalid id on a first write, and `InvalidStateError` for a state longer than 255 characters; either way nothing is written and no event fires. The model stores the validation flag and always writes and fires when it does not return early.
- Home Assistant's `State` constructor fills a missing `last_changed` with `last_updated`. The model keeps what `async_set` passes, and does not model that fill-in.
- In the recorder job, the following are not modelled:
  - SQLAlchemy sessions and commits;
  - JSON serialisation;
  - attribute hashing;
  - separate StateAttributes rows. Attributes are stored on the row itself.
- Historical.Latest: when two valid rows share the greatest `last_updated`, the database's choice is unspecified. The model returns the earlier one in table order.
- Historical.Recorder: state ids are handed out by the database's auto-increment. The model uses an explicit next id.
- The following are not modelled:
  - the scheduling of history updates in `historical_state.py` (`async_added_to_hass`, the update interval);
  - the entities' `historical_states` storage;
  - the unused `_recorder_cleanup`.
- `async_setup_entry` is not modelled beyond the gate map and the update interval: the API client, device info, platform forwarding, unload, reload and migration.
- `sensor.py`, `updates.py`, `fixes.py` and `config_flow.py` are not part of this model.

/**
 * The patched state machine of hack.py: `async_set` writes an entity's state
 * into the state table (a map from lower-cased entity id to state) with a
 * caller-chosen `time_fired`, and fires a state_changed event; and
 * `_stringify_state` renders an entity's raw state as the table's string.
 */
module Hack {
  import opened Wrappers
  import opened Text

  const STATE_UNAVAILABLE: string := "unavailable"
  const STATE_UNKNOWN: string := "unknown"

  /** The raw state an entity reports; floats are not part of this model. */
  datatype RawState = NoneState | Text(s: string) | Integer(n: int) | Boolean(b: bool)

  type Attributes = map<string, string>

  /** Python's str() of a raw state. */
  function PyStr(v: RawState): (r: string)
    ensures v.Text? ==> r == v.s
    ensures v.Integer? && v.n >= 0 ==> IsDigits(r) && DecimalValue(r) == v.n && (|r| > 1 ==> r[0] != '0')
    ensures v.Integer? && v.n < 0 ==> 1 < |r| && r[0] == '-' && IsDigits(r[1..]) && DecimalValue(r[1..]) == -v.n &&
                                      (|r| > 2 ==> r[1] != '0')
    ensures v.Boolean? ==> r == (if v.b then "True" else "False")
    ensures v.NoneState? ==> r == "None"
  {
    match v
    case NoneState => "None"
    case Text(s) => s
    case Integer(n) => IntToString(n)
    case Boolean(b) => if b then "True" else "False"
  }

  /** `_stringify_state` without the float branch. */
  function StringifyState(available: bool, state: RawState): (r: string)
    ensures !available ==> r == STATE_UNAVAILABLE
    ensures available && state.NoneState? ==> r == STATE_UNKNOWN
    ensures available && !state.NoneState? ==> r == PyStr(state)
    ensures available && state.Text? ==> r == state.s
    ensures r == STATE_UNKNOWN ==> !available || state.NoneState? || state == Text(STATE_UNKNOWN)
  {
    if !available then STATE_UNAVAILABLE
    else if state.NoneState? then STATE_UNKNOWN
    else PyStr(state)
  }

  /**
   * A row of the state table. `lastChanged` is what async_set hands to the
   * State constructor (None when the state changed); `validateEntityId` is
   * the seventh argument, which async_set sets to "there was no old state".
   */
  datatype HaState = HaState(
    entityId: string,
    state: string,
    attributes: Attributes,
    lastChanged: Option<int>,
    lastUpdated: int,
    validateEntityId: bool)

  datatype StateChanged = StateChanged(entityId: string, oldState: Option<HaState>, newState: HaState, timeFired: int)

  /** The old state stored under `id`, as `self._states.get(entity_id)`. */
  function Lookup(states: map<string, HaState>, id: string): (r: Option<HaState>)
    ensures r.Some? <==> id in states
    ensures r.Some? ==> r.value == states[id]
  {
    if id in states then Some(states[id]) else None
  }

  /**
   * The state async_set writes, or None when it returns early. `clock` is
   * the current time, used only when no `time_fired` is given.
   */
  function Transition(states: map<string, HaState>, entityId: string, newState: RawState,
                      attributes: Option<Attributes>, forceUpdate: bool,
                      timeFired: Option<int>, clock: int): (r: Option<HaState>)
    ensures var id, s, attrs := Lower(entityId), PyStr(newState), attributes.GetOr(map[]);
      (r.None? <==> id in states && states[id].state == s && !forceUpdate && states[id].attributes == attrs) &&
      (r.Some? ==>
        r.value.entityId == id && IsLower(r.value.entityId) && r.value.state == s && r.value.attributes == attrs &&
        r.value.lastUpdated == timeFired.GetOr(clock) &&
        (r.value.validateEntityId <==> id !in states) &&
        (r.value.lastChanged.Some? ==> id in states && states[id].state == s && !forceUpdate) &&
        (id in states && states[id].state == s && !forceUpdate ==> r.value.lastChanged == states[id].lastChanged))
  {
    var id, s, attrs := Lower(entityId), PyStr(newState), attributes.GetOr(map[]);
    var prior := Lookup(states, id);
    var sameState := prior.Some? && prior.value.state == s && !forceUpdate;
    var sameAttr := prior.Some? && prior.value.attributes == attrs;
    if sameState && sameAttr then None
    else Some(HaState(id, s, attrs, if sameState then prior.value.lastChanged else None,
                      timeFired.GetOr(clock), prior.None?))
  }

  /** The table after async_set: unchanged on an early return, else one entry replaced. */
  function Apply(states: map<string, HaState>, entityId: string, r: Option<HaState>): (t: map<string, HaState>)
    ensures r.None? ==> t == states
    ensures r.Some? ==> Lower(entityId) in t && t[Lower(entityId)] == r.value
    ensures forall k :: k != Lower(entityId) ==> (k in t <==> k in states) && (k in t ==> t[k] == states[k])
  {
    if r.None? then states else states[Lower(entityId) := r.value]
  }

  /** Repeating an identical call without force_update changes nothing the second time. */
  lemma RepeatIsNoOp(states: map<string, HaState>, entityId: string, newState: RawState,
                     attributes: Option<Attributes>, forceUpdate: bool,
                     timeFired: Option<int>, clock: int, timeFired': Option<int>, clock': int)
    ensures var after := Apply(states, entityId, Transition(states, entityId, newState, attributes, forceUpdate, timeFired, clock));
      Transition(after, entityId, newState, attributes, false, timeFired', clock').None?
  {
  }

  /** Entity ids are case-insensitive: a lower-cased id selects the same entry and writes the same state. */
  lemma {:induction false} CaseInsensitive(states: map<string, HaState>, entityId: string, newState: RawState,
                                           attributes: Option<Attributes>, forceUpdate: bool,
                                           timeFired: Option<int>, clock: int)
    ensures Transition(states, Lower(entityId), newState, attributes, forceUpdate, timeFired, clock)
         == Transition(states, entityId, newState, attributes, forceUpdate, timeFired, clock)
  {
    LowerIdempotent(entityId);
  }

  /** The state table (`_states`) and the events fired on the bus. */
  class StateMachine {
    var states: map<string, HaState>
    var events: seq<StateChanged>

    constructor ()
      ensures states == map[] && events == []
    {
      states := map[];
      events := [];
    }

    /** The patched `async_set`. */
    method AsyncSet(entityId: string, newState: RawState, attributes: Option<Attributes>,
                    forceUpdate: bool, timeFired: Option<int>, clock: int)
      modifies this
      ensures var r := Transition(old(states), entityId, newState, attributes, forceUpdate, timeFired, clock);
        states == Apply(old(states), entityId, r) &&
        events == old(events) + (if r.None? then [] else
          [StateChanged(Lower(entityId), Lookup(old(states), Lower(entityId)), r.value, timeFired.GetOr(clock))])
    {
      var id := Lower(entityId);
      var s := PyStr(newState);
      var attrs := attributes.GetOr(map[]);
      var oldState := Lookup(states, id);
      var sameState, sameAttr, lastChanged;
      if oldState.None? {
        sameState, sameAttr, lastChanged := false, false, None;
      } else {
        sameState := oldState.value.state == s && !forceUpdate;
        sameAttr := oldState.value.attributes == attrs;
        lastChanged := if sameState then oldState.value.lastChanged else None;
      }
      if sameState && sameAttr {
        assert Transition(states, entityId, newState, attributes, forceUpdate, timeFired, clock).None?;
        return;
      }
      var fired := timeFired.GetOr(clock);
      var state := HaState(id, s, attrs, lastChanged, fired, oldState.None?);
      assert Transition(states, entityId, newState, attributes, forceUpdate, timeFired, clock) == Some(state);
      states := states[id := state];
      events := events + [StateChanged(id, oldState, state, fired)];
    }
  }
}

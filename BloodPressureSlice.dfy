/**
 * The `bloodPressure` slice of the Redux store: an eight-field record, its
 * initial value, and the one reducer `updateBloodPressureData`, which
 * overwrites every field from the action's payload.
 */
module BloodPressureSlice {
  import opened Optional

  /**
   * The slice's record. The seven measurements are JavaScript numbers that
   * may be `null`; `bmi` holds the number that the one-decimal BMI string
   * denotes; `generalConclusion` is the string the checker dispatches.
   * The same shape is the action's payload.
   */
  datatype BloodPressureData = BloodPressureData(
    age: Option<real>,
    weight: Option<real>,
    height: Option<real>,
    systolic: Option<real>,
    diastolic: Option<real>,
    heartRate: Option<real>,
    bmi: Option<real>,
    generalConclusion: string)

  /** The slice's `initialState`: nothing measured yet, conclusion "Normal". */
  const INITIAL_STATE: BloodPressureData :=
    BloodPressureData(None, None, None, None, None, None, None, "Normal")

  /** The reducer on values: each field of the state is set from the payload, one by one. */
  function Reduce(state: BloodPressureData, payload: BloodPressureData): (r: BloodPressureData)
    ensures r == payload
  {
    state.(age := payload.age)
         .(weight := payload.weight)
         .(height := payload.height)
         .(systolic := payload.systolic)
         .(diastolic := payload.diastolic)
         .(heartRate := payload.heartRate)
         .(bmi := payload.bmi)
         .(generalConclusion := payload.generalConclusion)
  }

  /** The state the store holds after the payloads are dispatched in order, starting from `state`. */
  function Replay(state: BloodPressureData, payloads: seq<BloodPressureData>): BloodPressureData
    decreases |payloads|
  {
    if payloads == [] then state else Replay(Reduce(state, payloads[0]), payloads[1..])
  }

  /** The result of the reducer does not depend on the state it is applied to. */
  lemma ReduceIgnoresPriorState(s1: BloodPressureData, s2: BloodPressureData, payload: BloodPressureData)
    ensures Reduce(s1, payload) == Reduce(s2, payload)
  {
  }

  /** Dispatching the same payload twice leaves the state dispatching it once does. */
  lemma ReduceIdempotent(state: BloodPressureData, payload: BloodPressureData)
    ensures Reduce(Reduce(state, payload), payload) == Reduce(state, payload)
  {
  }

  /** After any non-empty history of dispatches, the store holds exactly the last payload. */
  lemma {:induction false} ReplayKeepsOnlyLast(state: BloodPressureData, payloads: seq<BloodPressureData>)
    requires |payloads| > 0
    ensures Replay(state, payloads) == payloads[|payloads| - 1]
    decreases |payloads|
  {
    if |payloads| == 1 {
      assert payloads[1..] == [];
    } else {
      ReplayKeepsOnlyLast(Reduce(state, payloads[0]), payloads[1..]);
      assert payloads[1..][|payloads[1..]| - 1] == payloads[|payloads| - 1];
    }
  }

  /** The slice as the store keeps it: eight fields that the reducer overwrites in place. */
  class Store {
    var age: Option<real>
    var weight: Option<real>
    var height: Option<real>
    var systolic: Option<real>
    var diastolic: Option<real>
    var heartRate: Option<real>
    var bmi: Option<real>
    var generalConclusion: string

    /** The record the store currently holds. */
    function State(): BloodPressureData
      reads this
    {
      BloodPressureData(age, weight, height, systolic, diastolic, heartRate, bmi, generalConclusion)
    }

    /** A store holding `initialState`. */
    constructor ()
      ensures age == None && weight == None && height == None
      ensures systolic == None && diastolic == None && heartRate == None && bmi == None
      ensures generalConclusion == "Normal"
      ensures State() == INITIAL_STATE
    {
      age, weight, height := None, None, None;
      systolic, diastolic, heartRate := None, None, None;
      bmi := None;
      generalConclusion := "Normal";
    }

    /** The `updateBloodPressureData` reducer applied to the store's draft state. */
    method UpdateBloodPressureData(payload: BloodPressureData)
      modifies this
      ensures age == payload.age && weight == payload.weight && height == payload.height
      ensures systolic == payload.systolic && diastolic == payload.diastolic
      ensures heartRate == payload.heartRate && bmi == payload.bmi
      ensures generalConclusion == payload.generalConclusion
      ensures State() == Reduce(old(State()), payload)
    {
      age := payload.age;
      weight := payload.weight;
      height := payload.height;
      systolic := payload.systolic;
      diastolic := payload.diastolic;
      heartRate := payload.heartRate;
      bmi := payload.bmi;
      generalConclusion := payload.generalConclusion;
    }
  }

  /** Two dispatches of one payload leave the store as one does, whatever it held before. */
  method UpdateTwice(store: Store, payload: BloodPressureData)
    modifies store
    ensures store.State() == payload
    ensures store.State() == Replay(old(store.State()), [payload])
  {
    store.UpdateBloodPressureData(payload);
    store.UpdateBloodPressureData(payload);
    ReplayKeepsOnlyLast(old(store.State()), [payload]);
  }
}

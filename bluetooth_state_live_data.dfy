/**
 * BluetoothStateLiveData: a LiveData of the Bluetooth adapter's state. It starts UNKNOWN,
 * reads the adapter when it becomes active and on every ACTION_STATE_CHANGED broadcast, and
 * sets its value only when the state read differs from the current one.
 */
module BluetoothStateLiveDatas {

  /** BluetoothStateLiveData.BluetoothState. */
  const UNKNOWN: int := 0
  const DISABLED: int := 1
  const ENABLED: int := 2

  /** What the live data does to the outside world, in order. */
  datatype Effect =
    | ValueSet(state: int)
    | ReceiverRegistered
    | ReceiverUnregistered

  /**
   * The state updateState reads: UNKNOWN without an adapter, otherwise ENABLED or DISABLED
   * as the adapter's isEnabled says.
   */
  function StateOf(hasAdapter: bool, isEnabled: bool): int
  {
    if !hasAdapter then UNKNOWN else if isEnabled then ENABLED else DISABLED
  }

  /** The three states arise from exactly the three situations: no adapter, disabled, enabled. */
  lemma StateOfDistinguishes(hasAdapter: bool, isEnabled: bool)
    ensures StateOf(hasAdapter, isEnabled) in {UNKNOWN, DISABLED, ENABLED}
    ensures StateOf(hasAdapter, isEnabled) == UNKNOWN <==> !hasAdapter
    ensures StateOf(hasAdapter, isEnabled) == ENABLED <==> hasAdapter && isEnabled
    ensures StateOf(hasAdapter, isEnabled) == DISABLED <==> hasAdapter && !isEnabled
  {
  }

  /** The values a list of effects hands to LiveData.setValue, in order. */
  function ValuesSet(effects: seq<Effect>): seq<int>
  {
    if |effects| == 0 then []
    else ValuesSet(effects[..|effects| - 1]) + match effects[|effects| - 1] {
      case ValueSet(s) => [s]
      case _ => []
    }
  }

  lemma {:induction false} ValuesSetAppend(effects: seq<Effect>, more: seq<Effect>)
    ensures ValuesSet(effects + more) == ValuesSet(effects) + ValuesSet(more)
    decreases |more|
  {
    if |more| == 0 {
      assert effects + more == effects;
    } else {
      var all := effects + more;
      var init := more[..|more| - 1];
      assert all[..|all| - 1] == effects + init;
      assert all[|all| - 1] == more[|more| - 1];
      ValuesSetAppend(effects, init);
      var tail := match more[|more| - 1] { case ValueSet(s) => [s] case _ => [] };
      assert ValuesSet(all) == ValuesSet(effects + init) + tail;
      assert ValuesSet(more) == ValuesSet(init) + tail;
    }
  }

  /** No two values set one after the other are equal. */
  ghost predicate NoRepeats(values: seq<int>)
  {
    forall i :: 0 < i < |values| ==> values[i - 1] != values[i]
  }

  class BluetoothStateLiveData {
    /** Whether BluetoothAdapter.getDefaultAdapter() gave an adapter; fixed at construction. */
    const hasAdapter: bool
    /** The live data's value. */
    var value: int
    /** Whether the state-change receiver is registered. */
    var receiverRegistered: bool
    /** Every setValue and receiver (un)registration, in order. */
    var effects: seq<Effect>

    /**
     * The value is one of the states, it is the last one set, and no value is set twice in a
     * row: the live data never notifies its observers of a state it already has.
     */
    ghost predicate Valid()
      reads this
    {
      && value in {UNKNOWN, DISABLED, ENABLED}
      && |ValuesSet(effects)| > 0
      && ValuesSet(effects)[|ValuesSet(effects)| - 1] == value
      && NoRepeats(ValuesSet(effects))
    }

    /** The constructor sets UNKNOWN. */
    constructor (hasAdapter: bool)
      ensures Valid()
      ensures this.hasAdapter == hasAdapter
      ensures value == UNKNOWN && !receiverRegistered
      ensures effects == [ValueSet(UNKNOWN)]
    {
      this.hasAdapter := hasAdapter;
      value := UNKNOWN;
      receiverRegistered := false;
      effects := [ValueSet(UNKNOWN)];
      assert ValuesSet([ValueSet(UNKNOWN)]) == ValuesSet([]) + [UNKNOWN];
    }

    /**
     * updateState: the value becomes the adapter's state, and setValue is called only when
     * that differs from the value already held.
     */
    method UpdateState(isEnabled: bool)
      requires Valid()
      modifies this`value, this`effects
      ensures Valid()
      ensures value == StateOf(hasAdapter, isEnabled)
      ensures effects == old(effects) + if old(value) != value then [ValueSet(value)] else []
    {
      var state := StateOf(hasAdapter, isEnabled);
      if state != value {
        ValuesSetAppend(effects, [ValueSet(state)]);
        assert ValuesSet([ValueSet(state)]) == ValuesSet([]) + [state];
        value := state;
        effects := effects + [ValueSet(state)];
      }
    }

    /** onActive: the state is read first, and only then is the receiver registered. */
    method OnActive(isEnabled: bool)
      requires Valid()
      modifies this`value, this`effects, this`receiverRegistered
      ensures Valid()
      ensures receiverRegistered
      ensures value == StateOf(hasAdapter, isEnabled)
      ensures effects ==
                old(effects) + (if old(value) != value then [ValueSet(value)] else []) + [ReceiverRegistered]
    {
      UpdateState(isEnabled);
      ValuesSetAppend(effects, [ReceiverRegistered]);
      assert ValuesSet([ReceiverRegistered]) == ValuesSet([]) + [];
      effects := effects + [ReceiverRegistered];
      receiverRegistered := true;
    }

    /** onInactive: the receiver is unregistered; the value stays. */
    method OnInactive()
      requires Valid()
      modifies this`effects, this`receiverRegistered
      ensures Valid()
      ensures !receiverRegistered
      ensures effects == old(effects) + [ReceiverUnregistered]
    {
      ValuesSetAppend(effects, [ReceiverUnregistered]);
      assert ValuesSet([ReceiverUnregistered]) == ValuesSet([]) + [];
      effects := effects + [ReceiverUnregistered];
      receiverRegistered := false;
    }
  }

  /** Reading an unchanged adapter state twice sets no more values than reading it once. */
  method UpdateStateTwice(live: BluetoothStateLiveData, isEnabled: bool)
    requires live.Valid()
    modifies live`value, live`effects
    ensures live.Valid()
    ensures live.value == StateOf(live.hasAdapter, isEnabled)
    ensures live.effects ==
              old(live.effects) + if old(live.value) != live.value then [ValueSet(live.value)] else []
  {
    live.UpdateState(isEnabled);
    ghost var between := live.effects;
    live.UpdateState(isEnabled);
    assert live.effects == between;
  }
}

/**
 * The feedback loop of amee/core/feedback_loop.py: a bound architect, the
 * sensors and effectors added to it, and `monitor`, which folds the sensor
 * readings into a snapshot keyed by sensor class name.
 */
module Feedback {
  import opened Errors
  import Registry

  /** A value returned by a sensor's `sense()`; the loop only stores it. */
  type Reading

  /** What a call to `sense()` does: return a reading or raise an exception. */
  datatype SenseOutcome = Sensed(value: Reading) | Raised

  /**
   * An object handed to `add_sensor` or `add_effector`: the name of its class,
   * whether it has a `sense` and an `act` attribute, and what its `sense()`
   * does when the loop calls it.
   */
  datatype Device = Device(className: string, hasSense: bool, hasAct: bool, sense: SenseOutcome)

  /** The dictionary `monitor` returns: sensor class name to reading. */
  type Snapshot = map<string, Reading>

  const NotAnArchitectMessage := "Architect must be an instance of Architect."
  const NoSenseMessage := "Sensor must have a 'sense' method."
  const NoActMessage := "Effector must have an 'act' method."
  const NotInitializedMessage := "Feedback loop is not initialized with an architect."

  /** Calling `sense()` on an object without that attribute raises, like a failing sensor. */
  function CallSense(d: Device): (r: SenseOutcome)
    ensures r.Sensed? <==> d.hasSense && d.sense.Sensed?
    ensures r.Sensed? ==> r.value == d.sense.value
  {
    if d.hasSense then d.sense else Raised
  }

  /** One iteration of the loop in `monitor`: record the reading, or skip a sensor that raised. */
  function Step(data: Snapshot, sensor: Device): (r: Snapshot)
    ensures CallSense(sensor).Raised? ==> r == data
    ensures CallSense(sensor).Sensed? ==>
      sensor.className in r && r[sensor.className] == CallSense(sensor).value
    ensures r.Keys == data.Keys || r.Keys == data.Keys + {sensor.className}
    ensures forall k :: k in data && k != sensor.className ==> k in r && r[k] == data[k]
  {
    match CallSense(sensor)
    case Sensed(v) => data[sensor.className := v]
    case Raised => data
  }

  /**
   * The left fold of `Step` over a list of sensors, starting from `data`: keys
   * are only ever added, and every added key is the class name of a sensor.
   */
  function Fold(data: Snapshot, sensors: seq<Device>): (r: Snapshot)
    ensures data.Keys <= r.Keys
    ensures r.Keys <= data.Keys + set i | 0 <= i < |sensors| :: sensors[i].className
    decreases |sensors|
  {
    if sensors == [] then data else Fold(Step(data, sensors[0]), sensors[1..])
  }

  /** The snapshot `monitor` builds: the fold from the empty dictionary; its keys are sensor class names. */
  function SnapshotOf(sensors: seq<Device>): (r: Snapshot)
    ensures r.Keys <= set i | 0 <= i < |sensors| :: sensors[i].className
    ensures sensors == [] ==> r == map[]
  {
    Fold(map[], sensors)
  }

  /** The sensor succeeded and reports under class name `k`. */
  predicate Reports(sensor: Device, k: string) {
    CallSense(sensor).Sensed? && sensor.className == k
  }

  /** Folding over a concatenation is folding over the first part, then the second. */
  lemma {:induction false} FoldAppend(data: Snapshot, a: seq<Device>, b: seq<Device>)
    ensures Fold(data, a + b) == Fold(Fold(data, a), b)
    decreases |a|
  {
    if a == [] {
      assert a + b == b;
    } else {
      assert (a + b)[0] == a[0];
      assert (a + b)[1..] == a[1..] + b;
      FoldAppend(Step(data, a[0]), a[1..], b);
    }
  }

  /** A key ends up in the fold exactly when it was already there or some sensor reports under it. */
  lemma {:induction false} FoldKeys(data: Snapshot, sensors: seq<Device>, k: string)
    ensures k in Fold(data, sensors) <==> k in data || exists i :: 0 <= i < |sensors| && Reports(sensors[i], k)
    decreases |sensors|
  {
    if sensors != [] {
      var rest := sensors[1..];
      FoldKeys(Step(data, sensors[0]), rest, k);
      if exists i :: 0 <= i < |rest| && Reports(rest[i], k) {
        var i :| 0 <= i < |rest| && Reports(rest[i], k);
        assert Reports(sensors[i + 1], k);
      }
      if exists i :: 0 <= i < |sensors| && Reports(sensors[i], k) {
        var i :| 0 <= i < |sensors| && Reports(sensors[i], k);
        if i > 0 {
          assert Reports(rest[i - 1], k);
        }
      }
    }
  }

  /** No sensor reports under `k`: the fold leaves that entry as it found it. */
  lemma {:induction false} FoldUntouched(data: Snapshot, sensors: seq<Device>, k: string)
    requires k in data
    requires forall i :: 0 <= i < |sensors| ==> !Reports(sensors[i], k)
    ensures k in Fold(data, sensors) && Fold(data, sensors)[k] == data[k]
    decreases |sensors|
  {
    if sensors != [] {
      var rest := sensors[1..];
      assert !Reports(sensors[0], k);
      assert forall i :: 0 <= i < |rest| ==> rest[i] == sensors[i + 1];
      FoldUntouched(Step(data, sensors[0]), rest, k);
    }
  }

  /** The reading under `k` comes from the last sensor in the list that reports under `k`. */
  lemma {:induction false} FoldLatest(data: Snapshot, sensors: seq<Device>, i: nat, k: string)
    requires i < |sensors| && Reports(sensors[i], k)
    requires forall j :: i < j < |sensors| ==> !Reports(sensors[j], k)
    ensures k in Fold(data, sensors) && Fold(data, sensors)[k] == sensors[i].sense.value
    decreases |sensors|
  {
    var rest := sensors[1..];
    if i == 0 {
      assert forall j :: 0 <= j < |rest| ==> rest[j] == sensors[j + 1];
      FoldUntouched(Step(data, sensors[0]), rest, k);
    } else {
      assert forall j :: 0 <= j < |rest| ==> rest[j] == sensors[j + 1];
      FoldLatest(Step(data, sensors[0]), rest, i - 1, k);
    }
  }

  /** The keys of the snapshot are exactly the class names of the sensors whose `sense()` succeeded. */
  lemma SnapshotKeys(sensors: seq<Device>, k: string)
    ensures k in SnapshotOf(sensors) <==> exists i :: 0 <= i < |sensors| && Reports(sensors[i], k)
  {
    FoldKeys(map[], sensors, k);
  }

  /**
   * Of several succeeding sensors sharing a class name, the one latest in the
   * list decides the reading.
   */
  lemma SnapshotLaterWins(sensors: seq<Device>, i: nat, k: string)
    requires i < |sensors| && Reports(sensors[i], k)
    requires forall j :: i < j < |sensors| ==> !Reports(sensors[j], k)
    ensures k in SnapshotOf(sensors) && SnapshotOf(sensors)[k] == sensors[i].sense.value
  {
    FoldLatest(map[], sensors, i, k);
  }

  /**
   * A sensor that raises contributes nothing and does not stop the others: the
   * snapshot is the one the list without it would give.
   */
  lemma SnapshotSkipsFailure(sensors: seq<Device>, i: nat)
    requires i < |sensors| && CallSense(sensors[i]).Raised?
    ensures SnapshotOf(sensors) == SnapshotOf(sensors[..i] + sensors[i + 1..])
  {
    var before, after := sensors[..i], sensors[i + 1..];
    assert sensors == before + ([sensors[i]] + after);
    FoldAppend(map[], before, [sensors[i]] + after);
    FoldAppend(map[], before, after);
    assert ([sensors[i]] + after)[1..] == after;
  }

  /** The loop object: a bound architect and the sensors and effectors added to it. */
  class FeedbackLoop {
    var architect: Registry.Architect?
    var sensors: seq<Device>
    var effectors: seq<Device>

    /** `add_sensor` and `add_effector` only let in objects with the needed method. */
    ghost predicate Valid()
      reads this
      ensures Valid() ==> forall i :: 0 <= i < |sensors| ==> CallSense(sensors[i]) == sensors[i].sense
    {
      && (forall i :: 0 <= i < |sensors| ==> sensors[i].hasSense)
      && (forall i :: 0 <= i < |effectors| ==> effectors[i].hasAct)
    }

    /** `__init__`: no architect, no sensors, no effectors. */
    constructor ()
      ensures Valid()
      ensures architect == null && sensors == [] && effectors == []
    {
      architect := null;
      sensors := [];
      effectors := [];
    }

    /** `initialize`: bind (or rebind) the architect; anything else is refused. */
    method Initialize(candidate: Candidate<Registry.Architect>) returns (outcome: Outcome)
      requires Valid()
      modifies this
      ensures Valid()
      ensures candidate.NotInstance? ==>
        outcome == Fail(ValueError(NotAnArchitectMessage)) && architect == old(architect)
      ensures candidate.Instance? ==> outcome == Pass && architect == candidate.value
      ensures sensors == old(sensors) && effectors == old(effectors)
    {
      if candidate.NotInstance? {
        return Fail(ValueError(NotAnArchitectMessage));
      }
      architect := candidate.value;
      outcome := Pass;
    }

    /** `add_sensor`: append an object that has `sense`; refuse one that does not. */
    method AddSensor(sensor: Device) returns (outcome: Outcome)
      requires Valid()
      modifies this
      ensures Valid()
      ensures !sensor.hasSense ==> outcome == Fail(ValueError(NoSenseMessage)) && sensors == old(sensors)
      ensures sensor.hasSense ==> outcome == Pass && sensors == old(sensors) + [sensor]
      ensures effectors == old(effectors) && architect == old(architect)
    {
      if !sensor.hasSense {
        return Fail(ValueError(NoSenseMessage));
      }
      sensors := sensors + [sensor];
      outcome := Pass;
    }

    /** `add_effector`: append an object that has `act`; refuse one that does not. */
    method AddEffector(effector: Device) returns (outcome: Outcome)
      requires Valid()
      modifies this
      ensures Valid()
      ensures !effector.hasAct ==> outcome == Fail(ValueError(NoActMessage)) && effectors == old(effectors)
      ensures effector.hasAct ==> outcome == Pass && effectors == old(effectors) + [effector]
      ensures sensors == old(sensors) && architect == old(architect)
    {
      if !effector.hasAct {
        return Fail(ValueError(NoActMessage));
      }
      effectors := effectors + [effector];
      outcome := Pass;
    }

    /**
     * `monitor`: read every sensor in order into a fresh dictionary, skipping
     * those that raise. Changes no field of the loop.
     */
    method Monitor() returns (data: Snapshot)
      ensures data == SnapshotOf(sensors)
      ensures forall k :: k in data <==> exists i :: 0 <= i < |sensors| && Reports(sensors[i], k)
    {
      data := map[];
      for n := 0 to |sensors|
        invariant Fold(data, sensors[n..]) == SnapshotOf(sensors)
      {
        var sensor := sensors[n];
        match CallSense(sensor)
        case Sensed(reading) =>
          data := data[sensor.className := reading];
        case Raised =>
      }
      assert sensors[|sensors|..] == [];
      forall k ensures k in data <==> exists i :: 0 <= i < |sensors| && Reports(sensors[i], k) {
        SnapshotKeys(sensors, k);
      }
    }

    /** `adapt`: the guard only; without a bound architect it raises, otherwise it returns. */
    method Adapt(feedback: Snapshot) returns (outcome: Outcome)
      ensures architect == null ==> outcome == Fail(RuntimeError(NotInitializedMessage))
      ensures architect != null ==> outcome == Pass
    {
      if architect == null {
        return Fail(RuntimeError(NotInitializedMessage));
      }
      outcome := Pass;
    }
  }
}

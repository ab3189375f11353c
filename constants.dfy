/**
  The configuration tables of the controller: trial types and their conditions, the
  per-thread record schema, the device-identity tables and the safety current bounds.
  Every definition here is a literal or is built from literals, as in the source.
*/
module Constants {

  // ---------------------------------------------------------------- trial types

  /** Trial type -> accepted trial conditions; an empty list accepts any condition. */
  const TRIAL_CONDS_DICT: map<string, seq<string>> :=
    map["VICKREY" := ["WNE", "EPO", "NPO"],
        "VAS" := [],
        "JND" := ["SPLITLEG", "SAMELEG"],
        "PREF" := ["SLIDER", "BTN"],
        "ACCLIMATION" := []]

  const TRIAL_TYPES: set<string> := {"VICKREY", "VAS", "JND", "PREF", "ACCLIMATION"}

  lemma TrialTypesAreTheKeys()
    ensures TRIAL_CONDS_DICT.Keys == TRIAL_TYPES
  {
  }

  /** VAS and ACCLIMATION accept every condition; the other three types list theirs. */
  lemma OpenAndListedTrialTypes()
    ensures forall t :: t in TRIAL_CONDS_DICT ==>
              (TRIAL_CONDS_DICT[t] == [] <==> t == "VAS" || t == "ACCLIMATION")
  {
    TrialTypesAreTheKeys();
  }

  // --------------------------------------------------------------- record schema

  const GENERAL_FIELDS: seq<string> := ["pitime", "thread_freq"]
  const GAIT_ESTIMATE_FIELDS: seq<string> :=
    ["HS", "current_time", "stride_period", "peak_torque", "in_swing", "N", "torque_command", "current_command"]
  const SENSOR_FIELDS: seq<string> :=
    ["state_time", "temperature", "winding_temp", "accel_x", "accel_y", "accel_z", "gyro_x", "gyro_y", "gyro_z",
     "ankle_angle", "ankle_velocity", "motor_angle", "motor_velocity", "motor_current", "motor_voltage",
     "battery_voltage", "battery_current", "act_ank_torque", "forceplate"]

  /** The keys of every actuator thread's per-cycle record, in order. */
  const EXOTHREAD_FIELDS: seq<string> := GENERAL_FIELDS + GAIT_ESTIMATE_FIELDS + SENSOR_FIELDS

  /**
    The key set of a record built with `dict.fromkeys(EXOTHREAD_FIELDS)`: no field name is
    repeated, so it has one key per field, 29 in all.
  */
  function FieldKeys(): (r: set<string>)
    ensures forall f :: f in r <==> f in EXOTHREAD_FIELDS
    ensures |r| == |EXOTHREAD_FIELDS| == 29
  {
    ExothreadFieldsDistinct();
    DistinctCard(EXOTHREAD_FIELDS);
    set f | f in EXOTHREAD_FIELDS
  }

  predicate Distinct(s: seq<string>) {
    forall i, j :: 0 <= i < j < |s| ==> s[i] != s[j]
  }

  lemma {:induction false} DistinctConcat(a: seq<string>, b: seq<string>)
    requires Distinct(a) && Distinct(b)
    requires forall x :: x in a ==> x !in b
    ensures Distinct(a + b)
  {
    forall i, j | 0 <= i < j < |a + b| ensures (a + b)[i] != (a + b)[j] {
      if j < |a| {
        assert (a + b)[i] == a[i] && (a + b)[j] == a[j];
      } else if i >= |a| {
        assert (a + b)[i] == b[i - |a|] && (a + b)[j] == b[j - |a|];
      } else {
        assert (a + b)[i] == a[i] && (a + b)[j] == b[j - |a|];
        assert b[j - |a|] in b;
      }
    }
  }

  lemma SensorFieldsDistinct()
    ensures Distinct(SENSOR_FIELDS)
  {
    var s := SENSOR_FIELDS;
    forall i, j | 0 <= i < j < |s| ensures s[i] != s[j] {
      assert |s[i]| != |s[j]| || s[i][0] != s[j][0] || s[i][|s[i]| - 1] != s[j][|s[j]| - 1] || s[i][1] != s[j][1]
             || s[i][|s[i]| - 2] != s[j][|s[j]| - 2];
    }
  }

  /** No sensor field shares its name with a general or gait-estimate field. */
  lemma SensorFieldsApart()
    ensures forall x :: x in GENERAL_FIELDS + GAIT_ESTIMATE_FIELDS ==> x !in SENSOR_FIELDS
  {
    var a, b := GENERAL_FIELDS + GAIT_ESTIMATE_FIELDS, SENSOR_FIELDS;
    forall i, j | 0 <= i < |a| && 0 <= j < |b| ensures a[i] != b[j] {
      assert |a[i]| != |b[j]| || a[i][0] != b[j][0] || a[i][|a[i]| - 1] != b[j][|b[j]| - 1];
    }
  }

  /** The schema has 29 names and none is repeated. */
  lemma ExothreadFieldsDistinct()
    ensures |EXOTHREAD_FIELDS| == 29
    ensures Distinct(EXOTHREAD_FIELDS)
  {
    assert Distinct(GENERAL_FIELDS);
    assert Distinct(GAIT_ESTIMATE_FIELDS);
    SensorFieldsDistinct();
    DistinctConcat(GENERAL_FIELDS, GAIT_ESTIMATE_FIELDS);
    SensorFieldsApart();
    DistinctConcat(GENERAL_FIELDS + GAIT_ESTIMATE_FIELDS, SENSOR_FIELDS);
  }

  lemma {:induction false} DistinctCard(s: seq<string>)
    requires Distinct(s)
    ensures |set f | f in s| == |s|
  {
    if s != [] {
      var t := s[1..];
      assert Distinct(t);
      DistinctCard(t);
      assert (set f | f in s) == {s[0]} + (set f | f in t);
      assert s[0] !in t;
    }
  }

  // ------------------------------------------------------------ device identity

  const RIGHT_EXO_DEV_IDS: seq<int> := [77, 17584]
  const LEFT_EXO_DEV_IDS: seq<int> := [888, 48390]
  const ANK_ENC_SIGN_RIGHT_EXO: int := -1
  const ANK_ENC_SIGN_LEFT_EXO: int := 1
  const MOTOR_SIGN_RIGHT: int := -1
  const MOTOR_SIGN_LEFT: int := -1

  /** `{id: r for id in RIGHT} | {id: l for id in LEFT}`: the right-hand dictionary wins on a clash. */
  function ByIdTable<V>(right: V, left: V): map<int, V> {
    (map id | id in RIGHT_EXO_DEV_IDS :: right) + (map id | id in LEFT_EXO_DEV_IDS :: left)
  }

  const DEV_ID_TO_SIDE_DICT: map<int, string> := ByIdTable("right", "left")
  const DEV_ID_TO_ANK_ENC_SIGN_DICT: map<int, int> := ByIdTable(ANK_ENC_SIGN_RIGHT_EXO, ANK_ENC_SIGN_LEFT_EXO)
  const DEV_ID_TO_MOTOR_SIGN_DICT: map<int, int> := ByIdTable(MOTOR_SIGN_RIGHT, MOTOR_SIGN_LEFT)

  predicate KnownId(id: int) {
    id in RIGHT_EXO_DEV_IDS || id in LEFT_EXO_DEV_IDS
  }

  /** No identifier is both a right and a left device. */
  lemma DeviceIdListsDisjoint()
    ensures forall id :: id in RIGHT_EXO_DEV_IDS ==> id !in LEFT_EXO_DEV_IDS
  {
  }

  /** All three tables are defined on exactly the known identifiers. */
  lemma IdTablesTotalOnKnownIds()
    ensures forall id :: id in DEV_ID_TO_SIDE_DICT <==> KnownId(id)
    ensures forall id :: id in DEV_ID_TO_ANK_ENC_SIGN_DICT <==> KnownId(id)
    ensures forall id :: id in DEV_ID_TO_MOTOR_SIGN_DICT <==> KnownId(id)
  {
  }

  /** Every known identifier has one side, and the side is the list it is declared in. */
  lemma SideOfKnownIds()
    ensures forall id :: id in RIGHT_EXO_DEV_IDS ==> DEV_ID_TO_SIDE_DICT[id] == "right"
    ensures forall id :: id in LEFT_EXO_DEV_IDS ==> DEV_ID_TO_SIDE_DICT[id] == "left"
    ensures forall id :: id in DEV_ID_TO_SIDE_DICT ==> DEV_ID_TO_SIDE_DICT[id] in {"left", "right"}
  {
    DeviceIdListsDisjoint();
  }

  /** Encoder sign -1 on the right, +1 on the left; motor sign -1 everywhere. */
  lemma SignsOfKnownIds()
    ensures forall id :: id in RIGHT_EXO_DEV_IDS ==> DEV_ID_TO_ANK_ENC_SIGN_DICT[id] == -1
    ensures forall id :: id in LEFT_EXO_DEV_IDS ==> DEV_ID_TO_ANK_ENC_SIGN_DICT[id] == 1
    ensures forall id :: id in DEV_ID_TO_MOTOR_SIGN_DICT ==> DEV_ID_TO_MOTOR_SIGN_DICT[id] == -1
    ensures forall id :: id in DEV_ID_TO_ANK_ENC_SIGN_DICT ==> DEV_ID_TO_ANK_ENC_SIGN_DICT[id] in {-1, 1}
  {
    DeviceIdListsDisjoint();
  }

  // -------------------------------------------------------------- safety limits

  const BIAS_CURRENT: int := 500              // mA
  const MAX_ALLOWABLE_CURRENT: int := 27000   // mA

  /** The clamp range [BIAS_CURRENT, MAX_ALLOWABLE_CURRENT] is not empty. */
  lemma CurrentBoundsOrdered()
    ensures 0 < BIAS_CURRENT < MAX_ALLOWABLE_CURRENT
  {
  }

  // ------------------------------------------------------------ device attributes

  const ENC_CLICKS_TO_DEG: real := 360.0 / 16384.0   // 1 / (2**14 / 360)
  const Kt: real := 0.000146
  const EFFICIENCY: real := 0.9
  const ACCEL_GAIN: real := 1.0 / 8192.0
  const GYRO_GAIN: real := 1.0 / 32.75
}

/**
 * The two message types of the arm: the joint-angle telemetry record
 * (PubServoInfo) and the one-string envelope (ArmString) in which commands
 * travel as JSON text.  Angles are opaque: nothing in the system does
 * arithmetic on them.
 */
module Messages {

  /**
   * A joint angle in degrees: a float32 field in the telemetry record, a
   * double written as JSON text in a command.  Only finite values are modelled.
   */
  type Angle = real

  /** The arm has seven joints, numbered 0 to 6. */
  const NumJoints: nat := 7

  /** Exactly one angle per joint, indexed by joint number. */
  type JointAngles = s: seq<Angle> | |s| == NumJoints
    witness [0.0, 0.0, 0.0, 0.0, 0.0, 0.0, 0.0]

  /** The joints in their documented order. */
  datatype Joint =
    | BaseRotation
    | ShoulderPitch
    | ShoulderRoll
    | ElbowPitch
    | WristPitch
    | WristRoll
    | Gripper

  /** The number of a joint: base rotation is 0, the gripper is 6. */
  function JointNumber(j: Joint): (k: nat)
    ensures k < NumJoints
  {
    match j
    case BaseRotation => 0
    case ShoulderPitch => 1
    case ShoulderRoll => 2
    case ElbowPitch => 3
    case WristPitch => 4
    case WristRoll => 5
    case Gripper => 6
  }

  /** The joint that carries a given number; the inverse of JointNumber. */
  function JointAt(k: nat): (j: Joint)
    requires k < NumJoints
    ensures JointNumber(j) == k
  {
    if k == 0 then BaseRotation
    else if k == 1 then ShoulderPitch
    else if k == 2 then ShoulderRoll
    else if k == 3 then ElbowPitch
    else if k == 4 then WristPitch
    else if k == 5 then WristRoll
    else Gripper
  }

  /** Distinct joints have distinct numbers, and every number names its joint back. */
  lemma JointNumbering(i: Joint, j: Joint)
    ensures JointNumber(i) == JointNumber(j) ==> i == j
    ensures JointAt(JointNumber(j)) == j
  {
  }

  /** The current angle of every joint, as the arm publishes it. */
  datatype PubServoInfo = PubServoInfo(
    servo0: Angle,
    servo1: Angle,
    servo2: Angle,
    servo3: Angle,
    servo4: Angle,
    servo5: Angle,
    servo6: Angle)

  /** A record with every field at its default, 0.0. */
  function DefaultServoInfo(): (d: PubServoInfo)
    ensures forall j: Joint :: ServoOf(d, j) == 0.0
  {
    PubServoInfo(0.0, 0.0, 0.0, 0.0, 0.0, 0.0, 0.0)
  }

  /** The field that the record's documentation assigns to each joint. */
  function ServoOf(info: PubServoInfo, j: Joint): Angle {
    match j
    case BaseRotation => info.servo0
    case ShoulderPitch => info.servo1
    case ShoulderRoll => info.servo2
    case ElbowPitch => info.servo3
    case WristPitch => info.servo4
    case WristRoll => info.servo5
    case Gripper => info.servo6
  }

  /** All seven angles as a list whose index is the joint number. */
  function AsList(info: PubServoInfo): (r: JointAngles)
    ensures forall j: Joint :: r[JointNumber(j)] == ServoOf(info, j)
    ensures forall k :: 0 <= k < NumJoints ==> r[k] == ServoOf(info, JointAt(k))
  {
    [info.servo0, info.servo1, info.servo2, info.servo3, info.servo4, info.servo5, info.servo6]
  }

  /** The record whose list is the given seven angles; the inverse of AsList. */
  function FromList(angles: JointAngles): (info: PubServoInfo)
    ensures AsList(info) == angles
  {
    var r := PubServoInfo(angles[0], angles[1], angles[2], angles[3], angles[4], angles[5], angles[6]);
    assert AsList(r) == angles by {
      forall k | 0 <= k < NumJoints ensures AsList(r)[k] == angles[k] {
      }
    }
    r
  }

  /** AsList loses nothing: the list determines the record. */
  lemma FromListAsList(info: PubServoInfo)
    ensures FromList(AsList(info)) == info
  {
  }

  /** Two records with the same list are the same record. */
  lemma AsListInjective(a: PubServoInfo, b: PubServoInfo)
    ensures AsList(a) == AsList(b) ==> a == b
  {
  }

  /** A default record reads as seven zeros. */
  lemma DefaultServoInfoZeros()
    ensures AsList(DefaultServoInfo()) == [0.0, 0.0, 0.0, 0.0, 0.0, 0.0, 0.0]
  {
  }

  /** The envelope in which a command travels: one string, empty by default. */
  datatype ArmString = ArmString(data: string)

  function DefaultArmString(): (m: ArmString)
    ensures m.data == ""
  {
    ArmString("")
  }
}

/**
 * The controller of the seven-joint arm: four command operations that
 * validate their inputs, build a payload and hand it to one sender, which
 * tags it with the next sequence number and the arm's address and publishes
 * it on the command topic.  The outbound topic is modelled by the ghost log
 * `sent` of every command published so far.
 */
module Controller {
  import opened Options
  import opened Messages
  import opened Commands

  /** The joint numbers the single-joint command accepts. */
  predicate ValidJointId(jointId: int) {
    0 <= jointId <= 6
  }

  /** A joint number is accepted exactly when it names one of the seven joints. */
  lemma ValidJointIdNamesJoint(jointId: int)
    ensures ValidJointId(jointId) <==> exists j: Joint :: JointNumber(j) == jointId
  {
    if ValidJointId(jointId) {
      assert JointNumber(JointAt(jointId)) == jointId;
    }
  }

  class D1ArmController {
    /** The sequence number the next published command carries. */
    var seqNo: nat
    /** Every command published on the command topic, oldest first. */
    ghost var sent: seq<Command>

    /**
     * The counter equals the number of commands published, the commands
     * carry the numbers 0, 1, 2, ... in publication order, and all of them
     * are addressed to the arm.
     */
    ghost predicate Valid()
      reads this
    {
      && seqNo == |sent|
      && (forall i :: 0 <= i < |sent| ==> sent[i].seqNo == i)
      && (forall i :: 0 <= i < |sent| ==> sent[i].address == Address)
    }

    /** A new controller has published nothing; its first command carries sequence number 0. */
    constructor (domainId: int := 0)
      ensures Valid()
      ensures seqNo == 0 && sent == []
    {
      seqNo := 0;
      sent := [];
    }

    /** Publish one command: the payload, tagged with the current number and the address; then count it. */
    method Send(p: Payload)
      requires Valid()
      modifies this
      ensures Valid()
      ensures sent == old(sent) + [Command(p, old(seqNo), Address)]
      ensures seqNo == old(seqNo) + 1
    {
      sent := sent + [Command(p, seqNo, Address)];
      seqNo := seqNo + 1;
    }

    /** Move one joint; a joint number outside 0..6 publishes nothing. */
    method MoveJoint(jointId: int, angle: Angle, delayMs: int := 0) returns (ok: bool)
      requires Valid()
      modifies this
      ensures Valid()
      ensures ok <==> ValidJointId(jointId)
      ensures ok ==> sent == old(sent) + [Command(Move(jointId, angle, delayMs), old(seqNo), Address)]
      ensures ok ==> seqNo == old(seqNo) + 1
      ensures !ok ==> sent == old(sent) && seqNo == old(seqNo)
    {
      if jointId < 0 || jointId > 6 {
        return false;
      }
      Send(Move(jointId, angle, delayMs));
      ok := true;
    }

    /** Move all seven joints at once; a list of any other length publishes nothing. */
    method MoveAllJoints(angles: seq<Angle>) returns (ok: bool)
      requires Valid()
      modifies this
      ensures Valid()
      ensures ok <==> |angles| == NumJoints
      ensures ok ==> sent == old(sent) + [Command(MoveAll(angles), old(seqNo), Address)]
      ensures ok ==> seqNo == old(seqNo) + 1
      ensures !ok ==> sent == old(sent) && seqNo == old(seqNo)
    {
      if |angles| != 7 {
        return false;
      }
      Send(MoveAll(angles));
      ok := true;
    }

    /** Enable (mode 0, the default) or disable (mode 1) the joints; always published. */
    method EnableJoints(mode: int := 0)
      requires Valid()
      modifies this
      ensures Valid()
      ensures sent == old(sent) + [Command(Enable(mode), old(seqNo), Address)]
      ensures seqNo == old(seqNo) + 1
    {
      Send(Enable(mode));
    }

    /** Move the arm to its zero position; always published, without data. */
    method GoToZero()
      requires Valid()
      modifies this
      ensures Valid()
      ensures sent == old(sent) + [Command(Zero, old(seqNo), Address)]
      ensures seqNo == old(seqNo) + 1
    {
      Send(Zero);
    }
  }

  /** A fresh controller moving joint 3 to 45 degrees publishes exactly one command, numbered 0. */
  method MoveJointScenario() {
    var arm := new D1ArmController();
    var ok := arm.MoveJoint(3, 45.0);
    assert ok;
    assert arm.sent == [Command(Move(3, 45.0, 0), 0, 1)];
    assert ToJson(arm.sent[0]) == JObject([
      Member("funcode", JInt(1)),
      Member("data", JObject([Member("id", JInt(3)), Member("angle", JNum(45.0)), Member("delay_ms", JInt(0))])),
      Member("seq", JInt(0)),
      Member("address", JInt(1))]);
  }

  /** Moving all joints to 0, 10, ..., 60 degrees publishes an object that reads back as those angles in order. */
  method MoveAllScenario() {
    var arm := new D1ArmController();
    var angles := [0.0, 10.0, 20.0, 30.0, 40.0, 50.0, 60.0];
    var ok := arm.MoveAllJoints(angles);
    assert ok;
    var c := arm.sent[0];
    RoundTrip(c);
    WireHeader(c);
    assert FromJson(ToJson(c)) == Some(Command(MoveAll(angles), 0, 1));
    assert LookupInt(ToJson(c).members, "funcode") == Some(2);
  }

  /** Disabling then enabling publishes modes 1 and 0 under sequence numbers 0 and 1. */
  method EnableScenario() {
    var arm := new D1ArmController();
    arm.EnableJoints(1);
    arm.EnableJoints();
    assert arm.sent == [Command(Enable(1), 0, 1), Command(Enable(0), 1, 1)];
  }

  /** Rejected inputs publish nothing, so the next accepted command still carries number 0. */
  method RejectionScenario() {
    var arm := new D1ArmController();
    var ok := arm.MoveJoint(7, 10.0);
    assert !ok;
    ok := arm.MoveAllJoints([0.0, 10.0, 20.0]);
    assert !ok;
    arm.GoToZero();
    assert arm.sent == [Command(Zero, 0, 1)];
  }
}

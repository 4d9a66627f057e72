# D1 arm controller: command encoder and sequencer

A Dafny model of the client that commands the seven-joint Unitree D1 arm over
DDS.  The controller (`D1ArmController`) offers four commands (move one joint,
move all joints, enable or disable the joints, go to the zero position).  Moving
one joint and moving all joints validate their input; enabling (with any mode)
and going to zero always publish.  Each accepted command builds a payload
dictionary tagged with a function code (1, 2, 5 or 7) and hands it to one
sender.  The sender adds the controller's
sequence number and the fixed address 1, publishes the result as JSON on the
command topic and advances the counter by one.  Beside it sit the two message
types: the joint-angle record `PubServoInfo`, with its `as_list` projection, and
the one-string envelope `ArmString`.

Files:

- `options.dfy`: module `Options`, an `Option` type usable with `:-`.
- `messages.dfy`: module `Messages`.  It holds the joints in their documented
  order (`Joint`, `JointNumber`, `JointAt`), the `PubServoInfo` record with
  `AsList` and its inverse `FromList`, and `ArmString`.  Angles are `real` and
  are never used in arithmetic.
- `commands.dfy`: module `Commands`.
  - `Payload` has one variant per function code.  `Command` is a payload with
    its sequence number and address.
  - The JSON object is modelled as an insertion-ordered list of `Member`s.
  - `Store` is Python's dictionary item assignment.  `ToJson` builds the
    dictionary the way the controller does.
  - `FromJson` reads a command back.  It is the encoder's partner in the
    round-trip lemmas.
- `controller.dfy`: module `Controller`.
  - Class `D1ArmController` has the counter `seqNo` and a ghost log `sent` of
    the commands published on the command topic.
  - Its invariant `Valid()` says three things: the counter equals the number
    of commands published; the commands carry the numbers 0, 1, 2, ... in
    order; every command is sent to address 1.
  - Four scenario methods walk through example uses and check the published
    commands with assertions.  They have no contract of their own.

Python's default arguments are kept as Dafny default parameter values:
`delay_ms = 0`, `mode = 0` and `domain_id = 0`.  A rejected input prints an
error and returns `None` in the source.  In the model, `MoveJoint` and
`MoveAllJoints` return `false` instead, and publish nothing.

## Model

| member | source | states |
|---|---|---|
| `Messages.JointNumber` | src/go2_d1_control/messages.py:29-35 | each documented joint has a number below 7 (base rotation 0 … gripper 6) |
| `Messages.JointAt` | src/go2_d1_control/controller.py:15-22 | every joint number 0..6 names a joint, and that joint's number is the number given |
| `Messages.JointNumbering` | src/go2_d1_control/controller.py:15-22 | joint numbering is a bijection: distinct joints have distinct numbers, and JointAt undoes JointNumber |
| `Messages.DefaultServoInfo` | src/go2_d1_control/messages.py:37-43 | a default-constructed record has angle 0.0 for every joint |
| `Messages.AsList` | src/go2_d1_control/messages.py:45-55 | the list has exactly 7 angles; element k is the field the documentation assigns to joint k, so the index is the joint number |
| `Messages.FromList` | src/go2_d1_control/messages.py:45-55 | any seven angles are the list of exactly one record (AsList is onto the 7-element lists) |
| `Messages.FromListAsList` | src/go2_d1_control/messages.py:45-55 | rebuilding a record from its list gives back the record |
| `Messages.AsListInjective` | src/go2_d1_control/messages.py:45-55 | two records with the same list are equal: as_list loses no field |
| `Messages.DefaultServoInfoZeros` | src/go2_d1_control/messages.py:37-55 | the list of a default record is seven zeros |
| `Messages.DefaultArmString` | src/go2_d1_control/messages.py:21 | a default envelope holds the empty string |
| `Commands.Funcode` | src/go2_d1_control/controller.py:103-156 | every payload has function code 1, 2, 5 or 7 |
| `Commands.Store` | src/go2_d1_control/controller.py:81-82 | assigning a key absent from the dictionary appends it at the end; assigning a present key keeps the dictionary's length |
| `Commands.LookupStore` | src/go2_d1_control/controller.py:81-82 | after an assignment the key reads the new value and every other key reads as before |
| `Commands.DataMembers` | src/go2_d1_control/controller.py:105-148 | the "data" dictionaries of funcodes 1, 2 and 5 are never empty (it returns [] only for go-to-zero, whose dictionary has no "data"; see PayloadMembers); for move-all it is mode 1 followed by angle k under the k-th angle key, for k = 0..6 |
| `Commands.PayloadMembers` | src/go2_d1_control/controller.py:103-156 | the command dictionary starts with its function code, has "data" unless it is go-to-zero, and has no "seq" or "address" yet |
| `Commands.ToJson` | src/go2_d1_control/controller.py:81-83 | the published object is the payload's members followed by "seq" (the sequence number) and then "address", in insertion order |
| `Commands.WireHeader` | src/go2_d1_control/controller.py:81-82 | the published object reads the payload's function code under "funcode", the sequence number under "seq" and the address under "address" |
| `Commands.DataAbsentIffZero` | src/go2_d1_control/controller.py:103-156 | the object has no "data" member if and only if the command is go-to-zero |
| `Commands.DataRoundTrip` | src/go2_d1_control/controller.py:103-148 | for function codes 1, 2 and 5, decoding the "data" object gives back the payload's parameters (id, angle, delay_ms; mode 1 and the angles; mode) |
| `Commands.AnglesRoundTrip` | src/go2_d1_control/controller.py:124-136 | the angles stored under angle0…angle6 read back as the seven angles in joint order |
| `Commands.RoundTrip` | src/go2_d1_control/controller.py:81-156 | decoding the published object of any command gives back that command |
| `Commands.ToJsonInjective` | src/go2_d1_control/controller.py:81-156 | distinct commands are published as distinct objects |
| `Controller.ValidJointIdNamesJoint` | src/go2_d1_control/controller.py:99-101 | the joint-number guard accepts a number exactly when it names one of the seven documented joints |
| `Controller.D1ArmController.constructor` | src/go2_d1_control/controller.py:43-68 | a new controller has counter 0 and has published nothing, so its first command carries sequence number 0 |
| `Controller.D1ArmController.Send` | src/go2_d1_control/controller.py:77-85 | publishes exactly one command: the payload with the old counter as sequence number and address 1; earlier commands are unchanged; the counter rises by exactly 1; the invariant is kept |
| `Controller.D1ArmController.MoveJoint` | src/go2_d1_control/controller.py:89-111 | accepts if and only if 0 ≤ joint_id ≤ 6; if accepted, publishes funcode 1 with the given id, angle and delay (default 0); if rejected, nothing is published and the counter is unchanged |
| `Controller.D1ArmController.MoveAllJoints` | src/go2_d1_control/controller.py:113-137 | accepts if and only if the list has 7 angles; if accepted, publishes funcode 2 with those angles in order; if rejected, nothing is published and the counter is unchanged |
| `Controller.D1ArmController.EnableJoints` | src/go2_d1_control/controller.py:139-150 | always publishes funcode 5 with the given mode (default 0) and advances the counter by one |
| `Controller.D1ArmController.GoToZero` | src/go2_d1_control/controller.py:152-157 | always publishes funcode 7, whose object has no data, and advances the counter by one |

## Left out

- DDS participant, topics, writer and readers (controller.py:53-65): they are
  calls into the middleware.  The writer is replaced by the ghost log `sent`.
  The constructor's `domainId` parameter only selects the DDS domain, so it
  has no effect in the model.  The topic names are middleware configuration
  only.
- The angle and feedback readers.  They only pass samples through from the
  middleware, and the code defines no logic on them.
- The JSON text that `json.dumps` produces (float formatting, spacing).  The
  model stops at the dictionary that is serialised.
- The `ArmString` envelope wrapped around that text.  The log records the
  command itself instead.
- `Send` takes the payload as a value.  The source's `_send` adds "seq" and
  "address" to the caller's dictionary in place.  That dictionary is a
  temporary literal that no caller reads again, so the model loses no
  observable aliasing.
- `time.sleep(0.5)` after start-up.  It is a timing heuristic with no effect
  on state.
- The `print` messages and the `JOINT_NAMES` lookup.  They are only used for
  console output.  A rejected input is modelled as "nothing published, counter
  unchanged", with a `false` result.
- The float32 precision of the servo fields, and the double precision of the
  command angles, which the source writes into the JSON text.  Angles are
  `real` and are never used in arithmetic.
- Concurrent calls.  The model assumes that commands come from one thread.
  In the source, `self._seq += 1` in `_send` is not atomic, so two concurrent
  sends could publish the same sequence number.  `Valid()`'s numbering 0, 1,
  2, ... holds only for sequential calls.
- Non-finite command angles.  The source accepts `nan` and `inf` as angles,
  because no guard looks at the angle, and writes them as `NaN` or `Infinity`.
  A `real` cannot hold such a value, so the model does not cover these calls.
- Send: every write and every serialisation is assumed to succeed.  In the
  source, `json.dumps` or the writer can raise.  The exception then reaches
  the caller, and the counter does not advance.  The caller's dictionary has
  already received "seq" and "address" by then.  The model has no such
  failure path.
- Inputs whose Python type does not match the annotation.  Examples are a
  non-integer `joint_id`, or a seven-character string passed as `angles`.
  The model types `joint_id` as an integer and `angles` as a list of angles.

/**
 * The command records the controller sends to the arm and the JSON object
 * each one becomes.  A command is a payload (one variant per function code)
 * tagged with a sequence number and the device address.  The JSON object is
 * modelled as an insertion-ordered list of members, as the controller
 * builds it; the text that serialising it produces is not modelled.
 */
module Commands {
  import opened Options
  import opened Messages

  /** The address of the single arm; every command carries it. */
  const Address: int := 1

  /** The operation-specific part of a command, one variant per function code. */
  datatype Payload =
    | Move(id: int, angle: Angle, delayMs: int)  // funcode 1: one joint
    | MoveAll(angles: JointAngles)               // funcode 2: all joints, mode 1
    | Enable(mode: int)                          // funcode 5: 0 enables, 1 disables
    | Zero                                       // funcode 7: no data

  function Funcode(p: Payload): (fc: int)
    ensures fc in {1, 2, 5, 7}
  {
    match p
    case Move(_, _, _) => 1
    case MoveAll(_) => 2
    case Enable(_) => 5
    case Zero => 7
  }

  /** A command as published: payload, sequence number and address. */
  datatype Command = Command(payload: Payload, seqNo: nat, address: int)

  /** The JSON values that occur in a command. */
  datatype Value =
    | JInt(i: int)
    | JNum(x: Angle)
    | JObject(members: seq<Member>)

  datatype Member = Member(key: string, value: Value)

  /** No member of the dictionary has the key. */
  predicate Absent(ms: seq<Member>, key: string) {
    forall i :: 0 <= i < |ms| ==> ms[i].key != key
  }

  /** The value stored under a key, or None when no member has that key. */
  function Lookup(ms: seq<Member>, key: string): Option<Value>
  {
    if ms == [] then None
    else if ms[0].key == key then Some(ms[0].value)
    else Lookup(ms[1..], key)
  }

  /**
   * Item assignment on an insertion-ordered dictionary: a present key keeps
   * its position and takes the new value; an absent key goes at the end.
   */
  function Store(ms: seq<Member>, key: string, v: Value): (r: seq<Member>)
    ensures Absent(ms, key) ==> r == ms + [Member(key, v)]
    ensures !Absent(ms, key) ==> |r| == |ms|
  {
    if ms == [] then [Member(key, v)]
    else if ms[0].key == key then [Member(key, v)] + ms[1..]
    else [ms[0]] + Store(ms[1..], key, v)
  }

  /** After a store, the stored key reads the new value and every other key reads as before. */
  lemma {:induction false} LookupStore(ms: seq<Member>, key: string, v: Value, k: string)
    ensures Lookup(Store(ms, key, v), k) == if k == key then Some(v) else Lookup(ms, k)
  {
    if ms != [] && ms[0].key != key {
      LookupStore(ms[1..], key, v, k);
      assert Store(ms, key, v)[1..] == Store(ms[1..], key, v);
    }
  }

  /** The keys of the seven angles of a move-all command, by joint number. */
  const AngleKeys: seq<string> := ["angle0", "angle1", "angle2", "angle3", "angle4", "angle5", "angle6"]

  /** The parameters of a payload, as the "data" object the controller builds; go-to-zero has none, so its entry is [] and never published. */
  function DataMembers(p: Payload): (r: seq<Member>)
    ensures r == [] <==> p.Zero?
    ensures p.MoveAll? ==> |r| == NumJoints + 1 && r[0] == Member("mode", JInt(1))
    ensures p.MoveAll? ==> forall k :: 0 <= k < NumJoints ==> r[k + 1] == Member(AngleKeys[k], JNum(p.angles[k]))
  {
    match p
    case Move(id, angle, delayMs) =>
      [Member("id", JInt(id)), Member("angle", JNum(angle)), Member("delay_ms", JInt(delayMs))]
    case MoveAll(a) =>
      [Member("mode", JInt(1)),
       Member("angle0", JNum(a[0])), Member("angle1", JNum(a[1])),
       Member("angle2", JNum(a[2])), Member("angle3", JNum(a[3])),
       Member("angle4", JNum(a[4])), Member("angle5", JNum(a[5])),
       Member("angle6", JNum(a[6]))]
    case Enable(mode) =>
      [Member("mode", JInt(mode))]
    case Zero =>
      []
  }

  /** The dictionary a command method hands to the sender: a function code, and data unless there is none. */
  function PayloadMembers(p: Payload): (r: seq<Member>)
    ensures |r| > 0 && r[0] == Member("funcode", JInt(Funcode(p)))
    ensures Absent(r, "data") <==> p.Zero?
    ensures Absent(r, "seq") && Absent(r, "address")
  {
    assert "funcode"[0] != "address"[0];
    if p.Zero? then [Member("funcode", JInt(Funcode(p)))]
    else
      var r := [Member("funcode", JInt(Funcode(p))), Member("data", JObject(DataMembers(p)))];
      assert r[1].key == "data";
      r
  }

  /** The sender adds the sequence number and then the address to the payload dictionary. */
  function ToJson(c: Command): (v: Value)
    ensures v == JObject(PayloadMembers(c.payload) + [Member("seq", JInt(c.seqNo)), Member("address", JInt(c.address))])
  {
    var ms := PayloadMembers(c.payload);
    var withSeq := Store(ms, "seq", JInt(c.seqNo));
    assert withSeq == ms + [Member("seq", JInt(c.seqNo))];
    assert Absent(withSeq, "address") by {
      assert "seq" != "address";
      assert forall i :: 0 <= i < |ms| ==> withSeq[i] == ms[i];
    }
    assert withSeq + [Member("address", JInt(c.address))]
        == ms + [Member("seq", JInt(c.seqNo)), Member("address", JInt(c.address))];
    JObject(Store(withSeq, "address", JInt(c.address)))
  }

  // ---------------------------------------------------------------------
  // Reading a command back from its JSON object.

  function LookupInt(ms: seq<Member>, key: string): Option<int> {
    match Lookup(ms, key)
    case Some(JInt(i)) => Some(i)
    case _ => None
  }

  function LookupNum(ms: seq<Member>, key: string): Option<Angle> {
    match Lookup(ms, key)
    case Some(JNum(x)) => Some(x)
    case _ => None
  }

  function LookupObject(ms: seq<Member>, key: string): Option<seq<Member>> {
    match Lookup(ms, key)
    case Some(JObject(d)) => Some(d)
    case _ => None
  }

  /** The seven angles of a move-all data object, read by their keys. */
  function LookupAngles(d: seq<Member>): Option<JointAngles> {
    var a0 :- LookupNum(d, AngleKeys[0]);
    var a1 :- LookupNum(d, AngleKeys[1]);
    var a2 :- LookupNum(d, AngleKeys[2]);
    var a3 :- LookupNum(d, AngleKeys[3]);
    var a4 :- LookupNum(d, AngleKeys[4]);
    var a5 :- LookupNum(d, AngleKeys[5]);
    var a6 :- LookupNum(d, AngleKeys[6]);
    Some([a0, a1, a2, a3, a4, a5, a6])
  }

  /** The payload that a function code and its data object describe, if any. */
  function DecodeData(fc: int, d: seq<Member>): Option<Payload>
    requires fc in {1, 2, 5}
  {
    if fc == 1 then
      var id :- LookupInt(d, "id");
      var angle :- LookupNum(d, "angle");
      var delayMs :- LookupInt(d, "delay_ms");
      Some(Move(id, angle, delayMs))
    else if fc == 2 then
      var mode :- LookupInt(d, "mode");
      if mode != 1 then None
      else
        var angles :- LookupAngles(d);
        Some(MoveAll(angles))
    else
      var mode :- LookupInt(d, "mode");
      Some(Enable(mode))
  }

  /** The payload a dictionary describes: funcode 7 must come without data, the others with it. */
  function DecodePayload(fc: int, ms: seq<Member>): Option<Payload> {
    if fc == 7 then
      if Lookup(ms, "data").Some? then None else Some(Zero)
    else if fc in {1, 2, 5} then
      var d :- LookupObject(ms, "data");
      DecodeData(fc, d)
    else None
  }

  /** The command a JSON object describes, if it describes one. */
  function FromJson(v: Value): Option<Command> {
    match v
    case JObject(ms) =>
      var fc :- LookupInt(ms, "funcode");
      var p :- DecodePayload(fc, ms);
      var s :- LookupInt(ms, "seq");
      var address :- LookupInt(ms, "address");
      if s < 0 then None else Some(Command(p, s, address))
    case _ => None
  }

  /** Decoding the published object gives back the command. */
  lemma RoundTrip(c: Command)
    ensures FromJson(ToJson(c)) == Some(c)
  {
    var ms := PayloadMembers(c.payload) + [Member("seq", JInt(c.seqNo)), Member("address", JInt(c.address))];
    assert "funcode"[0] != "address"[0];
    LookupFirst(ms, 0, "funcode");
    LookupFirst(ms, |ms| - 2, "seq");
    LookupFirst(ms, |ms| - 1, "address");
    if !c.payload.Zero? {
      LookupFirst(ms, 1, "data");
      DataRoundTrip(c.payload);
    } else {
      assert Absent(ms, "data");
      LookupNone(ms, "data");
    }
  }

  /** The published object carries the function code, the sequence number and the address under their keys. */
  lemma WireHeader(c: Command)
    ensures ToJson(c).JObject?
    ensures LookupInt(ToJson(c).members, "funcode") == Some(Funcode(c.payload))
    ensures LookupInt(ToJson(c).members, "seq") == Some(c.seqNo as int)
    ensures LookupInt(ToJson(c).members, "address") == Some(c.address)
  {
    var ms := ToJson(c).members;
    assert "funcode"[0] != "address"[0];
    LookupFirst(ms, 0, "funcode");
    LookupFirst(ms, |ms| - 2, "seq");
    LookupFirst(ms, |ms| - 1, "address");
  }

  /** Only go-to-zero is published without a "data" member. */
  lemma DataAbsentIffZero(c: Command)
    ensures ToJson(c).JObject?
    ensures Lookup(ToJson(c).members, "data").None? <==> c.payload.Zero?
  {
    var ms := ToJson(c).members;
    if c.payload.Zero? {
      assert Absent(ms, "data");
      LookupNone(ms, "data");
    } else {
      LookupFirst(ms, 1, "data");
    }
  }

  /** Distinct commands are published as distinct objects. */
  lemma ToJsonInjective(a: Command, b: Command)
    ensures ToJson(a) == ToJson(b) ==> a == b
  {
    RoundTrip(a);
    RoundTrip(b);
  }

  /** Reading each parameter back from the data object gives the payload. */
  lemma DataRoundTrip(p: Payload)
    requires !p.Zero?
    ensures DecodeData(Funcode(p), DataMembers(p)) == Some(p)
  {
    var d := DataMembers(p);
    match p
    case Move(_, _, _) =>
      LookupFirst(d, 0, "id");
      LookupFirst(d, 1, "angle");
      LookupFirst(d, 2, "delay_ms");
    case MoveAll(a) =>
      LookupFirst(d, 0, "mode");
      AnglesRoundTrip(a);
    case Enable(_) =>
      LookupFirst(d, 0, "mode");
  }

  /** The seven angles read back from a move-all data object are the ones it was built from. */
  lemma AnglesRoundTrip(a: JointAngles)
    ensures LookupAngles(DataMembers(MoveAll(a))) == Some(a)
  {
    LookupAngle(a, 0);
    LookupAngle(a, 1);
    LookupAngle(a, 2);
    LookupAngle(a, 3);
    LookupAngle(a, 4);
    LookupAngle(a, 5);
    LookupAngle(a, 6);
    assert [a[0], a[1], a[2], a[3], a[4], a[5], a[6]] == a;
  }

  /** The data object of a move-all command holds angle k under the k-th angle key. */
  lemma LookupAngle(a: JointAngles, k: nat)
    requires k < NumJoints
    ensures LookupNum(DataMembers(MoveAll(a)), AngleKeys[k]) == Some(a[k])
  {
    var d := DataMembers(MoveAll(a));
    assert forall j :: 0 <= j < k + 1 ==> d[j].key != AngleKeys[k];
    LookupFirst(d, k + 1, AngleKeys[k]);
  }

  /** A key is missing exactly when no member carries it. */
  lemma {:induction false} LookupNone(ms: seq<Member>, key: string)
    ensures Lookup(ms, key).None? <==> Absent(ms, key)
  {
    if ms != [] {
      LookupNone(ms[1..], key);
      if ms[0].key != key {
        assert forall i :: 0 < i < |ms| ==> ms[i] == ms[1..][i - 1];
      }
    }
  }

  /** A key is found at the first member that carries it. */
  lemma {:induction false} LookupFirst(ms: seq<Member>, i: nat, key: string)
    requires i < |ms| && ms[i].key == key
    requires forall j :: 0 <= j < i ==> ms[j].key != key
    ensures Lookup(ms, key) == Some(ms[i].value)
  {
    if i > 0 {
      LookupFirst(ms[1..], i - 1, key);
    }
  }
}

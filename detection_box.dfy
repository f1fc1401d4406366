/**
 * Detection records and detection batches (datacls/PyDetectionBox.py).
 *
 * A record is one detected object; the depth-aware variant also carries
 * three distances.  Each field sits in a typed slot of the pub/sub SDK
 * (int32, uint32, float32, float64 or string) and a record is serialised
 * as an ordered sequence of name-value pairs.  A batch is a frame's worth
 * of records plus engine, stream and frame identifiers.
 *
 * The two record classes of the source are one class here with a `depth`
 * flag; the serialised form of a record is the datatype `Record` with an
 * optional `Distance`.
 */
module DetectionBox {
  import opened Wrappers
  import opened PyValues
  import Decimal

  predicate IsInt32(i: int) { -0x8000_0000 <= i < 0x8000_0000 }

  predicate IsUInt32(i: int) { 0 <= i < 0x1_0000_0000 }

  /** A typed value of the pub/sub SDK. */
  datatype IotValue =
    | Int32Value(i: int)
    | UInt32Value(u: int)
    | Float32Value(f: real)
    | Float64Value(d: real)
    | StringValue(s: string)
    | NvpSeqValue(items: seq<Nvp>)

  /** A name-value pair of the wire representation. */
  datatype Nvp = Nvp(name: string, value: IotValue)

  // ---------------------------------------------------------------------
  // What the SDK's typed slots accept.  Integers outside the slot's width
  // raise OverflowError and values of the wrong kind raise TypeError.
  // ---------------------------------------------------------------------

  function Int32Slot(v: PyValue): (r: Result<int, Exc>)
    ensures r.Ok? <==> v.PyInt? && IsInt32(v.i)
    ensures r.Ok? ==> r.value == v.i
  {
    if v.PyInt? then (if IsInt32(v.i) then Ok(v.i) else Err(OverflowError)) else Err(TypeError)
  }

  function UInt32Slot(v: PyValue): (r: Result<int, Exc>)
    ensures r.Ok? <==> v.PyInt? && IsUInt32(v.i)
    ensures r.Ok? ==> r.value == v.i
  {
    if v.PyInt? then (if IsUInt32(v.i) then Ok(v.i) else Err(OverflowError)) else Err(TypeError)
  }

  /** A float32 or float64 slot: accepts any number (rounding to the width is not modelled). */
  function FloatSlot(v: PyValue): (r: Result<real, Exc>)
    ensures r.Ok? <==> IsNumber(v)
    ensures r.Ok? ==> r.value == NumberValue(v)
  {
    if IsNumber(v) then Ok(NumberValue(v)) else Err(TypeError)
  }

  function StringSlot(v: PyValue): (r: Result<string, Exc>)
    ensures r.Ok? <==> v.PyStr?
    ensures r.Ok? ==> r.value == v.s
  {
    if v.PyStr? then Ok(v.s) else Err(TypeError)
  }

  /** The `obj_label`, `class_label` and `meta` setters: `None` is stored as `''`. */
  function LabelSlot(v: PyValue): (r: Result<string, Exc>)
    ensures v.PyNone? ==> r == Ok("")
    ensures v.PyStr? ==> r == Ok(v.s)
    ensures r.Ok? <==> v.PyNone? || v.PyStr?
  {
    StringSlot(if v.PyNone? then PyStr("") else v)
  }

  /**
   * The `class_id` setter: stores `int(v)`; when `int` raises TypeError it
   * stores -1 instead.  A ValueError of `int` and an OverflowError of the
   * int32 slot are not caught.
   */
  function ClassIdSlot(v: PyValue): (r: Result<int, Exc>)
    ensures IntOf(v) == Err(TypeError) ==> r == Ok(-1)
    ensures IntOf(v) == Err(ValueError) ==> r == Err(ValueError)
    ensures IntOf(v).Ok? && IsInt32(IntOf(v).value) ==> r == Ok(IntOf(v).value)
    ensures IntOf(v).Ok? && !IsInt32(IntOf(v).value) ==> r == Err(OverflowError)
    ensures r.Ok? ==> IsInt32(r.value)
  {
    match IntOf(v)
    case Err(TypeError) => Int32Slot(PyInt(-1))
    case Err(e) => Err(e)
    case Ok(n) => Int32Slot(PyInt(n))
  }

  /**
   * The class-id setter as its fallback is evidently meant: any value `int`
   * cannot convert, a non-numeric string as well as `None`, stores -1; only
   * an integer outside int32 still raises.
   */
  function ClassIdSlotIntended(v: PyValue): (r: Result<int, Exc>)
    ensures IntOf(v).Err? ==> r == Ok(-1)
    ensures r.Err? <==> IntOf(v).Ok? && !IsInt32(IntOf(v).value)
    ensures r.Err? ==> r.error == OverflowError
    ensures IntOf(v).Ok? && IsInt32(IntOf(v).value) ==> r == Ok(IntOf(v).value)
  {
    match IntOf(v)
    case Err(_) => Int32Slot(PyInt(-1))
    case Ok(n) => Int32Slot(PyInt(n))
  }

  /** As written, a non-numeric string class id raises ValueError where the fallback stores -1. */
  lemma ClassIdSlotRaisesOnText()
    ensures ClassIdSlot(PyStr("person")) == Err(ValueError)
    ensures ClassIdSlotIntended(PyStr("person")) == Ok(-1)
  {
    assert !Decimal.AllDigits("person") by { assert !Decimal.IsDigit('p'); }
  }

  // ---------------------------------------------------------------------
  // Records and their serialisation
  // ---------------------------------------------------------------------

  datatype Distance = Distance(x: real, y: real, z: real)

  /** The stored fields of one record; `dist` is present exactly for the depth-aware variant. */
  datatype Record = Record(
    objId: int, objLabel: string, classId: int, classLabel: string,
    x1: real, y1: real, x2: real, y2: real, probability: real, meta: string,
    dist: Option<Distance>)

  predicate ValidRecord(r: Record) { IsInt32(r.objId) && IsInt32(r.classId) }

  /** The record a constructor without arguments produces. */
  function DefaultRecord(depth: bool): Record
  {
    Record(0, "", 0, "", 0.0, 0.0, 0.0, 0.0, 0.0, "",
           if depth then Some(Distance(0.0, 0.0, 0.0)) else None)
  }

  const BaseFieldNames: seq<string> :=
    ["obj_id", "obj_label", "class_id", "class_label", "x1", "y1", "x2", "y2", "probability", "meta"]

  const DepthFieldNames: seq<string> := ["dist_x", "dist_y", "dist_z"]

  function Names(s: seq<Nvp>): (names: seq<string>)
    ensures |names| == |s|
    ensures forall i :: 0 <= i < |s| ==> names[i] == s[i].name
  {
    seq(|s|, i requires 0 <= i < |s| => s[i].name)
  }

  /** `dr_data` of a record. */
  function Serialize(r: Record): (s: seq<Nvp>)
    ensures Names(s) == if r.dist.Some? then BaseFieldNames + DepthFieldNames else BaseFieldNames
  {
    var base := [
      Nvp("obj_id", Int32Value(r.objId)),
      Nvp("obj_label", StringValue(r.objLabel)),
      Nvp("class_id", Int32Value(r.classId)),
      Nvp("class_label", StringValue(r.classLabel)),
      Nvp("x1", Float32Value(r.x1)),
      Nvp("y1", Float32Value(r.y1)),
      Nvp("x2", Float32Value(r.x2)),
      Nvp("y2", Float32Value(r.y2)),
      Nvp("probability", Float32Value(r.probability)),
      Nvp("meta", StringValue(r.meta))
    ];
    match r.dist
    case None => base
    case Some(d) =>
      base + [Nvp("dist_x", Float64Value(d.x)), Nvp("dist_y", Float64Value(d.y)), Nvp("dist_z", Float64Value(d.z))]
  }

  /** A depth record serialises to its base record's ten pairs followed by the three distances. */
  lemma DepthExtendsBase(r: Record)
    requires r.dist.Some?
    ensures Serialize(r) == Serialize(r.(dist := None)) +
      [ Nvp("dist_x", Float64Value(r.dist.value.x)),
        Nvp("dist_y", Float64Value(r.dist.value.y)),
        Nvp("dist_z", Float64Value(r.dist.value.z)) ]
  {
  }

  /** The ten leading pairs of a serialised record have the names and kinds the base record writes. */
  predicate WellFormedBase(s: seq<Nvp>)
    requires |s| >= 10
  {
    && Names(s[..10]) == BaseFieldNames
    && s[0].value.Int32Value? && IsInt32(s[0].value.i)
    && s[1].value.StringValue?
    && s[2].value.Int32Value? && IsInt32(s[2].value.i)
    && s[3].value.StringValue?
    && s[4].value.Float32Value? && s[5].value.Float32Value?
    && s[6].value.Float32Value? && s[7].value.Float32Value?
    && s[8].value.Float32Value?
    && s[9].value.StringValue?
  }

  /** The three trailing pairs of a serialised depth record. */
  predicate WellFormedDepth(s: seq<Nvp>)
    requires |s| == 13
  {
    && Names(s[10..]) == DepthFieldNames
    && s[10].value.Float64Value? && s[11].value.Float64Value? && s[12].value.Float64Value?
  }

  /** How a consumer reads a serialised record back; `None` for anything `Serialize` cannot produce. */
  function Parse(s: seq<Nvp>): Option<Record>
  {
    if (|s| == 10 || |s| == 13) && WellFormedBase(s) && (|s| == 13 ==> WellFormedDepth(s)) then
      Some(Record(
        s[0].value.i, s[1].value.s, s[2].value.i, s[3].value.s,
        s[4].value.f, s[5].value.f, s[6].value.f, s[7].value.f, s[8].value.f, s[9].value.s,
        if |s| == 13 then Some(Distance(s[10].value.d, s[11].value.d, s[12].value.d)) else None))
    else
      None
  }

  /** Every field of a record survives serialisation and parsing exactly. */
  lemma ParseSerialize(r: Record)
    requires ValidRecord(r)
    ensures Parse(Serialize(r)) == Some(r)
  {
    var s := Serialize(r);
    NamesSplit(s, 10);
    assert WellFormedBase(s);
  }

  /** The names of a prefix and of the matching suffix. */
  lemma NamesSplit(s: seq<Nvp>, k: nat)
    requires k <= |s|
    ensures Names(s[..k]) == Names(s)[..k] && Names(s[k..]) == Names(s)[k..]
  {
  }

  /** Whatever parses as a record is exactly that record's serialisation. */
  lemma SerializeParse(s: seq<Nvp>)
    requires Parse(s).Some?
    ensures ValidRecord(Parse(s).value) && Serialize(Parse(s).value) == s
  {
    var r := Parse(s).value;
    var t := Serialize(r);
    assert Names(s[..10]) == BaseFieldNames;
    assert forall i :: 0 <= i < 10 ==> t[i] == s[i];
    if |s| == 13 {
      assert Names(s[10..]) == DepthFieldNames;
      assert forall i :: 10 <= i < 13 ==> t[i] == s[i];
    }
  }

  // ---------------------------------------------------------------------
  // Constructor arguments
  // ---------------------------------------------------------------------

  /** The ten arguments of the record constructor and of `PyDetectionBox.add_box`. */
  datatype BoxArgs = BoxArgs(
    objId: PyValue, objLabel: PyValue, classId: PyValue, classLabel: PyValue,
    x1: PyValue, y1: PyValue, x2: PyValue, y2: PyValue, probability: PyValue, meta: PyValue)

  /** The three extra arguments of the depth-aware record constructor. */
  datatype DistArgs = DistArgs(x: PyValue, y: PyValue, z: PyValue)

  /** The record the constructor builds by calling each setter in declaration order; the first failing setter raises. */
  function MakeRecord(a: BoxArgs, d: Option<DistArgs>): Result<Record, Exc>
  {
    var objId :- Int32Slot(a.objId);
    var objLabel :- LabelSlot(a.objLabel);
    var classId :- ClassIdSlot(a.classId);
    var classLabel :- LabelSlot(a.classLabel);
    var x1 :- FloatSlot(a.x1);
    var y1 :- FloatSlot(a.y1);
    var x2 :- FloatSlot(a.x2);
    var y2 :- FloatSlot(a.y2);
    var probability :- FloatSlot(a.probability);
    var meta :- LabelSlot(a.meta);
    var dist :- match d
      case None => Ok(None)
      case Some(da) =>
        var x :- FloatSlot(da.x);
        var y :- FloatSlot(da.y);
        var z :- FloatSlot(da.z);
        Ok(Some(Distance(x, y, z)));
    Ok(Record(objId, objLabel, classId, classLabel, x1, y1, x2, y2, probability, meta, dist))
  }

  /**
   * The constructor succeeds exactly when every argument fits its slot, and
   * then each field holds its argument's stored form; a depth record gets
   * distances exactly when distance arguments are given.
   */
  lemma MakeRecordFields(a: BoxArgs, d: Option<DistArgs>)
    ensures MakeRecord(a, d).Ok? <==>
      && Int32Slot(a.objId).Ok? && LabelSlot(a.objLabel).Ok? && ClassIdSlot(a.classId).Ok?
      && LabelSlot(a.classLabel).Ok? && FloatSlot(a.x1).Ok? && FloatSlot(a.y1).Ok?
      && FloatSlot(a.x2).Ok? && FloatSlot(a.y2).Ok? && FloatSlot(a.probability).Ok?
      && LabelSlot(a.meta).Ok?
      && (d.Some? ==> FloatSlot(d.value.x).Ok? && FloatSlot(d.value.y).Ok? && FloatSlot(d.value.z).Ok?)
    ensures MakeRecord(a, d).Ok? ==>
      var r := MakeRecord(a, d).value;
      && ValidRecord(r)
      && r.objId == a.objId.i
      && r.objLabel == LabelSlot(a.objLabel).value
      && r.classId == ClassIdSlot(a.classId).value
      && r.classLabel == LabelSlot(a.classLabel).value
      && r.probability == NumberValue(a.probability)
      && r.meta == LabelSlot(a.meta).value
      && r.x1 == NumberValue(a.x1) && r.y1 == NumberValue(a.y1)
      && r.x2 == NumberValue(a.x2) && r.y2 == NumberValue(a.y2)
      && r.dist.Some? == d.Some?
      && (d.Some? ==>
            r.dist.value == Distance(NumberValue(d.value.x), NumberValue(d.value.y), NumberValue(d.value.z)))
  {
  }

  // ---------------------------------------------------------------------
  // Batches
  // ---------------------------------------------------------------------

  /** The state of a batch: identifiers and the serialised records added so far. */
  datatype Batch = Batch(engineId: string, streamId: string, frameId: int, data: seq<Nvp>)

  /**
   * Lines 175-183: the constructor's arguments go through the engine id,
   * stream id and frame id setters in that order; the first that refuses
   * its value raises, and a new batch holds no data.
   */
  function MakeBatch(engineId: PyValue, streamId: PyValue, frameId: PyValue): (r: Result<Batch, Exc>)
    ensures r.Ok? <==> engineId.PyStr? && streamId.PyStr? && frameId.PyInt? && IsUInt32(frameId.i)
    ensures r.Ok? ==> r.value == Batch(engineId.s, streamId.s, frameId.i, [])
    ensures !engineId.PyStr? ==> r == Err(TypeError)
    ensures engineId.PyStr? && !streamId.PyStr? ==> r == Err(TypeError)
    ensures engineId.PyStr? && streamId.PyStr? && r.Err? ==> r == Err(UInt32Slot(frameId).error)
  {
    var e :- StringSlot(engineId);
    var st :- StringSlot(streamId);
    var f :- UInt32Slot(frameId);
    Ok(Batch(e, st, f, []))
  }

  /** The entry `add_data` pushes for a record: an unnamed pair wrapping the record's serialisation. */
  function WrapRecord(r: Record): Nvp
  {
    Nvp("", NvpSeqValue(Serialize(r)))
  }

  /** How a consumer reads one batch entry back as a record. */
  function UnwrapRecord(n: Nvp): Option<Record>
  {
    if n.value.NvpSeqValue? then Parse(n.value.items) else None
  }

  lemma UnwrapWrapRecord(r: Record)
    requires ValidRecord(r)
    ensures UnwrapRecord(WrapRecord(r)) == Some(r)
  {
    ParseSerialize(r);
  }

  /** `dr_data` of a batch. */
  function SerializeBatch(b: Batch): (s: seq<Nvp>)
    ensures Names(s) == ["engine_id", "stream_id", "frame_id", "data"]
  {
    [ Nvp("engine_id", StringValue(b.engineId)),
      Nvp("stream_id", StringValue(b.streamId)),
      Nvp("frame_id", UInt32Value(b.frameId)),
      Nvp("data", NvpSeqValue(b.data)) ]
  }

  function ParseBatch(s: seq<Nvp>): Option<Batch>
  {
    if |s| == 4 && Names(s) == ["engine_id", "stream_id", "frame_id", "data"]
       && s[0].value.StringValue? && s[1].value.StringValue?
       && s[2].value.UInt32Value? && IsUInt32(s[2].value.u)
       && s[3].value.NvpSeqValue?
    then Some(Batch(s[0].value.s, s[1].value.s, s[2].value.u, s[3].value.items))
    else None
  }

  /** A batch whose frame id fits in 32 bits survives serialisation and parsing exactly. */
  lemma ParseSerializeBatch(b: Batch)
    requires IsUInt32(b.frameId)
    ensures ParseBatch(SerializeBatch(b)) == Some(b)
  {
  }

  /** Whatever parses as a batch is exactly that batch's serialisation. */
  lemma SerializeParseBatch(s: seq<Nvp>)
    requires ParseBatch(s).Some?
    ensures SerializeBatch(ParseBatch(s).value) == s
  {
    var t := SerializeBatch(ParseBatch(s).value);
    assert forall i :: 0 <= i < 4 ==> t[i] == s[i];
  }

  // ---------------------------------------------------------------------
  // The mutable objects
  // ---------------------------------------------------------------------

  /** `PyDetectionBoxData` (`depth == false`) and `PyDepthDetectionBoxData` (`depth == true`). */
  class DetectionBoxData {
    var objId: int
    var objLabel: string
    var classId: int
    var classLabel: string
    var x1: real
    var y1: real
    var x2: real
    var y2: real
    var probability: real
    var meta: string
    var distX: real
    var distY: real
    var distZ: real
    const depth: bool

    /** What `dr_data` serialises. */
    function Value(): Record
      reads this
    {
      Record(objId, objLabel, classId, classLabel, x1, y1, x2, y2, probability, meta,
             if depth then Some(Distance(distX, distY, distZ)) else None)
    }

    /** A record built with every argument left at its default. */
    constructor (depth: bool)
      ensures this.depth == depth
      ensures Value() == DefaultRecord(depth) && ValidRecord(Value())
    {
      this.depth := depth;
      objId, objLabel, classId, classLabel := 0, "", 0, "";
      x1, y1, x2, y2, probability, meta := 0.0, 0.0, 0.0, 0.0, 0.0, "";
      distX, distY, distZ := 0.0, 0.0, 0.0;
    }

    method SetObjId(v: PyValue) returns (o: Outcome<Exc>)
      modifies this
      ensures Int32Slot(v).Ok? ==> o == Pass && Value() == old(Value()).(objId := Int32Slot(v).value)
      ensures Int32Slot(v).Err? ==> o == Fail(Int32Slot(v).error) && Value() == old(Value())
    {
      match Int32Slot(v)
      case Ok(n) => objId := n; o := Pass;
      case Err(e) => o := Fail(e);
    }

    method SetObjLabel(v: PyValue) returns (o: Outcome<Exc>)
      modifies this
      ensures LabelSlot(v).Ok? ==> o == Pass && Value() == old(Value()).(objLabel := LabelSlot(v).value)
      ensures LabelSlot(v).Err? ==> o == Fail(LabelSlot(v).error) && Value() == old(Value())
    {
      match LabelSlot(v)
      case Ok(s) => objLabel := s; o := Pass;
      case Err(e) => o := Fail(e);
    }

    method SetClassId(v: PyValue) returns (o: Outcome<Exc>)
      modifies this
      ensures ClassIdSlot(v).Ok? ==> o == Pass && Value() == old(Value()).(classId := ClassIdSlot(v).value)
      ensures ClassIdSlot(v).Err? ==> o == Fail(ClassIdSlot(v).error) && Value() == old(Value())
    {
      match ClassIdSlot(v)
      case Ok(n) => classId := n; o := Pass;
      case Err(e) => o := Fail(e);
    }

    method SetClassLabel(v: PyValue) returns (o: Outcome<Exc>)
      modifies this
      ensures LabelSlot(v).Ok? ==> o == Pass && Value() == old(Value()).(classLabel := LabelSlot(v).value)
      ensures LabelSlot(v).Err? ==> o == Fail(LabelSlot(v).error) && Value() == old(Value())
    {
      match LabelSlot(v)
      case Ok(s) => classLabel := s; o := Pass;
      case Err(e) => o := Fail(e);
    }

    method SetX1(v: PyValue) returns (o: Outcome<Exc>)
      modifies this
      ensures FloatSlot(v).Ok? ==> o == Pass && Value() == old(Value()).(x1 := FloatSlot(v).value)
      ensures FloatSlot(v).Err? ==> o == Fail(FloatSlot(v).error) && Value() == old(Value())
    {
      match FloatSlot(v)
      case Ok(f) => x1 := f; o := Pass;
      case Err(e) => o := Fail(e);
    }

    method SetY1(v: PyValue) returns (o: Outcome<Exc>)
      modifies this
      ensures FloatSlot(v).Ok? ==> o == Pass && Value() == old(Value()).(y1 := FloatSlot(v).value)
      ensures FloatSlot(v).Err? ==> o == Fail(FloatSlot(v).error) && Value() == old(Value())
    {
      match FloatSlot(v)
      case Ok(f) => y1 := f; o := Pass;
      case Err(e) => o := Fail(e);
    }

    method SetX2(v: PyValue) returns (o: Outcome<Exc>)
      modifies this
      ensures FloatSlot(v).Ok? ==> o == Pass && Value() == old(Value()).(x2 := FloatSlot(v).value)
      ensures FloatSlot(v).Err? ==> o == Fail(FloatSlot(v).error) && Value() == old(Value())
    {
      match FloatSlot(v)
      case Ok(f) => x2 := f; o := Pass;
      case Err(e) => o := Fail(e);
    }

    method SetY2(v: PyValue) returns (o: Outcome<Exc>)
      modifies this
      ensures FloatSlot(v).Ok? ==> o == Pass && Value() == old(Value()).(y2 := FloatSlot(v).value)
      ensures FloatSlot(v).Err? ==> o == Fail(FloatSlot(v).error) && Value() == old(Value())
    {
      match FloatSlot(v)
      case Ok(f) => y2 := f; o := Pass;
      case Err(e) => o := Fail(e);
    }

    method SetProbability(v: PyValue) returns (o: Outcome<Exc>)
      modifies this
      ensures FloatSlot(v).Ok? ==> o == Pass && Value() == old(Value()).(probability := FloatSlot(v).value)
      ensures FloatSlot(v).Err? ==> o == Fail(FloatSlot(v).error) && Value() == old(Value())
    {
      match FloatSlot(v)
      case Ok(f) => probability := f; o := Pass;
      case Err(e) => o := Fail(e);
    }

    method SetMeta(v: PyValue) returns (o: Outcome<Exc>)
      modifies this
      ensures LabelSlot(v).Ok? ==> o == Pass && Value() == old(Value()).(meta := LabelSlot(v).value)
      ensures LabelSlot(v).Err? ==> o == Fail(LabelSlot(v).error) && Value() == old(Value())
    {
      match LabelSlot(v)
      case Ok(s) => meta := s; o := Pass;
      case Err(e) => o := Fail(e);
    }

    method SetDistX(v: PyValue) returns (o: Outcome<Exc>)
      requires depth
      modifies this
      ensures FloatSlot(v).Ok? ==> o == Pass && Value() == old(Value()).(dist := Some(old(Value()).dist.value.(x := FloatSlot(v).value)))
      ensures FloatSlot(v).Err? ==> o == Fail(FloatSlot(v).error) && Value() == old(Value())
    {
      match FloatSlot(v)
      case Ok(f) => distX := f; o := Pass;
      case Err(e) => o := Fail(e);
    }

    method SetDistY(v: PyValue) returns (o: Outcome<Exc>)
      requires depth
      modifies this
      ensures FloatSlot(v).Ok? ==> o == Pass && Value() == old(Value()).(dist := Some(old(Value()).dist.value.(y := FloatSlot(v).value)))
      ensures FloatSlot(v).Err? ==> o == Fail(FloatSlot(v).error) && Value() == old(Value())
    {
      match FloatSlot(v)
      case Ok(f) => distY := f; o := Pass;
      case Err(e) => o := Fail(e);
    }

    method SetDistZ(v: PyValue) returns (o: Outcome<Exc>)
      requires depth
      modifies this
      ensures FloatSlot(v).Ok? ==> o == Pass && Value() == old(Value()).(dist := Some(old(Value()).dist.value.(z := FloatSlot(v).value)))
      ensures FloatSlot(v).Err? ==> o == Fail(FloatSlot(v).error) && Value() == old(Value())
    {
      match FloatSlot(v)
      case Ok(f) => distZ := f; o := Pass;
      case Err(e) => o := Fail(e);
    }

    /** The argument-taking constructor: the setters in declaration order, distances last. */
    method Assign(a: BoxArgs, d: Option<DistArgs>) returns (o: Outcome<Exc>)
      requires d.Some? == depth
      requires Value() == DefaultRecord(depth)
      modifies this
      ensures MakeRecord(a, d).Ok? ==> o == Pass && Value() == MakeRecord(a, d).value
      ensures MakeRecord(a, d).Err? ==> o == Fail(MakeRecord(a, d).error)
    {
      o := SetObjId(a.objId);
      if o.Fail? { return; }
      o := SetObjLabel(a.objLabel);
      if o.Fail? { return; }
      o := SetClassId(a.classId);
      if o.Fail? { return; }
      o := SetClassLabel(a.classLabel);
      if o.Fail? { return; }
      o := SetX1(a.x1);
      if o.Fail? { return; }
      o := SetY1(a.y1);
      if o.Fail? { return; }
      o := SetX2(a.x2);
      if o.Fail? { return; }
      o := SetY2(a.y2);
      if o.Fail? { return; }
      o := SetProbability(a.probability);
      if o.Fail? { return; }
      o := SetMeta(a.meta);
      if o.Fail? { return; }
      if d.Some? {
        o := SetDistX(d.value.x);
        if o.Fail? { return; }
        o := SetDistY(d.value.y);
        if o.Fail? { return; }
        o := SetDistZ(d.value.z);
      }
    }
  }

  /** `PyDetectionBox` (`depth == false`) and `PyDepthDetectionBox` (`depth == true`). */
  class DetectionBox {
    var engineId: string
    var streamId: string
    var frameId: int
    var data: seq<Nvp>
    /** Which kind of record `AddBox` builds. */
    const depth: bool

    function Value(): Batch
      reads this
    {
      Batch(engineId, streamId, frameId, data)
    }

    /** A batch with every argument left at its default. */
    constructor (depth: bool)
      ensures this.depth == depth
      ensures Value() == Batch("", "", 0, [])
    {
      this.depth := depth;
      engineId, streamId, frameId, data := "", "", 0, [];
    }

    method SetEngineId(v: PyValue) returns (o: Outcome<Exc>)
      modifies this
      ensures StringSlot(v).Ok? ==> o == Pass && Value() == old(Value()).(engineId := v.s)
      ensures StringSlot(v).Err? ==> o == Fail(StringSlot(v).error) && Value() == old(Value())
    {
      match StringSlot(v)
      case Ok(s) => engineId := s; o := Pass;
      case Err(e) => o := Fail(e);
    }

    method SetStreamId(v: PyValue) returns (o: Outcome<Exc>)
      modifies this
      ensures StringSlot(v).Ok? ==> o == Pass && Value() == old(Value()).(streamId := v.s)
      ensures StringSlot(v).Err? ==> o == Fail(StringSlot(v).error) && Value() == old(Value())
    {
      match StringSlot(v)
      case Ok(s) => streamId := s; o := Pass;
      case Err(e) => o := Fail(e);
    }

    method SetFrameId(v: PyValue) returns (o: Outcome<Exc>)
      modifies this
      ensures UInt32Slot(v).Ok? ==> o == Pass && Value() == old(Value()).(frameId := v.i)
      ensures UInt32Slot(v).Err? ==> o == Fail(UInt32Slot(v).error) && Value() == old(Value())
    {
      match UInt32Slot(v)
      case Ok(n) => frameId := n; o := Pass;
      case Err(e) => o := Fail(e);
    }

    /** The argument-taking constructor: the three id setters, in order, on a default batch. */
    method AssignIds(engineId: PyValue, streamId: PyValue, frameId: PyValue) returns (o: Outcome<Exc>)
      requires Value() == Batch("", "", 0, [])
      modifies this
      ensures MakeBatch(engineId, streamId, frameId).Ok? ==>
        o == Pass && Value() == MakeBatch(engineId, streamId, frameId).value
      ensures MakeBatch(engineId, streamId, frameId).Err? ==>
        o == Fail(MakeBatch(engineId, streamId, frameId).error)
    {
      o := SetEngineId(engineId);
      if o.Fail? { return; }
      o := SetStreamId(streamId);
      if o.Fail? { return; }
      o := SetFrameId(frameId);
    }

    /** `add_data`: appends one entry wrapping the record's current serialisation. */
    method AddData(box: DetectionBoxData)
      modifies this
      ensures Value() == old(Value()).(data := old(data) + [WrapRecord(box.Value())])
    {
      data := data + [WrapRecord(box.Value())];
    }

    /** `add_box`: builds a record of this batch's kind and adds it; a failing argument adds nothing. */
    method AddBox(a: BoxArgs, d: Option<DistArgs>) returns (o: Outcome<Exc>)
      requires d.Some? == depth
      modifies this
      ensures MakeRecord(a, d).Ok? ==>
        o == Pass && Value() == old(Value()).(data := old(data) + [WrapRecord(MakeRecord(a, d).value)])
      ensures MakeRecord(a, d).Err? ==> o == Fail(MakeRecord(a, d).error) && Value() == old(Value())
    {
      var box := new DetectionBoxData(depth);
      o := box.Assign(a, d);
      if o.Pass? {
        AddData(box);
      }
    }
  }
}

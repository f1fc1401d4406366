/**
 * The frame processing loop of `DepthAI.capture` (depthai_wrapper.py).
 *
 * One poll of the hardware pipeline delivers a list of neural-network
 * packets and a list of data packets.  Every network packet replaces the
 * current result list by the longest prefix of its entries that are real
 * detections at or above the confidence threshold.  Every preview data
 * packet that carries a frame yields a batch holding one depth record per
 * current result that converts without error; each yielded batch takes the
 * next frame number.
 *
 * The hardware is not modelled: the packets of a poll are the inputs of
 * `DepthAI.Poll`, and a decoded frame is an opaque value.
 */
module Capture {
  import opened Wrappers
  import opened PyValues
  import opened DetectionBox

  /** One detector entry, the dictionary the source reads as `e[0]`. */
  type Entry = Dict

  /** A decoded camera frame; its pixels are opaque here. */
  datatype Frame = Frame(planes: seq<int>)

  /** A data packet: the stream it belongs to and its payload, if any. */
  datatype DataPacket = DataPacket(streamName: string, data: Option<Frame>)

  const PreviewStream: string := "previewout"
  const CaptureStreamId: string := "foo"
  const CaptureEngineId: string := "engine"

  // ---------------------------------------------------------------------
  // The early-exit confidence filter (lines 54-59)
  // ---------------------------------------------------------------------

  /**
   * The test of line 56 for one entry: `Ok(true)` keeps it, `Ok(false)`
   * stops the packet, an error (missing key, non-numeric confidence) ends
   * the capture.
   */
  function Passes(e: Entry, t: real): (r: Result<bool, Exc>)
    ensures r == Ok(true) <==>
      "id" in e && !EqualsMinusOne(e["id"]) && "confidence" in e && IsNumber(e["confidence"])
      && NumberValue(e["confidence"]) >= t
    ensures r.Err? <==>
      "id" !in e || (!EqualsMinusOne(e["id"]) && ("confidence" !in e || !IsNumber(e["confidence"])))
  {
    var id :- Lookup(e, "id");
    if EqualsMinusOne(id) then
      Ok(false)
    else
      var c :- Lookup(e, "confidence");
      var below :- LessThan(c, t);
      Ok(!below)
  }

  /** An entry whose confidence is a number at or above `t`. */
  predicate AboveThreshold(e: Entry, t: real)
  {
    "confidence" in e && IsNumber(e["confidence"]) && NumberValue(e["confidence"]) >= t
  }

  /** The entries a packet leaves as current results, and the exception that ended the scan, if any. */
  datatype FilterResult = FilterResult(kept: seq<Entry>, error: Option<Exc>)

  function Filter(es: seq<Entry>, t: real): FilterResult
  {
    if es == [] then
      FilterResult([], None)
    else
      match Passes(es[0], t)
      case Err(x) => FilterResult([], Some(x))
      case Ok(false) => FilterResult([], None)
      case Ok(true) =>
        var rest := Filter(es[1..], t);
        rest.(kept := [es[0]] + rest.kept)
  }

  /**
   * The kept entries are the longest prefix of passing entries, in delivered
   * order; the scan raises exactly when the first non-passing entry makes
   * the test raise.
   */
  lemma {:induction false} FilterIsLongestPassingPrefix(es: seq<Entry>, t: real)
    ensures var f := Filter(es, t);
      && |f.kept| <= |es| && f.kept == es[..|f.kept|]
      && (forall k :: 0 <= k < |f.kept| ==> Passes(es[k], t) == Ok(true))
      && (|f.kept| < |es| ==> Passes(es[|f.kept|], t) != Ok(true))
      && f.error == (if |f.kept| < |es| && Passes(es[|f.kept|], t).Err? then Some(Passes(es[|f.kept|], t).error) else None)
  {
    if es != [] && Passes(es[0], t) == Ok(true) {
      FilterIsLongestPassingPrefix(es[1..], t);
      var rest := Filter(es[1..], t);
      var n := |rest.kept|;
      assert Filter(es, t).kept == [es[0]] + rest.kept;
      assert [es[0]] + es[1..][..n] == es[..n + 1];
      forall k | 0 <= k < n + 1
        ensures Passes(es[k], t) == Ok(true)
      {
        if k > 0 { assert es[k] == es[1..][k - 1]; }
      }
      if n + 1 < |es| {
        assert es[n + 1] == es[1..][n];
      }
    }
  }

  /** No entry at or after the first non-passing one is kept, even if it would pass. */
  lemma FilterStopsAtFirstFailure(es: seq<Entry>, t: real, i: nat)
    requires i < |es| && Passes(es[i], t) != Ok(true)
    ensures |Filter(es, t).kept| <= i
  {
    FilterIsLongestPassingPrefix(es, t);
  }

  /** Every kept entry is a real detection (its id is not -1) with a numeric confidence at or above the threshold. */
  lemma FilterKeepsAboveThreshold(es: seq<Entry>, t: real)
    ensures forall e :: e in Filter(es, t).kept ==>
      "id" in e && !EqualsMinusOne(e["id"]) && AboveThreshold(e, t)
  {
    FilterIsLongestPassingPrefix(es, t);
    var kept := Filter(es, t).kept;
    forall e | e in kept ensures "id" in e && !EqualsMinusOne(e["id"]) && AboveThreshold(e, t) {
      var k :| 0 <= k < |kept| && kept[k] == e;
      assert Passes(es[k], t) == Ok(true);
    }
  }

  /** When a scan stops at `i` (or runs through), the filter keeps exactly `es[..i]`. */
  lemma FilterStopsAt(es: seq<Entry>, t: real, i: nat)
    requires i <= |es|
    requires forall k :: 0 <= k < i ==> Passes(es[k], t) == Ok(true)
    requires i < |es| ==> Passes(es[i], t) != Ok(true)
    ensures Filter(es, t).kept == es[..i]
    ensures Filter(es, t).error == (if i < |es| && Passes(es[i], t).Err? then Some(Passes(es[i], t).error) else None)
  {
    FilterIsLongestPassingPrefix(es, t);
  }

  /** A detection: an entry with an id other than -1 and a numeric confidence. */
  predicate Scored(e: Entry)
  {
    "id" in e && !EqualsMinusOne(e["id"]) && "confidence" in e && IsNumber(e["confidence"])
  }

  function Confidence(e: Entry): real
    requires Scored(e)
  {
    NumberValue(e["confidence"])
  }

  /** Detections in the order the device delivers them: by non-increasing confidence. */
  predicate SortedByConfidence(es: seq<Entry>)
  {
    && (forall k :: 0 <= k < |es| ==> Scored(es[k]))
    && (forall k, m :: 0 <= k <= m < |es| ==> Confidence(es[k]) >= Confidence(es[m]))
  }

  /** Full filtering without an early exit: every entry at or above `t`, in order. */
  function KeepAbove(es: seq<Entry>, t: real): (r: seq<Entry>)
    ensures forall e :: e in r ==> e in es && AboveThreshold(e, t)
  {
    if es == [] then []
    else (if AboveThreshold(es[0], t) then [es[0]] else []) + KeepAbove(es[1..], t)
  }

  /** When every detection is below `t`, full filtering keeps nothing. */
  lemma {:induction false} KeepAboveNone(es: seq<Entry>, t: real)
    requires forall k :: 0 <= k < |es| ==> Scored(es[k]) && Confidence(es[k]) < t
    ensures KeepAbove(es, t) == []
  {
    if es != [] {
      assert !AboveThreshold(es[0], t);
      KeepAboveNone(es[1..], t);
    }
  }

  /**
   * On the device's ordering the early exit loses nothing: when the entries
   * before the first id -1 entry (or all of them) are detections sorted by
   * non-increasing confidence, the scan keeps exactly the detections at or
   * above `t` among them, in order, and raises nothing.
   */
  lemma {:induction false} SortedFilterIsFullFilter(es: seq<Entry>, t: real, i: nat)
    requires i <= |es| && SortedByConfidence(es[..i])
    requires i < |es| ==> "id" in es[i] && EqualsMinusOne(es[i]["id"])
    ensures Filter(es, t) == FilterResult(KeepAbove(es[..i], t), None)
  {
    if i > 0 {
      var p := es[..i];
      assert p[0] == es[0] && Scored(es[0]);
      if Confidence(es[0]) >= t {
        var q := es[1..][..i - 1];
        assert p[1..] == q;
        assert SortedByConfidence(q) by {
          forall k | 0 <= k < |q| ensures q[k] == p[k + 1] {}
        }
        if i - 1 < |es| - 1 {
          assert es[1..][i - 1] == es[i];
        }
        SortedFilterIsFullFilter(es[1..], t, i - 1);
      } else {
        forall k | 0 <= k < |p| ensures Scored(p[k]) && Confidence(p[k]) < t {
          assert Confidence(p[0]) >= Confidence(p[k]);
        }
        KeepAboveNone(p, t);
      }
    }
  }

  // ---------------------------------------------------------------------
  // Record assembly (lines 77-107)
  // ---------------------------------------------------------------------

  /**
   * The body of the `try` block for one result: each field in the order the
   * source sets it.  Any exception drops the record.  The label guard is
   * `class_id <= len(labels)`, and indexing follows Python's list rules.
   */
  function BuildRecord(e: Entry, labels: seq<string>): Result<Record, Exc>
  {
    var left :- Lookup(e, "left");
    var x1 :- FloatOf(left);
    var top :- Lookup(e, "top");
    var y1 :- FloatOf(top);
    var right :- Lookup(e, "right");
    var x2 :- FloatOf(right);
    var bottom :- Lookup(e, "bottom");
    var y2 :- FloatOf(bottom);
    var labelValue :- Lookup(e, "label");
    var classId :- ClassIdSlot(labelValue);
    var classLabel :- if classId <= |labels| then PyIndex(labels, classId) else Ok("");
    var confidence :- Lookup(e, "confidence");  // printed, then stored
    var probability :- FloatSlot(confidence);
    var dx :- Lookup(e, "distance_x");
    var distX :- FloatSlot(dx);
    var dy :- Lookup(e, "distance_y");
    var distY :- FloatSlot(dy);
    var dz :- Lookup(e, "distance_z");
    var distZ :- FloatSlot(dz);
    Ok(Record(0, "", classId, classLabel, x1, y1, x2, y2, probability, "", Some(Distance(distX, distY, distZ))))
  }

  /** The conditions under which a result converts to a record. */
  predicate Convertible(e: Entry, labels: seq<string>)
  {
    && "left" in e && FloatOf(e["left"]).Ok?
    && "top" in e && FloatOf(e["top"]).Ok?
    && "right" in e && FloatOf(e["right"]).Ok?
    && "bottom" in e && FloatOf(e["bottom"]).Ok?
    && "label" in e && ClassIdSlot(e["label"]).Ok?
    && (ClassIdSlot(e["label"]).value <= |labels| ==> -|labels| <= ClassIdSlot(e["label"]).value < |labels|)
    && "confidence" in e && IsNumber(e["confidence"])
    && "distance_x" in e && IsNumber(e["distance_x"])
    && "distance_y" in e && IsNumber(e["distance_y"])
    && "distance_z" in e && IsNumber(e["distance_z"])
  }

  /** A result converts exactly when every field it needs is present and of the right kind; then each field is copied. */
  lemma BuildRecordFields(e: Entry, labels: seq<string>)
    ensures BuildRecord(e, labels).Ok? <==> Convertible(e, labels)
    ensures BuildRecord(e, labels).Ok? ==>
      var r := BuildRecord(e, labels).value;
      && ValidRecord(r)
      && r.objId == 0 && r.objLabel == "" && r.meta == ""
      && r.x1 == FloatOf(e["left"]).value && r.y1 == FloatOf(e["top"]).value
      && r.x2 == FloatOf(e["right"]).value && r.y2 == FloatOf(e["bottom"]).value
      && r.classId == ClassIdSlot(e["label"]).value
      && r.probability == NumberValue(e["confidence"])
      && r.dist == Some(Distance(NumberValue(e["distance_x"]), NumberValue(e["distance_y"]), NumberValue(e["distance_z"])))
  {
  }

  /**
   * Label handling: an index below the table's length picks that label
   * (negative ones from the end), an index equal to the length drops the
   * record, and a larger index keeps it with an empty label.
   */
  lemma BuildRecordLabel(e: Entry, labels: seq<string>)
    ensures BuildRecord(e, labels).Ok? ==>
      var r := BuildRecord(e, labels).value;
      && r.classId != |labels|
      && (0 <= r.classId < |labels| ==> r.classLabel == labels[r.classId])
      && (r.classId < 0 ==> -|labels| <= r.classId && r.classLabel == labels[|labels| + r.classId])
      && (r.classId > |labels| ==> r.classLabel == "")
    ensures "label" in e && ClassIdSlot(e["label"]) == Ok(|labels|) ==> BuildRecord(e, labels).Err?
    ensures "label" in e && ClassIdSlot(e["label"]).Ok? && ClassIdSlot(e["label"]).value < -|labels| ==>
      BuildRecord(e, labels).Err?
  {
  }

  /** The label evidently intended for a class id: the table's entry when it has one, else `''`. */
  function IntendedLabel(classId: int, labels: seq<string>): string
  {
    if 0 <= classId < |labels| then labels[classId] else ""
  }

  /**
   * The record build as evidently intended: a class id the label table
   * does not cover keeps the empty label, and a class id `int` cannot
   * convert stores -1, instead of either dropping the record.
   */
  function BuildRecordIntended(e: Entry, labels: seq<string>): Result<Record, Exc>
  {
    var left :- Lookup(e, "left");
    var x1 :- FloatOf(left);
    var top :- Lookup(e, "top");
    var y1 :- FloatOf(top);
    var right :- Lookup(e, "right");
    var x2 :- FloatOf(right);
    var bottom :- Lookup(e, "bottom");
    var y2 :- FloatOf(bottom);
    var labelValue :- Lookup(e, "label");
    var classId :- ClassIdSlotIntended(labelValue);
    var confidence :- Lookup(e, "confidence");
    var probability :- FloatSlot(confidence);
    var dx :- Lookup(e, "distance_x");
    var distX :- FloatSlot(dx);
    var dy :- Lookup(e, "distance_y");
    var distY :- FloatSlot(dy);
    var dz :- Lookup(e, "distance_z");
    var distZ :- FloatSlot(dz);
    Ok(Record(0, "", classId, IntendedLabel(classId, labels), x1, y1, x2, y2, probability, "",
              Some(Distance(distX, distY, distZ))))
  }

  /** The conditions under which a result converts when the class id never drops it. */
  predicate FieldsConvertible(e: Entry)
  {
    && "left" in e && FloatOf(e["left"]).Ok?
    && "top" in e && FloatOf(e["top"]).Ok?
    && "right" in e && FloatOf(e["right"]).Ok?
    && "bottom" in e && FloatOf(e["bottom"]).Ok?
    && "label" in e && ClassIdSlotIntended(e["label"]).Ok?
    && "confidence" in e && IsNumber(e["confidence"])
    && "distance_x" in e && IsNumber(e["distance_x"])
    && "distance_y" in e && IsNumber(e["distance_y"])
    && "distance_z" in e && IsNumber(e["distance_z"])
  }

  /**
   * With the intended guard the label table never decides whether a result
   * converts; a covered class id takes its label and any other the empty
   * one; every result the code as written converts still converts, and
   * with a covered class id to the same record.
   */
  lemma BuildRecordIntendedLabel(e: Entry, labels: seq<string>)
    ensures BuildRecordIntended(e, labels).Ok? <==> FieldsConvertible(e)
    ensures BuildRecordIntended(e, labels).Ok? ==>
      var r := BuildRecordIntended(e, labels).value;
      && r.classId == ClassIdSlotIntended(e["label"]).value
      && (0 <= r.classId < |labels| ==> r.classLabel == labels[r.classId])
      && (r.classId < 0 || |labels| <= r.classId ==> r.classLabel == "")
    ensures BuildRecord(e, labels).Ok? ==> BuildRecordIntended(e, labels).Ok?
    ensures BuildRecord(e, labels).Ok? && 0 <= BuildRecord(e, labels).value.classId ==>
      BuildRecordIntended(e, labels) == BuildRecord(e, labels)
  {
  }

  /**
   * As written, a detection of class `len(labels)` is dropped: the guard
   * lets the index through and the lookup raises IndexError, which the bare
   * `except` swallows; the intended build keeps it with an empty label.
   */
  lemma LabelGuardDropsRecord()
    ensures var labels := ["background", "person"];
      var e := map["id" := PyInt(1), "confidence" := PyFloat(0.9),
                   "left" := PyFloat(0.1), "top" := PyFloat(0.2), "right" := PyFloat(0.3), "bottom" := PyFloat(0.4),
                   "label" := PyFloat(2.0),
                   "distance_x" := PyFloat(0.0), "distance_y" := PyFloat(0.0), "distance_z" := PyFloat(1.5)];
      && BuildRecord(e, labels) == Err(IndexError)
      && BuildRecordIntended(e, labels).Ok?
      && BuildRecordIntended(e, labels).value.classId == 2
      && BuildRecordIntended(e, labels).value.classLabel == ""
  {
    assert Truncate(2.0) == 2;
  }

  /** The records built from the current results, in result order, skipping those that raise. */
  function Assemble(results: seq<Entry>, labels: seq<string>): seq<Record>
  {
    if results == [] then
      []
    else
      var prev := Assemble(results[..|results| - 1], labels);
      match BuildRecord(results[|results| - 1], labels)
      case Ok(r) => prev + [r]
      case Err(_) => prev
  }

  /** The positions of the results that convert, in increasing order. */
  function ConvertedPositions(results: seq<Entry>, labels: seq<string>): (pos: seq<nat>)
    ensures forall k :: 0 <= k < |pos| ==> pos[k] < |results| && BuildRecord(results[pos[k]], labels).Ok?
    ensures forall k, m :: 0 <= k < m < |pos| ==> pos[k] < pos[m]
    ensures forall j :: 0 <= j < |results| && BuildRecord(results[j], labels).Ok? ==> j in pos
  {
    if results == [] then
      []
    else
      var init := results[..|results| - 1];
      var prev := ConvertedPositions(init, labels);
      assert forall j :: 0 <= j < |init| ==> results[j] == init[j];
      if BuildRecord(results[|results| - 1], labels).Ok? then prev + [|results| - 1] else prev
  }

  /**
   * The assembled records are the converted results, one each, in result
   * order: at most one record per result, and a result is missing from the
   * batch only if converting it raises.
   */
  lemma {:induction false} AssembleIsOrderedSubset(results: seq<Entry>, labels: seq<string>)
    ensures var recs, pos := Assemble(results, labels), ConvertedPositions(results, labels);
      && |recs| == |pos| <= |results|
      && forall k :: 0 <= k < |pos| ==> BuildRecord(results[pos[k]], labels) == Ok(recs[k])
  {
    if results != [] {
      var init := results[..|results| - 1];
      AssembleIsOrderedSubset(init, labels);
      var pos := ConvertedPositions(init, labels);
      assert forall k :: 0 <= k < |pos| ==> results[pos[k]] == init[pos[k]];
    }
  }

  /** `data` of a batch built from these records. */
  function WrapAll(rs: seq<Record>): (d: seq<Nvp>)
    ensures |d| == |rs|
  {
    if rs == [] then [] else WrapAll(rs[..|rs| - 1]) + [WrapRecord(rs[|rs| - 1])]
  }

  lemma {:induction false} WrapAllAt(rs: seq<Record>, k: nat)
    requires k < |rs|
    ensures WrapAll(rs)[k] == WrapRecord(rs[k])
    decreases |rs|
  {
    if k < |rs| - 1 {
      WrapAllAt(rs[..|rs| - 1], k);
    }
  }

  /** One more result adds its wrapped record to the batch data exactly when it converts. */
  lemma AssembleStep(results: seq<Entry>, i: nat, labels: seq<string>)
    requires i < |results|
    ensures WrapAll(Assemble(results[..i + 1], labels)) ==
      WrapAll(Assemble(results[..i], labels))
      + (if BuildRecord(results[i], labels).Ok? then [WrapRecord(BuildRecord(results[i], labels).value)] else [])
  {
    assert results[..i + 1][..i] == results[..i];
  }

  /** Every assembled record fits the wire widths and carries its result's confidence. */
  lemma {:induction false} AssembleProbabilities(results: seq<Entry>, labels: seq<string>, t: real)
    requires forall e :: e in results ==> AboveThreshold(e, t)
    ensures forall r :: r in Assemble(results, labels) ==> ValidRecord(r) && r.probability >= t
  {
    if results != [] {
      var init := results[..|results| - 1];
      assert forall e :: e in init ==> e in results;
      AssembleProbabilities(init, labels, t);
      var last := results[|results| - 1];
      assert last in results;
      BuildRecordFields(last, labels);
    }
  }

  // ---------------------------------------------------------------------
  // One poll (lines 52-109)
  // ---------------------------------------------------------------------

  /** The state the loop carries from one poll to the next. */
  datatype LoopState = LoopState(results: seq<Entry>, frameNum: nat)

  /** One yielded pair. */
  datatype Emission = Emission(frame: Frame, batch: Batch)

  /** The batch yielded for a frame. */
  function BatchFor(results: seq<Entry>, labels: seq<string>, frameNum: nat): Batch
  {
    Batch(CaptureEngineId, CaptureStreamId, frameNum, WrapAll(Assemble(results, labels)))
  }

  /** Lines 53-59 over all network packets of a poll: each one replaces the results. */
  function ApplyNNetPackets(results: seq<Entry>, packets: seq<seq<Entry>>, t: real): FilterResult
  {
    if packets == [] then
      FilterResult(results, None)
    else
      var prev := ApplyNNetPackets(results, packets[..|packets| - 1], t);
      if prev.error.Some? then prev else Filter(packets[|packets| - 1], t)
  }

  /** Once a network packet raises, later packets change nothing. */
  lemma {:induction false} ApplyNNetPacketsStops(results: seq<Entry>, packets: seq<seq<Entry>>, t: real, i: nat)
    requires i <= |packets|
    requires ApplyNNetPackets(results, packets[..i], t).error.Some?
    ensures ApplyNNetPackets(results, packets, t) == ApplyNNetPackets(results, packets[..i], t)
    decreases |packets|
  {
    if i < |packets| {
      var init := packets[..|packets| - 1];
      assert init[..i] == packets[..i];
      ApplyNNetPacketsStops(results, init, t, i);
    } else {
      assert packets[..i] == packets;
    }
  }

  /** What one data packet does. */
  datatype PacketOutcome = Skipped | Yielded(emission: Emission) | Raised(exc: Exc)

  /**
   * Lines 61-109 for one packet: only preview packets build a batch; the
   * frame id is set before the payload is checked, so an id beyond 32 bits
   * raises even for an empty packet; an empty payload yields nothing.
   */
  function HandlePacket(frameNum: nat, p: DataPacket, results: seq<Entry>, labels: seq<string>): PacketOutcome
  {
    if p.streamName != PreviewStream then Skipped
    else if !IsUInt32(frameNum) then Raised(OverflowError)
    else if p.data.None? then Skipped
    else Yielded(Emission(p.data.value, BatchFor(results, labels, frameNum)))
  }

  datatype DataPass = DataPass(frameNum: nat, emitted: seq<Emission>, error: Option<Exc>)

  /** Lines 60-109 over all data packets of a poll, stopping at an exception. */
  function ProcessData(results: seq<Entry>, labels: seq<string>, frameNum: nat, packets: seq<DataPacket>): DataPass
  {
    if packets == [] then
      DataPass(frameNum, [], None)
    else
      var prev := ProcessData(results, labels, frameNum, packets[..|packets| - 1]);
      if prev.error.Some? then prev
      else
        match HandlePacket(prev.frameNum, packets[|packets| - 1], results, labels)
        case Skipped => prev
        case Yielded(em) => DataPass(prev.frameNum + 1, prev.emitted + [em], None)
        case Raised(x) => prev.(error := Some(x))
  }

  /** Once a data packet raises, later packets change nothing. */
  lemma {:induction false} ProcessDataStops(results: seq<Entry>, labels: seq<string>, frameNum: nat, packets: seq<DataPacket>, i: nat)
    requires i <= |packets|
    requires ProcessData(results, labels, frameNum, packets[..i]).error.Some?
    ensures ProcessData(results, labels, frameNum, packets) == ProcessData(results, labels, frameNum, packets[..i])
    decreases |packets|
  {
    if i < |packets| {
      var init := packets[..|packets| - 1];
      assert init[..i] == packets[..i];
      ProcessDataStops(results, labels, frameNum, init, i);
    } else {
      assert packets[..i] == packets;
    }
  }

  /** The frames of the preview packets that carry one, in order. */
  function Previews(packets: seq<DataPacket>): seq<Frame>
  {
    if packets == [] then
      []
    else
      var prev := Previews(packets[..|packets| - 1]);
      var p := packets[|packets| - 1];
      if p.streamName == PreviewStream && p.data.Some? then prev + [p.data.value] else prev
  }

  datatype PollResult = PollResult(state: LoopState, emitted: seq<Emission>, error: Option<Exc>)

  /** One iteration of the `while True` loop. */
  function PollOnce(s: LoopState, nnets: seq<seq<Entry>>, datas: seq<DataPacket>, t: real, labels: seq<string>): PollResult
  {
    var n := ApplyNNetPackets(s.results, nnets, t);
    if n.error.Some? then
      PollResult(LoopState(n.kept, s.frameNum), [], n.error)
    else
      var d := ProcessData(n.kept, labels, s.frameNum, datas);
      PollResult(LoopState(n.kept, d.frameNum), d.emitted, d.error)
  }

  /** Network packets replace the results: after a poll they come from its last packet, or persist when it had none. */
  lemma PollResultsFromLastPacket(s: LoopState, nnets: seq<seq<Entry>>, datas: seq<DataPacket>, t: real, labels: seq<string>)
    ensures var p := PollOnce(s, nnets, datas, t, labels);
      && (nnets == [] ==> p.state.results == s.results)
      && (nnets != [] && p.error.None? ==> p.state.results == Filter(nnets[|nnets| - 1], t).kept)
  {
  }

  /**
   * Within a poll, every yielded batch takes the next frame number, is
   * labelled stream `foo` and engine `engine`, and holds the records
   * assembled from the current results; the counter advances once per
   * yielded batch and never for a skipped packet.  The scan raises only
   * when the counter no longer fits 32 bits.
   */
  lemma {:induction false} ProcessDataEmissions(results: seq<Entry>, labels: seq<string>, frameNum: nat, packets: seq<DataPacket>)
    ensures var d := ProcessData(results, labels, frameNum, packets);
      && d.frameNum == frameNum + |d.emitted|
      && (forall k :: 0 <= k < |d.emitted| ==> d.emitted[k].batch == BatchFor(results, labels, frameNum + k))
      && (d.error.Some? ==> d.error.value == OverflowError)
      && (d.error.None? ==>
            && |d.emitted| == |Previews(packets)|
            && forall k :: 0 <= k < |d.emitted| ==> d.emitted[k].frame == Previews(packets)[k])
      && (frameNum + |Previews(packets)| < 0x1_0000_0000 ==> d.error.None?)
    decreases |packets|
  {
    if packets != [] {
      var init := packets[..|packets| - 1];
      ProcessDataEmissions(results, labels, frameNum, init);
      assert |Previews(init)| <= |Previews(packets)|;
    }
  }

  /** A poll that raises in a network packet yields nothing and leaves the counter alone. */
  lemma PollFrameNumbers(s: LoopState, nnets: seq<seq<Entry>>, datas: seq<DataPacket>, t: real, labels: seq<string>)
    ensures var p := PollOnce(s, nnets, datas, t, labels);
      && p.state.frameNum == s.frameNum + |p.emitted|
      && (forall k :: 0 <= k < |p.emitted| ==>
            p.emitted[k].batch == BatchFor(p.state.results, labels, s.frameNum + k)
            && p.emitted[k].batch.frameId == s.frameNum + k
            && p.emitted[k].batch.streamId == "foo" && p.emitted[k].batch.engineId == "engine")
  {
    var n := ApplyNNetPackets(s.results, nnets, t);
    if n.error.None? {
      ProcessDataEmissions(n.kept, labels, s.frameNum, datas);
    }
  }

  /** The current results of any state the loop reaches are all at or above the threshold. */
  predicate ResultsAboveThreshold(s: LoopState, t: real)
  {
    forall e :: e in s.results ==> AboveThreshold(e, t)
  }

  lemma {:induction false} ApplyNNetPacketsAboveThreshold(results: seq<Entry>, packets: seq<seq<Entry>>, t: real)
    requires forall e :: e in results ==> AboveThreshold(e, t)
    ensures forall e :: e in ApplyNNetPackets(results, packets, t).kept ==> AboveThreshold(e, t)
    decreases |packets|
  {
    if packets != [] {
      ApplyNNetPacketsAboveThreshold(results, packets[..|packets| - 1], t);
      FilterKeepsAboveThreshold(packets[|packets| - 1], t);
    }
  }

  /**
   * A poll keeps the results above the threshold, and a consumer that
   * parses any yielded batch finds only records whose probability is at or
   * above the threshold.
   */
  lemma PollKeepsThreshold(s: LoopState, nnets: seq<seq<Entry>>, datas: seq<DataPacket>, t: real, labels: seq<string>)
    requires ResultsAboveThreshold(s, t)
    ensures var p := PollOnce(s, nnets, datas, t, labels);
      && ResultsAboveThreshold(p.state, t)
      && forall k, j :: 0 <= k < |p.emitted| && 0 <= j < |p.emitted[k].batch.data| ==>
           UnwrapRecord(p.emitted[k].batch.data[j]).Some?
           && UnwrapRecord(p.emitted[k].batch.data[j]).value.probability >= t
  {
    ApplyNNetPacketsAboveThreshold(s.results, nnets, t);
    PollFrameNumbers(s, nnets, datas, t, labels);
    var p := PollOnce(s, nnets, datas, t, labels);
    var recs := Assemble(p.state.results, labels);
    AssembleProbabilities(p.state.results, labels, t);
    forall k, j | 0 <= k < |p.emitted| && 0 <= j < |p.emitted[k].batch.data|
      ensures UnwrapRecord(p.emitted[k].batch.data[j]).Some?
      ensures UnwrapRecord(p.emitted[k].batch.data[j]).value.probability >= t
    {
      WrapAllAt(recs, j);
      assert recs[j] in recs;
      UnwrapWrapRecord(recs[j]);
    }
  }

  // ---------------------------------------------------------------------
  // A finite run of polls
  // ---------------------------------------------------------------------

  datatype PollInput = PollInput(nnets: seq<seq<Entry>>, datas: seq<DataPacket>)

  /** A sequence of polls from `s`; everything yielded is kept, and an exception ends the run. */
  function Run(s: LoopState, polls: seq<PollInput>, t: real, labels: seq<string>): PollResult
  {
    if polls == [] then
      PollResult(s, [], None)
    else
      var prev := Run(s, polls[..|polls| - 1], t, labels);
      if prev.error.Some? then prev
      else
        var last := polls[|polls| - 1];
        var p := PollOnce(prev.state, last.nnets, last.datas, t, labels);
        PollResult(p.state, prev.emitted + p.emitted, p.error)
  }

  /**
   * Across a run started with a fresh counter, the k-th yielded batch has
   * frame id k, and the counter equals the number of batches yielded.
   */
  lemma {:induction false} RunFrameIds(results: seq<Entry>, polls: seq<PollInput>, t: real, labels: seq<string>)
    ensures var r := Run(LoopState(results, 0), polls, t, labels);
      && r.state.frameNum == |r.emitted|
      && forall k :: 0 <= k < |r.emitted| ==>
           r.emitted[k].batch.frameId == k
           && r.emitted[k].batch.streamId == "foo" && r.emitted[k].batch.engineId == "engine"
    decreases |polls|
  {
    if polls != [] {
      var init := polls[..|polls| - 1];
      RunFrameIds(results, init, t, labels);
      var prev := Run(LoopState(results, 0), init, t, labels);
      if prev.error.None? {
        var last := polls[|polls| - 1];
        PollFrameNumbers(prev.state, last.nnets, last.datas, t, labels);
      }
    }
  }

  /**
   * Across a run started from results above the threshold (such as the
   * empty list the constructor sets), every record of every yielded batch
   * has a probability at or above the threshold.
   */
  lemma {:induction false} RunKeepsThreshold(results: seq<Entry>, frameNum: nat, polls: seq<PollInput>, t: real, labels: seq<string>)
    requires forall e :: e in results ==> AboveThreshold(e, t)
    ensures var r := Run(LoopState(results, frameNum), polls, t, labels);
      && ResultsAboveThreshold(r.state, t)
      && forall k, j :: 0 <= k < |r.emitted| && 0 <= j < |r.emitted[k].batch.data| ==>
           UnwrapRecord(r.emitted[k].batch.data[j]).Some?
           && UnwrapRecord(r.emitted[k].batch.data[j]).value.probability >= t
    decreases |polls|
  {
    if polls != [] {
      var init := polls[..|polls| - 1];
      RunKeepsThreshold(results, frameNum, init, t, labels);
      var prev := Run(LoopState(results, frameNum), init, t, labels);
      if prev.error.None? {
        var last := polls[|polls| - 1];
        PollKeepsThreshold(prev.state, last.nnets, last.datas, t, labels);
        var p := PollOnce(prev.state, last.nnets, last.datas, t, labels);
        var all := prev.emitted + p.emitted;
        assert forall k :: |prev.emitted| <= k < |all| ==> all[k] == p.emitted[k - |prev.emitted|];
      }
    }
  }

  // ---------------------------------------------------------------------
  // The object
  // ---------------------------------------------------------------------

  /** A `DepthAI` instance together with the frame counter of its running `capture` generator. */
  class DepthAI {
    /** `__network_results`. */
    var networkResults: seq<Entry>
    /** `frame_num`, local to the generator. */
    var frameNum: nat
    const threshold: real
    const labels: seq<string>
    /** Stored by the constructor but not used by `capture`, which writes `foo` and `engine`. */
    const streamId: string
    const engineId: string

    function State(): LoopState
      reads this
    {
      LoopState(networkResults, frameNum)
    }

    constructor (labels: seq<string>, streamId: string, engineId: string, threshold: real)
      ensures networkResults == [] && frameNum == 0
      ensures this.labels == labels && this.threshold == threshold
      ensures this.streamId == streamId && this.engineId == engineId
    {
      networkResults := [];
      frameNum := 0;
      this.labels := labels;
      this.threshold := threshold;
      this.streamId := streamId;
      this.engineId := engineId;
    }

    /**
     * Lines 34-46 from the configuration's label table: `len(config.labels)`
     * raises TypeError when the network configuration named no labels, and
     * no capture object results; otherwise the constructor above runs.
     */
    static method Create(configLabels: Option<seq<string>>, streamId: string, engineId: string, threshold: real)
      returns (o: Outcome<Exc>, d: DepthAI?)
      ensures o.Fail? <==> configLabels.None?
      ensures o.Fail? ==> o.error == TypeError && d == null
      ensures o.Pass? ==>
        && d != null && fresh(d)
        && d.networkResults == [] && d.frameNum == 0
        && d.labels == configLabels.value && d.threshold == threshold
        && d.streamId == streamId && d.engineId == engineId
    {
      if configLabels.None? {
        return Fail(TypeError), null;
      }
      d := new DepthAI(configLabels.value, streamId, engineId, threshold);
      o := Pass;
    }

    /** Line 50: a new generator starts counting at 0; the results of earlier captures persist. */
    method BeginCapture()
      modifies this
      ensures frameNum == 0 && networkResults == old(networkResults)
    {
      frameNum := 0;
    }

    /** Lines 54-59 for one network packet. */
    method ConsumeNNetPacket(entries: seq<Entry>) returns (error: Option<Exc>)
      modifies this
      ensures networkResults == Filter(entries, threshold).kept
      ensures error == Filter(entries, threshold).error
      ensures frameNum == old(frameNum)
    {
      networkResults := [];
      var i := 0;
      while i < |entries|
        invariant 0 <= i <= |entries|
        invariant networkResults == entries[..i]
        invariant forall k :: 0 <= k < i ==> Passes(entries[k], threshold) == Ok(true)
        invariant frameNum == old(frameNum)
      {
        var e := entries[i];
        if "id" !in e {
          FilterStopsAt(entries, threshold, i);
          return Some(KeyError);
        }
        if EqualsMinusOne(e["id"]) {
          FilterStopsAt(entries, threshold, i);
          return None;
        }
        if "confidence" !in e {
          FilterStopsAt(entries, threshold, i);
          return Some(KeyError);
        }
        if !IsNumber(e["confidence"]) {
          FilterStopsAt(entries, threshold, i);
          return Some(TypeError);
        }
        if NumberValue(e["confidence"]) < threshold {
          FilterStopsAt(entries, threshold, i);
          return None;
        }
        networkResults := networkResults + [e];
        i := i + 1;
      }
      FilterStopsAt(entries, threshold, i);
      error := None;
    }

    /** Lines 79-92 for one result: a fresh depth record whose setters run in source order. */
    static method BuildBox(e: Entry, labels: seq<string>) returns (box: DetectionBoxData, o: Outcome<Exc>)
      ensures fresh(box) && box.depth
      ensures BuildRecord(e, labels).Ok? ==> o == Pass && box.Value() == BuildRecord(e, labels).value
      ensures BuildRecord(e, labels).Err? ==> o == Fail(BuildRecord(e, labels).error)
    {
      box := new DetectionBoxData(true);
      var left := Lookup(e, "left");
      if left.Err? { return box, Fail(left.error); }
      var x1 := FloatOf(left.value);
      if x1.Err? { return box, Fail(x1.error); }
      o := box.SetX1(PyFloat(x1.value));
      var top := Lookup(e, "top");
      if top.Err? { return box, Fail(top.error); }
      var y1 := FloatOf(top.value);
      if y1.Err? { return box, Fail(y1.error); }
      o := box.SetY1(PyFloat(y1.value));
      var right := Lookup(e, "right");
      if right.Err? { return box, Fail(right.error); }
      var x2 := FloatOf(right.value);
      if x2.Err? { return box, Fail(x2.error); }
      o := box.SetX2(PyFloat(x2.value));
      var bottom := Lookup(e, "bottom");
      if bottom.Err? { return box, Fail(bottom.error); }
      var y2 := FloatOf(bottom.value);
      if y2.Err? { return box, Fail(y2.error); }
      o := box.SetY2(PyFloat(y2.value));
      var labelValue := Lookup(e, "label");
      if labelValue.Err? { return box, Fail(labelValue.error); }
      o := box.SetClassId(labelValue.value);
      if o.Fail? { return; }
      if box.classId <= |labels| {
        var classLabel := PyIndex(labels, box.classId);
        if classLabel.Err? { return box, Fail(classLabel.error); }
        o := box.SetClassLabel(PyStr(classLabel.value));
      }
      var printed := Lookup(e, "confidence");
      if printed.Err? { return box, Fail(printed.error); }
      o := box.SetProbability(printed.value);
      if o.Fail? { return; }
      var dx := Lookup(e, "distance_x");
      if dx.Err? { return box, Fail(dx.error); }
      o := box.SetDistX(dx.value);
      if o.Fail? { return; }
      var dy := Lookup(e, "distance_y");
      if dy.Err? { return box, Fail(dy.error); }
      o := box.SetDistY(dy.value);
      if o.Fail? { return; }
      var dz := Lookup(e, "distance_z");
      if dz.Err? { return box, Fail(dz.error); }
      o := box.SetDistZ(dz.value);
    }

    /** Lines 61-109 for one data packet. */
    method HandleDataPacket(p: DataPacket) returns (out: PacketOutcome)
      modifies this
      ensures out == HandlePacket(old(frameNum), p, networkResults, labels)
      ensures networkResults == old(networkResults)
      ensures frameNum == if out.Yielded? then old(frameNum) + 1 else old(frameNum)
    {
      if p.streamName != PreviewStream {
        return Skipped;
      }
      var boxes := new DetectionBox(true);
      var o := boxes.SetStreamId(PyStr(CaptureStreamId));
      o := boxes.SetEngineId(PyStr(CaptureEngineId));
      o := boxes.SetFrameId(PyInt(frameNum));
      if o.Fail? {
        return Raised(o.error);
      }
      if p.data.None? {
        return Skipped;
      }
      var i := 0;
      while i < |networkResults|
        invariant 0 <= i <= |networkResults|
        invariant boxes.Value() == Batch(CaptureEngineId, CaptureStreamId, frameNum, WrapAll(Assemble(networkResults[..i], labels)))
        modifies boxes
      {
        var box, built := BuildBox(networkResults[i], labels);
        if built.Pass? {
          boxes.AddData(box);
        }
        AssembleStep(networkResults, i, labels);
        i := i + 1;
      }
      assert networkResults[..i] == networkResults;
      out := Yielded(Emission(p.data.value, boxes.Value()));
      frameNum := frameNum + 1;
    }

    /** One poll: every network packet, then every data packet; an exception ends the capture. */
    method Poll(nnets: seq<seq<Entry>>, datas: seq<DataPacket>) returns (emitted: seq<Emission>, error: Option<Exc>)
      modifies this
      ensures PollResult(State(), emitted, error) == PollOnce(old(State()), nnets, datas, threshold, labels)
    {
      ghost var start := networkResults;
      var i := 0;
      error := None;
      while i < |nnets|
        invariant 0 <= i <= |nnets|
        invariant ApplyNNetPackets(start, nnets[..i], threshold) == FilterResult(networkResults, None)
        invariant frameNum == old(frameNum) && error.None?
      {
        assert nnets[..i + 1][..i] == nnets[..i];
        error := ConsumeNNetPacket(nnets[i]);
        if error.Some? {
          ApplyNNetPacketsStops(start, nnets, threshold, i + 1);
          emitted := [];
          return;
        }
        i := i + 1;
      }
      assert nnets[..i] == nnets;
      var j := 0;
      emitted := [];
      while j < |datas|
        invariant 0 <= j <= |datas|
        invariant ApplyNNetPackets(start, nnets, threshold) == FilterResult(networkResults, None)
        invariant ProcessData(networkResults, labels, old(frameNum), datas[..j]) == DataPass(frameNum, emitted, None)
        invariant error.None?
      {
        assert datas[..j + 1][..j] == datas[..j];
        var out := HandleDataPacket(datas[j]);
        if out.Raised? {
          error := Some(out.exc);
          ProcessDataStops(networkResults, labels, old(frameNum), datas, j + 1);
          return;
        }
        if out.Yielded? {
          emitted := emitted + [out.emission];
        }
        j := j + 1;
      }
      assert datas[..j] == datas;
    }
  }
}

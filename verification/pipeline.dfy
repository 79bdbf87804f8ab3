/**
 * The per-frame pipeline of CVProcess.process_method (CVProcess.py, lines
 * 22-134): the outcome gate that decides between a target reading and "no
 * target", the message put on the target queue, the throttled debug log, and
 * the process object whose frame counter drives the throttle.
 *
 * The vision library's pose solve (solvePnP followed by Rodrigues, with the
 * configured 3D target model, camera matrix and distortion fixed) and the two
 * floating-point primitives hypot and atan2 (converted to degrees) are given
 * as parameters: the model says where their results go, not how they are
 * computed.
 */
module Pipeline {
  import opened Optional
  import opened Contours
  import opened Corners
  import opened Transform

  /** Debug messages are logged only on frames whose counter is a multiple of this. */
  const DEBUG_PERIOD: int := 30

  /** A solved pose: the rotation matrix of the target and its translation, camera frame. */
  datatype Pose = Pose(rotation: Mat3, translation: Vec3)

  /** The library and math primitives the pipeline calls. */
  datatype Primitives = Primitives(
    solvePose: seq<Point> -> Option<Pose>,
    hypot: (real, real) -> real,
    atan2Degrees: (real, real) -> real)

  /** The configuration values the core reads. */
  datatype Config = Config(thresholds: Thresholds, extremeVector: seq<Direction>, maxTargetDistance: real)

  /** What one frame concludes about the target. */
  datatype Reading =
    | NoTarget
    | Target(distance: real, toLeft: real, azimuth: real, fieldX: real, fieldY: real, fieldTheta: real)

  /**
   * The tuple put on the target queue:
   * (found, distance, bearing to the left, azimuth, [field x, field y, field theta]).
   */
  datatype Message = Message(
    found: bool,
    distance: Option<real>,
    toLeft: Option<real>,
    azimuth: Option<real>,
    fieldPosition: Option<seq<real>>)

  /** The tuple a reading is sent as; "no target" carries no geometry at all. */
  function Encode(r: Reading): (m: Message)
    ensures m.found <==> r.Target?
    ensures !m.found ==> m.distance.None? && m.toLeft.None? && m.azimuth.None? && m.fieldPosition.None?
    ensures m.found ==> m.distance.Some? && m.toLeft.Some? && m.azimuth.Some? && m.fieldPosition.Some?
    ensures m.found ==> |m.fieldPosition.value| == 3
  {
    match r
    case NoTarget => Message(false, None, None, None, None)
    case Target(d, l, a, x, y, th) => Message(true, Some(d), Some(l), Some(a), Some([x, y, th]))
  }

  /** How a consumer of the target queue reads a tuple back; malformed tuples give None. */
  function Decode(m: Message): Option<Reading>
  {
    if !m.found then
      if m.distance.None? && m.toLeft.None? && m.azimuth.None? && m.fieldPosition.None? then Some(NoTarget) else None
    else if m.distance.Some? && m.toLeft.Some? && m.azimuth.Some? && m.fieldPosition.Some? && |m.fieldPosition.value| == 3 then
      var p := m.fieldPosition.value;
      Some(Target(m.distance.value, m.toLeft.value, m.azimuth.value, p[0], p[1], p[2]))
    else
      None
  }

  lemma DecodeEncode(r: Reading)
    ensures Decode(Encode(r)) == Some(r)
  {
  }

  lemma EncodeDecode(m: Message)
    requires Decode(m).Some?
    ensures Encode(Decode(m).value) == m
  {
    if m.found {
      var p := m.fieldPosition.value;
      assert [p[0], p[1], p[2]] == p;
    }
  }

  datatype DebugMsg =
    | NoGoodContour
    | TargetNotMatched
    | FieldCoord(field: Vec3)
    | Summary(distance: real, toLeft: real, fieldTheta: real)

  datatype WarningMsg = TwoGoodContours | DistanceTooBig(distance: real)

  /** A line offered to the logger. */
  datatype Note = DebugNote(debug: DebugMsg) | WarningNote(warning: WarningMsg)

  /** The reading of one frame and the log lines it offers, in order, before throttling. */
  datatype Outcome = Outcome(reading: Reading, notes: seq<Note>)

  /**
   * The outcome gate, from the good contour on: extract the corners, solve the
   * pose, compute the field position and its planar distance, reject it when
   * it is too far, else remap the translation to robot axes and derive
   * bearing, azimuth and field heading.
   */
  function Gate(cfg: Config, prims: Primitives, good: Option<Contour>, yaw: real): (o: Outcome)
    ensures o.reading.Target? ==> good.Some? && o.reading.distance <= cfg.maxTargetDistance
    ensures o.reading.Target? ==> o.reading.azimuth == yaw + o.reading.toLeft
  {
    match good
    case None => Outcome(NoTarget, [DebugNote(NoGoodContour)])
    case Some(contour) =>
      match prims.solvePose(ExtremePoints(cfg.extremeVector, contour.points))
      case None => Outcome(NoTarget, [DebugNote(TargetNotMatched)])
      case Some(pose) => Judge(cfg, prims, pose.translation, FieldPosition(pose.rotation, pose.translation), yaw)
  }

  /**
   * The gate after a successful pose solve, given the solved translation and
   * the field position computed from the pose: the distance check, then the
   * reading.
   */
  function Judge(cfg: Config, prims: Primitives, translation: Vec3, field: Vec3, yaw: real): (o: Outcome)
    ensures o.reading.Target? ==> o.reading.distance <= cfg.maxTargetDistance
    ensures o.reading.Target? ==> o.reading.azimuth == yaw + o.reading.toLeft
  {
    var distance := prims.hypot(field.x, field.y);
    if distance > cfg.maxTargetDistance then
      Outcome(NoTarget, [DebugNote(FieldCoord(field)), WarningNote(DistanceTooBig(distance))])
    else
      var robot := RobotFromCamera(translation);
      var toLeft := prims.atan2Degrees(robot.y, robot.x);
      var fieldTheta := prims.atan2Degrees(field.y, field.x) - 180.0 - toLeft;
      Outcome(Target(distance, toLeft, yaw + toLeft, field.x, field.y, fieldTheta),
              [DebugNote(FieldCoord(field)), DebugNote(Summary(distance, toLeft, fieldTheta))])
  }

  /**
   * Every way the gate can go: a target is reported exactly when there is a
   * good contour, the pose solve on its corners succeeds and the planar
   * distance of the field position does not exceed the maximum; then the
   * reading carries that distance, the bearing of the robot-axes translation,
   * the azimuth yaw + bearing and the field position.
   */
  lemma GateCases(cfg: Config, prims: Primitives, good: Option<Contour>, yaw: real)
    ensures good.None? ==> Gate(cfg, prims, good, yaw).reading == NoTarget
    ensures good.Some? ==>
      var pose := prims.solvePose(ExtremePoints(cfg.extremeVector, good.value.points));
      (pose.None? ==> Gate(cfg, prims, good, yaw).reading == NoTarget) &&
      (pose.Some? ==>
        var field := FieldPosition(pose.value.rotation, pose.value.translation);
        var distance := prims.hypot(field.x, field.y);
        var toLeft := prims.atan2Degrees(-pose.value.translation.x, pose.value.translation.z);
        (distance > cfg.maxTargetDistance ==> Gate(cfg, prims, good, yaw).reading == NoTarget) &&
        (distance <= cfg.maxTargetDistance ==>
          Gate(cfg, prims, good, yaw).reading ==
            Target(distance, toLeft, yaw + toLeft, field.x, field.y,
                   prims.atan2Degrees(field.y, field.x) - 180.0 - toLeft)))
  {
  }

  /**
   * When hypot is the Euclidean length, a reported target's field position
   * lies within the maximum distance of the target.
   */
  lemma FoundWithinRange(cfg: Config, prims: Primitives, good: Option<Contour>, yaw: real)
    requires forall a: real, b: real :: prims.hypot(a, b) >= 0.0 && prims.hypot(a, b) * prims.hypot(a, b) == a * a + b * b
    ensures var r := Gate(cfg, prims, good, yaw).reading;
      r.Target? ==> r.fieldX * r.fieldX + r.fieldY * r.fieldY <= cfg.maxTargetDistance * cfg.maxTargetDistance
  {
  }

  /**
   * The specification of one captured frame: select the good contour, warn
   * first if the selection was ambiguous, then gate.
   */
  ghost function FrameSpec(cfg: Config, prims: Primitives, contours: seq<Contour>, yaw: real): (out: Outcome)
  {
    var g := GoodContour(cfg.thresholds, contours);
    var o := Gate(cfg, prims, if g.Some? then Some(contours[g.value]) else None, yaw);
    var warned := if Ambiguous(cfg.thresholds, contours) then [WarningNote(TwoGoodContours)] else [];
    Outcome(o.reading, warned + o.notes)
  }

  /** No qualifying contour, or two of them: "no target", whatever their quality. */
  lemma NoUniqueContourNoTarget(cfg: Config, prims: Primitives, contours: seq<Contour>, yaw: real)
    requires |QualifyingIndices(cfg.thresholds, contours)| != 1
    ensures FrameSpec(cfg, prims, contours, yaw).reading == NoTarget
    ensures Ambiguous(cfg.thresholds, contours) ==> FrameSpec(cfg, prims, contours, yaw).notes[0] == WarningNote(TwoGoodContours)
  {
    GoodContourIffSingleton(cfg.thresholds, contours);
  }

  /**
   * A reported target comes from the one qualifying contour, whose corners
   * the pose solve accepted, and lies within the maximum distance.
   */
  lemma FoundImpliesGate(cfg: Config, prims: Primitives, contours: seq<Contour>, yaw: real)
    requires FrameSpec(cfg, prims, contours, yaw).reading.Target?
    ensures |QualifyingIndices(cfg.thresholds, contours)| == 1
    ensures exists k :: Unique(cfg.thresholds, contours, k) &&
              prims.solvePose(ExtremePoints(cfg.extremeVector, contours[k].points)).Some?
    ensures FrameSpec(cfg, prims, contours, yaw).reading.distance <= cfg.maxTargetDistance
  {
    GoodContourIffSingleton(cfg.thresholds, contours);
    var g := GoodContour(cfg.thresholds, contours);
    GateCases(cfg, prims, Some(contours[g.value]), yaw);
    assert Unique(cfg.thresholds, contours, g.value);
  }

  /** A debug line may be logged on this frame. */
  predicate DebugDue(cnt: int)
  {
    cnt % DEBUG_PERIOD == 0
  }

  /** Of any DEBUG_PERIOD consecutive frame counts, exactly one lets debug lines through. */
  lemma OneDueFramePerPeriod(c: int)
    ensures exists k :: c <= k < c + DEBUG_PERIOD && DebugDue(k)
    ensures forall k1, k2 :: c <= k1 < c + DEBUG_PERIOD && c <= k2 < c + DEBUG_PERIOD && DebugDue(k1) && DebugDue(k2) ==> k1 == k2
  {
    var k := c + (DEBUG_PERIOD - c % DEBUG_PERIOD) % DEBUG_PERIOD;
    assert DebugDue(k);
    forall k1, k2 | c <= k1 < c + DEBUG_PERIOD && c <= k2 < c + DEBUG_PERIOD && DebugDue(k1) && DebugDue(k2)
      ensures k1 == k2
    {
      var q1, q2 := k1 / DEBUG_PERIOD, k2 / DEBUG_PERIOD;
      assert k1 == q1 * DEBUG_PERIOD && k2 == q2 * DEBUG_PERIOD;
      assert -DEBUG_PERIOD < (q1 - q2) * DEBUG_PERIOD < DEBUG_PERIOD;
    }
  }

  /**
   * The lines of one frame that reach the log: every warning, and the debug
   * lines only when the frame counter is due.
   */
  function Throttle(notes: seq<Note>, cnt: int): (kept: seq<Note>)
    ensures |kept| <= |notes|
  {
    if notes == [] then [] else Pass(notes[0], cnt) + Throttle(notes[1..], cnt)
  }

  /** What the throttle lets through of one line. */
  function Pass(n: Note, cnt: int): seq<Note>
  {
    if n.WarningNote? || DebugDue(cnt) then [n] else []
  }

  /** The result of running the frame loop over a sequence of captures. */
  datatype Trace = Trace(frames: nat, sent: seq<Message>, log: seq<Note>)

  /**
   * The loop of process_method over the captures the camera delivers,
   * starting with frame counter cnt: the counter is incremented before each
   * read, a failed read ends the loop, and each captured frame sends one
   * message and logs its throttled lines.
   */
  ghost function Replay(cfg: Config, prims: Primitives, captures: seq<Option<seq<Contour>>>, yaw: real, cnt: int): (t: Trace)
    ensures t.frames <= |captures|
    ensures captures != [] ==> t.frames >= 1
    ensures |t.sent| < t.frames || (|t.sent| == t.frames == |captures|)
    decreases |captures|
  {
    if captures == [] then Trace(0, [], [])
    else if captures[0].None? then Trace(1, [], [])
    else
      var o := FrameSpec(cfg, prims, captures[0].value, yaw);
      var rest := Replay(cfg, prims, captures[1..], yaw, cnt + 1);
      Trace(1 + rest.frames, [Encode(o.reading)] + rest.sent, Throttle(o.notes, cnt + 1) + rest.log)
  }

  /**
   * The vision process. Its only state across frames is the frame counter;
   * `sent` is what it has offered to the target queue and `log` what it has
   * offered to the logger.
   */
  class CVProcess {
    var cnt: int
    var sent: seq<Message>
    var log: seq<Note>

    constructor ()
      ensures cnt == 0 && sent == [] && log == []
    {
      cnt, sent, log := 0, [], [];
    }

    /** debug(): log the message only on due frames. */
    method Debug(msg: DebugMsg)
      modifies this`log
      ensures log == if DebugDue(cnt) then old(log) + [DebugNote(msg)] else old(log)
    {
      if cnt % DEBUG_PERIOD == 0 {
        log := log + [DebugNote(msg)];
      }
    }

    method Warn(msg: WarningMsg)
      modifies this`log
      ensures log == old(log) + [WarningNote(msg)]
    {
      log := log + [WarningNote(msg)];
    }

    /** put_no_target(): offer (False, None, None, None, None). */
    method PutNoTarget()
      modifies this`sent
      ensures sent == old(sent) + [Encode(NoTarget)]
    {
      sent := sent + [Message(false, None, None, None, None)];
    }

    /**
     * One pass of the while loop of process_method. `capture` is what the
     * camera read returned (None when it failed, which raises and ends the
     * loop) and `xyzRpy` the shared pose array whose entry 5 is the yaw, read
     * once, right after the capture.
     */
    method Step(cfg: Config, prims: Primitives, capture: Option<seq<Contour>>, xyzRpy: array<real>) returns (captured: bool)
      requires xyzRpy.Length > 5
      modifies this
      ensures cnt == old(cnt) + 1
      ensures captured <==> capture.Some?
      ensures !captured ==> sent == old(sent) && log == old(log)
      ensures captured ==>
        var o := FrameSpec(cfg, prims, capture.value, xyzRpy[5]);
        sent == old(sent) + [Encode(o.reading)] && log == old(log) + Throttle(o.notes, cnt)
    {
      cnt := cnt + 1;
      if capture.None? {
        return false;
      }
      captured := true;
      var frameYaw := xyzRpy[5];
      var contours := capture.value;
      ghost var log0 := log;
      var good, ambiguous := SelectGoodContour(cfg.thresholds, contours);
      ghost var warned := if ambiguous then [WarningNote(TwoGoodContours)] else [];
      if ambiguous {
        Warn(TwoGoodContours);
      }
      ghost var log1 := log;
      var picked := if good.Some? then Some(contours[good.value]) else None;
      Locate(cfg, prims, picked, frameYaw);
      ghost var notes := Gate(cfg, prims, picked, frameYaw).notes;
      ThrottleSplit(warned, notes, cnt);
      if ambiguous {
        ThrottleOne(WarningNote(TwoGoodContours), cnt);
      }
      assert log == log0 + warned + Throttle(notes, cnt);
    }

    /**
     * The rest of the loop body, from the good contour on: each way out
     * offers one message, after the debug lines and warnings of its branch.
     */
    method Locate(cfg: Config, prims: Primitives, good: Option<Contour>, frameYaw: real)
      modifies this`sent, this`log
      ensures sent == old(sent) + [Encode(Gate(cfg, prims, good, frameYaw).reading)]
      ensures log == old(log) + Throttle(Gate(cfg, prims, good, frameYaw).notes, cnt)
    {
      if good.None? {
        Debug(NoGoodContour);
        PutNoTarget();
        ThrottleOne(DebugNote(NoGoodContour), cnt);
        return;
      }
      var contour := good.value;
      var corners := ExtremePoints(cfg.extremeVector, contour.points);
      var pose := prims.solvePose(corners);
      if pose.None? {
        Debug(TargetNotMatched);
        PutNoTarget();
        ThrottleOne(DebugNote(TargetNotMatched), cnt);
        return;
      }
      var field := FieldPosition(pose.value.rotation, pose.value.translation);
      Report(cfg, prims, pose.value.translation, field, frameYaw);
    }

    /** From a solved pose on: log the field position, gate on distance, send the reading. */
    method Report(cfg: Config, prims: Primitives, translation: Vec3, field: Vec3, frameYaw: real)
      modifies this`sent, this`log
      ensures sent == old(sent) + [Encode(Judge(cfg, prims, translation, field, frameYaw).reading)]
      ensures log == old(log) + Throttle(Judge(cfg, prims, translation, field, frameYaw).notes, cnt)
    {
      Debug(FieldCoord(field));
      ThrottleOne(DebugNote(FieldCoord(field)), cnt);
      var distance := prims.hypot(field.x, field.y);
      if distance > cfg.maxTargetDistance {
        Warn(DistanceTooBig(distance));
        PutNoTarget();
        ThrottleOne(WarningNote(DistanceTooBig(distance)), cnt);
        ThrottleSplit([DebugNote(FieldCoord(field))], [WarningNote(DistanceTooBig(distance))], cnt);
        assert [DebugNote(FieldCoord(field))] + [WarningNote(DistanceTooBig(distance))]
            == Judge(cfg, prims, translation, field, frameYaw).notes;
        return;
      }
      var robot := RobotFromCamera(translation);
      var toLeft := prims.atan2Degrees(robot.y, robot.x);
      var azimuth := frameYaw + toLeft;
      var fieldTheta := prims.atan2Degrees(field.y, field.x) - 180.0 - toLeft;
      Debug(Summary(distance, toLeft, fieldTheta));
      ThrottleOne(DebugNote(Summary(distance, toLeft, fieldTheta)), cnt);
      sent := sent + [Message(true, Some(distance), Some(toLeft), Some(azimuth), Some([field.x, field.y, fieldTheta]))];
      ThrottleSplit([DebugNote(FieldCoord(field))], [DebugNote(Summary(distance, toLeft, fieldTheta))], cnt);
      assert [DebugNote(FieldCoord(field))] + [DebugNote(Summary(distance, toLeft, fieldTheta))]
          == Judge(cfg, prims, translation, field, frameYaw).notes;
    }

    /**
     * process_method's loop over the captures the camera delivers, until a
     * read fails or the captures run out; returns how many reads were made.
     */
    method Run(cfg: Config, prims: Primitives, captures: seq<Option<seq<Contour>>>, xyzRpy: array<real>) returns (frames: nat)
      requires xyzRpy.Length > 5
      modifies this
      ensures var t := Replay(cfg, prims, captures, xyzRpy[5], old(cnt));
        frames == t.frames && cnt == old(cnt) + frames && sent == old(sent) + t.sent && log == old(log) + t.log
    {
      ghost var yaw := xyzRpy[5];
      ghost var total := Replay(cfg, prims, captures, yaw, cnt);
      ghost var todo := total;
      frames := 0;
      while frames < |captures|
        invariant frames <= |captures|
        invariant cnt == old(cnt) + frames
        invariant todo == Replay(cfg, prims, captures[frames..], yaw, cnt)
        invariant total.frames == frames + todo.frames
        invariant old(sent) + total.sent == sent + todo.sent
        invariant old(log) + total.log == log + todo.log
        invariant frames == |captures| ==> todo == Trace(0, [], [])
      {
        ghost var rest := captures[frames..];
        assert rest[0] == captures[frames] && rest[1..] == captures[frames + 1..];
        ReplayStep(cfg, prims, rest, yaw, cnt);
        ghost var sent0, log0 := sent, log;
        var captured := Step(cfg, prims, captures[frames], xyzRpy);
        frames := frames + 1;
        if !captured {
          AppendNothing(sent, log);
          break;
        }
        ghost var next := Replay(cfg, prims, captures[frames..], yaw, cnt);
        ghost var o := FrameSpec(cfg, prims, captures[frames - 1].value, yaw);
        Regroup(sent0, [Encode(o.reading)], next.sent);
        Regroup(log0, Throttle(o.notes, cnt), next.log);
        todo := next;
      }
    }
  }

  /**
   * The loop reads at most one capture per frame, stops right after the first
   * failed read and nowhere else, and sends exactly one message per captured
   * frame.
   */
  lemma {:induction false} ReplayShape(cfg: Config, prims: Primitives, captures: seq<Option<seq<Contour>>>, yaw: real, cnt: int)
    ensures var t := Replay(cfg, prims, captures, yaw, cnt);
      && t.frames <= |captures|
      && (forall i :: 0 <= i < t.frames && captures[i].None? ==> i == t.frames - 1)
      && (t.frames < |captures| ==> 0 < t.frames && captures[t.frames - 1].None?)
      && |t.sent| == if 0 < t.frames && captures[t.frames - 1].None? then t.frames - 1 else t.frames
    decreases |captures|
  {
    if captures != [] && captures[0].Some? {
      ReplayShape(cfg, prims, captures[1..], yaw, cnt + 1);
    }
  }

  /** Proof aid for Run: regroups the trace built so far with one more frame. */
  lemma Regroup<T>(done: seq<T>, step: seq<T>, rest: seq<T>)
    ensures done + (step + rest) == (done + step) + rest
  {
  }

  /** Proof aid for Run: a frame that ends the loop adds nothing to the trace. */
  lemma AppendNothing<S, T>(s: seq<S>, t: seq<T>)
    ensures s + [] == s && t + [] == t
  {
  }

  /** Proof aid for Run: one unfolding of Replay. */
  lemma ReplayStep(cfg: Config, prims: Primitives, captures: seq<Option<seq<Contour>>>, yaw: real, cnt: int)
    requires |captures| > 0
    ensures captures[0].None? ==> Replay(cfg, prims, captures, yaw, cnt) == Trace(1, [], [])
    ensures captures[0].Some? ==>
      var o := FrameSpec(cfg, prims, captures[0].value, yaw);
      var rest := Replay(cfg, prims, captures[1..], yaw, cnt + 1);
      Replay(cfg, prims, captures, yaw, cnt) == Trace(1 + rest.frames, [Encode(o.reading)] + rest.sent, Throttle(o.notes, cnt + 1) + rest.log)
  {
  }

  /**
   * What the throttle lets through: only lines of the frame, in particular
   * every warning, and debug lines only on a due frame, where it lets
   * everything through.
   */
  lemma {:induction false} ThrottleKeeps(notes: seq<Note>, cnt: int)
    ensures forall n :: n in Throttle(notes, cnt) ==> n in notes
    ensures forall n :: n in Throttle(notes, cnt) && n.DebugNote? ==> DebugDue(cnt)
    ensures forall n :: n in notes && n.WarningNote? ==> n in Throttle(notes, cnt)
    ensures DebugDue(cnt) ==> Throttle(notes, cnt) == notes
  {
    if notes != [] {
      ThrottleKeeps(notes[1..], cnt);
      assert notes == [notes[0]] + notes[1..];
    }
  }

  /** Throttling a single line: a warning always passes, a debug line only when due. */
  lemma ThrottleOne(n: Note, cnt: int)
    ensures Throttle([n], cnt) == if n.WarningNote? || DebugDue(cnt) then [n] else []
  {
  }

  /** Throttling a frame's lines is throttling each part of them. */
  lemma {:induction false} ThrottleSplit(a: seq<Note>, b: seq<Note>, cnt: int)
    ensures Throttle(a + b, cnt) == Throttle(a, cnt) + Throttle(b, cnt)
  {
    if a == [] {
      assert a + b == b;
    } else {
      assert (a + b)[0] == a[0];
      assert (a + b)[1..] == a[1..] + b;
      ThrottleSplit(a[1..], b, cnt);
      calc {
        Throttle(a + b, cnt);
        Pass(a[0], cnt) + Throttle(a[1..] + b, cnt);
        Pass(a[0], cnt) + (Throttle(a[1..], cnt) + Throttle(b, cnt));
        (Pass(a[0], cnt) + Throttle(a[1..], cnt)) + Throttle(b, cnt);
      }
    }
  }
}

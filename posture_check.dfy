/** The posture loop of the threaded controller: while the shared presence flag
    is set, each cycle takes a keypoint sample, skips it when the user is out of
    frame, classifies it, and escalates repeated bad posture into an alert and
    then into a punishment. */
module PostureCheck {

  import opened Wrappers
  import opened Commands
  import opened Pose
  import opened Shared

  /** The loop's configuration: frame limits, the back-off rotation, the motor
      speed, the escalation limit and the number of punches. */
  datatype Config = Config(
    leftShoulderXLimit: real,
    rightShoulderXLimit: real,
    leftEyeYLimit: real,
    rightEyeYLimit: real,
    leftShoulderYLimit: real,
    rightShoulderYLimit: real,
    caterpillarBackRotation: real,
    caterpillarSpeed: int,
    badPostureLimit: int,
    punchTime: nat)

  /** The user sits too far back or too close: an eye or shoulder lies beyond
      its vertical limit. */
  predicate OutOfFrameVertical(cfg: Config, k: Keypoints)
  {
    || k.leftEye.y < cfg.leftEyeYLimit
    || k.rightEye.y > cfg.rightEyeYLimit
    || k.leftShoulder.y < cfg.leftShoulderYLimit
    || k.rightShoulder.y > cfg.rightShoulderYLimit
  }

  predicate OutOfFrame(cfg: Config, k: Keypoints)
  {
    OutOfFrameSideways(k, cfg.leftShoulderXLimit, cfg.rightShoulderXLimit) || OutOfFrameVertical(cfg, k)
  }

  /** The cycle classifies `k` as bad posture: it is in frame and fails a ratio test. */
  predicate InFrameBad(cfg: Config, k: Keypoints)
  {
    !OutOfFrame(cfg, k) && IsBadPosture(k)
  }

  /** The least value the counters can be held at: the limit, or 0 when the
      limit is negative (then each counter resets as soon as it is incremented). */
  function Cap(cfg: Config): nat
  {
    if cfg.badPostureLimit < 0 then 0 else cfg.badPostureLimit
  }

  predicate CountersInRange(cfg: Config, bad: int, continual: int)
  {
    0 <= bad <= Cap(cfg) && 0 <= continual <= Cap(cfg)
  }

  /** The back-off: the "back" clip, then the track turned by the configured
      back rotation at the configured speed. */
  function BackOff(cfg: Config): seq<Command>
  {
    [PlayAudio(BackClip), RunForRotations(Caterpillar, cfg.caterpillarBackRotation, cfg.caterpillarSpeed)]
  }

  /** The punishment: the track run for three seconds at the negated speed,
      the strikes, then the track run for three seconds at the configured speed. */
  function Punishment(cfg: Config): seq<Command>
  {
    [RunForSeconds(Caterpillar, 3.0, -cfg.caterpillarSpeed)]
      + Strikes(cfg.punchTime)
      + [RunForSeconds(Caterpillar, 3.0, cfg.caterpillarSpeed)]
  }

  /** A punishment starts and ends with the track and strikes exactly
      `punchTime` times in between. */
  lemma PunishmentShape(cfg: Config)
    ensures |Punishment(cfg)| == 2 * cfg.punchTime + 2
    ensures Punishment(cfg)[0] == RunForSeconds(Caterpillar, 3.0, -cfg.caterpillarSpeed)
    ensures Punishment(cfg)[|Punishment(cfg)| - 1] == RunForSeconds(Caterpillar, 3.0, cfg.caterpillarSpeed)
    ensures multiset(Punishment(cfg))[PunchOut] == cfg.punchTime
    ensures multiset(Punishment(cfg))[PunchBack] == cfg.punchTime
  {
    StrikesCount(cfg.punchTime);
    var approach, back := RunForSeconds(Caterpillar, 3.0, -cfg.caterpillarSpeed), RunForSeconds(Caterpillar, 3.0, cfg.caterpillarSpeed);
    assert multiset(Punishment(cfg)) == multiset{approach} + multiset(Strikes(cfg.punchTime)) + multiset{back};
  }

  /** The loop's state after one cycle and the commands the cycle issued. */
  datatype Cycle = Cycle(bad: int, continual: int, badPosture: bool, cmds: seq<Command>)

  /** What a bad-posture cycle does to the counters and which commands it
      issues: count, or alert and step up, or alert, punish and start over. */
  function Escalation(cfg: Config, bad: int, continual: int): (r: Cycle)
    ensures CountersInRange(cfg, bad, continual) ==> CountersInRange(cfg, r.bad, r.continual)
  {
    if bad + 1 <= cfg.badPostureLimit then Cycle(bad + 1, continual, true, [])
    else if continual + 1 <= cfg.badPostureLimit then Cycle(0, continual + 1, true, [AlertCue])
    else Cycle(0, 0, true, [AlertCue] + Punishment(cfg))
  }

  /** A pass with a user present and a sample `k`, after the posture flag is
      cleared: the two frame checks, then the classification. */
  function PresentCycle(cfg: Config, bad: int, continual: int, k: Keypoints): (r: Cycle)
    ensures CountersInRange(cfg, bad, continual) ==> CountersInRange(cfg, r.bad, r.continual)
  {
    if OutOfFrameSideways(k, cfg.leftShoulderXLimit, cfg.rightShoulderXLimit) then
      Cycle(bad, continual, false, [MoveCue])
    else if OutOfFrameVertical(cfg, k) then
      Cycle(bad, continual, false, BackOff(cfg))
    else if !IsBadPosture(k) then
      Cycle(bad, continual, false, [])
    else
      Escalation(cfg, bad, continual)
  }

  /** One pass of the loop from counters `bad` and `continual` and shared posture
      flag `badPosture`, given the shared presence flag and the sample the
      estimator returns (read only when a user is there; `None` when the
      estimator raised and the loop's `except Exception` handler caught it). */
  function PostureCycle(cfg: Config, bad: int, continual: int, badPosture: bool,
                        humanDetected: bool, sample: Option<Keypoints>): (r: Cycle)
    // the counters stay within the limit
    ensures CountersInRange(cfg, bad, continual) ==> CountersInRange(cfg, r.bad, r.continual)
    // no user: nothing happens and nothing is reset
    ensures !humanDetected ==> r == Cycle(bad, continual, badPosture, [])
    // the shared posture flag is set exactly on a cycle that judges posture bad
    ensures humanDetected ==> (r.badPosture <==> sample.Some? && InFrameBad(cfg, sample.value))
    // no sample: only the posture flag is cleared
    ensures humanDetected && sample.None? ==> r == Cycle(bad, continual, false, [])
    // too far sideways: the move cue, no classification, counters kept
    ensures humanDetected && sample.Some?
            && OutOfFrameSideways(sample.value, cfg.leftShoulderXLimit, cfg.rightShoulderXLimit)
            ==> r == Cycle(bad, continual, false, [MoveCue])
    // too far back or too close: the back cue and one back-off rotation, counters kept
    ensures humanDetected && sample.Some?
            && !OutOfFrameSideways(sample.value, cfg.leftShoulderXLimit, cfg.rightShoulderXLimit)
            && OutOfFrameVertical(cfg, sample.value)
            ==> r == Cycle(bad, continual, false, BackOff(cfg))
    // acceptable posture: nothing is issued and neither counter changes
    ensures humanDetected && sample.Some? && !OutOfFrame(cfg, sample.value) && !IsBadPosture(sample.value)
            ==> r == Cycle(bad, continual, false, [])
    // a bad cycle below the limit only counts
    ensures humanDetected && sample.Some? && InFrameBad(cfg, sample.value) && bad + 1 <= cfg.badPostureLimit
            ==> r == Cycle(bad + 1, continual, true, [])
    // a bad cycle beyond the limit alerts and moves one step up the escalation
    ensures humanDetected && sample.Some? && InFrameBad(cfg, sample.value) && bad + 1 > cfg.badPostureLimit
            && continual + 1 <= cfg.badPostureLimit
            ==> r == Cycle(0, continual + 1, true, [AlertCue])
    // the punishment runs exactly when the escalation passes the limit, and then resets it
    ensures (r.cmds == [AlertCue] + Punishment(cfg)) <==>
            (humanDetected && sample.Some? && InFrameBad(cfg, sample.value)
             && bad + 1 > cfg.badPostureLimit && continual + 1 > cfg.badPostureLimit)
    ensures r.cmds == [AlertCue] + Punishment(cfg) ==> r.bad == 0 && r.continual == 0
  {
    if !humanDetected then Cycle(bad, continual, badPosture, [])
    else if sample.None? then Cycle(bad, continual, false, [])
    else PresentCycle(cfg, bad, continual, sample.value)
  }

  /** Cycles run back to back while the user stays present, one per sample:
      each is `PostureCycle` with the presence flag set and that sample. */
  function PostureRun(cfg: Config, bad: int, continual: int, badPosture: bool,
                      samples: seq<Keypoints>): (r: Cycle)
    ensures CountersInRange(cfg, bad, continual) ==> CountersInRange(cfg, r.bad, r.continual)
    decreases |samples|
  {
    if samples == [] then Cycle(bad, continual, badPosture, [])
    else
      var before := PostureRun(cfg, bad, continual, badPosture, samples[..|samples| - 1]);
      var last := PresentCycle(cfg, before.bad, before.continual, samples[|samples| - 1]);
      Cycle(last.bad, last.continual, last.badPosture, before.cmds + last.cmds)
  }

  /** Bad-posture cycles below the limit only count: `n` of them raise the
      first counter by `n` and issue nothing. */
  lemma {:induction false} BadStreakCounts(cfg: Config, bad: int, continual: int, badPosture: bool,
                                           samples: seq<Keypoints>)
    requires forall i | 0 <= i < |samples| :: InFrameBad(cfg, samples[i])
    requires bad + |samples| <= cfg.badPostureLimit
    ensures PostureRun(cfg, bad, continual, badPosture, samples)
            == Cycle(bad + |samples|, continual, badPosture || |samples| > 0, [])
  {
    if samples != [] {
      BadStreakCounts(cfg, bad, continual, badPosture, samples[..|samples| - 1]);
    }
  }

  /** Starting from a cleared first counter, `limit + 1` bad-posture cycles in a
      row issue exactly one alert and raise the second counter by one, while
      it stays within the limit. */
  lemma BadStreakAlerts(cfg: Config, continual: int, badPosture: bool, samples: seq<Keypoints>)
    requires cfg.badPostureLimit >= 0 && |samples| == cfg.badPostureLimit + 1
    requires forall i | 0 <= i < |samples| :: InFrameBad(cfg, samples[i])
    requires continual + 1 <= cfg.badPostureLimit
    ensures PostureRun(cfg, 0, continual, badPosture, samples) == Cycle(0, continual + 1, true, [AlertCue])
  {
    BadStreakCounts(cfg, 0, continual, badPosture, samples[..|samples| - 1]);
  }

  /** With the second counter at the limit, `limit + 1` further bad-posture
      cycles issue one alert, one full punishment, and clear both counters. */
  lemma BadStreakPunishes(cfg: Config, badPosture: bool, samples: seq<Keypoints>)
    requires cfg.badPostureLimit >= 0 && |samples| == cfg.badPostureLimit + 1
    requires forall i | 0 <= i < |samples| :: InFrameBad(cfg, samples[i])
    ensures PostureRun(cfg, 0, cfg.badPostureLimit, badPosture, samples)
            == Cycle(0, 0, true, [AlertCue] + Punishment(cfg))
  {
    BadStreakCounts(cfg, 0, cfg.badPostureLimit, badPosture, samples[..|samples| - 1]);
  }

  /** Cycles that do not classify an in-frame sample as bad (acceptable posture
      or out of frame) leave both counters where they were: the alerts that
      lead to a punishment need not come in consecutive cycles. */
  lemma {:induction false} OtherCyclesKeepCounters(cfg: Config, bad: int, continual: int, badPosture: bool,
                                                   samples: seq<Keypoints>)
    requires forall i | 0 <= i < |samples| :: !InFrameBad(cfg, samples[i])
    ensures PostureRun(cfg, bad, continual, badPosture, samples).bad == bad
    ensures PostureRun(cfg, bad, continual, badPosture, samples).continual == continual
    decreases |samples|
  {
    if samples != [] {
      OtherCyclesKeepCounters(cfg, bad, continual, badPosture, samples[..|samples| - 1]);
    }
  }

  /** Present-user cycles of any step function run back to back, as
      `PostureRun` does with `PresentCycle`; proving things about it keeps the
      cycle's body out of view. */
  function Fold(step: (Config, int, int, Keypoints) -> Cycle, cfg: Config, bad: int, continual: int,
                badPosture: bool, samples: seq<Keypoints>): Cycle
    decreases |samples|
  {
    if samples == [] then Cycle(bad, continual, badPosture, [])
    else
      var before := Fold(step, cfg, bad, continual, badPosture, samples[..|samples| - 1]);
      var last := step(cfg, before.bad, before.continual, samples[|samples| - 1]);
      Cycle(last.bad, last.continual, last.badPosture, before.cmds + last.cmds)
  }

  lemma {:induction false} FoldAppend(step: (Config, int, int, Keypoints) -> Cycle, cfg: Config,
                                      bad: int, continual: int, badPosture: bool,
                                      a: seq<Keypoints>, b: seq<Keypoints>)
    ensures var m := Fold(step, cfg, bad, continual, badPosture, a);
            var n := Fold(step, cfg, m.bad, m.continual, m.badPosture, b);
            Fold(step, cfg, bad, continual, badPosture, a + b) == Cycle(n.bad, n.continual, n.badPosture, m.cmds + n.cmds)
    decreases |b|
  {
    if b == [] {
      assert a + b == a;
    } else {
      assert (a + b)[..|a + b| - 1] == a + b[..|b| - 1];
      FoldAppend(step, cfg, bad, continual, badPosture, a, b[..|b| - 1]);
    }
  }

  lemma {:induction false} PostureRunIsFold(cfg: Config, bad: int, continual: int, badPosture: bool,
                                            samples: seq<Keypoints>)
    ensures PostureRun(cfg, bad, continual, badPosture, samples) == Fold(PresentCycle, cfg, bad, continual, badPosture, samples)
    decreases |samples|
  {
    if samples != [] {
      PostureRunIsFold(cfg, bad, continual, badPosture, samples[..|samples| - 1]);
    }
  }

  /** Running two stretches of samples one after the other is running their concatenation. */
  lemma PostureRunAppend(cfg: Config, bad: int, continual: int, badPosture: bool,
                         a: seq<Keypoints>, b: seq<Keypoints>)
    ensures var m := PostureRun(cfg, bad, continual, badPosture, a);
            var n := PostureRun(cfg, m.bad, m.continual, m.badPosture, b);
            PostureRun(cfg, bad, continual, badPosture, a + b) == Cycle(n.bad, n.continual, n.badPosture, m.cmds + n.cmds)
  {
    var m := PostureRun(cfg, bad, continual, badPosture, a);
    PostureRunIsFold(cfg, bad, continual, badPosture, a);
    PostureRunIsFold(cfg, m.bad, m.continual, m.badPosture, b);
    PostureRunIsFold(cfg, bad, continual, badPosture, a + b);
    FoldAppend(PresentCycle, cfg, bad, continual, badPosture, a, b);
  }

  /** A block of `limit + 1` bad cycles that raises the second counter to the
      limit, followed by cycles that are not in-frame bad: one alert, then
      whatever the later cycles issue, with the second counter left at the limit. */
  lemma AlertThenOtherCycles(cfg: Config, badPosture: bool, first: seq<Keypoints>, gap: seq<Keypoints>)
    requires cfg.badPostureLimit >= 1 && |first| == cfg.badPostureLimit + 1
    requires forall i | 0 <= i < |first| :: InFrameBad(cfg, first[i])
    requires forall i | 0 <= i < |gap| :: !InFrameBad(cfg, gap[i])
    ensures var g := PostureRun(cfg, 0, cfg.badPostureLimit, true, gap);
            PostureRun(cfg, 0, cfg.badPostureLimit - 1, badPosture, first + gap)
            == Cycle(0, cfg.badPostureLimit, g.badPosture, [AlertCue] + g.cmds)
  {
    BadStreakAlerts(cfg, cfg.badPostureLimit - 1, badPosture, first);
    OtherCyclesKeepCounters(cfg, 0, cfg.badPostureLimit, true, gap);
    PostureRunAppend(cfg, 0, cfg.badPostureLimit - 1, badPosture, first, gap);
  }

  /** The alerts before a punishment need not be consecutive: a block of
      `limit + 1` bad cycles that raises the second counter to the limit, then
      any stretch of cycles that are not in-frame bad, then one more such block,
      ends in a punishment with both counters cleared. */
  lemma InterruptedAlertsStillPunish(cfg: Config, badPosture: bool,
                                     first: seq<Keypoints>, gap: seq<Keypoints>, last: seq<Keypoints>)
    requires cfg.badPostureLimit >= 1
    requires |first| == cfg.badPostureLimit + 1 && |last| == cfg.badPostureLimit + 1
    requires forall i | 0 <= i < |first| :: InFrameBad(cfg, first[i])
    requires forall i | 0 <= i < |gap| :: !InFrameBad(cfg, gap[i])
    requires forall i | 0 <= i < |last| :: InFrameBad(cfg, last[i])
    ensures var g := PostureRun(cfg, 0, cfg.badPostureLimit, true, gap);
            PostureRun(cfg, 0, cfg.badPostureLimit - 1, badPosture, first + gap + last)
            == Cycle(0, 0, true, [AlertCue] + g.cmds + [AlertCue] + Punishment(cfg))
  {
    var limit := cfg.badPostureLimit;
    var g := PostureRun(cfg, 0, limit, true, gap);
    var head := PostureRun(cfg, 0, limit - 1, badPosture, first + gap);
    assert head == Cycle(0, limit, g.badPosture, [AlertCue] + g.cmds) by {
      AlertThenOtherCycles(cfg, badPosture, first, gap);
    }
    var tail := PostureRun(cfg, 0, limit, head.badPosture, last);
    assert tail == Cycle(0, 0, true, [AlertCue] + Punishment(cfg)) by {
      BadStreakPunishes(cfg, head.badPosture, last);
    }
    assert PostureRun(cfg, 0, limit - 1, badPosture, first + gap + last)
           == Cycle(tail.bad, tail.continual, tail.badPosture, head.cmds + tail.cmds) by {
      PostureRunAppend(cfg, 0, limit - 1, badPosture, first + gap, last);
    }
    assert head.cmds + tail.cmds == [AlertCue] + g.cmds + [AlertCue] + Punishment(cfg);
  }

  /** A block of `limit + 1` samples, each in frame with bad posture: exactly
      what it takes to raise the first counter past the limit once. */
  predicate BadBlock(cfg: Config, block: seq<Keypoints>)
  {
    |block| == cfg.badPostureLimit + 1 && forall i | 0 <= i < |block| :: InFrameBad(cfg, block[i])
  }

  /** The samples of consecutive blocks, in order. */
  function Flatten(blocks: seq<seq<Keypoints>>): seq<Keypoints>
  {
    if blocks == [] then [] else Flatten(blocks[..|blocks| - 1]) + blocks[|blocks| - 1]
  }

  /** Each bad block issues one alert and raises the second counter by one,
      as long as the second counter stays within the limit. */
  lemma {:induction false} BlocksAlert(cfg: Config, continual: int, badPosture: bool, blocks: seq<seq<Keypoints>>)
    requires cfg.badPostureLimit >= 0 && continual + |blocks| <= cfg.badPostureLimit
    requires forall j | 0 <= j < |blocks| :: BadBlock(cfg, blocks[j])
    ensures var r := PostureRun(cfg, 0, continual, badPosture, Flatten(blocks));
            r.bad == 0 && r.continual == continual + |blocks| && r.cmds == Repeat(AlertCue, |blocks|)
            && (blocks != [] ==> r.badPosture)
    decreases |blocks|
  {
    if blocks != [] {
      var init, last := blocks[..|blocks| - 1], blocks[|blocks| - 1];
      var m := PostureRun(cfg, 0, continual, badPosture, Flatten(init));
      assert m.bad == 0 && m.continual == continual + |init| && m.cmds == Repeat(AlertCue, |init|) by {
        BlocksAlert(cfg, continual, badPosture, init);
      }
      var n := PostureRun(cfg, m.bad, m.continual, m.badPosture, last);
      assert n == Cycle(0, continual + |blocks|, true, [AlertCue]) by {
        assert BadBlock(cfg, last);
        BadStreakAlerts(cfg, continual + |init|, m.badPosture, last);
      }
      assert Flatten(blocks) == Flatten(init) + last;
      assert PostureRun(cfg, 0, continual, badPosture, Flatten(init) + last)
             == Cycle(n.bad, n.continual, n.badPosture, m.cmds + n.cmds) by {
        PostureRunAppend(cfg, 0, continual, badPosture, Flatten(init), last);
      }
      assert m.cmds + n.cmds == Repeat(AlertCue, |blocks|) by {
        RepeatThen(AlertCue, |init|, []);
        assert [AlertCue] + [] == [AlertCue];
      }
    }
  }

  /** The full escalation from start-up: `limit + 1` bad blocks from cleared
      counters issue `limit + 1` alerts and exactly one punishment, and end
      with both counters cleared. */
  lemma FullEscalation(cfg: Config, badPosture: bool, blocks: seq<seq<Keypoints>>)
    requires cfg.badPostureLimit >= 0 && |blocks| == cfg.badPostureLimit + 1
    requires forall j | 0 <= j < |blocks| :: BadBlock(cfg, blocks[j])
    ensures PostureRun(cfg, 0, 0, badPosture, Flatten(blocks))
            == Cycle(0, 0, true, Repeat(AlertCue, cfg.badPostureLimit + 1) + Punishment(cfg))
  {
    var limit := cfg.badPostureLimit;
    var init, last := blocks[..limit], blocks[limit];
    var m := PostureRun(cfg, 0, 0, badPosture, Flatten(init));
    assert m.bad == 0 && m.continual == limit && m.cmds == Repeat(AlertCue, limit) by {
      BlocksAlert(cfg, 0, badPosture, init);
    }
    var n := PostureRun(cfg, m.bad, m.continual, m.badPosture, last);
    assert n == Cycle(0, 0, true, [AlertCue] + Punishment(cfg)) by {
      assert BadBlock(cfg, last);
      BadStreakPunishes(cfg, m.badPosture, last);
    }
    assert PostureRun(cfg, 0, 0, badPosture, Flatten(blocks))
           == Cycle(n.bad, n.continual, n.badPosture, m.cmds + n.cmds) by {
      assert Flatten(blocks) == Flatten(init) + last;
      PostureRunAppend(cfg, 0, 0, badPosture, Flatten(init), last);
    }
    assert m.cmds + n.cmds == Repeat(AlertCue, limit + 1) + Punishment(cfg) by {
      RepeatThen(AlertCue, limit, Punishment(cfg));
    }
  }

  /** The posture loop's own state: its two counters and the commands it has
      sent to the speaker and the two motors. */
  class PostureLoop {
    const cfg: Config
    const shared: SharedState
    var bad: int
    var continual: int
    var trace: seq<Command>

    ghost predicate Valid()
      reads this
    {
      CountersInRange(cfg, bad, continual)
    }

    constructor (cfg: Config, shared: SharedState)
      ensures Valid()
      ensures this.cfg == cfg && this.shared == shared
      ensures bad == 0 && continual == 0 && trace == []
    {
      this.cfg := cfg;
      this.shared := shared;
      bad, continual, trace := 0, 0, [];
    }

    /** One pass of the `while True` loop body. */
    method Step(sample: Option<Keypoints>)
      requires Valid()
      modifies this, shared`badPosture
      ensures Valid()
      ensures var r := PostureCycle(cfg, old(bad), old(continual), old(shared.badPosture),
                                    shared.humanDetected, sample);
              && bad == r.bad && continual == r.continual
              && shared.badPosture == r.badPosture
              && trace == old(trace) + r.cmds
    {
      if !shared.humanDetected {
        return;
      }
      shared.badPosture := false;
      if sample.None? {
        return;
      }
      Examine(sample.value);
    }

    /** The part of the loop body that runs on a sample while a user is there. */
    method Examine(k: Keypoints)
      requires Valid() && shared.humanDetected && !shared.badPosture
      modifies this, shared`badPosture
      ensures Valid()
      ensures var r := PresentCycle(cfg, old(bad), old(continual), k);
              && bad == r.bad && continual == r.continual
              && shared.badPosture == r.badPosture
              && trace == old(trace) + r.cmds
    {
      if k.leftShoulder.x > cfg.leftShoulderXLimit || k.rightShoulder.x < cfg.rightShoulderXLimit {
        trace := trace + [PlayAudio(MoveClip)];
        return;
      }
      if || k.leftEye.y < cfg.leftEyeYLimit || k.rightEye.y > cfg.rightEyeYLimit
         || k.leftShoulder.y < cfg.leftShoulderYLimit || k.rightShoulder.y > cfg.rightShoulderYLimit {
        trace := trace + [PlayAudio(BackClip)];
        trace := trace + [RunForRotations(Caterpillar, cfg.caterpillarBackRotation, cfg.caterpillarSpeed)];
        return;
      }
      var faceScale := Abs(k.nose.y - k.leftEye.y);
      if || Abs(k.leftShoulder.y - k.rightShoulder.y) > 2.0 * faceScale
         || Abs(k.leftShoulder.y - k.nose.y) < 2.0 * faceScale
         || Abs(k.leftHip.y - k.leftShoulder.y) < 4.0 * faceScale {
        shared.badPosture := true;
        Escalate();
      }
    }

    /** The bad-posture branch of the loop body. */
    method Escalate()
      requires Valid()
      modifies this`bad, this`continual, this`trace
      ensures var r := Escalation(cfg, old(bad), old(continual));
              bad == r.bad && continual == r.continual && trace == old(trace) + r.cmds
    {
      bad := bad + 1;
      if bad > cfg.badPostureLimit {
        trace := trace + [PlayAudio(PostureAlertClip)];
        bad := 0;
        continual := continual + 1;
        if continual > cfg.badPostureLimit {
          Punish();
          continual := 0;
        }
      }
    }

    /** Run the track at the negated speed, strike `punchTime` times, run it
        at the configured speed. */
    method Punish()
      modifies this`trace
      ensures trace == old(trace) + Punishment(cfg)
    {
      ghost var before := trace;
      trace := trace + [RunForSeconds(Caterpillar, 3.0, -cfg.caterpillarSpeed)];
      for i := 0 to cfg.punchTime
        invariant trace == before + [RunForSeconds(Caterpillar, 3.0, -cfg.caterpillarSpeed)] + Strikes(i)
      {
        trace := trace + [RunForRotations(RightArm, 3.0, -100)];
        trace := trace + [RunForRotations(RightArm, 2.5, 100)];
      }
      trace := trace + [RunForSeconds(Caterpillar, 3.0, cfg.caterpillarSpeed)];
    }
  }

}

/** The older single-threaded controller: one loop that checks for a user,
    escalates bad posture into an alert and a punishment, resets on absence,
    and delivers a snack once the delivery interval has passed on a cycle with
    acceptable posture. */
module MainLoop {

  import opened Commands
  import opened Pose
  import opened SnackDelivery

  const LeftShoulderXLimit: real := 0.95
  const LeftShoulderYLimit: real := 0.05
  const RightShoulderXLimit: real := 0.05
  const RightShoulderYLimit: real := 0.95
  const LeftEyeYLimit: real := 0.15
  const RightEyeYLimit: real := 0.4
  const CaterpillarBackRotation: real := 1.0
  const CaterpillarSpeed: int := 100
  const BadPostureLimit: int := 3
  const PunchTime: nat := 3
  /** Forty minutes, in seconds. */
  const DeliveryInterval: int := 40 * 60

  /** The vertical frame check of this loop. Unlike the threaded posture loop,
      it rejects every sample whose left shoulder lies BELOW its limit. */
  predicate OutOfFrameVertical(k: Keypoints)
  {
    || k.leftEye.y < LeftEyeYLimit
    || k.rightEye.y > RightEyeYLimit
    || k.leftShoulder.y > LeftShoulderYLimit
    || k.rightShoulder.y > RightShoulderYLimit
  }

  predicate OutOfFrame(k: Keypoints)
  {
    OutOfFrameSideways(k, LeftShoulderXLimit, RightShoulderXLimit) || OutOfFrameVertical(k)
  }

  predicate InFrameBad(k: Keypoints)
  {
    !OutOfFrame(k) && IsBadPosture(k)
  }

  /** The loop's local variables between cycles. */
  datatype MainState = MainState(bad: int, continual: int, startTime: int)

  predicate InRange(s: MainState)
  {
    0 <= s.bad <= BadPostureLimit && 0 <= s.continual <= BadPostureLimit
  }

  /** What one cycle sees: whether a user is there, the keypoints (read only
      when a user is there), the clock, and how many distance readings the
      approach sees further than the punch distance before it stops. */
  datatype Input = Input(humanPresent: bool, sample: Keypoints, now: int, approachPolls: nat)

  const Greeting: seq<Command> := [LedOn, OrganicElOn]
  const Shutdown: seq<Command> := [LedOff, OrganicElOff, Stop(Caterpillar), Stop(RightArm)]
  const BackOff: seq<Command> :=
    [PlayAudio(BackClip), RunForRotations(Caterpillar, CaterpillarBackRotation, CaterpillarSpeed)]

  /** The punishment: drive on until the user is within reach, stop, strike. */
  function Punishment(approachPolls: nat): seq<Command>
  {
    Repeat(Start(Caterpillar, CaterpillarSpeed), approachPolls) + [Stop(Caterpillar)] + Strikes(PunchTime)
  }

  /** One cycle's new state, its commands, and whether it asks for a delivery. */
  datatype Cycle = Cycle(next: MainState, cmds: seq<Command>, give: bool)

  /** What a bad-posture cycle does after lighting the indicators: count, or
      alert and step up, or alert and punish; the timer is left alone. */
  function Escalation(s: MainState, approachPolls: nat): (r: Cycle)
    ensures InRange(s) ==> InRange(r.next)
  {
    if s.bad + 1 <= BadPostureLimit then
      Cycle(s.(bad := s.bad + 1), [], false)
    else if s.continual + 1 <= BadPostureLimit then
      Cycle(MainState(0, s.continual + 1, s.startTime), [AlertCue], false)
    else
      Cycle(MainState(0, 0, s.startTime), [AlertCue] + Punishment(approachPolls), false)
  }

  /** The part of a cycle after the frame checks pass: classify the sample,
      then escalate or run the delivery timer. */
  function Classification(s: MainState, input: Input): (r: Cycle)
    ensures InRange(s) ==> InRange(r.next)
  {
    if IsBadPosture(input.sample) then Escalation(s, input.approachPolls)
    else if input.now - s.startTime >= DeliveryInterval then Cycle(s.(startTime := input.now), [], true)
    else Cycle(s, [], false)
  }

  /** A cycle with a user present, after the indicators are lit: the two
      frame checks, then the classification. */
  function Attended(s: MainState, input: Input): (r: Cycle)
    ensures InRange(s) ==> InRange(r.next)
  {
    var k := input.sample;
    if OutOfFrameSideways(k, LeftShoulderXLimit, RightShoulderXLimit) then Cycle(s, [MoveCue], false)
    else if OutOfFrameVertical(k) then Cycle(s, BackOff, false)
    else Classification(s, input)
  }

  function MainCycle(s: MainState, input: Input): (r: Cycle)
    // both counters stay within the limit
    ensures InRange(s) ==> InRange(r.next)
    // absence: indicators off, both motors stopped, both counters cleared
    ensures !input.humanPresent ==> r == Cycle(MainState(0, 0, s.startTime), Shutdown, false)
    // presence: the indicators are switched on first
    ensures input.humanPresent ==> |r.cmds| >= 2 && r.cmds[..2] == Greeting
    // a delivery exactly on an in-frame, acceptable-posture cycle once the interval has passed
    ensures r.give <==> input.humanPresent && !OutOfFrame(input.sample) && !IsBadPosture(input.sample)
                        && input.now - s.startTime >= DeliveryInterval
    // the timer restarts exactly on a delivery
    ensures r.next.startTime == if r.give then input.now else s.startTime
    // out of frame: a cue, no counter change
    ensures input.humanPresent && OutOfFrameSideways(input.sample, LeftShoulderXLimit, RightShoulderXLimit)
            ==> r == Cycle(s, Greeting + [MoveCue], false)
    ensures input.humanPresent && !OutOfFrameSideways(input.sample, LeftShoulderXLimit, RightShoulderXLimit)
            && OutOfFrameVertical(input.sample)
            ==> r == Cycle(s, Greeting + BackOff, false)
    // acceptable posture: no counter change and nothing but the indicators
    ensures input.humanPresent && !OutOfFrame(input.sample) && !IsBadPosture(input.sample)
            ==> r.next.bad == s.bad && r.next.continual == s.continual && r.cmds == Greeting
    // bad posture below the limit only counts
    ensures input.humanPresent && InFrameBad(input.sample) && s.bad + 1 <= BadPostureLimit
            ==> r == Cycle(s.(bad := s.bad + 1), Greeting, false)
    // bad posture past the limit: the alert and one step up the escalation
    ensures input.humanPresent && InFrameBad(input.sample) && s.bad + 1 > BadPostureLimit
            && s.continual + 1 <= BadPostureLimit
            ==> r == Cycle(MainState(0, s.continual + 1, s.startTime), Greeting + [AlertCue], false)
    // the punishment runs exactly when the escalation passes the limit, and clears it
    ensures (r.cmds == Greeting + [AlertCue] + Punishment(input.approachPolls)) <==>
            (input.humanPresent && InFrameBad(input.sample)
             && s.bad + 1 > BadPostureLimit && s.continual + 1 > BadPostureLimit)
    ensures r.cmds == Greeting + [AlertCue] + Punishment(input.approachPolls)
            ==> r.next == MainState(0, 0, s.startTime)
  {
    if !input.humanPresent then
      Cycle(MainState(0, 0, s.startTime), Shutdown, false)
    else
      var c := Attended(s, input);
      Cycle(c.next, Greeting + c.cmds, c.give)
  }

  /** With the vertical check as written, a sample reaches classification
      only when its left shoulder is at most 0.05 from the top of the frame:
      any lower shoulder leaves the counters and the timer alone. */
  lemma LowShoulderNeverClassified(s: MainState, input: Input)
    requires input.humanPresent && input.sample.leftShoulder.y > LeftShoulderYLimit
    ensures MainCycle(s, input).next == s && !MainCycle(s, input).give
  {
  }

  /** A sample passes both frame checks only when its left shoulder lies
      above its left eye in the frame (at most 0.05 from the top, where the
      eye is at least 0.15 from it). */
  lemma InFrameShoulderAboveEye(k: Keypoints)
    requires !OutOfFrame(k)
    ensures k.leftShoulder.y <= LeftShoulderYLimit < LeftEyeYLimit <= k.leftEye.y
  {
  }

  /** Cycles run back to back over `inputs`; `gives` counts the deliveries. */
  datatype Run = Run(next: MainState, cmds: seq<Command>, gives: nat)

  function MainRun(s: MainState, inputs: seq<Input>): (r: Run)
    ensures InRange(s) ==> InRange(r.next)
    ensures r.gives <= |inputs|
    decreases |inputs|
  {
    if inputs == [] then Run(s, [], 0)
    else
      var before := MainRun(s, inputs[..|inputs| - 1]);
      var last := MainCycle(before.next, inputs[|inputs| - 1]);
      Run(last.next, before.cmds + last.cmds, before.gives + if last.give then 1 else 0)
  }

  /** Cycles of any step function run back to back, as `MainRun` does with
      `MainCycle`; proving things about it keeps the cycle's body out of view. */
  function Fold(step: (MainState, Input) -> Cycle, s: MainState, inputs: seq<Input>): Run
    decreases |inputs|
  {
    if inputs == [] then Run(s, [], 0)
    else
      var before := Fold(step, s, inputs[..|inputs| - 1]);
      var last := step(before.next, inputs[|inputs| - 1]);
      Run(last.next, before.cmds + last.cmds, before.gives + if last.give then 1 else 0)
  }

  lemma {:induction false} FoldAppend(step: (MainState, Input) -> Cycle, s: MainState, a: seq<Input>, b: seq<Input>)
    ensures var m := Fold(step, s, a);
            var n := Fold(step, m.next, b);
            Fold(step, s, a + b) == Run(n.next, m.cmds + n.cmds, m.gives + n.gives)
    decreases |b|
  {
    if b == [] {
      assert a + b == a;
    } else {
      assert (a + b)[..|a + b| - 1] == a + b[..|b| - 1];
      FoldAppend(step, s, a, b[..|b| - 1]);
    }
  }

  lemma {:induction false} MainRunIsFold(s: MainState, inputs: seq<Input>)
    ensures MainRun(s, inputs) == Fold(MainCycle, s, inputs)
    decreases |inputs|
  {
    if inputs != [] {
      MainRunIsFold(s, inputs[..|inputs| - 1]);
    }
  }

  /** Running two stretches of cycles one after the other is running their
      concatenation: the commands are joined and the deliveries added. */
  lemma MainRunAppend(s: MainState, a: seq<Input>, b: seq<Input>)
    ensures var m := MainRun(s, a);
            var n := MainRun(m.next, b);
            MainRun(s, a + b) == Run(n.next, m.cmds + n.cmds, m.gives + n.gives)
  {
    MainRunIsFold(s, a);
    MainRunIsFold(MainRun(s, a).next, b);
    MainRunIsFold(s, a + b);
    FoldAppend(MainCycle, s, a, b);
  }

  predicate BadCycle(input: Input)
  {
    input.humanPresent && InFrameBad(input.sample)
  }

  /** Bad-posture cycles below the limit only count and light the indicators. */
  lemma {:induction false} BadStreakCounts(s: MainState, inputs: seq<Input>)
    requires forall i | 0 <= i < |inputs| :: BadCycle(inputs[i])
    requires s.bad + |inputs| <= BadPostureLimit
    ensures MainRun(s, inputs) == Run(s.(bad := s.bad + |inputs|), Pairs(LedOn, OrganicElOn, |inputs|), 0)
  {
    if inputs != [] {
      BadStreakCounts(s, inputs[..|inputs| - 1]);
    }
  }

  /** Four bad-posture cycles in a row from a cleared first counter issue one
      alert and raise the second counter by one. */
  lemma BadStreakAlerts(s: MainState, inputs: seq<Input>)
    requires s.bad == 0 && s.continual + 1 <= BadPostureLimit
    requires |inputs| == BadPostureLimit + 1
    requires forall i | 0 <= i < |inputs| :: BadCycle(inputs[i])
    ensures MainRun(s, inputs)
            == Run(MainState(0, s.continual + 1, s.startTime), Pairs(LedOn, OrganicElOn, 4) + [AlertCue], 0)
  {
    BadStreakCounts(s, inputs[..|inputs| - 1]);
  }

  /** With the second counter at the limit, four further bad-posture cycles
      alert, run one punishment of exactly three strikes, and clear both counters. */
  lemma BadStreakPunishes(s: MainState, inputs: seq<Input>)
    requires s.bad == 0 && s.continual == BadPostureLimit
    requires |inputs| == BadPostureLimit + 1
    requires forall i | 0 <= i < |inputs| :: BadCycle(inputs[i])
    ensures MainRun(s, inputs)
            == Run(MainState(0, 0, s.startTime),
                   Pairs(LedOn, OrganicElOn, 4) + [AlertCue] + Punishment(inputs[|inputs| - 1].approachPolls), 0)
  {
    BadStreakCounts(s, inputs[..|inputs| - 1]);
  }

  /** Four bad-posture cycles in a row: what it takes to pass the limit once. */
  predicate BadBlock(b: seq<Input>)
  {
    |b| == BadPostureLimit + 1 && forall i | 0 <= i < |b| :: BadCycle(b[i])
  }

  /** The commands of a bad-posture cycle streak that ends in an alert. */
  const AlertBlock: seq<Command> := Pairs(LedOn, OrganicElOn, 4) + [AlertCue]

  /** After a run that leaves the first counter cleared, four bad-posture
      cycles append one alert block and raise the second counter by one. */
  lemma AlertBlockAfter(s: MainState, a: seq<Input>, b: seq<Input>)
    requires MainRun(s, a).next.bad == 0 && MainRun(s, a).next.continual + 1 <= BadPostureLimit
    requires BadBlock(b)
    ensures var m := MainRun(s, a);
            MainRun(s, a + b) == Run(m.next.(continual := m.next.continual + 1), m.cmds + AlertBlock, m.gives)
  {
    BadStreakAlerts(MainRun(s, a).next, b);
    MainRunAppend(s, a, b);
  }

  /** After a run that leaves the first counter cleared and the second at the
      limit, four bad-posture cycles append one alert block and a punishment,
      and clear both counters. */
  lemma PunishBlockAfter(s: MainState, a: seq<Input>, b: seq<Input>)
    requires MainRun(s, a).next.bad == 0 && MainRun(s, a).next.continual == BadPostureLimit
    requires BadBlock(b)
    ensures var m := MainRun(s, a);
            MainRun(s, a + b)
            == Run(m.next.(continual := 0), m.cmds + AlertBlock + Punishment(b[|b| - 1].approachPolls), m.gives)
  {
    BadStreakPunishes(MainRun(s, a).next, b);
    MainRunAppend(s, a, b);
  }

  /** The full escalation from cleared counters: four blocks of four
      bad-posture cycles issue four alerts and exactly one punishment, and end
      with both counters cleared and the timer untouched. */
  lemma FullEscalation(t: int, b1: seq<Input>, b2: seq<Input>, b3: seq<Input>, b4: seq<Input>)
    requires BadBlock(b1) && BadBlock(b2) && BadBlock(b3) && BadBlock(b4)
    ensures MainRun(MainState(0, 0, t), b1 + b2 + b3 + b4)
            == Run(MainState(0, 0, t),
                   AlertBlock + AlertBlock + AlertBlock + AlertBlock + Punishment(b4[3].approachPolls), 0)
  {
    var s0 := MainState(0, 0, t);
    assert MainRun(s0, b1) == Run(MainState(0, 1, t), AlertBlock, 0) by {
      BadStreakAlerts(s0, b1);
    }
    assert MainRun(s0, b1 + b2) == Run(MainState(0, 2, t), AlertBlock + AlertBlock, 0) by {
      AlertBlockAfter(s0, b1, b2);
    }
    assert MainRun(s0, b1 + b2 + b3) == Run(MainState(0, 3, t), AlertBlock + AlertBlock + AlertBlock, 0) by {
      AlertBlockAfter(s0, b1 + b2, b3);
    }
    PunishBlockAfter(s0, b1 + b2 + b3, b4);
  }

  /** A punishment strikes exactly three times, however long the approach. */
  lemma PunishmentStrikesThrice(approachPolls: nat)
    ensures multiset(Punishment(approachPolls))[PunchOut] == PunchTime
    ensures multiset(Punishment(approachPolls))[PunchBack] == PunchTime
  {
    var approach := Repeat(Start(Caterpillar, CaterpillarSpeed), approachPolls);
    assert Punishment(approachPolls) == approach + [Stop(Caterpillar)] + Strikes(PunchTime);
    StrikesCount(PunchTime);
    RepeatCount(Start(Caterpillar, CaterpillarSpeed), approachPolls, PunchOut);
    RepeatCount(Start(Caterpillar, CaterpillarSpeed), approachPolls, PunchBack);
  }

  /** A run whose clock stays short of the delivery interval past the timer
      delivers nothing and leaves the timer where it was. */
  lemma {:induction false} NoDeliveryBeforeInterval(s: MainState, inputs: seq<Input>)
    requires forall i | 0 <= i < |inputs| :: inputs[i].now - s.startTime < DeliveryInterval
    ensures MainRun(s, inputs).gives == 0
    ensures MainRun(s, inputs).next.startTime == s.startTime
    decreases |inputs|
  {
    if inputs != [] {
      NoDeliveryBeforeInterval(s, inputs[..|inputs| - 1]);
    }
  }

  /** The loop's own state: its counters, its timer, the dispenser it owns,
      and the commands it has sent to the indicators, speaker and motors. */
  class MainController {
    const delivery: Delivery
    var bad: int
    var continual: int
    var startTime: int
    var trace: seq<Command>

    ghost function State(): MainState
      reads this`bad, this`continual, this`startTime
    {
      MainState(bad, continual, startTime)
    }

    ghost predicate Valid()
      reads this, delivery
    {
      InRange(State()) && delivery.Valid()
    }

    /** The set-up before the loop: the dispenser closes its gate, the timer starts. */
    constructor (now: int)
      ensures Valid() && fresh(delivery)
      ensures delivery.trace == [CloseGate] && delivery.gives == 0
      ensures State() == MainState(0, 0, now) && trace == []
    {
      delivery := new Delivery();
      startTime := now;
      bad, continual, trace := 0, 0, [];
    }

    /** The punishment (main.py drives on while the user is out of reach,
        stops, then strikes). */
    method Punish(approachPolls: nat)
      modifies this`trace
      ensures trace == old(trace) + Punishment(approachPolls)
    {
      ghost var before := trace;
      var polls := 0;
      while polls < approachPolls
        invariant polls <= approachPolls
        invariant trace == before + Repeat(Start(Caterpillar, CaterpillarSpeed), polls)
      {
        trace := trace + [Start(Caterpillar, CaterpillarSpeed)];
        polls := polls + 1;
      }
      trace := trace + [Stop(Caterpillar)];
      ghost var approached := trace;
      for i := 0 to PunchTime
        invariant trace == approached + Strikes(i)
      {
        trace := trace + [RunForRotations(RightArm, 3.0, -100)];
        trace := trace + [RunForRotations(RightArm, 2.5, 100)];
      }
    }

    /** One pass of the `while True` loop body. */
    method Step(input: Input)
      requires Valid()
      modifies this, delivery
      ensures Valid()
      ensures var r := MainCycle(old(State()), input);
              && State() == r.next
              && trace == old(trace) + r.cmds
              && delivery.gives == old(delivery.gives) + (if r.give then 1 else 0)
              && delivery.trace == old(delivery.trace) + (if r.give then [OpenGate, CloseGate] else [])
    {
      if input.humanPresent {
        ghost var s0, t0 := State(), trace;
        trace := trace + [LedOn];
        trace := trace + [OrganicElOn];
        Attend(input);
        ghost var c := Attended(s0, input);
        assert trace == t0 + (Greeting + c.cmds);
      } else {
        Reset(input);
      }
    }

    /** The absence branch: indicators off, both motors stopped, counters cleared. */
    method Reset(input: Input)
      requires Valid() && !input.humanPresent
      modifies this`bad, this`continual, this`trace
      ensures Valid()
      ensures var r := MainCycle(old(State()), input);
              && State() == r.next
              && trace == old(trace) + r.cmds
              && !r.give
    {
      trace := trace + [LedOff];
      trace := trace + [OrganicElOff];
      trace := trace + [Stop(Caterpillar)];
      trace := trace + [Stop(RightArm)];
      bad := 0;
      continual := 0;
    }

    /** The presence branch after the indicators are lit: the frame checks,
        then the classification and the escalation or the delivery timer. */
    method Attend(input: Input)
      requires Valid()
      modifies this, delivery
      ensures Valid()
      ensures var r := Attended(old(State()), input);
              && State() == r.next
              && trace == old(trace) + r.cmds
              && delivery.gives == old(delivery.gives) + (if r.give then 1 else 0)
              && delivery.trace == old(delivery.trace) + (if r.give then [OpenGate, CloseGate] else [])
    {
      var k := input.sample;
      if k.leftShoulder.x > LeftShoulderXLimit || k.rightShoulder.x < RightShoulderXLimit {
        trace := trace + [PlayAudio(MoveClip)];
        return;
      }
      if || k.leftEye.y < LeftEyeYLimit || k.rightEye.y > RightEyeYLimit
         || k.leftShoulder.y > LeftShoulderYLimit || k.rightShoulder.y > RightShoulderYLimit {
        trace := trace + [PlayAudio(BackClip)];
        trace := trace + [RunForRotations(Caterpillar, CaterpillarBackRotation, CaterpillarSpeed)];
        return;
      }
      Judge(input);
    }

    /** An in-frame sample: classify it, then escalate or check the delivery timer. */
    method Judge(input: Input)
      requires Valid()
      modifies this, delivery
      ensures Valid()
      ensures var r := Classification(old(State()), input);
              && State() == r.next
              && trace == old(trace) + r.cmds
              && delivery.gives == old(delivery.gives) + (if r.give then 1 else 0)
              && delivery.trace == old(delivery.trace) + (if r.give then [OpenGate, CloseGate] else [])
    {
      var k := input.sample;
      var faceScale := Abs(k.nose.y - k.leftEye.y);
      if || Abs(k.leftShoulder.y - k.rightShoulder.y) > 2.0 * faceScale
         || Abs(k.leftShoulder.y - k.nose.y) < 2.0 * faceScale
         || Abs(k.leftHip.y - k.leftShoulder.y) < 4.0 * faceScale {
        Escalate(input.approachPolls);
        return;
      }
      if input.now - startTime >= DeliveryInterval {
        delivery.Give();
        startTime := input.now;
      }
    }

    /** The bad-posture branch of the loop body. */
    method Escalate(approachPolls: nat)
      requires InRange(State())
      modifies this`bad, this`continual, this`trace
      ensures var r := Escalation(old(State()), approachPolls);
              State() == r.next && trace == old(trace) + r.cmds
    {
      ghost var t0 := trace;
      bad := bad + 1;
      if bad > BadPostureLimit {
        trace := trace + [PlayAudio(PostureAlertClip)];
        bad := 0;
        continual := continual + 1;
        if continual > BadPostureLimit {
          Punish(approachPolls);
          continual := 0;
          assert trace == t0 + ([AlertCue] + Punishment(approachPolls));
        }
      }
    }

  }

}

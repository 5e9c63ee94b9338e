/** Commands the controller issues to its devices. Every loop of the robot is
    modelled by the sequence of commands it sends, in order. */
module Commands {

  /** The two LEGO motors: the caterpillar track (port B) and the right arm (port A). */
  datatype Motor = Caterpillar | RightArm

  /** The speaker's clips: "move", "back" and the posture alert. */
  datatype Clip = MoveClip | BackClip | PostureAlertClip

  datatype Command =
    | PlayAudio(clip: Clip)
    | RunForRotations(motor: Motor, rotations: real, speed: int)
    | RunForSeconds(motor: Motor, seconds: real, speed: int)
    | Start(motor: Motor, speed: int)
    | Stop(motor: Motor)
    | LedOn
    | LedOff
    | OrganicElOn
    | OrganicElOff
    | SetAngle(degrees: int)

  /** The speaker cue for a user out of frame sideways, and the posture alert. */
  const MoveCue: Command := PlayAudio(MoveClip)
  const AlertCue: Command := PlayAudio(PostureAlertClip)

  /** One punch: the arm turns three rotations at speed -100 ... */
  const PunchOut: Command := RunForRotations(RightArm, 3.0, -100)
  /** ... and two and a half rotations at speed 100. */
  const PunchBack: Command := RunForRotations(RightArm, 2.5, 100)

  /** `n` copies of the block `[a, b]`, one after the other. */
  function Pairs(a: Command, b: Command, n: nat): (r: seq<Command>)
    ensures |r| == 2 * n
  {
    if n == 0 then [] else Pairs(a, b, n - 1) + [a, b]
  }

  /** `n` copies of the command `c`. */
  function Repeat(c: Command, n: nat): (r: seq<Command>)
    ensures |r| == n
  {
    if n == 0 then [] else Repeat(c, n - 1) + [c]
  }

  /** `Repeat(c, n)` holds `n` copies of `c` and nothing else. */
  lemma {:induction false} RepeatCount(c: Command, n: nat, d: Command)
    ensures multiset(Repeat(c, n))[d] == if d == c then n else 0
  {
    if n > 0 {
      RepeatCount(c, n - 1, d);
      assert multiset(Repeat(c, n)) == multiset(Repeat(c, n - 1)) + multiset{c};
    }
  }

  /** One more copy of `c` in front of `tail` extends the run of copies. */
  lemma RepeatThen(c: Command, n: nat, tail: seq<Command>)
    ensures Repeat(c, n) + ([c] + tail) == Repeat(c, n + 1) + tail
  {
    assert Repeat(c, n + 1) == Repeat(c, n) + [c];
  }

  /** The strike part of a punishment: `n` punch-and-retract pairs. */
  function Strikes(n: nat): seq<Command>
  {
    Pairs(PunchOut, PunchBack, n)
  }

  /** `Pairs` holds exactly `n` of each of its two commands, so a strike
      sequence of `n` pairs holds exactly `n` punches and `n` retractions. */
  lemma {:induction false} PairsCount(a: Command, b: Command, n: nat)
    requires a != b
    ensures multiset(Pairs(a, b, n))[a] == n
    ensures multiset(Pairs(a, b, n))[b] == n
  {
    if n > 0 {
      PairsCount(a, b, n - 1);
      var p := Pairs(a, b, n - 1);
      assert multiset(Pairs(a, b, n)) == multiset(p) + multiset([a, b]);
      assert multiset([a, b]) == multiset{a, b};
    }
  }

  /** A strike sequence of `n` pairs holds exactly `n` punches and `n` retractions. */
  lemma StrikesCount(n: nat)
    ensures multiset(Strikes(n))[PunchOut] == n
    ensures multiset(Strikes(n))[PunchBack] == n
  {
    PairsCount(PunchOut, PunchBack, n);
  }

}

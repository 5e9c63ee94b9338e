/** The presence monitor: each tick reads the ultrasonic distance, sets the
    shared presence flag at once on a near reading, and clears it only after
    more than a hundred far readings in a row. The LED and the organic EL
    panel follow the flag. */
module MonitorUser {

  import opened Wrappers
  import opened Commands
  import opened Shared

  /** A reading below this distance is a user in front of the robot. */
  const NearDistance: real := 200.0
  /** The far-reading count that must be exceeded before presence is cleared. */
  const LeaveLimit: nat := 100

  /** The monitor's counter and the presence flag it publishes. */
  datatype Presence = Presence(leftCount: nat, humanDetected: bool)

  /** What the monitor keeps true: a present user has not been missed more than the limit. */
  predicate Debounced(p: Presence)
  {
    p.humanDetected ==> p.leftCount <= LeaveLimit
  }

  predicate IsNear(reading: Option<real>)
  {
    reading.Some? && reading.value < NearDistance
  }

  predicate IsFar(reading: Option<real>)
  {
    reading.Some? && reading.value >= NearDistance
  }

  /** The new state after one reading and the indicator commands it issues. */
  datatype Reaction = Reaction(next: Presence, cmds: seq<Command>)

  /** One tick on `reading` (`None` when the sensor read raised and the
      handler caught it). */
  function Observe(p: Presence, reading: Option<real>): (r: Reaction)
    // a near reading: present at once, counter cleared, indicators on, whatever came before
    ensures IsNear(reading) ==> r == Reaction(Presence(0, true), [LedOn, OrganicElOn])
    // a far reading only counts, and clears presence once the count passes the limit
    ensures IsFar(reading) ==> r.next.leftCount == p.leftCount + 1
    ensures IsFar(reading) ==> (r.next.humanDetected <==> p.humanDetected && p.leftCount + 1 <= LeaveLimit)
    ensures IsFar(reading) ==> r.cmds == if p.leftCount + 1 > LeaveLimit then [LedOff, OrganicElOff] else []
    // a failed read changes nothing
    ensures reading.None? ==> r == Reaction(p, [])
    // presence is lost only on a reading that takes the count past the limit
    ensures p.humanDetected && !r.next.humanDetected ==> IsFar(reading) && r.next.leftCount > LeaveLimit
    ensures Debounced(p) ==> Debounced(r.next)
  {
    match reading
    case None => Reaction(p, [])
    case Some(distance) =>
      if distance < NearDistance then
        Reaction(Presence(0, true), [LedOn, OrganicElOn])
      else
        var count := p.leftCount + 1;
        if count > LeaveLimit then Reaction(Presence(count, false), [LedOff, OrganicElOff])
        else Reaction(Presence(count, p.humanDetected), [])
  }

  /** Ticks run back to back over `readings`, with all their commands in order. */
  function Replay(p: Presence, readings: seq<Option<real>>): (r: Reaction)
    ensures Debounced(p) ==> Debounced(r.next)
    decreases |readings|
  {
    if readings == [] then Reaction(p, [])
    else
      var before := Replay(p, readings[..|readings| - 1]);
      var last := Observe(before.next, readings[|readings| - 1]);
      Reaction(last.next, before.cmds + last.cmds)
  }

  /** The number of far readings in `readings`: an independent count the
      monitor's counter is compared with. */
  function FarCount(readings: seq<Option<real>>): (n: nat)
    ensures n <= |readings|
  {
    if readings == [] then 0
    else FarCount(readings[..|readings| - 1]) + (if IsFar(readings[|readings| - 1]) then 1 else 0)
  }

  /** Replaying two stretches of readings one after the other is replaying their concatenation. */
  lemma {:induction false} ReplayAppend(p: Presence, a: seq<Option<real>>, b: seq<Option<real>>)
    ensures Replay(p, a + b).next == Replay(Replay(p, a).next, b).next
    ensures Replay(p, a + b).cmds == Replay(p, a).cmds + Replay(Replay(p, a).next, b).cmds
    decreases |b|
  {
    if b == [] {
      assert a + b == a;
    } else {
      assert (a + b)[..|a + b| - 1] == a + b[..|b| - 1];
      ReplayAppend(p, a, b[..|b| - 1]);
    }
  }

  /** Without a near reading the counter grows by exactly the far readings,
      and presence survives exactly while that count stays within the limit. */
  lemma {:induction false} NoNearReading(p: Presence, readings: seq<Option<real>>)
    requires Debounced(p)
    requires forall i | 0 <= i < |readings| :: !IsNear(readings[i])
    ensures Replay(p, readings).next
            == Presence(p.leftCount + FarCount(readings),
                        p.humanDetected && p.leftCount + FarCount(readings) <= LeaveLimit)
    decreases |readings|
  {
    if readings != [] {
      NoNearReading(p, readings[..|readings| - 1]);
    }
  }

  /** The debounce, both ways: after the last near reading, the user is still
      seen as present exactly when at most a hundred far readings have come
      since, and the counter holds their number. */
  lemma DebounceAfterNear(p: Presence, before: seq<Option<real>>, near: Option<real>, after: seq<Option<real>>)
    requires IsNear(near)
    requires forall i | 0 <= i < |after| :: !IsNear(after[i])
    ensures Replay(p, before + [near] + after).next
            == Presence(FarCount(after), FarCount(after) <= LeaveLimit)
  {
    var q := Replay(p, before + [near]).next;
    assert (before + [near])[..|before + [near]| - 1] == before;
    assert q == Presence(0, true);
    ReplayAppend(p, before + [near], after);
    NoNearReading(q, after);
  }

  /** A hundred and one far readings in a row clear presence from any debounced state. */
  lemma AbsentAfterEnoughFarReadings(p: Presence, readings: seq<Option<real>>)
    requires Debounced(p)
    requires |readings| > LeaveLimit
    requires forall i | 0 <= i < |readings| :: IsFar(readings[i])
    ensures !Replay(p, readings).next.humanDetected
  {
    AllFarCount(readings);
    NoNearReading(p, readings);
  }

  lemma {:induction false} AllFarCount(readings: seq<Option<real>>)
    requires forall i | 0 <= i < |readings| :: IsFar(readings[i])
    ensures FarCount(readings) == |readings|
    decreases |readings|
  {
    if readings != [] {
      AllFarCount(readings[..|readings| - 1]);
    }
  }

  /** The monitor's own state: its counter and the commands it has sent to
      the LED and the organic EL panel. */
  class PresenceMonitor {
    const shared: SharedState
    var leftCount: nat
    var trace: seq<Command>

    ghost function State(): Presence
      reads this, shared
    {
      Presence(leftCount, shared.humanDetected)
    }

    ghost predicate Valid()
      reads this, shared
    {
      Debounced(State())
    }

    constructor (shared: SharedState)
      ensures this.shared == shared && leftCount == 0 && trace == []
      ensures Valid()
    {
      this.shared := shared;
      leftCount, trace := 0, [];
    }

    /** One pass of the `while True` loop body. */
    method Step(reading: Option<real>)
      requires Valid()
      modifies this, shared`humanDetected
      ensures Valid()
      ensures State() == Observe(old(State()), reading).next
      ensures trace == old(trace) + Observe(old(State()), reading).cmds
    {
      if reading.None? {
        return;
      }
      var distance := reading.value;
      if distance < NearDistance {
        shared.humanDetected := true;
        trace := trace + [LedOn];
        trace := trace + [OrganicElOn];
        leftCount := 0;
      } else {
        leftCount := leftCount + 1;
        if leftCount > LeaveLimit {
          shared.humanDetected := false;
          trace := trace + [LedOff];
          trace := trace + [OrganicElOff];
        }
      }
    }

    /** The loop run over a finite stretch of readings, one tick each. */
    method Poll(readings: seq<Option<real>>)
      requires Valid()
      modifies this, shared`humanDetected
      ensures Valid()
      ensures State() == Replay(old(State()), readings).next
      ensures trace == old(trace) + Replay(old(State()), readings).cmds
    {
      ghost var start := State();
      ghost var trace0 := trace;
      for i := 0 to |readings|
        invariant Valid()
        invariant State() == Replay(start, readings[..i]).next
        invariant trace == trace0 + Replay(start, readings[..i]).cmds
      {
        assert readings[..i + 1][..i] == readings[..i];
        Step(readings[i]);
      }
      assert readings[..|readings|] == readings;
    }
  }

}

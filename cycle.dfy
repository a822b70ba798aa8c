/**
 One poll cycle of the AZ1UBALL driver as a function of the switch state it
 starts from and the outcome of the bus read, and a run of consecutive cycles.

 The bus read, the input publisher and the work-queue timer are outside the
 driver: the read is an input (`Read`), the reports handed to the publisher
 are an output (`events`), and re-arming the poll timer is an output flag
 (`rearmed`). The publisher's answers only reach the log, so they are not
 an input of a cycle.
 */
module PollCycle {
  import opened Registers

  datatype Axis = RelX | RelY

  /** The only key the driver reports: the trackball's push switch. */
  datatype KeyCode = Btn0

  /** A call to the input publisher: a relative-motion report or a key report. */
  datatype Event = Rel(axis: Axis, value: int) | Key(code: KeyCode, value: int)

  /**
   What the bus read returned: a status code (negative on failure) and the
   contents of the receive buffer, which the cycle looks at only on success.
   */
  datatype Read = Read(ret: int, buf: Block)

  /** The driver's persistent state: the switch as last read and as last reported. */
  datatype Switch = Switch(pressed: bool, prev: bool)

  /**
   What one cycle does: the reports it hands to the input publisher, in
   order; the new switch state; and whether the next poll was scheduled.
   The publisher's answers only reach the log, so they are not an input.
   */
  datatype Cycle = Cycle(events: seq<Event>, sw: Switch, rearmed: bool)

  /** Motion reports for the non-zero axes, X first. */
  function MotionEvents(dx: int, dy: int): seq<Event>
  {
    (if dx != 0 then [Rel(RelX, dx)] else []) + (if dy != 0 then [Rel(RelY, dy)] else [])
  }

  /** A key report when the switch reading differs from the one last reported. */
  function KeyEvents(prev: bool, now: bool): seq<Event>
  {
    if now != prev then [Key(Btn0, if now then 1 else 0)] else []
  }

  /** One run of the poll handler. */
  function Step(sw: Switch, read: Read): Cycle
  {
    if read.ret < 0 then
      Cycle([], sw, false)
    else
      var now := SwitchPressed(read.buf[4]);
      Cycle(MotionEvents(DeltaX(read.buf), DeltaY(read.buf)) + KeyEvents(sw.prev, now), Switch(now, now), true)
  }

  /** A failed read publishes nothing, leaves the switch state alone and stops polling. */
  lemma StepReadFailure(sw: Switch, read: Read)
    requires read.ret < 0
    ensures var c := Step(sw, read);
      c.events == [] && c.sw == sw && !c.rearmed
  {
  }

  /**
   After a successful read the poll is re-armed, both switch fields hold bit 7
   of the status byte, and the publisher is called once per non-zero axis plus
   once if the switch changed.
   */
  lemma StepReadSuccess(sw: Switch, read: Read)
    requires read.ret >= 0
    ensures var c := Step(sw, read);
      && c.rearmed
      && c.sw.pressed == (read.buf[4] as int >= 128)
      && c.sw.prev == c.sw.pressed
      && |c.events| == (if DeltaX(read.buf) != 0 then 1 else 0)
                       + (if DeltaY(read.buf) != 0 then 1 else 0)
                       + (if c.sw.pressed != sw.prev then 1 else 0)
  {
  }

  /**
   An X report is made iff the X delta is non-zero, and a Y report iff the Y
   delta is; each carries the raw delta; X comes before Y, and both come
   before any key report.
   */
  lemma StepMotionReports(sw: Switch, read: Read)
    requires read.ret >= 0
    ensures var c := Step(sw, read);
      var dx, dy := DeltaX(read.buf), DeltaY(read.buf);
      && (forall v :: Rel(RelX, v) in c.events <==> dx != 0 && v == dx)
      && (forall v :: Rel(RelY, v) in c.events <==> dy != 0 && v == dy)
      && (dx != 0 ==> c.events[0] == Rel(RelX, dx))
      && (dy != 0 ==> c.events[if dx != 0 then 1 else 0] == Rel(RelY, dy))
      && (forall i, j :: 0 <= i < j < |c.events| && c.events[i].Key? ==> c.events[j].Key?)
  {
  }

  /** With no motion on either axis no relative-motion report is made. */
  lemma StepNoMotion(sw: Switch, read: Read)
    requires read.ret >= 0 && read.buf[2] == read.buf[3] && read.buf[1] == read.buf[0]
    ensures forall e :: e in Step(sw, read).events ==> e.Key?
  {
  }

  /**
   A key report is made iff the switch reading differs from the one last
   reported; its value is 1 for a press and 0 for a release.
   */
  lemma StepKeyReport(sw: Switch, read: Read)
    requires read.ret >= 0
    ensures var c := Step(sw, read);
      var now := SwitchPressed(read.buf[4]);
      forall code, v :: Key(code, v) in c.events <==> now != sw.prev && code == Btn0 && v == (if now then 1 else 0)
  {
  }

  /**
   Only bit 7 of the status byte decides the switch: two successful reads
   that agree on that bit leave the same switch state and make the same key
   report, whatever the movement counters and the other status bits hold.
   */
  lemma StepSwitchOnlyBit7(sw: Switch, r1: Read, r2: Read)
    requires r1.ret >= 0 && r2.ret >= 0
    requires r1.buf[4] as bv8 & MSK_SWITCH_STATE == r2.buf[4] as bv8 & MSK_SWITCH_STATE
    ensures Step(sw, r1).sw == Step(sw, r2).sw
    ensures KeyEvents(sw.prev, SwitchPressed(r1.buf[4])) == KeyEvents(sw.prev, SwitchPressed(r2.buf[4]))
  {
  }

  // ---------------------------------------------------------------------------
  // Consecutive cycles

  /** The outcome of consecutive cycles: final state, every report made, cycles run, still scheduled. */
  datatype Trace = Trace(sw: Switch, events: seq<Event>, polls: nat, armed: bool)

  /**
   Runs the handler on successive read outcomes while it keeps re-arming
   itself. A cycle that does not re-arm is the last one: the outcomes after
   it never come.
   */
  function Run(sw: Switch, outcomes: seq<Read>): Trace
    decreases |outcomes|
  {
    if outcomes == [] then Trace(sw, [], 0, true)
    else
      var c := Step(sw, outcomes[0]);
      if !c.rearmed then Trace(c.sw, c.events, 1, false)
      else
        var rest := Run(c.sw, outcomes[1..]);
        Trace(rest.sw, c.events + rest.events, rest.polls + 1, rest.armed)
  }

  predicate AllReadsSucceed(outcomes: seq<Read>)
  {
    forall i :: 0 <= i < |outcomes| ==> outcomes[i].ret >= 0
  }

  /** The switch bit of every read's status byte. */
  function Bits(outcomes: seq<Read>): (b: seq<bool>)
    ensures |b| == |outcomes|
  {
    if outcomes == [] then [] else [SwitchPressed(outcomes[0].buf[4])] + Bits(outcomes[1..])
  }

  /**
   Reference edge detector: the value (1 press, 0 release) of every change in
   a stream of switch readings, starting from the reading `prev`.
   */
  function Edges(prev: bool, bits: seq<bool>): seq<int>
    decreases |bits|
  {
    if bits == [] then []
    else (if bits[0] != prev then [if bits[0] then 1 else 0] else []) + Edges(bits[0], bits[1..])
  }

  /** The values of the key reports among `evs`, in order. */
  function KeyValues(evs: seq<Event>): seq<int>
  {
    if evs == [] then [] else (if evs[0].Key? then [evs[0].value] else []) + KeyValues(evs[1..])
  }

  /** The sum of the relative-motion values reported on `axis`. */
  function SumRel(axis: Axis, evs: seq<Event>): int
  {
    if evs == [] then 0
    else (if evs[0].Rel? && evs[0].axis == axis then evs[0].value else 0) + SumRel(axis, evs[1..])
  }

  /** The sum of the raw X deltas of every read's register block. */
  function SumDeltaX(outcomes: seq<Read>): int
  {
    if outcomes == [] then 0 else DeltaX(outcomes[0].buf) + SumDeltaX(outcomes[1..])
  }

  /** The sum of the raw Y deltas of every read's register block. */
  function SumDeltaY(outcomes: seq<Read>): int
  {
    if outcomes == [] then 0 else DeltaY(outcomes[0].buf) + SumDeltaY(outcomes[1..])
  }

  lemma {:induction false} KeyValuesAppend(a: seq<Event>, b: seq<Event>)
    ensures KeyValues(a + b) == KeyValues(a) + KeyValues(b)
  {
    if a == [] {
      assert a + b == b;
    }
    if a != [] {
      assert (a + b)[1..] == a[1..] + b;
      KeyValuesAppend(a[1..], b);
    }
  }

  lemma {:induction false} SumRelAppend(axis: Axis, a: seq<Event>, b: seq<Event>)
    ensures SumRel(axis, a + b) == SumRel(axis, a) + SumRel(axis, b)
  {
    if a == [] {
      assert a + b == b;
    }
    if a != [] {
      assert (a + b)[1..] == a[1..] + b;
      SumRelAppend(axis, a[1..], b);
    }
  }

  /**
   A read failure ends polling: whatever the outcomes after it would have
   brought, the run is the same as the run that stops at the failure, and
   it is left unscheduled.
   */
  lemma {:induction false} RunHaltsAtReadFailure(sw: Switch, outcomes: seq<Read>, k: nat)
    requires k < |outcomes| && outcomes[k].ret < 0
    decreases k
    ensures Run(sw, outcomes) == Run(sw, outcomes[..k + 1])
    ensures !Run(sw, outcomes).armed && Run(sw, outcomes).polls <= k + 1
  {
    var c := Step(sw, outcomes[0]);
    assert outcomes[..k + 1][0] == outcomes[0];
    if c.rearmed {
      assert k > 0;
      assert outcomes[..k + 1][1..] == outcomes[1..][..k];
      RunHaltsAtReadFailure(c.sw, outcomes[1..], k - 1);
    }
  }

  /** The key values one successful cycle reports: the value of the new reading if it changed. */
  lemma StepKeyValues(sw: Switch, read: Read)
    requires read.ret >= 0
    ensures var now := SwitchPressed(read.buf[4]);
      KeyValues(Step(sw, read).events) == if now != sw.prev then [if now then 1 else 0] else []
  {
    var now := SwitchPressed(read.buf[4]);
    var dx, dy := DeltaX(read.buf), DeltaY(read.buf);
    var xs: seq<Event> := if dx != 0 then [Rel(RelX, dx)] else [];
    var ys: seq<Event> := if dy != 0 then [Rel(RelY, dy)] else [];
    var ks := KeyEvents(sw.prev, now);
    assert Step(sw, read).events == xs + ys + ks;
    KeyValuesAppend(xs + ys, ks);
    KeyValuesAppend(xs, ys);
  }

  /**
   Over cycles whose outcomes all succeed, the key reports are exactly the edges
   of the stream of switch readings (one per change, none while it holds), the
   poll stays scheduled throughout, and the switch state ends in agreement with
   the last reading.
   */
  lemma {:induction false} RunKeyReportsAreEdges(sw: Switch, outcomes: seq<Read>)
    requires AllReadsSucceed(outcomes)
    ensures var t := Run(sw, outcomes);
      && KeyValues(t.events) == Edges(sw.prev, Bits(outcomes))
      && t.polls == |outcomes| && t.armed
      && (outcomes != [] ==> t.sw.pressed == t.sw.prev == Bits(outcomes)[|outcomes| - 1])
    decreases |outcomes|
  {
    if outcomes != [] {
      var c := Step(sw, outcomes[0]);
      assert AllReadsSucceed(outcomes[1..]) by {
        forall i | 0 <= i < |outcomes[1..]| ensures outcomes[1..][i].ret >= 0 {
          assert outcomes[1..][i] == outcomes[i + 1];
        }
      }
      RunKeyReportsAreEdges(c.sw, outcomes[1..]);
      StepKeyValues(sw, outcomes[0]);
      var rest := Run(c.sw, outcomes[1..]);
      KeyValuesAppend(c.events, rest.events);
      assert Bits(outcomes)[1..] == Bits(outcomes[1..]);
    }
  }

  /** One successful cycle reports, on each axis, exactly the raw delta of that axis. */
  lemma StepReportsMotion(sw: Switch, read: Read)
    requires read.ret >= 0
    ensures SumRel(RelX, Step(sw, read).events) == DeltaX(read.buf)
    ensures SumRel(RelY, Step(sw, read).events) == DeltaY(read.buf)
  {
    var dx, dy := DeltaX(read.buf), DeltaY(read.buf);
    var xs: seq<Event> := if dx != 0 then [Rel(RelX, dx)] else [];
    var ys: seq<Event> := if dy != 0 then [Rel(RelY, dy)] else [];
    var ks := KeyEvents(sw.prev, SwitchPressed(read.buf[4]));
    assert Step(sw, read).events == xs + ys + ks;
    SumRelAppend(RelX, xs + ys, ks);
    SumRelAppend(RelX, xs, ys);
    SumRelAppend(RelY, xs + ys, ks);
    SumRelAppend(RelY, xs, ys);
  }

  /**
   Over cycles whose outcomes all succeed, every count of motion reaches the
   publisher: the X reports add up to the sum of the raw X deltas, and the Y
   reports to the sum of the raw Y deltas.
   */
  lemma {:induction false} RunReportsAllMotion(sw: Switch, outcomes: seq<Read>)
    requires AllReadsSucceed(outcomes)
    ensures SumRel(RelX, Run(sw, outcomes).events) == SumDeltaX(outcomes)
    ensures SumRel(RelY, Run(sw, outcomes).events) == SumDeltaY(outcomes)
    decreases |outcomes|
  {
    if outcomes != [] {
      var c := Step(sw, outcomes[0]);
      assert AllReadsSucceed(outcomes[1..]) by {
        forall i | 0 <= i < |outcomes[1..]| ensures outcomes[1..][i].ret >= 0 {
          assert outcomes[1..][i] == outcomes[i + 1];
        }
      }
      RunReportsAllMotion(c.sw, outcomes[1..]);
      StepReportsMotion(sw, outcomes[0]);
      var rest := Run(c.sw, outcomes[1..]);
      SumRelAppend(RelX, c.events, rest.events);
      SumRelAppend(RelY, c.events, rest.events);
    }
  }

  /** Successive key reports alternate, and the first one reports the opposite of the starting reading. */
  lemma {:induction false} EdgesAlternate(prev: bool, bits: seq<bool>)
    ensures var e := Edges(prev, bits);
      && |e| <= |bits|
      && (forall i :: 0 <= i < |e| ==> e[i] == 0 || e[i] == 1)
      && (e != [] ==> e[0] == (if prev then 0 else 1))
      && (forall i :: 0 <= i < |e| - 1 ==> e[i] != e[i + 1])
    decreases |bits|
  {
    if bits != [] {
      EdgesAlternate(bits[0], bits[1..]);
    }
  }

  /**
   Starting released, the readings pressed, pressed, released, released with
   no motion give exactly two reports: a press and then a release.
   */
  lemma PressHoldReleaseHold()
    ensures var up: Block := [0, 0, 0, 0, 0x00];
      var down: Block := [0, 0, 0, 0, 0x80];
      var outcomes := [Read(0, down), Read(0, down), Read(0, up), Read(0, up)];
      Run(Switch(false, false), outcomes).events == [Key(Btn0, 1), Key(Btn0, 0)]
  {
    var up: Block := [0, 0, 0, 0, 0x00];
    var down: Block := [0, 0, 0, 0, 0x80];
    var outcomes := [Read(0, down), Read(0, down), Read(0, up), Read(0, up)];
    assert outcomes[1..][1..][1..][1..] == [];
    assert Run(Switch(false, false), outcomes[1..][1..][1..]).events == [];
    assert Run(Switch(true, true), outcomes[1..][1..]).events == [Key(Btn0, 0)];
    assert Run(Switch(true, true), outcomes[1..]).events == [Key(Btn0, 0)];
  }
}

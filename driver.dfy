/**
 The per-device driver data of the AZ1UBALL trackball and its two entry
 points: bring-up (`Init`) and the delayed-work handler that polls the
 sensor (`Poll`).

 The delayable work item is reduced to one flag, `pending`: whether a poll
 is scheduled. The kernel runs the handler only when it is, and running it
 consumes the schedule until the handler re-arms it.
 */
module Driver {
  import opened Registers
  import opened PollCycle

  /** Zephyr's errno value for "no such device". */
  const ENODEV: int := 19

  /** The configuration command that puts the sensor in turbo (high-rate) mode. */
  const TURBO_MODE: byte := 0x91

  /** The outcome of bring-up: the value returned, the bytes written to the sensor, whether polling started. */
  datatype Bringup = Bringup(ret: int, written: seq<byte>, scheduled: bool)

  /**
   Bring-up as a decision on the bus readiness and the answer of the
   configuration write: polling starts exactly when the bus is ready and the
   turbo-mode write succeeds; otherwise a negative error is returned, the
   bus error itself when the write fails.
   */
  function InitOutcome(busReady: bool, writeRet: int): (r: Bringup)
    ensures r.scheduled <==> r.ret == 0
    ensures r.scheduled <==> busReady && writeRet >= 0
    ensures !r.scheduled ==> r.ret < 0
    ensures !busReady ==> r.ret == -ENODEV && r.written == []
    ensures busReady ==> r.written == [TURBO_MODE]
    ensures busReady && writeRet < 0 ==> r.ret == writeRet
  {
    if !busReady then Bringup(-ENODEV, [], false)
    else if writeRet < 0 then Bringup(writeRet, [TURBO_MODE], false)
    else Bringup(0, [TURBO_MODE], true)
  }

  class Az1uball {
    /** The switch as last read from the status byte. */
    var swPressed: bool
    /** The switch as last reported to the input subsystem. */
    var swPressedPrev: bool
    /** Whether the poll work item is scheduled. */
    var pending: bool
    /** Whether the sensor accepted the turbo-mode command. */
    ghost var configured: bool

    /** Polling only ever runs on a sensor that was configured. */
    ghost predicate Valid()
      reads this
    {
      pending ==> configured
    }

    function State(): Switch
      reads this
    {
      Switch(swPressed, swPressedPrev)
    }

    /** The zero-initialised static driver data, before bring-up. */
    constructor ()
      ensures Valid()
      ensures !swPressed && !swPressedPrev && !pending && !configured
    {
      swPressed, swPressedPrev, pending := false, false, false;
      configured := false;
    }

    /**
     Bring-up. `busReady` is the answer of the bus readiness check and
     `writeRet` that of the one-byte configuration write (consulted only
     when the write is made). The kernel runs it once, before any poll is
     scheduled. The reported switch state is cleared before anything else
     is checked.
     */
    method Init(busReady: bool, writeRet: int) returns (ret: int, written: seq<byte>)
      requires Valid() && !pending
      modifies this
      ensures Valid()
      ensures Bringup(ret, written, pending) == InitOutcome(busReady, writeRet)
      ensures !swPressedPrev && swPressed == old(swPressed)
      ensures configured == (old(configured) || (busReady && writeRet >= 0))
    {
      swPressedPrev := false;
      written := [];

      if !busReady {
        return -ENODEV, written;
      }

      var cmd := TURBO_MODE;
      written := written + [cmd];
      if writeRet < 0 {
        return writeRet, written;
      }
      configured := true;

      pending := true;
      return 0, written;
    }

    /**
     One run of the poll handler: `read` is what the bus read returned and
     `publish` is the input subsystem, whose answer to each report only
     reaches the log. Returns the reports handed to it, in order.
     */
    method Poll(read: Read, publish: Event -> int) returns (events: seq<Event>)
      requires Valid() && pending
      modifies this`swPressed, this`swPressedPrev, this`pending
      ensures Valid()
      ensures var c := Step(old(State()), read);
        events == c.events && State() == c.sw && pending == c.rearmed
    {
      pending := false;
      events := [];

      if read.ret < 0 {
        return;
      }

      var buf := read.buf;
      var deltaX := DeltaX(buf);
      var deltaY := DeltaY(buf);

      if deltaX != 0 || deltaY != 0 {
        if deltaX != 0 {
          var e := Rel(RelX, deltaX);
          var ret := publish(e);
          events := events + [e];
        }

        if deltaY != 0 {
          var e := Rel(RelY, deltaY);
          var ret := publish(e);
          events := events + [e];
        }
      }

      swPressed := SwitchPressed(buf[4]);

      if swPressed != swPressedPrev {
        var e := Key(Btn0, if swPressed then 1 else 0);
        var ret := publish(e);
        events := events + [e];
        swPressedPrev := swPressed;
      }

      pending := true;
    }
  }

  /**
   A device brought up successfully and then polled with the readings
   pressed, pressed, released, released reports exactly one press and one
   release; a read failure afterwards leaves it unscheduled.
   */
  method BringUpAndPoll(p: Event -> int, readErr: int)
    requires readErr < 0
  {
    var up: Block := [0, 0, 0, 0, 0x00];
    var down: Block := [0, 0, 0, 0, 0x80];
    var dev := new Az1uball();
    var ret, written := dev.Init(true, 0);
    assert ret == 0 && written == [TURBO_MODE] && dev.pending;

    var e1 := dev.Poll(Read(0, down), p);
    var e2 := dev.Poll(Read(0, down), p);
    var e3 := dev.Poll(Read(0, up), p);
    var e4 := dev.Poll(Read(0, up), p);
    assert e1 + e2 + e3 + e4 == [Key(Btn0, 1), Key(Btn0, 0)];

    var e5 := dev.Poll(Read(readErr, down), p);
    assert e5 == [] && !dev.pending && !dev.swPressed;
  }
}

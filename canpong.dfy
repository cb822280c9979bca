/** The host receiver ("pong"): it reads heartbeat frames from a raw CAN
    socket, validates them, and drives a sysfs LED from the counter's parity.
    The socket read and the LED write are inputs: each read is given as the
    byte count read(2) returned together with the frame it filled in, and
    each LED write as the count write(2) returned. */
module CanPong {
  import opened CanTypes

  /** Identifier the receiver listens for when none is given on the command line */
  const DEFAULT_ID: CanId := 0x7FF

  const EXIT_SUCCESS: int := 0
  const EXIT_FAILURE: int := 1

  /** Conversion of write(2)'s signed result to `size_t` (a 64-bit unsigned word) */
  function SizeT(n: SSize): (w: nat)
    ensures w < 0x1_0000_0000_0000_0000
    ensures 0 <= n ==> w == n
    ensures n < 0 ==> w == n + 0x1_0000_0000_0000_0000
  {
    n % 0x1_0000_0000_0000_0000
  }

  /** Only a write that reports exactly one byte passes the `written != 1` test;
      in particular an error result of -1 is caught there, as SIZE_MAX */
  lemma WrittenIsOne(n: SSize)
    ensures SizeT(n) == 1 <==> n == 1
    ensures SizeT(-1) == 0xFFFF_FFFF_FFFF_FFFF
  {
  }

  /** The character written to the LED's brightness file: ASCII '0' + brightness */
  function LedChar(brightness: u8): (c: char)
    requires brightness <= 1
    ensures c == '0' <==> brightness == 0
    ensures c == '1' <==> brightness == 1
  {
    (0x30 + brightness as int) as char
  }

  /** Return value of `set_led_brightness` given what write(2) reported */
  function SetBrightnessStatus(brightness: u8, written: SSize): (rc: int)
    ensures rc == 0 || rc == -1
    ensures rc == 0 <==> brightness <= 1 && written == 1
  {
    if brightness > 1 then -1
    else if SizeT(written) != 1 then -1
    else 0
  }

  /** The sysfs brightness file of the LED. `writes` lists, oldest first, the
      characters handed to write(2) on it; what the kernel made of a write
      that reported a failure is not modelled. */
  class LedFile {
    var writes: seq<char>

    constructor ()
      ensures writes == []
    {
      writes := [];
    }

    /** `set_led_brightness`: refuses values above 1 without writing; otherwise
        writes one character and fails unless exactly one byte was written */
    method SetBrightness(brightness: u8, nwritten: SSize) returns (rc: int)
      modifies this
      ensures rc == SetBrightnessStatus(brightness, nwritten)
      ensures brightness > 1 ==> writes == old(writes)
      ensures brightness <= 1 ==> writes == old(writes) + [LedChar(brightness)]
    {
      if brightness > 1 {
        return -1;
      }
      var val := LedChar(brightness);
      writes := writes + [val];
      var written := SizeT(nwritten);
      // `written < 0` can never hold for the unsigned `written`: that branch of
      // the C code is dead, and a -1 from write(2) reaches the test below
      if written != 1 {
        return -1;
      }
      return 0;
    }
  }

  /** How `read_frame` sorts one read result, in the order it checks */
  datatype ReadOutcome =
    | ReadFailed          // read(2) returned a negative count
    | Incomplete          // a count other than sizeof(struct can_frame)
    | BadDlc              // a complete frame whose DLC is not 1
    | Foreign             // DLC 1 but another identifier: ignored
    | Accepted(counter: u8)

  function Classify(nbytes: int, frame: CanFrame, id: CanId): (r: ReadOutcome)
    ensures r == ReadFailed <==> nbytes < 0
    ensures r == Incomplete <==> 0 <= nbytes && nbytes != CAN_FRAME_SIZE
    ensures r == BadDlc <==> nbytes == CAN_FRAME_SIZE && frame.dlc != 1
    ensures r == Foreign <==> nbytes == CAN_FRAME_SIZE && frame.dlc == 1 && frame.canId != id
    ensures r.Accepted? <==> nbytes == CAN_FRAME_SIZE && frame.dlc == 1 && frame.canId == id
    ensures r.Accepted? ==> r.counter == frame.data[0]
  {
    if nbytes < 0 then ReadFailed
    else if nbytes != CAN_FRAME_SIZE then Incomplete
    else if frame.dlc != 1 then BadDlc
    else if frame.canId != id then Foreign
    else Accepted(frame.data[0])
  }

  /** One iteration of the receive loop: what read(2) returned and filled in,
      and what write(2) on the LED returns should the frame be accepted */
  datatype ReadEvent = ReadEvent(nbytes: int, frame: CanFrame, ledWritten: SSize)

  /** What one call of `read_frame` returns and which characters it writes to the LED */
  datatype Reaction = Reaction(status: int, led: seq<char>)

  function ReadFrameSpec(ev: ReadEvent, id: CanId): (r: Reaction)
    ensures r.status == 0 || r.status == -1
    ensures |r.led| <= 1
    // the LED is written for an accepted frame and for nothing else
    ensures Classify(ev.nbytes, ev.frame, id).Accepted? <==> r.led != []
    ensures r.led != [] ==> r.led[0] == (if Odd(ev.frame.data[0]) then '1' else '0')
    // a failed read, a short read and a bad DLC end the loop; a foreign frame does not
    ensures !Classify(ev.nbytes, ev.frame, id).Accepted? ==>
              (r.status == 0 <==> Classify(ev.nbytes, ev.frame, id) == Foreign)
    ensures Classify(ev.nbytes, ev.frame, id).Accepted? ==> (r.status == 0 <==> ev.ledWritten == 1)
  {
    match Classify(ev.nbytes, ev.frame, id)
    case ReadFailed => Reaction(-1, [])
    case Incomplete => Reaction(-1, [])
    case BadDlc => Reaction(-1, [])
    case Foreign => Reaction(0, [])
    case Accepted(counter) =>
      Reaction(SetBrightnessStatus(counter % 2, ev.ledWritten), [LedChar(counter % 2)])
  }

  /** The receive loop over a finite run of reads: it stops after the first
      read whose status is nonzero. `served` counts the reads consumed. */
  datatype Session = Session(served: nat, status: int, led: seq<char>)

  function Replay(events: seq<ReadEvent>, id: CanId): (s: Session)
    ensures s.served <= |events|
    ensures s.status == 0 ==> s.served == |events|
    ensures s.status != 0 ==> 0 < s.served && ReadFrameSpec(events[s.served - 1], id).status == s.status
    ensures forall i :: 0 <= i < s.served - 1 ==> ReadFrameSpec(events[i], id).status == 0
    ensures s.status == 0 ==> forall i :: 0 <= i < |events| ==> ReadFrameSpec(events[i], id).status == 0
    decreases |events|
  {
    if events == [] then Session(0, 0, [])
    else
      var r := ReadFrameSpec(events[0], id);
      if r.status != 0 then Session(1, r.status, r.led)
      else
        var rest := Replay(events[1..], id);
        Session(rest.served + 1, rest.status, r.led + rest.led)
  }

  /** One more read after a session that is still running extends it by that read */
  lemma {:induction false} ReplaySnoc(events: seq<ReadEvent>, ev: ReadEvent, id: CanId)
    requires Replay(events, id).status == 0
    ensures Replay(events + [ev], id)
         == Session(|events| + 1, ReadFrameSpec(ev, id).status,
                    Replay(events, id).led + ReadFrameSpec(ev, id).led)
    decreases |events|
  {
    if events != [] {
      assert (events + [ev])[1..] == events[1..] + [ev];
      ReplaySnoc(events[1..], ev, id);
    }
  }

  /** A read that is complete and has DLC 1; when the frame matches the
      configured identifier its LED write succeeds (a foreign frame writes nothing) */
  predicate Healthy(ev: ReadEvent, id: CanId) {
    ev.nbytes == CAN_FRAME_SIZE && ev.frame.dlc == 1 && (ev.frame.canId == id ==> ev.ledWritten == 1)
  }

  /** The counters carried by the frames that match the configured identifier */
  function MatchingCounters(events: seq<ReadEvent>, id: CanId): (cs: seq<u8>)
    ensures |cs| <= |events|
    decreases |events|
  {
    if events == [] then []
    else if events[0].frame.canId == id then [events[0].frame.data[0]] + MatchingCounters(events[1..], id)
    else MatchingCounters(events[1..], id)
  }

  /** The LED characters the counters map to: '1' for odd, '0' for even */
  function ParityChars(cs: seq<u8>): (led: seq<char>)
    ensures |led| == |cs|
    ensures forall i :: 0 <= i < |cs| ==> led[i] == (if Odd(cs[i]) then '1' else '0')
    decreases |cs|
  {
    if cs == [] then [] else [LedChar(cs[0] % 2)] + ParityChars(cs[1..])
  }

  /** With well-formed traffic the loop never stops, foreign frames leave the
      LED alone, and each matching frame writes its counter's parity: exactly
      one LED update per matching frame */
  lemma {:induction false} ReplayHealthy(events: seq<ReadEvent>, id: CanId)
    requires forall i :: 0 <= i < |events| ==> Healthy(events[i], id)
    ensures Replay(events, id).status == 0
    ensures Replay(events, id).served == |events|
    ensures Replay(events, id).led == ParityChars(MatchingCounters(events, id))
    decreases |events|
  {
    if events != [] {
      ReplayHealthy(events[1..], id);
      var cs := MatchingCounters(events, id);
      if events[0].frame.canId == id {
        assert cs[1..] == MatchingCounters(events[1..], id);
      }
    }
  }

  /** After well-formed traffic the last LED write is the parity of the last
      matching frame's counter */
  lemma LastMatchingDrivesLed(events: seq<ReadEvent>, id: CanId)
    requires forall i :: 0 <= i < |events| ==> Healthy(events[i], id)
    requires MatchingCounters(events, id) != []
    ensures var led := Replay(events, id).led;
            var cs := MatchingCounters(events, id);
            led != [] && (led[|led| - 1] == '1' <==> Odd(cs[|cs| - 1]))
  {
    ReplayHealthy(events, id);
  }

  /** `main` of the receiver from the moment its socket and LED are open */
  class Receiver {
    const id: CanId
    const led: LedFile

    constructor (id: CanId)
      ensures this.id == id && fresh(led) && led.writes == []
    {
      this.id := id;
      led := new LedFile();
    }

    /** `read_frame`: validate one read and, for an accepted frame, write its parity to the LED */
    method ReadFrame(ev: ReadEvent) returns (rc: int)
      modifies led
      ensures rc == ReadFrameSpec(ev, id).status
      ensures led.writes == old(led.writes) + ReadFrameSpec(ev, id).led
    {
      if ev.nbytes < 0 {
        return -1;
      }
      if ev.nbytes != CAN_FRAME_SIZE {
        return -1;
      }
      if ev.frame.dlc != 1 {
        return -1;
      }
      if ev.frame.canId != id {
        return 0;
      }
      var counter := ev.frame.data[0];
      var status := led.SetBrightness(counter % 2, ev.ledWritten);
      if status != 0 {
        return -1;
      }
      return 0;
    }

    /** `cleanup`, run by exit(3): switch the LED off; a failure is only reported */
    method Cleanup(nwritten: SSize)
      modifies led
      ensures led.writes == old(led.writes) + ['0']
    {
      var status := led.SetBrightness(0, nwritten);
    }

    /** The LED initialisation, the read loop and the exit path. The loop stops
        at the first read with a nonzero status and exits with failure; when
        `events` is exhausted, a termination signal arrives and the process
        exits with success. Either way the exit handler switches the LED off
        once. If the initial LED write fails the process exits before the
        handler is registered. */
    method Run(initWritten: SSize, events: seq<ReadEvent>, cleanupWritten: SSize)
      returns (exitCode: int, served: nat)
      modifies led
      ensures SetBrightnessStatus(0, initWritten) != 0 ==>
                exitCode == EXIT_FAILURE && served == 0 && led.writes == old(led.writes) + ['0']
      ensures SetBrightnessStatus(0, initWritten) == 0 ==>
                var s := Replay(events, id);
                && served == s.served
                && exitCode == (if s.status == 0 then EXIT_SUCCESS else EXIT_FAILURE)
                && led.writes == old(led.writes) + ['0'] + s.led + ['0']
    {
      var status := led.SetBrightness(0, initWritten);
      if status != 0 {
        return EXIT_FAILURE, 0;
      }
      served := 0;
      while served < |events| && status == 0
        invariant served <= |events|
        invariant Replay(events[..served], id).status == status
        invariant Replay(events[..served], id).served == served
        invariant led.writes == old(led.writes) + ['0'] + Replay(events[..served], id).led
      {
        ReplaySnoc(events[..served], events[served], id);
        assert events[..served + 1] == events[..served] + [events[served]];
        status := ReadFrame(events[served]);
        served := served + 1;
      }
      ReplayPrefix(events, served, id);
      Cleanup(cleanupWritten);
      exitCode := if status == 0 then EXIT_SUCCESS else EXIT_FAILURE;
    }
  }

  /** A session over a prefix that already stopped is the session over the whole run */
  lemma {:induction false} ReplayPrefix(events: seq<ReadEvent>, k: nat, id: CanId)
    requires k <= |events|
    requires Replay(events[..k], id).served == k
    requires Replay(events[..k], id).status != 0 || k == |events|
    ensures Replay(events, id) == Replay(events[..k], id)
    decreases k
  {
    if k == |events| {
      assert events[..k] == events;
    } else if k > 0 {
      var r := ReadFrameSpec(events[0], id);
      assert events[..k][0] == events[0];
      if r.status == 0 {
        assert events[..k][1..] == events[1..][..k - 1];
        ReplayPrefix(events[1..], k - 1, id);
      }
    }
  }
}

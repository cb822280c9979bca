/** The host transmitter ("ping"): a real-time interval timer raises SIGALRM,
    and each delivery writes the current value of a wrapping 8-bit counter
    into one shared frame buffer and sends it on a raw CAN socket. The socket
    write is an input: each tick is given the count write(2) returned. */
module CanPing {
  import opened CanTypes

  /** Identifier the transmitter uses when none is given on the command line */
  const DEFAULT_ID: CanId := 0x7FF

  /** `struct timeval` */
  datatype Timeval = Timeval(sec: int, usec: int)

  /** `struct itimerval`: the first expiry and the reload period */
  datatype ITimerVal = ITimerVal(interval: Timeval, value: Timeval)

  /** The timer the transmitter arms: first expiry after 1 s, then every 500 ms */
  const TIMER: ITimerVal := ITimerVal(Timeval(0, 500000), Timeval(1, 0))

  function Micros(t: Timeval): int {
    t.sec * 1000000 + t.usec
  }

  /** Time, in microseconds after the timer is armed, of the n-th tick (n from 0) */
  function TickTime(n: nat): (t: int)
    ensures n == 0 ==> t == 1000000
    ensures t == 1000000 + 500000 * n
  {
    Micros(TIMER.value) + n * Micros(TIMER.interval)
  }

  /** The first tick comes after a full second, later ones half a second apart:
      ticks at 1.0 s, 1.5 s, 2.0 s, 2.5 s, 3.0 s, ... */
  lemma Schedule(n: nat)
    ensures TickTime(n + 1) - TickTime(n) == 500000
    ensures TickTime(0) == 2 * (TickTime(1) - TickTime(0))
    ensures [TickTime(0), TickTime(1), TickTime(2), TickTime(3), TickTime(4)]
         == [1000000, 1500000, 2000000, 2500000, 3000000]
  {
  }

  /** The frame a tick emits with counter value c, identifier id and the
      untouched payload bytes 1..7 */
  function PingFrame(id: CanId, c: u8, tail: seq<u8>): (f: CanFrame)
    requires |tail| == CAN_MAX_DLEN - 1
    ensures f.canId == id && f.dlc == 1 && f.data[0] == c && f.data[1..] == tail
  {
    CanFrame(id, 1, [c] + tail)
  }

  /** The frames n ticks emit from counter value `start`: a fixed header and
      consecutive counter values in the first payload byte */
  function PingFrames(id: CanId, start: u8, n: nat, tail: seq<u8>): (fs: seq<CanFrame>)
    requires |tail| == CAN_MAX_DLEN - 1
    ensures |fs| == n
    decreases n
  {
    if n == 0 then [] else [PingFrame(id, start, tail)] + PingFrames(id, Inc8(start), n - 1, tail)
  }

  /** The k-th frame of a run carries the k-th counter value of that run */
  lemma {:induction false} PingFramesAt(id: CanId, start: u8, n: nat, tail: seq<u8>, k: nat)
    requires |tail| == CAN_MAX_DLEN - 1 && k < n
    ensures PingFrames(id, start, n, tail)[k] == PingFrame(id, Counters(start, n)[k], tail)
    decreases k
  {
    if k > 0 {
      PingFramesAt(id, Inc8(start), n - 1, tail, k - 1);
    }
  }

  /** One more tick appends one frame carrying the counter advanced n times */
  lemma {:induction false} PingFramesSnoc(id: CanId, start: u8, n: nat, tail: seq<u8>)
    requires |tail| == CAN_MAX_DLEN - 1
    ensures PingFrames(id, start, n + 1, tail)
         == PingFrames(id, start, n, tail) + [PingFrame(id, IncN(start, n), tail)]
    decreases n
  {
    if n > 0 {
      PingFramesSnoc(id, Inc8(start), n - 1, tail);
    }
  }

  /** The transmitter process from the moment its socket is bound. */
  class Pinger {
    /** `frame.can_id` and `frame.can_dlc` of the shared frame buffer */
    var canId: CanId
    var dlc: u8
    /** `frame.data`, the payload bytes of the shared frame buffer */
    const data: array<u8>
    /** the `static unsigned char counter` of `ping` */
    var counter: u8
    /** frames handed to write(2) on the socket, oldest first */
    var sent: seq<CanFrame>

    /** The payload buffer holds eight bytes and the DLC stays at 1 */
    ghost predicate Valid()
      reads this
    {
      data.Length == CAN_MAX_DLEN && dlc == 1
    }

    /** The frame buffer's header as initialised once, before the timer is
        armed; `stale` is the uninitialised content of the payload */
    constructor (id: CanId, stale: Payload)
      ensures Valid() && fresh(data)
      ensures canId == id && dlc == 1 && data[..] == stale
      ensures counter == 0 && sent == []
    {
      canId := id;
      dlc := 1;
      data := new u8[CAN_MAX_DLEN](i requires 0 <= i < CAN_MAX_DLEN => stale[i]);
      counter := 0;
      sent := [];
    }

    /** `ping`: store the counter in `data[0]`, advance it, send the frame.
        A short write is reported and otherwise ignored. */
    method Ping(nbytes: int) returns (shortWrite: bool)
      requires Valid()
      modifies this, data
      ensures Valid()
      ensures canId == old(canId) && dlc == old(dlc)
      ensures data[0] == old(counter) && data[1..] == old(data[1..])
      ensures counter == Inc8(old(counter))
      ensures sent == old(sent) + [CanFrame(canId, dlc, data[..])]
      ensures sent == old(sent) + [PingFrame(canId, old(counter), data[1..])]
      ensures shortWrite <==> nbytes != CAN_FRAME_SIZE
    {
      data[0] := counter;
      counter := Inc8(counter);
      sent := sent + [CanFrame(canId, dlc, data[..])];
      assert data[..] == [data[0]] + data[1..];
      shortWrite := nbytes != CAN_FRAME_SIZE;
    }

    /** The `pause()` loop: one `ping` per timer expiry, `ticks[k]` being what
        write(2) returned on the k-th. Whatever the writes returned, the
        frames carry consecutive counter values under a fixed header. */
    method Serve(ticks: seq<int>)
      requires Valid()
      modifies this, data
      ensures Valid()
      ensures canId == old(canId) && dlc == old(dlc) && data[1..] == old(data[1..])
      ensures counter == IncN(old(counter), |ticks|)
      ensures sent == old(sent) + PingFrames(canId, old(counter), |ticks|, data[1..])
    {
      ghost var tail := data[1..];
      var k := 0;
      while k < |ticks|
        invariant k <= |ticks|
        invariant canId == old(canId) && dlc == old(dlc) && data[1..] == tail
        invariant counter == IncN(old(counter), k)
        invariant sent == old(sent) + PingFrames(canId, old(counter), k, tail)
      {
        PingFramesSnoc(canId, old(counter), k, tail);
        IncNSnoc(old(counter), k);
        var _ := Ping(ticks[k]);
        k := k + 1;
      }
    }
  }
}

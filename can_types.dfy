/** Shared vocabulary of the heartbeat programs: the C integer types they use,
    the classical CAN data frame (ISO 11898-1, standard 11-bit identifier,
    DLC 0..8) as Linux SocketCAN lays it out, and the wrapping 8-bit counter
    that both transmitters keep. */
module CanTypes {

  /** `unsigned char` / `uint8_t` */
  newtype u8 = x: int | 0 <= x < 0x100

  /** `canid_t`, a 32-bit unsigned identifier word (identifier plus flag bits) */
  newtype u32 = x: int | 0 <= x < 0x1_0000_0000

  type CanId = u32

  /** `ssize_t` on a 64-bit host: what read(2) and write(2) return */
  const SSIZE_MIN: int := -0x8000_0000_0000_0000
  const SSIZE_MAX: int := 0x7FFF_FFFF_FFFF_FFFF
  type SSize = n: int | SSIZE_MIN <= n <= SSIZE_MAX

  /** Number of payload bytes of a classical CAN frame */
  const CAN_MAX_DLEN: int := 8

  /** `sizeof(struct can_frame)`: 4-byte id, dlc, three pad bytes, 8 data bytes */
  const CAN_FRAME_SIZE: int := 16

  /** The eight payload bytes `data[8]` of a frame */
  type Payload = s: seq<u8> | |s| == CAN_MAX_DLEN witness [0, 0, 0, 0, 0, 0, 0, 0]

  /** `struct can_frame`; the pad and reserved bytes carry no meaning and are left out */
  datatype CanFrame = CanFrame(canId: CanId, dlc: u8, data: Payload)

  datatype Option<T> = None | Some(value: T)

  /** 8-bit increment with wrap-around: 255 wraps to 0 */
  function Inc8(c: u8): (r: u8)
    ensures c < 255 ==> r as int == c as int + 1
    ensures c == 255 ==> r == 0
  {
    ((c as int + 1) % 0x100) as u8
  }

  /** Whether a counter value is odd, the rule both receivers map to an LED */
  predicate Odd(c: u8) {
    c % 2 == 1
  }

  /** The values `n` successive post-increments of an 8-bit counter yield
      (each reads the counter, then advances it with `Inc8`), starting from
      `start`: what a transmitter puts into `data[0]` */
  function Counters(start: u8, n: nat): (s: seq<u8>)
    ensures |s| == n
    ensures n > 0 ==> s[0] == start
    ensures forall i :: 0 <= i < n - 1 ==> s[i + 1] == Inc8(s[i])
    decreases n
  {
    if n == 0 then [] else [start] + Counters(Inc8(start), n - 1)
  }

  /** The counter sequence in closed form: the i-th value is start + i modulo 256 */
  lemma {:induction false} CountersAt(start: u8, n: nat, i: nat)
    requires i < n
    ensures Counters(start, n)[i] as int == (start as int + i) % 0x100
    decreases i
  {
    if i > 0 {
      CountersAt(Inc8(start), n - 1, i - 1);
    }
  }

  /** Running n ticks and then m more emits the concatenation of both runs */
  lemma {:induction false} CountersSplit(start: u8, n: nat, m: nat)
    ensures Counters(start, n + m) == Counters(start, n) + Counters(IncN(start, n), m)
    decreases n
  {
    if n > 0 {
      CountersSplit(Inc8(start), n - 1, m);
    }
  }

  /** The counter after n increments */
  function IncN(c: u8, n: nat): (r: u8)
    ensures r as int == (c as int + n) % 0x100
    decreases n
  {
    if n == 0 then c else IncN(Inc8(c), n - 1)
  }

  /** Advancing n times and then once more is advancing n + 1 times */
  lemma {:induction false} IncNSnoc(c: u8, n: nat)
    ensures IncN(c, n + 1) == Inc8(IncN(c, n))
    decreases n
  {
    if n > 0 {
      IncNSnoc(Inc8(c), n - 1);
    }
  }

  /** After 255 the next value emitted is 0 again */
  lemma CountersWrap()
    ensures Counters(0, 257)[255] == 255
    ensures Counters(0, 257)[256] == 0
  {
    CountersAt(0, 257, 255);
    CountersAt(0, 257, 256);
  }
}

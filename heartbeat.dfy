/** How the pieces fit together on one bus: the host transmitter's frames as
    the host receiver sees them, and where the embedded node's receive path
    and the host receiver's validation part ways. */
module Heartbeat {
  import opened CanTypes
  import CanPing
  import CanPong
  import Stm32Pong

  /** Frames arriving whole at the receiver, each LED write succeeding */
  function Deliver(frames: seq<CanFrame>): (evs: seq<CanPong.ReadEvent>)
    ensures |evs| == |frames|
    ensures forall i :: 0 <= i < |frames| ==> evs[i] == CanPong.ReadEvent(CAN_FRAME_SIZE, frames[i], 1)
  {
    seq(|frames|, i requires 0 <= i < |frames| => CanPong.ReadEvent(CAN_FRAME_SIZE, frames[i], 1))
  }

  /** A receiver listening on the transmitter's identifier accepts every
      frame, so the counters it sees are exactly the ones sent */
  lemma {:induction false} MatchingAllSent(id: CanId, start: u8, n: nat, tail: seq<u8>)
    requires |tail| == CAN_MAX_DLEN - 1
    ensures CanPong.MatchingCounters(Deliver(CanPing.PingFrames(id, start, n, tail)), id)
         == Counters(start, n)
    decreases n
  {
    if n > 0 {
      var fs := CanPing.PingFrames(id, start, n, tail);
      assert Deliver(fs)[1..] == Deliver(fs[1..]);
      MatchingAllSent(id, Inc8(start), n - 1, tail);
    }
  }

  /** End to end: when every frame handed to write(2) arrives whole, a
      receiver on the same identifier never stops and writes, per tick, '1'
      for an odd counter and '0' for an even one */
  lemma EndToEnd(id: CanId, start: u8, n: nat, tail: seq<u8>)
    requires |tail| == CAN_MAX_DLEN - 1
    ensures var s := CanPong.Replay(Deliver(CanPing.PingFrames(id, start, n, tail)), id);
            && s.status == 0 && s.served == n
            && s.led == CanPong.ParityChars(Counters(start, n))
  {
    var fs := CanPing.PingFrames(id, start, n, tail);
    var evs := Deliver(fs);
    forall i | 0 <= i < n
      ensures CanPong.Healthy(evs[i], id)
    {
      CanPing.PingFramesAt(id, start, n, tail, i);
    }
    CanPong.ReplayHealthy(evs, id);
    MatchingAllSent(id, start, n, tail);
  }

  /** The first five counters of a fresh transmitter and the LED characters they map to */
  lemma FirstFiveCounters()
    ensures Counters(0, 5) == [0, 1, 2, 3, 4]
    ensures CanPong.ParityChars(Counters(0, 5)) == ['0', '1', '0', '1', '0']
  {
  }

  /** Five ticks from a fresh transmitter on the default identifier: counters
      0 to 4 and the LED off, on, off, on, off */
  lemma FiveTicks(tail: seq<u8>)
    requires |tail| == CAN_MAX_DLEN - 1
    ensures var evs := Deliver(CanPing.PingFrames(CanPing.DEFAULT_ID, 0, 5, tail));
            CanPong.Replay(evs, CanPong.DEFAULT_ID).led == ['0', '1', '0', '1', '0']
  {
    EndToEnd(CanPing.DEFAULT_ID, 0, 5, tail);
    FirstFiveCounters();
  }

  /** A receiver configured for another identifier ignores every frame: it
      keeps running and never touches the LED */
  lemma {:induction false} OtherIdentifierIgnored(id: CanId, other: CanId, start: u8, n: nat, tail: seq<u8>)
    requires |tail| == CAN_MAX_DLEN - 1
    requires other != id
    ensures var s := CanPong.Replay(Deliver(CanPing.PingFrames(id, start, n, tail)), other);
            s.status == 0 && s.led == []
    decreases n
  {
    if n > 0 {
      var fs := CanPing.PingFrames(id, start, n, tail);
      assert Deliver(fs)[1..] == Deliver(fs[1..]);
      OtherIdentifierIgnored(id, other, Inc8(start), n - 1, tail);
    }
  }

  /** A standard data message of the embedded node as a host receiver reads
      it off the bus (extended and remote frames would carry flag bits) */
  function AsHostFrame(m: Stm32Pong.TxMsg, tail: seq<u8>): (f: CanFrame)
    requires m.ide == Stm32Pong.IdeStandard && m.rtr == Stm32Pong.RtrData
    requires 0 <= m.stdId < 0x800 && |tail| == CAN_MAX_DLEN - 1
    ensures f.canId as int == m.stdId && f.dlc == m.dlc && f.data[0] == m.data0
  {
    CanFrame(m.stdId as CanId, m.dlc, [m.data0] + tail)
  }

  /** The embedded node sends on 0x23, so a host receiver left at its default
      identifier 0x7FF ignores its heartbeat */
  lemma EmbeddedHeartbeatIgnoredByDefaultHost(c: u8, tail: seq<u8>)
    requires |tail| == CAN_MAX_DLEN - 1
    ensures CanPong.Classify(CAN_FRAME_SIZE, AsHostFrame(Stm32Pong.HeartbeatMsg(c), tail), CanPong.DEFAULT_ID)
         == CanPong.Foreign
  {
  }

  /** The receiving ends disagree: a frame with DLC 2 stops the host
      receiver, whose DLC test is exact, while the embedded node only
      refuses DLC 0 and takes the frame's first byte */
  lemma DlcTwoDiverges(id: CanId, data: Payload, red: bool, blue: bool)
    ensures CanPong.Classify(CAN_FRAME_SIZE, CanFrame(id, 2, data), id) == CanPong.BadDlc
    ensures CanPong.ReadFrameSpec(CanPong.ReadEvent(CAN_FRAME_SIZE, CanFrame(id, 2, data), 1), id).status == -1
    ensures var m := Stm32Pong.RxMsg(0x7FF, 0, Stm32Pong.IdeStandard, Stm32Pong.RtrData, 2, data);
            Stm32Pong.Drain([m], red, blue) == Stm32Pong.Drained([], red, Odd(data[0]))
  {
  }

  /** A frame on a foreign identifier leaves the host's LED alone but drives
      the embedded node's blue LED */
  lemma ForeignIdentifierDiverges(id: CanId, other: CanId, data: Payload, red: bool, blue: bool)
    requires other != id && other < 0x800
    ensures CanPong.ReadFrameSpec(CanPong.ReadEvent(CAN_FRAME_SIZE, CanFrame(other, 1, data), 1), id)
         == CanPong.Reaction(0, [])
    ensures var m := Stm32Pong.RxMsg(other as int, 0, Stm32Pong.IdeStandard, Stm32Pong.RtrData, 1, data);
            Stm32Pong.Drain([m], red, blue) == Stm32Pong.Drained([], red, Odd(data[0]))
  {
  }
}

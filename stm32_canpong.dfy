/** The embedded node: an STM32F4 board that transmits its own heartbeat from
    a timer interrupt, drains its CAN receive FIFO from the receive interrupt,
    and shows what it sees on four LEDs of GPIO port D. The interrupt flags,
    the transmit status and the result of the hardware set-up are inputs;
    interrupts are taken one at a time. */
module Stm32Pong {
  import opened CanTypes

  /** What `setup()` returns when every peripheral came up */
  const SETUP_SUCCESS: u8 := 0

  /** Standard identifier of the heartbeat this node transmits */
  const TX_STD_ID: int := 0x23

  /** What `CAN_TransmitStatus` reports for the mailbox just filled */
  datatype TxStatus = TxFailed | TxOk | TxPending

  datatype Ide = IdeStandard | IdeExtended
  datatype Rtr = RtrData | RtrRemote

  /** `CanTxMsg` as `tx` fills it; the payload bytes after `Data[0]` are left
      unset and, with DLC 1, never reach the bus */
  datatype TxMsg = TxMsg(stdId: int, extId: int, rtr: Rtr, ide: Ide, dlc: u8, data0: u8)

  /** `CanRxMsg` as `CAN_Receive` fills it */
  datatype RxMsg = RxMsg(stdId: int, extId: int, ide: Ide, rtr: Rtr, dlc: u8, data: Payload)

  /** The heartbeat message `tx` builds for one counter value */
  function HeartbeatMsg(data: u8): (m: TxMsg)
    ensures m.ide == IdeStandard && m.rtr == RtrData && m.stdId == TX_STD_ID
    ensures m.dlc == 1 && m.data0 == data
  {
    TxMsg(TX_STD_ID, 0, RtrData, IdeStandard, 1, data)
  }

  /** Index of the first pending message whose DLC is below 1, or the queue length */
  function FirstEmpty(q: seq<RxMsg>): (k: nat)
    ensures k <= |q|
    ensures forall i :: 0 <= i < k ==> q[i].dlc >= 1
    ensures k < |q| ==> q[k].dlc < 1
    decreases |q|
  {
    if q == [] then 0 else if q[0].dlc < 1 then 0 else 1 + FirstEmpty(q[1..])
  }

  /** The blue LED after messages `q` were each mapped to it, starting from `blue`:
      the parity of the last one, or `blue` itself when there is none */
  function BlueAfter(q: seq<RxMsg>, blue: bool): (b: bool)
    ensures q == [] ==> b == blue
    ensures q != [] ==> b == Odd(q[|q| - 1].data[0])
    decreases |q|
  {
    if q == [] then blue else BlueAfter(q[1..], Odd(q[0].data[0]))
  }

  /** The receive FIFO and the red and blue LEDs after `rx` drained FIFO `q`.
      Every message up to the first one with DLC below 1 is consumed and
      steers blue; that message, if any, is consumed too, latches red and
      ends the drain with the messages behind it still pending. */
  datatype Drained = Drained(rest: seq<RxMsg>, red: bool, blue: bool)

  function Drain(q: seq<RxMsg>, red: bool, blue: bool): (r: Drained)
    ensures var k := FirstEmpty(q);
            && r.rest == (if k < |q| then q[k + 1..] else [])
            && r.blue == BlueAfter(q[..k], blue)
            && r.red == (red || k < |q|)
    decreases |q|
  {
    if q == [] then Drained(q, red, blue)
    else if q[0].dlc < 1 then Drained(q[1..], true, blue)
    else
      assert q[..FirstEmpty(q)][1..] == q[1..][..FirstEmpty(q[1..])];
      Drain(q[1..], red, Odd(q[0].data[0]))
  }

  /** With no message of DLC below 1 pending the FIFO ends empty, red is
      untouched and blue shows the parity of the last message */
  lemma DrainAll(q: seq<RxMsg>, red: bool, blue: bool)
    requires forall i :: 0 <= i < |q| ==> q[i].dlc >= 1
    ensures Drain(q, red, blue).rest == []
    ensures Drain(q, red, blue).red == red
    ensures q != [] ==> Drain(q, red, blue).blue == Odd(q[|q| - 1].data[0])
  {
  }

  /** The node does no identifier filtering: two queues that agree on each
      message's DLC and first payload byte drain alike, whatever the identifiers */
  lemma {:induction false} DrainIgnoresIdentifiers(q1: seq<RxMsg>, q2: seq<RxMsg>, red: bool, blue: bool)
    requires |q1| == |q2|
    requires forall i :: 0 <= i < |q1| ==> q1[i].dlc == q2[i].dlc && q1[i].data[0] == q2[i].data[0]
    ensures Drain(q1, red, blue).red == Drain(q2, red, blue).red
    ensures Drain(q1, red, blue).blue == Drain(q2, red, blue).blue
    ensures |Drain(q1, red, blue).rest| == |Drain(q2, red, blue).rest|
    decreases |q1|
  {
    if q1 != [] && q1[0].dlc >= 1 {
      DrainIgnoresIdentifiers(q1[1..], q2[1..], red, Odd(q1[0].data[0]));
    }
  }

  /** The board's state as the handlers see it */
  class Board {
    /** the four LEDs on GPIO port D pins 12 to 15 */
    var green: bool
    var orange: bool
    var red: bool
    var blue: bool
    /** `led_counter`, the value of the next heartbeat this node sends */
    var ledCounter: u8
    /** messages handed to `CAN_Transmit`, oldest first */
    var txLog: seq<TxMsg>
    /** receive FIFO 0, oldest message first */
    var fifo: seq<RxMsg>

    /** State out of reset: LEDs off, counter 0, nothing sent or pending */
    constructor ()
      ensures !green && !orange && !red && !blue
      ensures ledCounter == 0 && txLog == [] && fifo == []
    {
      green, orange, red, blue := false, false, false, false;
      ledCounter := 0;
      txLog := [];
      fifo := [];
    }

    /** `main`: `setup()` first switches the four LEDs off; on failure red
        comes on and `main` returns -1, on success green comes on and the
        node idles in `wfi` for good (`None`) */
    method Boot(setupResult: u8) returns (rc: Option<int>)
      modifies this
      ensures rc == (if setupResult != SETUP_SUCCESS then Some(-1) else None)
      ensures red <==> setupResult != SETUP_SUCCESS
      ensures green <==> setupResult == SETUP_SUCCESS
      ensures !orange && !blue
      ensures ledCounter == old(ledCounter) && txLog == old(txLog) && fifo == old(fifo)
    {
      green, orange, red, blue := false, false, false, false;
      if setupResult != SETUP_SUCCESS {
        red := true;
        return Some(-1);
      }
      green := true;
      return None;
    }

    /** `tx`: queue one heartbeat; a failed transmission latches red and
        nothing else changes */
    method Tx(data: u8, status: TxStatus)
      modifies this
      ensures txLog == old(txLog) + [HeartbeatMsg(data)]
      ensures red == (old(red) || status == TxFailed)
      ensures green == old(green) && orange == old(orange) && blue == old(blue)
      ensures ledCounter == old(ledCounter) && fifo == old(fifo)
    {
      var message := TxMsg(TX_STD_ID, 0, RtrData, IdeStandard, 1, data);
      txLog := txLog + [message];
      if status == TxFailed {
        red := true;
      }
    }

    /** `rx`: consume pending messages until the FIFO is empty or one with DLC
        below 1 turns up; each consumed message with a payload sets blue iff
        its first byte is odd */
    method Rx()
      modifies this
      ensures Drained(fifo, red, blue) == Drain(old(fifo), old(red), old(blue))
      ensures green == old(green) && orange == old(orange)
      ensures ledCounter == old(ledCounter) && txLog == old(txLog)
    {
      while |fifo| > 0
        invariant Drain(fifo, red, blue) == Drain(old(fifo), old(red), old(blue))
        invariant green == old(green) && orange == old(orange)
        invariant ledCounter == old(ledCounter) && txLog == old(txLog)
        decreases |fifo|
      {
        var message := fifo[0];
        fifo := fifo[1..];
        if message.dlc < 1 {
          red := true;
          return;
        }
        var counter := message.data[0];
        if counter % 2 == 0 {
          blue := false;
        } else {
          blue := true;
        }
      }
    }

    /** `TIM2_IRQHandler`: on an update event flip orange and send the
        counter's current value, which then advances with 8-bit wrap-around */
    method Tim2Irq(update: bool, status: TxStatus)
      modifies this
      ensures !update ==> orange == old(orange) && red == old(red)
                          && ledCounter == old(ledCounter) && txLog == old(txLog)
      ensures update ==> && txLog == old(txLog) + [HeartbeatMsg(old(ledCounter))]
                         && ledCounter == Inc8(old(ledCounter))
                         && orange == !old(orange)
                         && red == (old(red) || status == TxFailed)
      ensures green == old(green) && blue == old(blue) && fifo == old(fifo)
    {
      if update {
        orange := !orange;
        var data := ledCounter;
        ledCounter := Inc8(ledCounter);
        Tx(data, status);
      }
    }

    /** `CAN1_RX0_IRQHandler`: drain the FIFO when a message is pending */
    method Can1Rx0Irq(fmp0: bool)
      modifies this
      ensures Drained(fifo, red, blue)
           == if fmp0 then Drain(old(fifo), old(red), old(blue)) else Drained(old(fifo), old(red), old(blue))
      ensures green == old(green) && orange == old(orange)
      ensures ledCounter == old(ledCounter) && txLog == old(txLog)
    {
      if fmp0 {
        Rx();
      }
    }

    /** `EXTI0_IRQHandler`: the user button clears the red latch and nothing else */
    method Exti0Irq(line0: bool)
      modifies this
      ensures red == (old(red) && !line0)
      ensures green == old(green) && orange == old(orange) && blue == old(blue)
      ensures ledCounter == old(ledCounter) && txLog == old(txLog) && fifo == old(fifo)
    {
      if line0 {
        red := false;
      }
    }

    /** The CAN peripheral stores a received frame in FIFO 0; its filter bank
        masks no identifier bit, so every frame on the bus is accepted */
    method Arrive(msg: RxMsg)
      modifies this
      ensures fifo == old(fifo) + [msg]
      ensures green == old(green) && orange == old(orange) && red == old(red) && blue == old(blue)
      ensures ledCounter == old(ledCounter) && txLog == old(txLog)
    {
      fifo := fifo + [msg];
    }
  }
}

// The LED indicator of the ffd application: a task that waits for
// notification bits, turns the highest-priority event into a colour and a
// blink state, and drives two active-low LEDs on a 32-bit output port.
module Leds {
  /** The LED bits of the XK_VOICE_L71 board's output port. */
  const GREEN_MASK: bv32 := 0x20
  const RED_MASK: bv32 := 0x10
  /** The two LED bits together; no other bit of the port belongs to the LEDs. */
  const YELLOW_MASK: bv32 := GREEN_MASK | RED_MASK

  /** Which LEDs a port value lights: a LED is lit when its bit is low. */
  datatype Lit = Lit(green: bool, red: bool)

  function LitOf(v: bv32): Lit
  {
    Lit(v & GREEN_MASK == 0, v & RED_MASK == 0)
  }

  /** Every bit of `v` outside the two LED bits is the same in `w`. */
  predicate OthersKept(v: bv32, w: bv32)
  {
    w & !YELLOW_MASK == v & !YELLOW_MASK
  }

  /** `green_led_xon`: green lit, red dark. */
  function GreenXOn(v: bv32): (r: bv32)
    ensures LitOf(r) == Lit(true, false) && OthersKept(v, r)
  {
    (v & !GREEN_MASK) | RED_MASK
  }

  /** `green_led_on`: green lit, red as it was. */
  function GreenOn(v: bv32): (r: bv32)
    ensures LitOf(r) == Lit(true, LitOf(v).red) && OthersKept(v, r)
  {
    v & !GREEN_MASK
  }

  /** `green_led_off`: green dark, red as it was. */
  function GreenOff(v: bv32): (r: bv32)
    ensures LitOf(r) == Lit(false, LitOf(v).red) && OthersKept(v, r)
  {
    v | GREEN_MASK
  }

  /** `green_led_toggle`: green flipped, red as it was. */
  function GreenToggle(v: bv32): (r: bv32)
    ensures LitOf(r) == Lit(!LitOf(v).green, LitOf(v).red) && OthersKept(v, r)
  {
    v ^ GREEN_MASK
  }

  /** `green_led_xtoggle`: green flipped, red dark. */
  function GreenXToggle(v: bv32): (r: bv32)
    ensures LitOf(r) == Lit(!LitOf(v).green, false) && OthersKept(v, r)
  {
    (v ^ GREEN_MASK) | RED_MASK
  }

  /** `red_led_xon`: red lit, green dark. */
  function RedXOn(v: bv32): (r: bv32)
    ensures LitOf(r) == Lit(false, true) && OthersKept(v, r)
  {
    (v & !RED_MASK) | GREEN_MASK
  }

  /** `red_led_on`: red lit, green as it was. */
  function RedOn(v: bv32): (r: bv32)
    ensures LitOf(r) == Lit(LitOf(v).green, true) && OthersKept(v, r)
  {
    v & !RED_MASK
  }

  /** `red_led_off`: red dark, green as it was. */
  function RedOff(v: bv32): (r: bv32)
    ensures LitOf(r) == Lit(LitOf(v).green, false) && OthersKept(v, r)
  {
    v | RED_MASK
  }

  /** `red_led_toggle`: red flipped, green as it was. */
  function RedToggle(v: bv32): (r: bv32)
    ensures LitOf(r) == Lit(LitOf(v).green, !LitOf(v).red) && OthersKept(v, r)
  {
    v ^ RED_MASK
  }

  /** `red_led_xtoggle`: red flipped, green dark. */
  function RedXToggle(v: bv32): (r: bv32)
    ensures LitOf(r) == Lit(false, !LitOf(v).red) && OthersKept(v, r)
  {
    (v ^ RED_MASK) | GREEN_MASK
  }

  /** `yellow_led_on`: both lit. */
  function YellowOn(v: bv32): (r: bv32)
    ensures LitOf(r) == Lit(true, true) && OthersKept(v, r)
  {
    v & !YELLOW_MASK
  }

  /** `yellow_led_off`: both dark. */
  function YellowOff(v: bv32): (r: bv32)
    ensures LitOf(r) == Lit(false, false) && OthersKept(v, r)
  {
    v | YELLOW_MASK
  }

  /**
   * `yellow_led_toggle`: both lit when either was dark, both dark when
   * both were lit.
   */
  function YellowToggle(v: bv32): (r: bv32)
    ensures LitOf(r) == (if LitOf(v) == Lit(true, true) then Lit(false, false) else Lit(true, true))
    ensures OthersKept(v, r)
  {
    if v & YELLOW_MASK != 0 then v & !YELLOW_MASK else v | YELLOW_MASK
  }

  /** Toggling twice puts the port back. */
  lemma GreenToggleTwice(v: bv32)
    ensures GreenToggle(GreenToggle(v)) == v
  {
  }

  /**
   * Two heartbeat ticks put green back as it was; red is dark throughout,
   * so the port returns to `v` with the red bit set.
   */
  lemma GreenXToggleTwice(v: bv32)
    ensures GreenXToggle(GreenXToggle(v)) == v | RED_MASK
    ensures LitOf(GreenXToggle(GreenXToggle(v))) == Lit(LitOf(v).green, false)
  {
  }

  lemma RedXToggleTwice(v: bv32)
    ensures RedXToggle(RedXToggle(v)) == v | GREEN_MASK
    ensures LitOf(RedXToggle(RedXToggle(v))) == Lit(false, LitOf(v).red)
  {
  }

  /**
   * Yellow-toggle is its own inverse exactly when the two LEDs agree; with
   * one lit and one dark, two toggles leave both dark.
   */
  lemma YellowToggleTwice(v: bv32)
    ensures (YellowToggle(YellowToggle(v)) == v) <==> (LitOf(v).green == LitOf(v).red)
    ensures LitOf(v).green != LitOf(v).red ==> LitOf(YellowToggle(YellowToggle(v))) == Lit(false, false)
  {
  }

  /** `led_state_t` */
  datatype LedState = LedOff | LedOn | LedToggle

  /** `led_color_t` */
  datatype LedColor = Green | Red | Yellow

  const NOTIF_HBEAT_TIMER: bv32 := 0x0000_0010
  const NOTIF_WAITING: bv32 := 0x0000_0080
  const NOTIF_LISTEN: bv32 := 0x0000_0100
  const NOTIF_END_OF_EVAL: bv32 := 0x0000_1000

  /** `LED_BLINK_DELAY` and `LED_FLICKER_DELAY`, in ticks of 1 ms. */
  const BLINK_TICKS: nat := 500
  const FLICKER_TICKS: nat := 100

  /** The event a notification value stands for, the highest-priority bit winning. */
  datatype Event = Waiting | Listen | EndOfEval | NoEvent

  function EventOf(n: bv32): (e: Event)
    ensures e == Waiting <==> n & NOTIF_WAITING != 0
    ensures e == Listen <==> n & NOTIF_WAITING == 0 && n & NOTIF_LISTEN != 0
    ensures e == EndOfEval <==> n & NOTIF_WAITING == 0 && n & NOTIF_LISTEN == 0 && n & NOTIF_END_OF_EVAL != 0
    ensures e == NoEvent <==> n & (NOTIF_WAITING | NOTIF_LISTEN | NOTIF_END_OF_EVAL) == 0
  {
    if n & NOTIF_WAITING != 0 then Waiting
    else if n & NOTIF_LISTEN != 0 then Listen
    else if n & NOTIF_END_OF_EVAL != 0 then EndOfEval
    else NoEvent
  }

  /** The indication an event selects; with no event the current one stays. */
  function NextIndication(e: Event, c: LedColor, s: LedState): (r: (LedColor, LedState))
    ensures e == NoEvent ==> r == (c, s)
    ensures e != NoEvent ==> Reachable(r.0, r.1)
  {
    match e
    case Waiting => (Green, LedToggle)
    case Listen => (Yellow, LedOn)
    case EndOfEval => (Red, LedToggle)
    case NoEvent => (c, s)
  }

  /** The indication after a run of events. */
  function IndicationAfter(es: seq<Event>, c: LedColor, s: LedState): (LedColor, LedState)
    decreases |es|
  {
    if es == [] then (c, s)
    else
      var n := NextIndication(es[0], c, s);
      IndicationAfter(es[1..], n.0, n.1)
  }

  /**
   * From the task's start, (green, toggle), every run of events leaves the
   * indication at one of the three reachable pairs.
   */
  lemma {:induction false} AlwaysReachable(es: seq<Event>, c: LedColor, s: LedState)
    requires Reachable(c, s)
    ensures var r := IndicationAfter(es, c, s); Reachable(r.0, r.1)
    decreases |es|
  {
    if es != [] {
      var n := NextIndication(es[0], c, s);
      AlwaysReachable(es[1..], n.0, n.1);
    }
  }

  /** The heartbeat timer: whether it runs and its period in ticks. */
  datatype Timer = Timer(running: bool, period: nat)

  /**
   * What an event does to the heartbeat timer. Waiting restarts it with
   * whatever period it has; end-of-evaluation changes the period to the
   * flicker delay and restarts it; listening stops it.
   */
  function TimerAfter(e: Event, t: Timer): (r: Timer)
    ensures e == NoEvent ==> r == t
    ensures e == Listen ==> !r.running && r.period == t.period
    ensures e == Waiting ==> r.running && r.period == t.period
    ensures e == EndOfEval ==> r.running && r.period == FLICKER_TICKS
  {
    match e
    case Waiting => t.(running := true)
    case Listen => t.(running := false)
    case EndOfEval => Timer(true, FLICKER_TICKS)
    case NoEvent => t
  }

  /** The indications the task can be in. */
  predicate Reachable(c: LedColor, s: LedState)
  {
    (c, s) == (Green, LedToggle) || (c, s) == (Yellow, LedOn) || (c, s) == (Red, LedToggle)
  }

  /** The port update of the second half of the task's loop. */
  function Indicate(c: LedColor, s: LedState, v: bv32): (r: bv32)
    ensures OthersKept(v, r)
  {
    match c
    case Green => (match s case LedOn => GreenXOn(v) case LedToggle => GreenXToggle(v) case LedOff => GreenOff(v))
    case Red => (match s case LedOn => RedXOn(v) case LedToggle => RedXToggle(v) case LedOff => RedOff(v))
    case Yellow => (match s case LedOn => YellowOn(v) case LedToggle => YellowToggle(v) case LedOff => YellowOff(v))
  }

  /**
   * In each reachable indication: the heartbeat flips green with red dark,
   * listening lights both, and end-of-evaluation flips red with green dark.
   */
  lemma IndicateReachable(c: LedColor, s: LedState, v: bv32)
    requires Reachable(c, s)
    ensures var l := LitOf(v);
            LitOf(Indicate(c, s, v)) ==
              match c
              case Green => Lit(!l.green, false)
              case Yellow => Lit(true, true)
              case Red => Lit(false, !l.red)
  {
  }

  /** Once the flicker period is set it stays: a later Waiting keeps the heartbeat at the flicker delay. */
  lemma {:induction false} FlickerPersists(t: Timer, es: seq<Event>)
    requires t.period == FLICKER_TICKS
    ensures TimersAfter(es, t).period == FLICKER_TICKS
    decreases |es|
  {
    if es != [] {
      FlickerPersists(TimerAfter(es[0], t), es[1..]);
    }
  }

  function TimersAfter(es: seq<Event>, t: Timer): Timer
    decreases |es|
  {
    if es == [] then t else TimersAfter(es[1..], TimerAfter(es[0], t))
  }

  /** `led_task`'s state and the notification slot the other tasks write into. */
  class LedTask {
    var color: LedColor
    var state: LedState
    /** The value last written to the LED port. */
    var port: bv32
    var timer: Timer
    /** The task's notification value and whether a notification is pending. */
    var notifyValue: bv32
    var notifyPending: bool

    ghost predicate Valid()
      reads this
    {
      Reachable(color, state) && (timer.period == BLINK_TICKS || timer.period == FLICKER_TICKS)
    }

    /**
     * The task's start: green heartbeat, timer started at the blink
     * period. `initialPort` is what the enabled port reads back.
     */
    constructor (initialPort: bv32)
      ensures Valid()
      ensures color == Green && state == LedToggle && timer == Timer(true, BLINK_TICKS)
      ensures port == initialPort && notifyValue == 0 && !notifyPending
    {
      color := Green;
      state := LedToggle;
      port := initialPort;
      timer := Timer(true, BLINK_TICKS);
      notifyValue := 0;
      notifyPending := false;
    }

    /** `xTaskNotify(..., eSetBits)`: the bits are or-ed into the pending value. */
    method Notify(bits: bv32)
      modifies this
      ensures notifyValue == old(notifyValue) | bits && notifyPending
      ensures color == old(color) && state == old(state) && port == old(port) && timer == old(timer)
    {
      notifyValue := notifyValue | bits;
      notifyPending := true;
    }

    /** `hbeat_tmr_callback`: a timer expiry notifies the heartbeat bit. */
    method HbeatTimerCallback()
      requires timer.running
      modifies this
      ensures notifyValue == old(notifyValue) | NOTIF_HBEAT_TIMER && notifyPending
      ensures color == old(color) && state == old(state) && port == old(port) && timer == old(timer)
    {
      Notify(NOTIF_HBEAT_TIMER);
    }

    method IndicateWaiting()
      modifies this
      ensures notifyValue == old(notifyValue) | NOTIF_WAITING && notifyPending
      ensures color == old(color) && state == old(state) && port == old(port) && timer == old(timer)
    {
      Notify(NOTIF_WAITING);
    }

    method IndicateListening()
      modifies this
      ensures notifyValue == old(notifyValue) | NOTIF_LISTEN && notifyPending
      ensures color == old(color) && state == old(state) && port == old(port) && timer == old(timer)
    {
      Notify(NOTIF_LISTEN);
    }

    method IndicateEndOfEval()
      modifies this
      ensures notifyValue == old(notifyValue) | NOTIF_END_OF_EVAL && notifyPending
      ensures color == old(color) && state == old(state) && port == old(port) && timer == old(timer)
    {
      Notify(NOTIF_END_OF_EVAL);
    }

    /**
     * One pass of the task's loop: take the pending notification value,
     * clearing every bit; act on its highest-priority event; then drive the
     * port for the current indication.
     */
    method Step()
      requires Valid() && notifyPending
      modifies this
      ensures Valid()
      ensures var e := EventOf(old(notifyValue));
              (color, state) == NextIndication(e, old(color), old(state)) &&
              timer == TimerAfter(e, old(timer)) &&
              port == Indicate(color, state, old(port))
      ensures notifyValue == 0 && !notifyPending
    {
      var notif := notifyValue;
      notifyValue := 0;
      notifyPending := false;

      if notif & NOTIF_WAITING != 0 {
        color, state := Green, LedToggle;
        timer := timer.(running := true);
      } else if notif & NOTIF_LISTEN != 0 {
        timer := timer.(running := false);
        color, state := Yellow, LedOn;
      } else if notif & NOTIF_END_OF_EVAL != 0 {
        color, state := Red, LedToggle;
        timer := timer.(period := FLICKER_TICKS);
        timer := timer.(running := true);
      }

      port := Indicate(color, state, port);
    }
  }
}

/**
 * The hardware the controller drives: GPIO pins, the ADC, the servo and the
 * HT16K33 display. The model records every call as an event of a trace;
 * readings come from scripts of values the ADC and the button will deliver.
 * Replaying a trace gives what the device visibly shows afterwards.
 */
module Devices {

  import opened Wrappers

  /** The two output pins the controller writes. */
  datatype Pin = RedLed | GreenLed

  datatype Event =
    | GpioOut(pin: Pin, high: bool)   // GPIO.output(pin, HIGH / LOW)
    | GpioIn(level: int)              // GPIO.input(button) returned `level`
    | AdcRead(raw: int)               // ADC.read_raw(analog_in) returned `raw`
    | Colon(on: bool)                 // display.set_colon(on)
    | Text(text: string)              // display.text(text)
    | Pause(seconds: real)            // time.sleep(seconds)
    | ServoScale(duty: real)          // servo.scale(duty)
    | GpioRelease                     // GPIO.cleanup()
    | ServoRelease                    // servo.cleanup()

  /** What an observer sees: LED levels, display contents, servo command, released resources. */
  datatype Panel = Panel(
    red: bool,
    green: bool,
    colon: bool,
    text: Option<string>,
    duty: Option<real>,
    gpioReleased: bool,
    servoReleased: bool)

  function Apply(p: Panel, e: Event): Panel
  {
    match e
    case GpioOut(RedLed, h) => p.(red := h)
    case GpioOut(GreenLed, h) => p.(green := h)
    case Colon(on) => p.(colon := on)
    case Text(s) => p.(text := Some(s))
    case ServoScale(d) => p.(duty := Some(d))
    case GpioRelease => p.(gpioReleased := true)
    case ServoRelease => p.(servoReleased := true)
    case _ => p
  }

  /** The panel after the events of `t`, in order, starting from `p`. */
  function Replay(p: Panel, t: seq<Event>): Panel
    decreases |t|
  {
    if t == [] then p else Replay(Apply(p, t[0]), t[1..])
  }

  lemma {:induction false} ReplayAppend(p: Panel, a: seq<Event>, b: seq<Event>)
    ensures Replay(p, a + b) == Replay(Replay(p, a), b)
    decreases |a|
  {
    if a == [] {
      assert a + b == b;
    } else {
      assert (a + b)[0] == a[0];
      assert (a + b)[1..] == a[1..] + b;
      ReplayAppend(Apply(p, a[0]), a[1..], b);
    }
  }

  function DutyOf(e: Event): seq<real>
  {
    if e.ServoScale? then [e.duty] else []
  }

  /** The duty cycles sent to the servo, in order. */
  function Duties(t: seq<Event>): seq<real>
    decreases |t|
  {
    if t == [] then [] else DutyOf(t[0]) + Duties(t[1..])
  }

  lemma {:induction false} DutiesAppend(a: seq<Event>, b: seq<Event>)
    ensures Duties(a + b) == Duties(a) + Duties(b)
    decreases |a|
  {
    if a == [] {
      assert a + b == b;
    } else {
      assert (a + b)[0] == a[0];
      assert (a + b)[1..] == a[1..] + b;
      DutiesAppend(a[1..], b);
    }
  }

  function TextOf(e: Event): seq<string>
  {
    if e.Text? then [e.text] else []
  }

  /** The texts written to the display, in order. */
  function Texts(t: seq<Event>): seq<string>
    decreases |t|
  {
    if t == [] then [] else TextOf(t[0]) + Texts(t[1..])
  }

  lemma {:induction false} TextsAppend(a: seq<Event>, b: seq<Event>)
    ensures Texts(a + b) == Texts(a) + Texts(b)
    decreases |a|
  {
    if a == [] {
      assert a + b == b;
    } else {
      assert (a + b)[0] == a[0];
      assert (a + b)[1..] == a[1..] + b;
      TextsAppend(a[1..], b);
    }
  }

  /** Number of display text writes in a trace. */
  function Writes(t: seq<Event>): nat
  {
    |Texts(t)|
  }

  lemma WritesAppend(a: seq<Event>, b: seq<Event>)
    ensures Writes(a + b) == Writes(a) + Writes(b)
  {
    TextsAppend(a, b);
  }

  /** Replay on a trace that starts with `e`. */
  lemma Cons(p: Panel, e: Event, t: seq<Event>)
    ensures Replay(p, [e] + t) == Replay(Apply(p, e), t)
  {
    assert ([e] + t)[0] == e;
    assert ([e] + t)[1..] == t;
  }

  lemma Literal1(p: Panel, a: Event)
    ensures Replay(p, [a]) == Apply(p, a)
  {
    Cons(p, a, []);
    assert [a] + [] == [a];
  }

  lemma Literal2(p: Panel, a: Event, b: Event)
    ensures Replay(p, [a, b]) == Apply(Apply(p, a), b)
  {
    Cons(p, a, [b]);
    Literal1(Apply(p, a), b);
    assert [a] + [b] == [a, b];
  }

  lemma Literal3(p: Panel, a: Event, b: Event, c: Event)
    ensures Replay(p, [a, b, c]) == Apply(Apply(Apply(p, a), b), c)
  {
    Cons(p, a, [b, c]);
    Literal2(Apply(p, a), b, c);
    assert [a] + [b, c] == [a, b, c];
  }

  lemma Literal4(p: Panel, a: Event, b: Event, c: Event, d: Event)
    ensures Replay(p, [a, b, c, d]) == Apply(Apply(Apply(Apply(p, a), b), c), d)
  {
    Cons(p, a, [b, c, d]);
    Literal3(Apply(p, a), b, c, d);
    assert [a] + [b, c, d] == [a, b, c, d];
  }

  /** Duties and Texts on a trace that starts with `e`. */
  lemma TallyCons(e: Event, t: seq<Event>)
    ensures Duties([e] + t) == DutyOf(e) + Duties(t)
    ensures Texts([e] + t) == TextOf(e) + Texts(t)
  {
    assert ([e] + t)[0] == e;
    assert ([e] + t)[1..] == t;
  }

  lemma Tally1(a: Event)
    ensures Duties([a]) == DutyOf(a) && Texts([a]) == TextOf(a)
  {
    TallyCons(a, []);
    assert [a] + [] == [a];
  }

  lemma Tally2(a: Event, b: Event)
    ensures Duties([a, b]) == DutyOf(a) + DutyOf(b)
    ensures Texts([a, b]) == TextOf(a) + TextOf(b)
  {
    TallyCons(a, [b]);
    Tally1(b);
    assert [a] + [b] == [a, b];
  }

  lemma Tally3(a: Event, b: Event, c: Event)
    ensures Duties([a, b, c]) == DutyOf(a) + (DutyOf(b) + DutyOf(c))
    ensures Texts([a, b, c]) == TextOf(a) + (TextOf(b) + TextOf(c))
  {
    TallyCons(a, [b, c]);
    Tally2(b, c);
    assert [a] + [b, c] == [a, b, c];
  }

  lemma Tally4(a: Event, b: Event, c: Event, d: Event)
    ensures Duties([a, b, c, d]) == DutyOf(a) + (DutyOf(b) + (DutyOf(c) + DutyOf(d)))
    ensures Texts([a, b, c, d]) == TextOf(a) + (TextOf(b) + (TextOf(c) + TextOf(d)))
  {
    TallyCons(a, [b, c, d]);
    Tally3(b, c, d);
    assert [a] + [b, c, d] == [a, b, c, d];
  }

  /**
   * The hardware as the controller sees it. Output calls append to `trace`;
   * input calls take the next scripted reading and record it.
   */
  class Hardware {
    var trace: seq<Event>
    var analog: seq<int>
    var buttons: seq<int>

    constructor (analog: seq<int>, buttons: seq<int>)
      ensures trace == [] && this.analog == analog && this.buttons == buttons
    {
      trace := [];
      this.analog := analog;
      this.buttons := buttons;
    }

    method GpioOutput(pin: Pin, high: bool)
      modifies this
      ensures trace == old(trace) + [GpioOut(pin, high)]
      ensures analog == old(analog) && buttons == old(buttons)
    {
      trace := trace + [GpioOut(pin, high)];
    }

    method GpioInput() returns (level: int)
      requires buttons != []
      modifies this
      ensures level == old(buttons[0]) && buttons == old(buttons[1..])
      ensures trace == old(trace) + [GpioIn(level)] && analog == old(analog)
    {
      level := buttons[0];
      buttons := buttons[1..];
      trace := trace + [GpioIn(level)];
    }

    method ReadRaw() returns (raw: int)
      requires analog != []
      modifies this
      ensures raw == old(analog[0]) && analog == old(analog[1..])
      ensures trace == old(trace) + [AdcRead(raw)] && buttons == old(buttons)
    {
      raw := analog[0];
      analog := analog[1..];
      trace := trace + [AdcRead(raw)];
    }

    method SetColon(on: bool)
      modifies this
      ensures trace == old(trace) + [Colon(on)]
      ensures analog == old(analog) && buttons == old(buttons)
    {
      trace := trace + [Colon(on)];
    }

    method ShowText(s: string)
      modifies this
      ensures trace == old(trace) + [Text(s)]
      ensures analog == old(analog) && buttons == old(buttons)
    {
      trace := trace + [Text(s)];
    }

    method Sleep(seconds: real)
      modifies this
      ensures trace == old(trace) + [Pause(seconds)]
      ensures analog == old(analog) && buttons == old(buttons)
    {
      trace := trace + [Pause(seconds)];
    }

    method Scale(duty: real)
      modifies this
      ensures trace == old(trace) + [ServoScale(duty)]
      ensures analog == old(analog) && buttons == old(buttons)
    {
      trace := trace + [ServoScale(duty)];
    }

    method GpioCleanup()
      modifies this
      ensures trace == old(trace) + [GpioRelease]
      ensures analog == old(analog) && buttons == old(buttons)
    {
      trace := trace + [GpioRelease];
    }

    method ServoCleanup()
      modifies this
      ensures trace == old(trace) + [ServoRelease]
      ensures analog == old(analog) && buttons == old(buttons)
    {
      trace := trace + [ServoRelease];
    }
  }
}

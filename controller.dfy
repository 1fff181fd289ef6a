/**
 * The grip controller `finger_aug`: the change-detecting display update of
 * `show_analog_value`, the polling loop `run` and `cleanup`. Each method is
 * specified by a function giving the events it issues.
 */
module Controller {

  import opened Wrappers
  import opened Grip
  import opened Devices

  /** The servo's no-tension rest position. */
  const NeutralDuty: real := 8.5

  /** Pause after every display update, in seconds. */
  const UpdatePause: real := 0.1

  /** Running until the button has been seen pressed; Stopped afterwards. */
  datatype Phase = Running | Stopped

  /**
   * Events of one `show_analog_value` call that reads `raw` while the cache
   * holds `prev`: the display is written only when the quantized sample differs.
   */
  function ShowEvents(prev: Option<int>, raw: int): seq<Event>
  {
    var q := Quantize(raw);
    [AdcRead(raw)] + if prev != Some(q) then [Colon(true), Text(OnText(q)), Pause(UpdatePause)] else []
  }

  /** What the button branch of `run` does before leaving the loop. */
  const StopEvents: seq<Event> :=
    [ServoScale(NeutralDuty), Text("OFF"), GpioOut(GreenLed, false), GpioOut(RedLed, true)]

  /** The end of an iteration: drive the servo from sample `q`, read the button, stop on 0. */
  function CheckEvents(q: int, level: int): seq<Event>
  {
    [ServoScale(DutyCycle(q)), GpioIn(level)] + if level == 0 then StopEvents else []
  }

  /** Events of one iteration of the loop in `run` whose button reading is `level`. */
  function IterationEvents(prev: Option<int>, raw: int, level: int): seq<Event>
  {
    [GpioOut(GreenLed, true)] + ShowEvents(prev, raw) + CheckEvents(Quantize(raw), level)
  }

  /** Whether the loop meets a button press (a reading of 0) before the scripts run out. */
  predicate Stops(analog: seq<int>, buttons: seq<int>)
    decreases |analog|
  {
    analog != [] && buttons != [] && (buttons[0] == 0 || Stops(analog[1..], buttons[1..]))
  }

  /**
   * The number of loop iterations `run` executes on these scripts: up to and
   * including the first press, or as many as the scripts supply.
   */
  function Iterations(analog: seq<int>, buttons: seq<int>): (n: nat)
    ensures n <= |analog| && n <= |buttons|
    ensures forall j :: 0 <= j < n - 1 ==> buttons[j] != 0
    ensures Stops(analog, buttons) <==> 0 < n && buttons[n - 1] == 0
    ensures !Stops(analog, buttons) ==> n == |analog| || n == |buttons|
    decreases |analog|
  {
    if analog == [] || buttons == [] then 0
    else if buttons[0] == 0 then 1
    else 1 + Iterations(analog[1..], buttons[1..])
  }

  /** All events of `run`, starting with the cache holding `prev`. */
  function RunEvents(prev: Option<int>, analog: seq<int>, buttons: seq<int>): seq<Event>
    decreases |analog|
  {
    if analog == [] || buttons == [] then []
    else
      IterationEvents(prev, analog[0], buttons[0])
      + if buttons[0] == 0 then [] else RunEvents(Some(Quantize(analog[0])), analog[1..], buttons[1..])
  }

  /** The cached sample when `run` returns. */
  function RunValue(prev: Option<int>, analog: seq<int>, buttons: seq<int>): Option<int>
    decreases |analog|
  {
    if analog == [] || buttons == [] then prev
    else if buttons[0] == 0 then Some(Quantize(analog[0]))
    else RunValue(Some(Quantize(analog[0])), analog[1..], buttons[1..])
  }

  /** One step of the loop's specification functions on a non-empty script. */
  lemma RunUnfold(prev: Option<int>, analog: seq<int>, buttons: seq<int>)
    requires analog != [] && buttons != []
    ensures var q := Quantize(analog[0]);
      && RunEvents(prev, analog, buttons) == IterationEvents(prev, analog[0], buttons[0])
         + (if buttons[0] == 0 then [] else RunEvents(Some(q), analog[1..], buttons[1..]))
      && RunValue(prev, analog, buttons)
         == (if buttons[0] == 0 then Some(q) else RunValue(Some(q), analog[1..], buttons[1..]))
      && Stops(analog, buttons) == (buttons[0] == 0 || Stops(analog[1..], buttons[1..]))
      && Iterations(analog, buttons)
         == (if buttons[0] == 0 then 1 else 1 + Iterations(analog[1..], buttons[1..]))
  {
  }

  /** The iteration's events in the order the loop body appends them to a trace. */
  lemma IterationTrace(before: seq<Event>, prev: Option<int>, raw: int, level: int, later: seq<Event>)
    ensures var t := before + [GpioOut(GreenLed, true)] + ShowEvents(prev, raw)
                     + [ServoScale(DutyCycle(Quantize(raw)))] + [GpioIn(level)];
      && (level == 0 ==>
            before + IterationEvents(prev, raw, level)
            == t + [ServoScale(NeutralDuty)] + [Text("OFF")] + [GpioOut(GreenLed, false)] + [GpioOut(RedLed, true)])
      && (level != 0 ==> before + (IterationEvents(prev, raw, level) + later) == t + later)
  {
  }

  /** The fixed command sequence of `cleanup`. */
  const CleanupEvents: seq<Event> :=
    [Text("DEAD"), Colon(false), GpioOut(RedLed, false), GpioOut(GreenLed, false), GpioRelease, ServoRelease]

  class FingerAug {
    /** The last quantized sample, `None` before the first reading. */
    var value: Option<int>
    const hw: Hardware

    constructor (hw: Hardware)
      ensures this.hw == hw && value == None
    {
      this.hw := hw;
      value := None;
    }

    /** `show_analog_value`: read, quantize, refresh the display if the sample changed, cache it. */
    method ShowAnalogValue() returns (q: int)
      requires hw.analog != []
      modifies this, hw
      ensures q == Quantize(old(hw.analog[0])) && value == Some(q)
      ensures hw.trace == old(hw.trace) + ShowEvents(old(value), old(hw.analog[0]))
      ensures hw.analog == old(hw.analog[1..]) && hw.buttons == old(hw.buttons)
    {
      var raw := hw.ReadRaw();
      q := Quantize(raw);
      var comb := OnText(q);
      if value != Some(q) {
        hw.SetColon(true);
        hw.ShowText(comb);
        hw.Sleep(UpdatePause);
      }
      value := Some(q);
    }

    /**
     * `run`: the polling loop. It leaves on the first button reading of 0;
     * when the scripts run out first it returns in phase Running.
     */
    method Run() returns (phase: Phase)
      modifies this, hw
      ensures hw.trace == old(hw.trace) + RunEvents(old(value), old(hw.analog), old(hw.buttons))
      ensures value == RunValue(old(value), old(hw.analog), old(hw.buttons))
      ensures phase == if Stops(old(hw.analog), old(hw.buttons)) then Stopped else Running
      ensures hw.analog == old(hw.analog)[Iterations(old(hw.analog), old(hw.buttons))..]
      ensures hw.buttons == old(hw.buttons)[Iterations(old(hw.analog), old(hw.buttons))..]
    {
      ghost var a0, b0 := hw.analog, hw.buttons;
      ghost var total := hw.trace + RunEvents(value, a0, b0);
      ghost var last := RunValue(value, a0, b0);
      ghost var i := 0;
      while true
        invariant i <= |a0| && i <= |b0|
        invariant hw.analog == a0[i..] && hw.buttons == b0[i..]
        invariant total == hw.trace + RunEvents(value, hw.analog, hw.buttons)
        invariant last == RunValue(value, hw.analog, hw.buttons)
        invariant Stops(a0, b0) == Stops(hw.analog, hw.buttons)
        invariant Iterations(a0, b0) == i + Iterations(hw.analog, hw.buttons)
        decreases |hw.analog|
      {
        if hw.analog == [] || hw.buttons == [] {
          assert hw.trace == total && value == last;
          assert Iterations(a0, b0) == i;
          phase := Running;
          break;
        }
        ghost var prev, raw, level := value, hw.analog[0], hw.buttons[0];
        ghost var rest, restButtons := hw.analog[1..], hw.buttons[1..];
        ghost var before := hw.trace;
        ghost var later := RunEvents(Some(Quantize(raw)), rest, restButtons);
        RunUnfold(prev, hw.analog, hw.buttons);
        IterationTrace(before, prev, raw, level, later);
        hw.GpioOutput(GreenLed, true);
        var combination := ShowAnalogValue();
        var duty := DutyCycle(combination);
        hw.Scale(duty);
        var pressed := hw.GpioInput();
        i := i + 1;
        if pressed == 0 {
          hw.Scale(NeutralDuty);
          hw.ShowText("OFF");
          hw.GpioOutput(GreenLed, false);
          hw.GpioOutput(RedLed, true);
          assert total == before + IterationEvents(prev, raw, level);
          assert hw.trace == total && value == last;
          assert Iterations(a0, b0) == i;
          phase := Stopped;
          break;
        }
      }
    }

    /** `cleanup`: show "DEAD", switch everything off and release the pins and the servo. */
    method Cleanup()
      modifies hw
      ensures hw.trace == old(hw.trace) + CleanupEvents
      ensures hw.analog == old(hw.analog) && hw.buttons == old(hw.buttons)
    {
      hw.ShowText("DEAD");
      hw.SetColon(false);
      hw.GpioOutput(RedLed, false);
      hw.GpioOutput(GreenLed, false);
      hw.GpioCleanup();
      hw.ServoCleanup();
    }
  }
}

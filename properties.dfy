/**
 * What the controller promises, stated over the event functions that specify
 * its methods: change-detecting display writes, the loop's ordering and exit,
 * the state the device is left in by the button branch and by `cleanup`.
 */
module ControllerProperties {

  import opened Wrappers
  import opened Grip
  import opened Devices
  import opened Controller

  /** The display shows the level of the cached sample, with the colon on. */
  ghost predicate Coherent(p: Panel, cache: Option<int>)
  {
    cache.Some? ==> p.text == Some(OnText(cache.value)) && p.colon
  }

  // ---------------------------------------------------------------------------
  // show_analog_value

  /** The panel after one `show_analog_value` call: only colon and text change, and only if the sample changed. */
  lemma ShowPanel(p: Panel, prev: Option<int>, raw: int)
    ensures var q := Quantize(raw);
      Replay(p, ShowEvents(prev, raw))
      == if prev != Some(q) then p.(colon := true, text := Some(OnText(q))) else p
  {
    var q := Quantize(raw);
    var rest: seq<Event> := if prev != Some(q) then [Colon(true), Text(OnText(q)), Pause(UpdatePause)] else [];
    assert ShowEvents(prev, raw) == [AdcRead(raw)] + rest;
    Literal1(p, AdcRead(raw));
    Literal3(p, Colon(true), Text(OnText(q)), Pause(UpdatePause));
    ReplayAppend(p, [AdcRead(raw)], rest);
  }

  /**
   * One `show_analog_value` call writes "ON<level>" once if the sample changed
   * (always on the first call, from an empty cache) and nothing otherwise; it
   * never drives the servo.
   */
  lemma ShowTallies(prev: Option<int>, raw: int)
    ensures var q := Quantize(raw);
      Texts(ShowEvents(prev, raw)) == if prev != Some(q) then [OnText(q)] else []
    ensures Writes(ShowEvents(prev, raw)) == if prev != Some(Quantize(raw)) then 1 else 0
    ensures Duties(ShowEvents(prev, raw)) == []
  {
    var q := Quantize(raw);
    Tally1(AdcRead(raw));
    if prev != Some(q) {
      var rest := [Colon(true), Text(OnText(q)), Pause(UpdatePause)];
      Tally3(Colon(true), Text(OnText(q)), Pause(UpdatePause));
      WritesAppend([AdcRead(raw)], rest);
      DutiesAppend([AdcRead(raw)], rest);
      TextsAppend([AdcRead(raw)], rest);
    } else {
      assert ShowEvents(prev, raw) == [AdcRead(raw)];
    }
  }

  /** One `show_analog_value` call neither sets the green LED high nor shows "OFF". */
  lemma ShowCounts(prev: Option<int>, raw: int)
    ensures var m := multiset(ShowEvents(prev, raw));
      m[GpioOut(GreenLed, true)] == 0 && m[Text("OFF")] == 0
  {
    var q := Quantize(raw);
    var t := ShowEvents(prev, raw);
    if prev != Some(q) {
      OnTextDistinct(q);
      assert t == [AdcRead(raw), Colon(true), Text(OnText(q)), Pause(UpdatePause)];
    } else {
      assert t == [AdcRead(raw)];
    }
  }

  /** What is written is "ON<level>" of the new sample, and it is written exactly when the sample changed. */
  lemma ShowTextIsLevel(prev: Option<int>, raw: int)
    ensures Text(OnText(Quantize(raw))) in ShowEvents(prev, raw) <==> prev != Some(Quantize(raw))
    ensures forall e :: e in ShowEvents(prev, raw) && e.Text? ==> e.text == OnText(Quantize(raw))
  {
    var q := Quantize(raw);
    var show := ShowEvents(prev, raw);
    if prev != Some(q) {
      assert show == [AdcRead(raw), Colon(true), Text(OnText(q)), Pause(UpdatePause)];
    } else {
      assert show == [AdcRead(raw)];
    }
  }

  /** Reading the same sample twice in a row writes the display at most once, and once from an empty cache. */
  lemma ShowTwiceWritesOnce(prev: Option<int>, raw: int)
    ensures Writes(ShowEvents(prev, raw) + ShowEvents(Some(Quantize(raw)), raw))
            == if prev == Some(Quantize(raw)) then 0 else 1
  {
    ShowTallies(prev, raw);
    ShowTallies(Some(Quantize(raw)), raw);
    WritesAppend(ShowEvents(prev, raw), ShowEvents(Some(Quantize(raw)), raw));
  }

  /** Two readings with different quantized samples write the display twice. */
  lemma ShowChangedWritesTwice(raw1: int, raw2: int)
    requires Quantize(raw1) != Quantize(raw2)
    ensures Writes(ShowEvents(None, raw1) + ShowEvents(Some(Quantize(raw1)), raw2)) == 2
  {
    ShowTallies(None, raw1);
    ShowTallies(Some(Quantize(raw1)), raw2);
    WritesAppend(ShowEvents(None, raw1), ShowEvents(Some(Quantize(raw1)), raw2));
  }

  /**
   * Skipping the write is harmless: if the display showed the cached sample,
   * afterwards it shows the new one. Nothing but the display changes.
   */
  lemma ShowKeepsDisplayCurrent(p: Panel, prev: Option<int>, raw: int)
    requires Coherent(p, prev)
    ensures var p' := Replay(p, ShowEvents(prev, raw));
      && p'.text == Some(OnText(Quantize(raw))) && p'.colon
      && p'.red == p.red && p'.green == p.green && p'.duty == p.duty
      && p'.gpioReleased == p.gpioReleased && p'.servoReleased == p.servoReleased
  {
    ShowPanel(p, prev, raw);
  }

  // ---------------------------------------------------------------------------
  // One iteration of run

  /** The panel after the servo command and the button check; a press puts the device in the off state. */
  lemma CheckPanel(p: Panel, q: int, level: int)
    ensures var checked := p.(duty := Some(DutyCycle(q)));
      Replay(p, CheckEvents(q, level))
      == if level == 0 then checked.(duty := Some(NeutralDuty), text := Some("OFF"), green := false, red := true)
         else checked
  {
    var mid := [ServoScale(DutyCycle(q)), GpioIn(level)];
    var stop := if level == 0 then StopEvents else [];
    Literal2(p, ServoScale(DutyCycle(q)), GpioIn(level));
    if level == 0 {
      Literal4(p.(duty := Some(DutyCycle(q))), ServoScale(NeutralDuty), Text("OFF"),
               GpioOut(GreenLed, false), GpioOut(RedLed, true));
    }
    ReplayAppend(p, mid, stop);
  }

  /** The servo commands and display writes of the check: only "OFF", and only after a press. */
  lemma CheckTallies(q: int, level: int)
    ensures var t := CheckEvents(q, level);
      && Duties(t) == [DutyCycle(q)] + (if level == 0 then [NeutralDuty] else [])
      && Writes(t) == (if level == 0 then 1 else 0)
      && Texts(t) == (if level == 0 then ["OFF"] else [])
  {
    var mid := [ServoScale(DutyCycle(q)), GpioIn(level)];
    Tally2(ServoScale(DutyCycle(q)), GpioIn(level));
    if level == 0 {
      Tally4(ServoScale(NeutralDuty), Text("OFF"), GpioOut(GreenLed, false), GpioOut(RedLed, true));
      DutiesAppend(mid, StopEvents);
      WritesAppend(mid, StopEvents);
      TextsAppend(mid, StopEvents);
    } else {
      assert CheckEvents(q, level) == mid;
    }
  }

  /** The check never sets the green LED high, and shows "OFF" once exactly after a press. */
  lemma CheckCounts(q: int, level: int)
    ensures var m := multiset(CheckEvents(q, level));
      m[GpioOut(GreenLed, true)] == 0 && m[Text("OFF")] == (if level == 0 then 1 else 0)
  {
    var t := CheckEvents(q, level);
    if level == 0 {
      assert t == [ServoScale(DutyCycle(q)), GpioIn(level), ServoScale(NeutralDuty), Text("OFF"),
                   GpioOut(GreenLed, false), GpioOut(RedLed, true)];
    } else {
      assert t == [ServoScale(DutyCycle(q)), GpioIn(level)];
    }
  }

  /** The panel after one loop iteration: green high, the display update, then the check. */
  lemma IterationFacts(p: Panel, prev: Option<int>, raw: int, level: int)
    ensures var shown := Replay(p.(green := true), ShowEvents(prev, raw));
      Replay(p, IterationEvents(prev, raw, level)) == Replay(shown, CheckEvents(Quantize(raw), level))
  {
    var head := [GpioOut(GreenLed, true)];
    var show := ShowEvents(prev, raw);
    Literal1(p, GpioOut(GreenLed, true));
    ReplayAppend(p, head, show);
    ReplayAppend(p, head + show, CheckEvents(Quantize(raw), level));
  }

  /** One iteration sends the servo the sample's duty cycle and, after a press, the neutral one. */
  lemma IterationDuties(prev: Option<int>, raw: int, level: int)
    ensures Duties(IterationEvents(prev, raw, level))
            == [DutyCycle(Quantize(raw))] + if level == 0 then [NeutralDuty] else []
  {
    var head := [GpioOut(GreenLed, true)];
    var show := ShowEvents(prev, raw);
    Tally1(GpioOut(GreenLed, true));
    ShowTallies(prev, raw);
    CheckTallies(Quantize(raw), level);
    DutiesAppend(head, show);
    DutiesAppend(head + show, CheckEvents(Quantize(raw), level));
  }

  /** One iteration writes the display once if the sample changed, and once more for "OFF" after a press. */
  lemma IterationWrites(prev: Option<int>, raw: int, level: int)
    ensures Writes(IterationEvents(prev, raw, level))
            == (if prev != Some(Quantize(raw)) then 1 else 0) + (if level == 0 then 1 else 0)
  {
    var head := [GpioOut(GreenLed, true)];
    var show := ShowEvents(prev, raw);
    Tally1(GpioOut(GreenLed, true));
    ShowTallies(prev, raw);
    CheckTallies(Quantize(raw), level);
    WritesAppend(head, show);
    WritesAppend(head + show, CheckEvents(Quantize(raw), level));
  }

  /** The texts of one iteration: "ON<level>" if the sample changed, then "OFF" after a press. */
  lemma IterationTexts(prev: Option<int>, raw: int, level: int)
    ensures var q := Quantize(raw);
      Texts(IterationEvents(prev, raw, level))
      == (if prev != Some(q) then [OnText(q)] else []) + (if level == 0 then ["OFF"] else [])
  {
    var head := [GpioOut(GreenLed, true)];
    var show := ShowEvents(prev, raw);
    Tally1(GpioOut(GreenLed, true));
    ShowTallies(prev, raw);
    CheckTallies(Quantize(raw), level);
    TextsAppend(head, show);
    assert Texts(head + show) == Texts(show);
    TextsAppend(head + show, CheckEvents(Quantize(raw), level));
  }

  /** One iteration sets the green LED high once, and shows "OFF" once exactly when it sees a press. */
  lemma IterationCounts(prev: Option<int>, raw: int, level: int)
    ensures var m := multiset(IterationEvents(prev, raw, level));
      m[GpioOut(GreenLed, true)] == 1 && m[Text("OFF")] == if level == 0 then 1 else 0
  {
    var head := [GpioOut(GreenLed, true)];
    var show := ShowEvents(prev, raw);
    var check := CheckEvents(Quantize(raw), level);
    ShowCounts(prev, raw);
    CheckCounts(Quantize(raw), level);
    assert multiset(head + show + check) == multiset(head) + multiset(show) + multiset(check);
  }

  /** The state one iteration leaves behind: green on and the display current, or the off state after a press. */
  lemma IterationPanel(p: Panel, prev: Option<int>, raw: int, level: int)
    requires Coherent(p, prev)
    ensures var p' := Replay(p, IterationEvents(prev, raw, level));
      && (level != 0 ==> p'.green && Coherent(p', Some(Quantize(raw)))
                         && p'.duty == Some(DutyCycle(Quantize(raw))) && p'.red == p.red)
      && (level == 0 ==> p'.red && !p'.green && p'.text == Some("OFF") && p'.duty == Some(NeutralDuty))
  {
    IterationFacts(p, prev, raw, level);
    ShowKeepsDisplayCurrent(p.(green := true), prev, raw);
    CheckPanel(Replay(p.(green := true), ShowEvents(prev, raw)), Quantize(raw), level);
  }

  // ---------------------------------------------------------------------------
  // run

  /** The loop stops exactly when some button reading within the scripts is 0. */
  lemma {:induction false} StopsIffPressed(analog: seq<int>, buttons: seq<int>)
    ensures Stops(analog, buttons) <==> exists k :: 0 <= k < |analog| && k < |buttons| && buttons[k] == 0
    decreases |analog|
  {
    if analog != [] && buttons != [] {
      StopsIffPressed(analog[1..], buttons[1..]);
      if buttons[0] != 0 && Stops(analog, buttons) {
        var k :| 0 <= k < |analog| - 1 && k < |buttons| - 1 && buttons[1..][k] == 0;
        assert buttons[k + 1] == 0;
      }
      if buttons[0] != 0 && !Stops(analog, buttons) {
        forall k | 0 <= k < |analog| && k < |buttons|
          ensures buttons[k] != 0
        {
          if k > 0 { assert buttons[k] == buttons[1..][k - 1]; }
        }
      }
    }
  }

  /** The cached sample after `run` is that of the last iteration executed. */
  lemma {:induction false} RunValueIsLastSample(prev: Option<int>, analog: seq<int>, buttons: seq<int>)
    ensures var n := Iterations(analog, buttons);
      RunValue(prev, analog, buttons) == if n == 0 then prev else Some(Quantize(analog[n - 1]))
    decreases |analog|
  {
    if analog != [] && buttons != [] && buttons[0] != 0 {
      RunValueIsLastSample(Some(Quantize(analog[0])), analog[1..], buttons[1..]);
    }
  }

  /**
   * The servo receives the duty cycle of each iteration's sample, in order;
   * after a press one more command, the neutral 8.5, which is the last.
   */
  lemma {:induction false} RunDuties(prev: Option<int>, analog: seq<int>, buttons: seq<int>)
    ensures var d := Duties(RunEvents(prev, analog, buttons));
      var n := Iterations(analog, buttons);
      && |d| == n + (if Stops(analog, buttons) then 1 else 0)
      && (forall i :: 0 <= i < n ==> d[i] == DutyCycle(Quantize(analog[i])))
      && (Stops(analog, buttons) ==> d[|d| - 1] == NeutralDuty)
    decreases |analog|
  {
    if analog != [] && buttons != [] {
      IterationDuties(prev, analog[0], buttons[0]);
      if buttons[0] != 0 {
        var q := Quantize(analog[0]);
        var it := IterationEvents(prev, analog[0], buttons[0]);
        var later := RunEvents(Some(q), analog[1..], buttons[1..]);
        assert RunEvents(prev, analog, buttons) == it + later;
        assert Iterations(analog, buttons) == 1 + Iterations(analog[1..], buttons[1..]);
        RunDuties(Some(q), analog[1..], buttons[1..]);
        DutiesAppend(it, later);
        var d := Duties(it + later);
        forall i | 0 <= i < Iterations(analog, buttons)
          ensures d[i] == DutyCycle(Quantize(analog[i]))
        {
          if i > 0 {
            assert d[i] == Duties(later)[i - 1];
            assert analog[1..][i - 1] == analog[i];
          }
        }
      } else {
        assert RunEvents(prev, analog, buttons) == IterationEvents(prev, analog[0], buttons[0]);
      }
    }
  }

  /** How many of the first `n` samples differ, once quantized, from the sample before them (`prev` before the first). */
  function ChangedSamples(prev: Option<int>, analog: seq<int>, n: nat): nat
    requires n <= |analog|
    decreases n
  {
    if n == 0 then 0
    else (if prev != Some(Quantize(analog[0])) then 1 else 0)
         + ChangedSamples(Some(Quantize(analog[0])), analog[1..], n - 1)
  }

  /** The run writes the display once per changed sample, and once more for "OFF" after a press. */
  lemma {:induction false} RunWrites(prev: Option<int>, analog: seq<int>, buttons: seq<int>)
    ensures Writes(RunEvents(prev, analog, buttons))
            == ChangedSamples(prev, analog, Iterations(analog, buttons)) + if Stops(analog, buttons) then 1 else 0
    decreases |analog|
  {
    if analog != [] && buttons != [] {
      IterationWrites(prev, analog[0], buttons[0]);
      var q := Quantize(analog[0]);
      var it := IterationEvents(prev, analog[0], buttons[0]);
      if buttons[0] != 0 {
        var later := RunEvents(Some(q), analog[1..], buttons[1..]);
        assert RunEvents(prev, analog, buttons) == it + later;
        var n := Iterations(analog[1..], buttons[1..]);
        assert Iterations(analog, buttons) == 1 + n;
        assert ChangedSamples(prev, analog, 1 + n)
               == (if prev != Some(q) then 1 else 0) + ChangedSamples(Some(q), analog[1..], n);
        RunWrites(Some(q), analog[1..], buttons[1..]);
        WritesAppend(it, later);
      } else {
        assert RunEvents(prev, analog, buttons) == it;
      }
    }
  }

  /** The green LED is switched on once per iteration; "OFF" is shown once after a press and never otherwise. */
  lemma {:induction false} RunCounts(prev: Option<int>, analog: seq<int>, buttons: seq<int>)
    ensures var m := multiset(RunEvents(prev, analog, buttons));
      && m[GpioOut(GreenLed, true)] == Iterations(analog, buttons)
      && m[Text("OFF")] == if Stops(analog, buttons) then 1 else 0
    decreases |analog|
  {
    if analog != [] && buttons != [] {
      var q := Quantize(analog[0]);
      var it := IterationEvents(prev, analog[0], buttons[0]);
      IterationCounts(prev, analog[0], buttons[0]);
      if buttons[0] != 0 {
        var later := RunEvents(Some(q), analog[1..], buttons[1..]);
        assert RunEvents(prev, analog, buttons) == it + later;
        assert multiset(it + later) == multiset(it) + multiset(later);
        RunCounts(Some(q), analog[1..], buttons[1..]);
      } else {
        assert RunEvents(prev, analog, buttons) == it;
      }
    }
  }

  lemma EndsWithAppend(a: seq<Event>, b: seq<Event>, s: seq<Event>)
    requires |b| >= |s| && b[|b| - |s|..] == s
    ensures |a + b| >= |s| && (a + b)[|a + b| - |s|..] == s
  {
    assert (a + b)[|a + b| - |s|..] == b[|b| - |s|..];
  }

  /** After a press the run's events end with servo 8.5, "OFF", green low, red high, in that order. */
  lemma {:induction false} RunEndsWithStop(prev: Option<int>, analog: seq<int>, buttons: seq<int>)
    requires Stops(analog, buttons)
    ensures var t := RunEvents(prev, analog, buttons);
      |t| >= |StopEvents| && t[|t| - |StopEvents|..] == StopEvents
    decreases |analog|
  {
    var q := Quantize(analog[0]);
    var it := IterationEvents(prev, analog[0], buttons[0]);
    if buttons[0] == 0 {
      assert RunEvents(prev, analog, buttons) == it;
      var mid := [ServoScale(DutyCycle(q)), GpioIn(buttons[0])];
      EndsWithAppend(mid, StopEvents, StopEvents);
      EndsWithAppend([GpioOut(GreenLed, true)] + ShowEvents(prev, analog[0]), mid + StopEvents, StopEvents);
    } else {
      var later := RunEvents(Some(q), analog[1..], buttons[1..]);
      assert RunEvents(prev, analog, buttons) == it + later;
      RunEndsWithStop(Some(q), analog[1..], buttons[1..]);
      EndsWithAppend(it, later, StopEvents);
    }
  }

  /**
   * While the loop runs, the display shows the current sample's level and the
   * green LED is on; once it stops, the device is in the off state: red on,
   * green off, "OFF" on the display, the servo at rest.
   */
  lemma {:induction false} RunPanel(p: Panel, prev: Option<int>, analog: seq<int>, buttons: seq<int>)
    requires Coherent(p, prev)
    ensures var p' := Replay(p, RunEvents(prev, analog, buttons));
      && (Stops(analog, buttons) ==>
            p'.red && !p'.green && p'.text == Some("OFF") && p'.duty == Some(NeutralDuty))
      && (!Stops(analog, buttons) ==> Coherent(p', RunValue(prev, analog, buttons)))
      && (!Stops(analog, buttons) && Iterations(analog, buttons) > 0 ==> p'.green)
    decreases |analog|
  {
    if analog != [] && buttons != [] {
      var q := Quantize(analog[0]);
      var it := IterationEvents(prev, analog[0], buttons[0]);
      IterationPanel(p, prev, analog[0], buttons[0]);
      if buttons[0] == 0 {
        assert RunEvents(prev, analog, buttons) == it;
      } else {
        var later := RunEvents(Some(q), analog[1..], buttons[1..]);
        ReplayAppend(p, it, later);
        RunPanel(Replay(p, it), Some(q), analog[1..], buttons[1..]);
      }
    }
  }

  /** Every ADC read comes straight after the green LED is set high. */
  ghost predicate ReadsAfterGreen(t: seq<Event>)
  {
    forall i :: 0 <= i < |t| && t[i].AdcRead? ==> 0 < i && t[i - 1] == GpioOut(GreenLed, true)
  }

  /** Every button check comes straight after a servo command. */
  ghost predicate ButtonAfterServo(t: seq<Event>)
  {
    forall i :: 0 <= i < |t| && t[i].GpioIn? ==> 0 < i && t[i - 1].ServoScale?
  }

  lemma OrderAppend(a: seq<Event>, b: seq<Event>)
    requires ReadsAfterGreen(a) && ButtonAfterServo(a)
    requires ReadsAfterGreen(b) && ButtonAfterServo(b)
    ensures ReadsAfterGreen(a + b) && ButtonAfterServo(a + b)
  {
    var t := a + b;
    forall i | 0 <= i < |t| && t[i].AdcRead?
      ensures 0 < i && t[i - 1] == GpioOut(GreenLed, true)
    {
      if i >= |a| { assert t[i] == b[i - |a|]; }
    }
    forall i | 0 <= i < |t| && t[i].GpioIn?
      ensures 0 < i && t[i - 1].ServoScale?
    {
      if i >= |a| { assert t[i] == b[i - |a|]; }
    }
  }

  /**
   * The first part of an iteration: the green LED goes high and the ADC is
   * read straight after, once; the display update neither drives the servo
   * nor checks the button.
   */
  lemma ShowOrder(prev: Option<int>, raw: int)
    ensures var t := [GpioOut(GreenLed, true)] + ShowEvents(prev, raw);
      && ReadsAfterGreen(t) && ButtonAfterServo(t)
      && |t| >= 2 && t[..2] == [GpioOut(GreenLed, true), AdcRead(raw)]
      && (forall i :: 0 <= i < |t| && t[i].AdcRead? ==> i == 1)
      && (forall e :: e in t ==> !e.GpioIn? && !e.ServoScale?)
  {
    var q := Quantize(raw);
    var t := [GpioOut(GreenLed, true)] + ShowEvents(prev, raw);
    if prev != Some(q) {
      assert t == [GpioOut(GreenLed, true), AdcRead(raw), Colon(true), Text(OnText(q)), Pause(UpdatePause)];
    } else {
      assert t == [GpioOut(GreenLed, true), AdcRead(raw)];
    }
  }

  /**
   * The end of an iteration: the servo gets the sample's duty cycle and the
   * button is checked straight after, once; no ADC read occurs.
   */
  lemma CheckOrder(q: int, level: int)
    ensures var t := CheckEvents(q, level);
      && ReadsAfterGreen(t) && ButtonAfterServo(t)
      && |t| >= 2 && t[..2] == [ServoScale(DutyCycle(q)), GpioIn(level)]
      && (forall i :: 0 <= i < |t| && t[i].GpioIn? ==> i == 1)
      && (forall e :: e in t ==> !e.AdcRead?)
  {
    var t := CheckEvents(q, level);
    if level == 0 {
      assert t == [ServoScale(DutyCycle(q)), GpioIn(level), ServoScale(NeutralDuty), Text("OFF"),
                   GpioOut(GreenLed, false), GpioOut(RedLed, true)];
    } else {
      assert t == [ServoScale(DutyCycle(q)), GpioIn(level)];
    }
  }

  /**
   * One iteration: green high, then the one ADC read; after the display
   * update, the servo command `duty_cycle_calc(q)` and then the one button check.
   */
  lemma IterationOrder(prev: Option<int>, raw: int, level: int)
    ensures var t := IterationEvents(prev, raw, level);
      var k := |ShowEvents(prev, raw)| + 1;
      && ReadsAfterGreen(t) && ButtonAfterServo(t)
      && |t| >= k + 2
      && t[..2] == [GpioOut(GreenLed, true), AdcRead(raw)]
      && t[k..k + 2] == [ServoScale(DutyCycle(Quantize(raw))), GpioIn(level)]
      && (forall i :: 0 <= i < |t| && t[i].AdcRead? ==> i == 1)
      && (forall i :: 0 <= i < |t| && t[i].GpioIn? ==> i == k + 1)
  {
    var h := [GpioOut(GreenLed, true)] + ShowEvents(prev, raw);
    var c := CheckEvents(Quantize(raw), level);
    var t := h + c;
    var k := |h|;
    ShowOrder(prev, raw);
    CheckOrder(Quantize(raw), level);
    OrderAppend(h, c);
    assert t[..2] == h[..2];
    assert t[k..k + 2] == c[..2];
    forall i | 0 <= i < |t| && t[i].AdcRead?
      ensures i == 1
    {
      if i < k { assert t[i] == h[i]; }
    }
    forall i | 0 <= i < |t| && t[i].GpioIn?
      ensures i == k + 1
    {
      if i >= k { assert t[i] == c[i - k]; }
    }
  }

  /**
   * Throughout `run` each iteration reads the ADC right after switching the
   * green LED on, and checks the button right after driving the servo.
   */
  lemma {:induction false} RunOrder(prev: Option<int>, analog: seq<int>, buttons: seq<int>)
    ensures var t := RunEvents(prev, analog, buttons);
      ReadsAfterGreen(t) && ButtonAfterServo(t) && (t != [] ==> t[0] == GpioOut(GreenLed, true))
    decreases |analog|
  {
    if analog != [] && buttons != [] {
      var it := IterationEvents(prev, analog[0], buttons[0]);
      IterationOrder(prev, analog[0], buttons[0]);
      if buttons[0] == 0 {
        assert RunEvents(prev, analog, buttons) == it;
      } else {
        var later := RunEvents(Some(Quantize(analog[0])), analog[1..], buttons[1..]);
        RunOrder(Some(Quantize(analog[0])), analog[1..], buttons[1..]);
        OrderAppend(it, later);
        assert (it + later)[0] == it[0];
      }
    }
  }

  // ---------------------------------------------------------------------------
  // cleanup

  /** `cleanup` leaves the display on "DEAD" without colon, both LEDs low, pins and servo released. */
  lemma CleanupLeavesDeviceSafe(p: Panel)
    ensures var p' := Replay(p, CleanupEvents);
      && !p'.red && !p'.green && !p'.colon && p'.text == Some("DEAD")
      && p'.gpioReleased && p'.servoReleased && p'.duty == p.duty
  {
    assert CleanupEvents[1..][1..][1..][1..][1..][1..] == [];
  }

  /** Whatever the device went through before, including an interrupted `run`, `cleanup` leaves it safe. */
  lemma CleanupAfterAnyTrace(p: Panel, t: seq<Event>)
    ensures var p' := Replay(p, t + CleanupEvents);
      && !p'.red && !p'.green && !p'.colon && p'.text == Some("DEAD")
      && p'.gpioReleased && p'.servoReleased
  {
    ReplayAppend(p, t, CleanupEvents);
    CleanupLeavesDeviceSafe(Replay(p, t));
  }

  /** Calling `cleanup` a second time changes nothing visible. */
  lemma CleanupIdempotent(p: Panel)
    ensures Replay(p, CleanupEvents + CleanupEvents) == Replay(p, CleanupEvents)
  {
    ReplayAppend(p, CleanupEvents, CleanupEvents);
    CleanupLeavesDeviceSafe(p);
    CleanupLeavesDeviceSafe(Replay(p, CleanupEvents));
  }

  /** Each of the six cleanup commands is issued exactly once. */
  lemma CleanupOnceEach()
    ensures forall e :: e in CleanupEvents ==> multiset(CleanupEvents)[e] == 1
    ensures |CleanupEvents| == 6
  {
  }
}

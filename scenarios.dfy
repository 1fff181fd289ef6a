/**
 * Concrete runs of the controller on fresh hardware, as a user of the class
 * would write them: the expected outcomes follow from the method
 * specifications and the lemmas alone.
 */
module Scenarios {

  import opened Wrappers
  import opened Grip
  import opened Devices
  import opened Controller
  import opened ControllerProperties

  /** The same reading twice from a fresh controller writes the display once. */
  method SameSampleTwice(raw: int) returns (writes: nat, q1: int, q2: int)
    ensures writes == 1
    ensures q1 == q2 == Quantize(raw)
  {
    var hw := new Hardware([raw, raw], []);
    var c := new FingerAug(hw);
    q1 := c.ShowAnalogValue();
    q2 := c.ShowAnalogValue();
    assert hw.trace == ShowEvents(None, raw) + ShowEvents(Some(Quantize(raw)), raw);
    ShowTwiceWritesOnce(None, raw);
    writes := Writes(hw.trace);
  }

  /** Two readings that quantize differently write the display twice. */
  method DifferentSamples(raw1: int, raw2: int) returns (writes: nat)
    requires Quantize(raw1) != Quantize(raw2)
    ensures writes == 2
  {
    var hw := new Hardware([raw1, raw2], []);
    var c := new FingerAug(hw);
    var _ := c.ShowAnalogValue();
    var _ := c.ShowAnalogValue();
    assert hw.trace == ShowEvents(None, raw1) + ShowEvents(Some(Quantize(raw1)), raw2);
    ShowChangedWritesTwice(raw1, raw2);
    writes := Writes(hw.trace);
  }

  /** The script of readings 16 and 400 with the button pressed on the second iteration. */
  lemma PressScript()
    ensures Stops([16, 400], [1, 0]) && Iterations([16, 400], [1, 0]) == 2
    ensures RunEvents(None, [16, 400], [1, 0]) == IterationEvents(None, 16, 1) + IterationEvents(Some(1), 400, 0)
  {
    var analog, buttons := [16, 400], [1, 0];
    assert analog[1..] == [400] && buttons[1..] == [0];
    assert RunEvents(Some(1), [400], [0]) == IterationEvents(Some(1), 400, 0);
  }

  /** On that script the display shows the level of sample 1, that of sample 25, and then "OFF". */
  lemma PressScriptTexts()
    ensures Texts(RunEvents(None, [16, 400], [1, 0])) == [OnText(1), OnText(25), "OFF"]
  {
    PressScript();
    var t1, t2 := IterationEvents(None, 16, 1), IterationEvents(Some(1), 400, 0);
    assert Quantize(16) == 1 && Quantize(400) == 25;
    IterationTexts(None, 16, 1);
    assert Texts(t1) == [OnText(1)];
    IterationTexts(Some(1), 400, 0);
    assert Texts(t2) == [OnText(25), "OFF"];
    TextsAppend(t1, t2);
  }

  /** On that script the servo gets duty(1), duty(25) and then the neutral 8.5. */
  lemma PressScriptDuties()
    ensures Duties(RunEvents(None, [16, 400], [1, 0])) == [DutyCycle(1), DutyCycle(25), NeutralDuty]
  {
    PressScript();
    var t1, t2 := IterationEvents(None, 16, 1), IterationEvents(Some(1), 400, 0);
    assert Quantize(16) == 1 && Quantize(400) == 25;
    IterationDuties(None, 16, 1);
    assert Duties(t1) == [DutyCycle(1)];
    IterationDuties(Some(1), 400, 0);
    assert Duties(t2) == [DutyCycle(25), NeutralDuty];
    DutiesAppend(t1, t2);
  }

  /**
   * Readings 16 and then 400 (both level 5), the button pressed on the second
   * iteration: "ON5" is written twice, then "OFF", and the device is off.
   */
  method PressOnSecondIteration(p: Panel)
    returns (phase: Phase, shown: Panel, writes: nat, texts: seq<string>, servo: seq<real>)
    ensures phase == Stopped
    ensures shown.red && !shown.green && shown.text == Some("OFF") && shown.duty == Some(NeutralDuty)
    ensures writes == 3 && texts == ["ON5", "ON5", "OFF"]
    ensures servo == [DutyCycle(1), DutyCycle(25), NeutralDuty]
  {
    var hw := new Hardware([16, 400], [1, 0]);
    var c := new FingerAug(hw);
    phase := c.Run();
    assert hw.trace == RunEvents(None, [16, 400], [1, 0]);
    PressScript();
    PressScriptTexts();
    PressScriptDuties();
    SampleValues();
    RunPanel(p, None, [16, 400], [1, 0]);
    shown := Replay(p, hw.trace);
    writes := Writes(hw.trace);
    texts := Texts(hw.trace);
    servo := Duties(hw.trace);
  }
}

/**
 * Sketch-level uses of `AutoTest`: what a test program observes when it
 * calls the replaced pin functions one after the other.
 */
module Scenarios {
  import opened Arduino
  import opened DescriptorTable
  import opened TestCaseTable
  import opened PinRegistry
  import opened AutoTestCore

  /** A sketch's `setup()`: the object is built, reads of value `omit` are
    * silenced before `begin`, and `begin` keeps that setting while it
    * establishes the invariant. */
  method SetUp(numberOfPins: uint8, numberOfInputPins: uint8, pinHeaders: string, testCases: string,
               omit: uint8, now: nat) returns (at: AutoTest)
    requires DescriptorWalkOk(pinHeaders, 0) && |Descriptors(pinHeaders, 0)| <= numberOfPins
    requires Vectors(testCases, 0, numberOfInputPins, MAX_TEST_CASES).Some?
    ensures at.Valid() && at.omitDisplayIf == omit
  {
    at := new AutoTest(numberOfPins, numberOfInputPins, pinHeaders, testCases);
    at.DoNotDisplayReadsIf(omit);
    at.Begin(false, now);
  }

  /** A digital write of LOW or HIGH to a known pin, followed by a digital
    * read of the same pin before the pending vector is due, reads back the
    * value written. */
  method WriteThenRead(at: AutoTest, pin: uint8, val: uint8, now: nat) returns (r: uint8)
    requires at.Valid() && !at.Due(now)
    requires SlotOf(at.Ids(), pin) < at.numberOfPins && (val == LOW || val == HIGH)
    modifies at, at.pinVal, at.nextInputValues, at.serial
    ensures r == val
  {
    at.CallDigitalWrite(pin, val);
    r := at.CallDigitalRead(pin, now);
  }

  /** An analog write of any 8-bit value to a known pin, followed by an
    * analog read of that pin before the pending vector is due, reads back
    * the value written. */
  method AnalogWriteThenRead(at: AutoTest, pin: uint8, val: uint8, now: nat) returns (r: int16)
    requires at.Valid() && !at.Due(now)
    requires pin == AnalogPin(pin) && SlotOf(at.Ids(), pin) < at.numberOfPins
    modifies at, at.pinVal, at.nextInputValues, at.serial
    ensures r == val
  {
    at.CallAnalogWrite(pin, val);
    r := at.CallAnalogRead(pin, now);
  }

  /** Once the walk over the test-case table has ended, reads never change
    * a pin value again. */
  method ReadAfterExhaustion(at: AutoTest, pin: uint8, now: nat) returns (r: uint8)
    requires at.Valid() && at.nextTestCaseNumber == EXHAUSTED
    modifies at, at.pinVal, at.nextInputValues, at.serial
    ensures at.pinVal[..] == old(at.pinVal[..]) && at.nextTestCaseNumber == EXHAUSTED
  {
    r := at.CallDigitalRead(pin, now);
  }
}

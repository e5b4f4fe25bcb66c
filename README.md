# AutoTest, modelled in Dafny

AutoTest is an Arduino library. Its class offers replacements for `pinMode`,
`digitalRead`, `analogRead`, `digitalWrite` and `analogWrite`, so that a sketch can run
against a scripted test set instead of real hardware. The test set is two text tables held in flash:

- the pin header table, one record `<pin id>,<description>` per pin;
- the test-case table, one record `<description>,<v1>,...,<vN>,<delay>` per test vector.

Each record ends with a newline, and an empty line ends each table.

The `AutoTest` object has one slot per pin, holding the pin id, the mode and the value.
Writes set a slot and reads return one. Every read first checks whether the pending
test vector is due. When it is, the vector's values are copied into the input-mode
slots and the next vector is loaded. An activation, a digital write of LOW or HIGH to a
known pin, an analog write to a known pin, and a read of a known pin whose value differs
from `omitDisplayIf` are each reported as one line: the action text and then every slot's
value. `pinMode` and calls on unknown pins or with invalid values report nothing of the
kind.

The project is organised as follows:

- `arduino.dfy` (module `Arduino`): the integer widths, the mode and level constants, and
  the default analog channel mapping.
- `record_store.dfy` (module `RecordStore`): the table reader. It covers `getRecordLength`,
  `getToken`, the `atoi` that reads numbers and the `itoa` that writes them. A table is an
  immutable `string` and the cursor is a `nat` offset into it.
- `descriptor_table.dfy` (module `DescriptorTable`): the walk `_begin` makes over the pin
  header table, as a list of descriptors. It also renders a table and proves that the walk
  reads it back.
- `test_case_table.dfy` (module `TestCaseTable`): the walk `getTestCase` makes over the
  test-case table, capped at 10000 loads. It has the same render and read-back round trip.
- `pin_registry.dfy` (module `PinRegistry`): the value-level definitions the class is
  proved against:
  - the two columns of `pinMap`;
  - the slot `getPinIndex` finds;
  - the slot ids left behind by `_begin`;
  - the copy of a test vector into the input slots.
- `reporter.dfy` (module `Reporter`): the report `displayPins` writes, the action texts,
  the report line format, and the serial monitor as a log of reports.
- `auto_test.dfy` (module `AutoTestCore`): the class `AutoTest`.
  - Its fields are those of `AutoTest.h`. `pinMap`, `pinVal`, `pinDescriptions` and
    `nextInputValues` are arrays that the methods update in place.
  - The class invariant `Valid` ties the scheduler fields to the walk over the test-case
    table.
  - Ghost fields hold three things: the vectors the table yields (`table`), the offsets of
    their records (`starts`), and the vectors loaded so far (`loaded`).
- `scenarios.dfy` (module `Scenarios`): what a sketch observes over a sequence of calls.

The clock (`millis()`) is the parameter `now` of `Begin`, `ActivateNextTestCase` and the
two reads.

Behaviours of the code that the model keeps:

- A vector activates only when `now` is strictly after its activation moment
  (AutoTest/AutoTest.cpp:709).
- `callPinMode` gives HIGH to every mode other than INPUT and OUTPUT
  (AutoTest/AutoTest.cpp:273-277). The comment at AutoTest/AutoTest.cpp:252 names only
  INPUT_PULLUP.
- Input values are copied into the input slots in ascending slot order
  (AutoTest/AutoTest.cpp:718-727).
- `omitDisplayIf` starts at 99 (AutoTest/AutoTest.cpp:143). The comment at
  AutoTest/AutoTest.h:70 reads 99 as "display all", but both reads compare the value with
  `omitDisplayIf` (AutoTest/AutoTest.cpp:316 and 380), so a read of value 99 is not reported.

On the AVR boards the library targets, `int` is 16 bits. The model follows that where the
source stores a value in an `int` and returns it: `callAnalogRead`.

## Model

| member | source | states |
|---|---|---|
| Arduino.AnalogPin | AutoTest/AutoTest.cpp:365 | the pin `analogRead` looks up is always an analog pin (14 or above) |
| Arduino.AsInt16 | AutoTest/AutoTest.cpp:376 | a `uint16_t` stored into a 16-bit `int` keeps its bits modulo 65536, and is negative exactly when it is 32768 or more |
| Arduino.ChannelOrPin | AutoTest/AutoTest.cpp:365 | channel c and pin c+14 name the same pin |
| Arduino.AnalogPinIdempotent | AutoTest/AutoTest.cpp:365 | mapping any pin twice gives the same pin as mapping it once |
| RecordStore.FindFrom | AutoTest/AutoTest.cpp:630 | the `strchr_P` search returns an offset at or after the start that holds the character |
| RecordStore.FindFromFirst | AutoTest/AutoTest.cpp:630 | no earlier offset holds the character, so the search finds the first one |
| RecordStore.FindFromIs | AutoTest/AutoTest.cpp:630 | an offset holding the character with none before it is the one the search returns |
| RecordStore.HasAt | AutoTest/AutoTest.cpp:630 | a character present at some offset is found by a search from any earlier offset |
| RecordStore.RecordLength | AutoTest/AutoTest.cpp:626-635 | `getRecordLength` is the distance to a newline |
| RecordStore.RecordHasNoNewline | AutoTest/AutoTest.cpp:626-635 | the record before that newline holds no newline, so the distance is to the first one |
| RecordStore.GetToken | AutoTest/AutoTest.cpp:646-670 | `getToken` returns an offset past its start that follows a delimiter |
| RecordStore.TokenIsTextBeforeDelimiter | AutoTest/AutoTest.cpp:646-670 | the copied token is exactly the text from the start up to the returned offset, minus the delimiter, and it holds no delimiter |
| RecordStore.TokenAt | AutoTest/AutoTest.cpp:646-670 | a text followed by a delimiter it does not contain is read back as one token, and the cursor lands after the delimiter |
| RecordStore.LeadingDigits | AutoTest/AutoTest.cpp:221 | `atoi` reads the longest prefix of decimal digits |
| RecordStore.Itoa | AutoTest/AutoTest.cpp:496 | `itoa(.., 10)` writes a non-empty string of decimal digits |
| RecordStore.DigitsValueOfItoa | AutoTest/AutoTest.cpp:496 | the digits `itoa` writes have the value of the number |
| RecordStore.AtoiItoa | AutoTest/AutoTest.cpp:221 | `atoi` reads back any number that `itoa` wrote |
| RecordStore.DigitsHaveNoDelimiter | AutoTest/AutoTest.cpp:496 | a number written in decimal holds no comma, newline or separator |
| DescriptorTable.Descriptors | AutoTest/AutoTest.cpp:207-236 | the descriptors the loop in `_begin` reads, in table order; no description holds a newline |
| DescriptorTable.NextDescriptor | AutoTest/AutoTest.cpp:216-235 | a non-empty record gives the first descriptor (id = `atoi` of the text before the comma, narrowed to 8 bits); the walk continues past the record |
| DescriptorTable.DescriptorStep | AutoTest/AutoTest.cpp:218-228 | the two tokens of a record `<digits>,<description>\n` are the digits and the description |
| DescriptorTable.WalkStep | AutoTest/AutoTest.cpp:216-236 | a record already read is one descriptor followed by the walk from the next record |
| DescriptorTable.EndOfTable | AutoTest/AutoTest.cpp:216 | an empty line ends the walk with no descriptor |
| DescriptorTable.IdOfItoa | AutoTest/AutoTest.cpp:221 | a pin id written in decimal reads back as itself |
| DescriptorTable.FirstRecord | AutoTest/AutoTest.cpp:218-228 | the first record of a rendered table yields its first id and description |
| DescriptorTable.RenderStep | AutoTest/AutoTest.cpp:216-236 | the walk over a rendered table yields its first descriptor, then the rest of the table |
| DescriptorTable.DescriptorsOfRender | AutoTest/AutoTest.cpp:207-236 | the walk reads back exactly the descriptors a table was written from |
| DescriptorTable.DescriptorTableRoundTrip | AutoTest/AutoTest.cpp:207-236 | a rendered pin header table reads back as its descriptors |
| TestCaseTable.ParseValues | AutoTest/AutoTest.cpp:583-592 | the value loop reads exactly N values and moves the cursor forward |
| TestCaseTable.ParseVector | AutoTest/AutoTest.cpp:579-597 | a record read as a vector has N inputs and a description free of commas, and the cursor moves past it |
| TestCaseTable.Vectors | AutoTest/AutoTest.cpp:546-618 | the vectors the loads yield from an offset never outnumber the load budget (10000 from the start) |
| TestCaseTable.WalkStep | AutoTest/AutoTest.cpp:572-603 | a load over a record already read is that vector followed by the walk from the next record |
| TestCaseTable.EndOfVectors | AutoTest/AutoTest.cpp:572-610 | an empty record ends the walk with no vector |
| TestCaseTable.Starts | AutoTest/AutoTest.cpp:563-603 | the offsets where the loads begin; the first is where the walk starts |
| TestCaseTable.LoadAt | AutoTest/AutoTest.cpp:563-610 | the k-th load reads the k-th vector from the record at the k-th start and ends at the next start; below the cap, the load after the last vector finds the empty record |
| TestCaseTable.WalkLoads | AutoTest/AutoTest.cpp:563-610 | every load of a defined walk behaves as `LoadAt` says |
| TestCaseTable.NextVector | AutoTest/AutoTest.cpp:572-610 | the record at the cursor is empty exactly when no vector is left; otherwise it holds the next vector and the rest of the walk follows it |
| TestCaseTable.VectorTokens | AutoTest/AutoTest.cpp:579-597 | the description token, the value tokens and the delay token of a record that reads as a vector |
| TestCaseTable.ValuesStep | AutoTest/AutoTest.cpp:583-592 | one turn of the value loop reads the next value, and one value fewer is left |
| TestCaseTable.ValueOfItoa | AutoTest/AutoTest.cpp:591 | a 16-bit input value written in decimal reads back as itself |
| TestCaseTable.ValueStep | AutoTest/AutoTest.cpp:587 | one value token of a rendered record is read back |
| TestCaseTable.ValuesOfRender | AutoTest/AutoTest.cpp:583-592 | the value loop reads back exactly the values written |
| TestCaseTable.NonEmptyRecord | AutoTest/AutoTest.cpp:572-573 | a record that does not start with a newline is not the end of the table |
| TestCaseTable.RecordStart | AutoTest/AutoTest.cpp:572-573 | a rendered record does not start with a newline |
| TestCaseTable.DelayAt | AutoTest/AutoTest.cpp:596-597 | the delay token of a rendered record is its digits |
| TestCaseTable.RecordFromTokens | AutoTest/AutoTest.cpp:579-597 | a record read token by token is the vector built from those tokens |
| TestCaseTable.RecordAt | AutoTest/AutoTest.cpp:579-597 | a rendered record reads back as its description, values and delay |
| TestCaseTable.FirstVector | AutoTest/AutoTest.cpp:579-597 | the first record of a rendered table reads back as its first vector |
| TestCaseTable.EmptyTable | AutoTest/AutoTest.cpp:572-610 | an empty rendered table yields no vectors |
| TestCaseTable.VectorsOfRender | AutoTest/AutoTest.cpp:546-618 | given enough loads, the walk reads back exactly the vectors a table was written from |
| TestCaseTable.VectorsAfterFirst | AutoTest/AutoTest.cpp:546-618 | after the first vector, the walk reads back the rest of a rendered table |
| TestCaseTable.TestCaseTableRoundTrip | AutoTest/AutoTest.cpp:546-618 | a rendered test-case table of at most 10000 vectors reads back as its vectors |
| PinRegistry.Column | AutoTest/AutoTest.h:78-82 | column 0 of `pinMap` holds the ids at the even cells, and column 1 holds the modes at the odd cells |
| PinRegistry.ColumnUpdate | AutoTest/AutoTest.cpp:198-200 | writing one cell changes one entry of its column and nothing in the other column |
| PinRegistry.PinMapOverrun | AutoTest/AutoTest.cpp:137 | with one cell per slot, the mode cell of the last slot lies beyond the allocation |
| PinRegistry.PinMapFits | AutoTest/AutoTest.cpp:198-200 | with two cells per slot, both cells of every slot lie inside the allocation |
| PinRegistry.SlotOf | AutoTest/AutoTest.cpp:677-696 | the slot found holds the pin, no earlier slot holds it, and not found is the number of slots |
| PinRegistry.UnknownPin | AutoTest/AutoTest.cpp:677-696 | the search returns the number of slots exactly when no slot holds the pin |
| PinRegistry.SlotIds | AutoTest/AutoTest.cpp:193-236 | after `_begin` there is one id per slot |
| PinRegistry.SlotIdsStep | AutoTest/AutoTest.cpp:222 | filling slot k with the k-th id changes only that slot |
| PinRegistry.LookupDescribedPin | AutoTest/AutoTest.cpp:677-696 | the k-th descriptor's pin is found in slot k unless an earlier record has the same id |
| PinRegistry.LookupUndescribedPin | AutoTest/AutoTest.cpp:677-696 | a pin no record describes is unknown, except 255, which finds the first slot without a record |
| PinRegistry.InputCount | AutoTest/AutoTest.cpp:718-727 | the count of input-mode slots is at most the number of slots |
| PinRegistry.InputCountStep | AutoTest/AutoTest.cpp:719-726 | each turn of the copy loop adds one to `j` exactly for an input-mode slot |
| PinRegistry.InputCountGrows | AutoTest/AutoTest.cpp:718-727 | `j` never decreases, and it increases across an input slot |
| PinRegistry.InputSlotNumber | AutoTest/AutoTest.cpp:725 | an input slot's number among the input slots is below their count, so it indexes the vector |
| PinRegistry.ApplyVector | AutoTest/AutoTest.cpp:718-727 | activation changes no slot count |
| PinRegistry.NoInputSlots | AutoTest/AutoTest.cpp:718-727 | with no input slots, activation changes no value |
| PinRegistry.NoneCounted | AutoTest/AutoTest.cpp:718-727 | a row without input slots counts none |
| PinRegistry.KthInputSlot | AutoTest/AutoTest.cpp:718-727 | each of the first count inputs lands in exactly one slot, the k-th input slot in slot order |
| Reporter.Fields | AutoTest/AutoTest.h:33 | splitting on the separator gives at least one field |
| Reporter.Decimals | AutoTest/AutoTest.cpp:529-532 | one decimal text per slot value |
| Reporter.FieldsOfPrefix | AutoTest/AutoTest.cpp:524-525 | the action text followed by a separator is the first field of the line |
| Reporter.FieldsOfValues | AutoTest/AutoTest.cpp:529-532 | each value followed by a separator is one field |
| Reporter.LineFields | AutoTest/AutoTest.cpp:519-539 | a report line splits back into the action text, one field per slot value that reads back as the value, and an empty last field |
| Reporter.DecimalsAt | AutoTest/AutoTest.cpp:529-532 | the k-th value field is the k-th value in decimal |
| AutoTestCore.AutoTest.constructor | AutoTest/AutoTest.cpp:118-144 | saves the sizes and the tables, allocates the arrays, and sets `omitDisplayIf` to 99, so a read is reported unless its value is 99; the ghost table is the walk over the test cases |
| AutoTestCore.AutoTest.Begin | AutoTest/AutoTest.cpp:149-245 | every slot is INPUT with value 0; the k-th record's id and description are in slot k and slots past the table keep 255; the first vector is pending, due at now plus its delay, or the walk has ended on an empty table; the invariant holds |
| AutoTestCore.AutoTest.ClearSlots | AutoTest/AutoTest.cpp:193-202 | every slot gets id 255, mode INPUT and value LOW |
| AutoTestCore.AutoTest.ClearSlotsAsWritten | AutoTest/AutoTest.cpp:193-202 | with the 8-bit `j`, slots below 128 get id 255 and mode INPUT, slots from 128 on keep their id and mode, and every value becomes LOW |
| AutoTestCore.AutoTest.ReadPinHeaders | AutoTest/AutoTest.cpp:207-236 | the slot ids become those of the descriptor walk, the modes are unchanged, and description k is the k-th record's |
| AutoTestCore.AutoTest.ReadPinHeader | AutoTest/AutoTest.cpp:218-233 | one record fills slot k's id and description and nothing else, and the walk moves past it |
| AutoTestCore.AutoTest.GetTestCase | AutoTest/AutoTest.cpp:546-618 | below the cap with a vector left, loads the next vector of the table, due at now plus its delay, and returns 1; otherwise the walk ends for good (10000) and returns 0 |
| AutoTestCore.AutoTest.ReadRecord | AutoTest/AutoTest.cpp:579-603 | the pending description, inputs and activation moment are those of the record's vector, and the cursor moves past it |
| AutoTestCore.AutoTest.ReadInputs | AutoTest/AutoTest.cpp:583-592 | `nextInputValues` becomes the record's values, each read with `atoi` and narrowed to 16 bits |
| AutoTestCore.AutoTest.DisplayPins | AutoTest/AutoTest.cpp:519-539 | appends one report holding the action text and every slot's value |
| AutoTestCore.AutoTest.ActivateNextTestCase | AutoTest/AutoTest.cpp:701-740 | if the walk has not ended and now is after the activation moment: the k-th input slot gets the k-th input, the description becomes the action text, one report is appended, and the next vector is loaded; otherwise the pin values, the input buffer and the walk are unchanged |
| AutoTestCore.AutoTest.CopyInputs | AutoTest/AutoTest.cpp:718-727 | the values become the vector applied to the input-mode slots, and every other slot is unchanged |
| AutoTestCore.AutoTest.GetPinIndex | AutoTest/AutoTest.cpp:677-696 | returns the first slot holding the pin, or the number of slots |
| AutoTestCore.AutoTest.CallPinMode | AutoTest/AutoTest.cpp:255-289 | a known pin's slot alone gets the mode and LOW (INPUT, OUTPUT) or HIGH (any other mode); an unknown pin changes nothing; the ids never change |
| AutoTestCore.AutoTest.CallDigitalRead | AutoTest/AutoTest.cpp:298-339 | activates first; returns the slot's value narrowed to 8 bits, or 0 for an unknown pin; reports "pin <name> read" exactly when the value differs from `omitDisplayIf` |
| AutoTestCore.AutoTest.CallAnalogRead | AutoTest/AutoTest.cpp:347-403 | as the digital read, on the analog pin of a channel, returning the slot value as a 16-bit `int` (negative from 32768 on), compared as such with `omitDisplayIf` |
| AutoTestCore.AutoTest.CallDigitalWrite | AutoTest/AutoTest.cpp:411-466 | a known pin with LOW or HIGH sets that slot alone and reports "pin <name> set to LOW/HIGH"; anything else changes nothing; the walk is untouched |
| AutoTestCore.AutoTest.CallAnalogWrite | AutoTest/AutoTest.cpp:474-510 | a known pin takes any 8-bit value, whatever its mode, with the report "pin <name> set to <decimal>"; an unknown pin changes nothing |
| AutoTestCore.AutoTest.DoNotDisplayReadsIf | AutoTest/AutoTest.cpp:104-107 | sets `omitDisplayIf` in any state, before or after `begin`, changes nothing else, and keeps the invariant when it held |
| Scenarios.SetUp | AutoTest/AutoTest.cpp:104-245 | a setting made by `doNotDisplayReadsIf` between the constructor and `begin` survives `begin` |
| Scenarios.WriteThenRead | AutoTest/AutoTest.cpp:298-466 | a digital write of LOW or HIGH to a known pin, followed by a read before the next activation, returns the value written |
| Scenarios.AnalogWriteThenRead | AutoTest/AutoTest.cpp:347-510 | an analog write to a known analog pin, followed by an analog read before the next activation, returns the value written |
| Scenarios.ReadAfterExhaustion | AutoTest/AutoTest.cpp:701-709 | once the walk has ended, a read changes no pin value and the walk stays ended |

## Left out

- Serial output is not modelled. `displayPins` appends a `Report` to a log, and the error lines for invalid pins and values are not modelled; those paths change no state.
- The `callExtendDisplayPins` callback is foreign code. The model records only whether `begin` was given one (`extendDisplay`) and marks each report with it.
- `millis()` is the parameter `now`. Its 32-bit wrap-around is not modelled, and both clock reads within one activation see the same `now`.
- Flash access (`strchr_P`, `strncpy_P`) reads an immutable `string`. The fixed buffers (`pin[3]`, `pinValue[5]`, `delayTime[10]`, the 26-character descriptions and action text) are not bounded, so their overflow behaviour under `strcpy`/`strcat` is not modelled.
- `atoi` is modelled as the value of the leading decimal digits, or 0 if there are none. Whitespace, signs and 16-bit `int` overflow are not modelled. Pin ids are narrowed to 8 bits and input values to 16 bits.
- AutoTestCore.AutoTest.Begin: runs the corrected clear loop `ClearSlots`. For more than 128 pins the source's 8-bit `j` leaves slots 128 and up with uncleared ids and modes (see Findings, `ClearSlotsAsWritten`).
- AutoTestCore.AutoTest.ReadRecord: the activation delay is the full value of the digits, not the 16-bit `int` that `atoi` returns on AVR and widens to `unsigned long`.
- Of the board-specific analog channel mappings, only the default one (`pin < 14` becomes `pin + 14`) is modelled.
- `malloc` is not modelled. Fresh arrays start as Dafny's defaults, and the model proves nothing about a slot's description before `_begin` fills it. Slots past the pin header table keep whatever description they had.
- AutoTestCore.AutoTest.Begin requires a well-formed pin header table of at most `numberOfPins` records. The source does not stop the loop at `numberOfPins`, and it is undefined when a search finds no delimiter.
- AutoTestCore.AutoTest.Begin requires a test-case table whose walk is defined. The walk must be defined for every load up to the empty record or the 10000 cap, since the source is undefined when a search runs off the table.
- AutoTestCore.AutoTest.ActivateNextTestCase, CallDigitalRead and CallAnalogRead require, when a vector is due, no more input-mode slots than input values. The source's copy index `j` is unbounded and would read past `nextInputValues`, and every slot starts in INPUT mode.
- TestCaseTable.TestCaseTableRoundTrip covers tables of at most 10000 vectors, because the walk never loads more.
- The `Max_Field_Length` and `Max_Description_Length` constructor parameters only size buffers, so they are not modelled.

## Findings

| source | as written | input that shows it | evidently intended | confidence | as-written member | corrected member |
|---|---|---|---|---|---|---|
| AutoTest/AutoTest.cpp:198 | the cell offset `j = i * 2` of the first loop of `_begin` is a `uint8_t` (line 193) | `numberOfPins` = 129: slot 128 writes cells 0 and 1, so it keeps whatever id and mode its cells held, and slot 0 is cleared twice | `j` wide enough for `2 * numberOfPins`, so every slot gets id 255 and mode INPUT | medium (not executed) | AutoTestCore.AutoTest.ClearSlotsAsWritten | AutoTestCore.AutoTest.ClearSlots |
| AutoTest/AutoTest.cpp:137 | `pinMap` is allocated with `numberOfPins` bytes, but `_begin` and `callPinMode` write cells `2*i` and `2*i+1` for every slot `i` | `numberOfPins` = 1: `_begin` writes the mode at cell 1 of a 1-byte block | two bytes per slot, as the two-column layout in AutoTest/AutoTest.h:78-82 describes | high (not executed) | PinRegistry.PinMapOverrun | PinRegistry.PinMapFits |

The constructor of the model allocates `PinMapCells(numberOfPins)`, two cells per slot, and
`Begin` runs the corrected clear loop `ClearSlots`.

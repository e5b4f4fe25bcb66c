/**
 * The reporter: what `displayPins` writes for every reported action, and
 * the action texts the pin operations build before calling it. A report is the action
 * text, then the value of every slot in slot order; on the serial line each
 * of them is followed by `CSV_SEPARATOR`.
 */
module Reporter {
  import opened Arduino
  import opened RecordStore

  /** `CSV_SEPARATOR`. */
  const SEPARATOR: char := ';'

  /** One call of `displayPins`: the action text, the value of every slot,
    * and whether the user's extension callback ran after the line. */
  datatype Report = Report(action: string, values: seq<uint16>, extended: bool)

  /** The values, each in decimal and followed by a separator. */
  function ValueFields(vs: seq<uint16>): string {
    if vs == [] then [] else Itoa(vs[0]) + ([SEPARATOR] + ValueFields(vs[1..]))
  }

  /** The serial line of a report (after the line break `displayPins` starts with). */
  function Line(r: Report): string {
    r.action + ([SEPARATOR] + ValueFields(r.values))
  }

  /** The fields of a line: the pieces between separators, the text after
    * the last separator included. */
  function Fields(s: string): (fs: seq<string>)
    ensures 0 < |fs|
  {
    if s == [] then [[]]
    else
      var rest := Fields(s[1..]);
      if s[0] == SEPARATOR then [[]] + rest else [[s[0]] + rest[0]] + rest[1..]
  }

  /** The decimal text of each value. */
  function Decimals(vs: seq<uint16>): (ds: seq<string>)
    ensures |ds| == |vs|
  {
    if vs == [] then [] else [Itoa(vs[0])] + Decimals(vs[1..])
  }

  /** A field free of separators, then a separator, is one field of the line. */
  lemma {:induction false} FieldsOfPrefix(x: string, rest: string)
    requires SEPARATOR !in x
    ensures Fields(x + ([SEPARATOR] + rest)) == [x] + Fields(rest)
    decreases |x|
  {
    var s := x + ([SEPARATOR] + rest);
    if x == [] {
      assert s[1..] == rest;
    } else {
      assert s[0] == x[0] && s[1..] == x[1..] + ([SEPARATOR] + rest);
      FieldsOfPrefix(x[1..], rest);
      HeadTail(x);
    }
  }

  /** The value part of a line splits into one decimal field per value,
    * followed by whatever comes after it. */
  lemma {:induction false} FieldsOfValues(vs: seq<uint16>)
    ensures Fields(ValueFields(vs)) == Decimals(vs) + [[]]
    decreases |vs|
  {
    if vs != [] {
      DigitsHaveNoDelimiter(Itoa(vs[0]), SEPARATOR);
      FieldsOfPrefix(Itoa(vs[0]), ValueFields(vs[1..]));
      FieldsOfValues(vs[1..]);
    }
  }

  /** A report line splits back into the action text, the decimal value of
    * every slot in slot order, and the empty text after the final separator;
    * each value field reads back as the slot's value. */
  lemma LineFields(r: Report)
    requires SEPARATOR !in r.action
    ensures Fields(Line(r)) == [r.action] + Decimals(r.values) + [[]]
    ensures |Fields(Line(r))| == |r.values| + 2
    ensures forall k :: 0 <= k < |r.values| ==> Atoi(Fields(Line(r))[k + 1]) == r.values[k]
  {
    FieldsOfPrefix(r.action, ValueFields(r.values));
    FieldsOfValues(r.values);
    forall k | 0 <= k < |r.values| ensures Atoi(Fields(Line(r))[k + 1]) == r.values[k] {
      DecimalsAt(r.values, k);
      AtoiItoa(r.values[k]);
    }
  }

  /** The k-th decimal field is the k-th value in decimal. */
  lemma {:induction false} DecimalsAt(vs: seq<uint16>, k: nat)
    requires k < |vs|
    ensures Decimals(vs)[k] == Itoa(vs[k])
    decreases k
  {
    if 0 < k {
      DecimalsAt(vs[1..], k - 1);
    }
  }

  /** The action text of a read: "pin <description> read". */
  function ReadAction(description: string): string {
    "pin " + description + " read"
  }

  /** The action text of a digital write: "pin <description> set to LOW" or "... HIGH". */
  function DigitalWriteAction(description: string, val: uint8): string {
    "pin " + description + " set to " + (if val == 0 then "LOW" else "HIGH")
  }

  /** The action text of an analog write: "pin <description> set to <val>", the value in decimal. */
  function AnalogWriteAction(description: string, val: uint8): string {
    "pin " + description + " set to " + Itoa(val)
  }

  /** The serial monitor the reports are written to: every report so far,
    * oldest first. */
  class SerialLog {
    var reports: seq<Report>

    constructor()
      ensures reports == []
    {
      reports := [];
    }
  }
}

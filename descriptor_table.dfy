/**
 * The pin descriptor table: one record `<pin id>,<description>\n` per
 * configured pin, in slot order, ended by an empty line. `_begin` walks it
 * once to fill the pin map.
 */
module DescriptorTable {
  import opened Arduino
  import opened RecordStore

  /** One configured pin: its external id and its description. */
  datatype Descriptor = Descriptor(id: uint8, description: string)

  /** The walk `_begin` performs from offset `p` is defined: every search for
    * a newline or a comma finds one, up to and including the empty record. */
  predicate DescriptorWalkOk(t: string, p: nat)
    decreases |t| - p
  {
    && Has(t, p, '\n')
    && (RecordLength(t, p) != 0 ==>
          && Has(t, p, ',')
          && var q := GetToken(t, p, ',').next;
          && Has(t, q, '\n')
          && DescriptorWalkOk(t, GetToken(t, q, '\n').next))
  }

  /** The descriptors that walk yields, in table order. The id is the leading
    * digits of the text before the comma, narrowed to `uint8_t`; the
    * description is the rest of the line. */
  function Descriptors(t: string, p: nat): (ds: seq<Descriptor>)
    requires DescriptorWalkOk(t, p)
    ensures forall k :: 0 <= k < |ds| ==> '\n' !in ds[k].description
    decreases |t| - p
  {
    if RecordLength(t, p) == 0 then []
    else
      var pin := GetToken(t, p, ',');
      var name := GetToken(t, pin.next, '\n');
      TokenIsTextBeforeDelimiter(t, pin.next, '\n');
      [Descriptor(Atoi(pin.text) % 256, name.text)] + Descriptors(t, name.next)
  }

  /** One turn of the loop in `_begin`: a non-empty record gives the first
    * descriptor, read from the tokens ending at `b` and `next`, and the walk
    * continues at `next`. */
  lemma NextDescriptor(t: string, p: nat) returns (b: nat, next: nat)
    requires DescriptorWalkOk(t, p) && RecordLength(t, p) != 0
    ensures Has(t, p, ',') && GetToken(t, p, ',').next == b
    ensures Has(t, b, '\n') && GetToken(t, b, '\n').next == next
    ensures p < next && DescriptorWalkOk(t, next)
    ensures Descriptors(t, p) ==
              [Descriptor(Atoi(GetToken(t, p, ',').text) % 256, GetToken(t, b, '\n').text)] + Descriptors(t, next)
  {
    b := GetToken(t, p, ',').next;
    next := GetToken(t, b, '\n').next;
  }

  /** A descriptor table holding `ds`, in order, one `<id>,<description>\n`
    * record each, ended by an empty line. */
  function RenderDescriptors(ds: seq<Descriptor>): string {
    if ds == [] then "\n"
    else Itoa(ds[0].id) + ([','] + (ds[0].description + (['\n'] + RenderDescriptors(ds[1..]))))
  }

  /** Descriptions that fit on one line. */
  predicate RenderableDescriptors(ds: seq<Descriptor>) {
    forall k :: 0 <= k < |ds| ==> '\n' !in ds[k].description
  }

  /** One step of the walk over a record `<digits>,<description>\n` that
    * starts at offset `a`: the description starts at `b`, the next record at `a'`. */
  lemma DescriptorStep(t: string, a: nat, digits: string, description: string, rest: string) returns (b: nat, a': nat)
    requires 0 < |digits| && AllDigits(digits) && '\n' !in description
    requires a <= |t| && t[a..] == digits + ([','] + (description + (['\n'] + rest)))
    ensures Has(t, a, '\n') && RecordLength(t, a) != 0 && Has(t, a, ',')
    ensures GetToken(t, a, ',') == Token(digits, b)
    ensures Has(t, b, '\n') && GetToken(t, b, '\n') == Token(description, a')
    ensures a < a' <= |t| && t[a'..] == rest
  {
    DigitsHaveNoDelimiter(digits, ',');
    b := TokenAt(t, a, digits, ',', description + (['\n'] + rest));
    a' := TokenAt(t, b, description, '\n', rest);
    HasAt(t, a, a' - 1, '\n');
    assert t[a] == t[a..][0] == digits[0];
  }

  /** A walk step over tokens already read is the walk from the next record, preceded by one descriptor. */
  lemma WalkStep(t: string, a: nat, digits: string, b: nat, a': nat, d: Descriptor)
    requires Has(t, a, '\n') && RecordLength(t, a) != 0
    requires Has(t, a, ',') && GetToken(t, a, ',') == Token(digits, b)
    requires Has(t, b, '\n') && GetToken(t, b, '\n') == Token(d.description, a')
    requires Atoi(digits) % 256 == d.id
    requires DescriptorWalkOk(t, a')
    ensures DescriptorWalkOk(t, a) && Descriptors(t, a) == [d] + Descriptors(t, a')
  {
  }

  /** An empty line ends the descriptor table. */
  lemma EndOfTable(t: string, a: nat)
    requires a < |t| && t[a] == '\n'
    ensures DescriptorWalkOk(t, a) && Descriptors(t, a) == []
  {
    FindFromIs(t, a, '\n', a);
  }

  /** A pin id written in decimal reads back, after narrowing, as itself. */
  lemma IdOfItoa(id: uint8)
    ensures Atoi(Itoa(id)) % 256 == id
  {
    AtoiItoa(id);
  }

  /** The tokens of the first record of a rendered table. */
  lemma FirstRecord(ds: seq<Descriptor>, t: string, a: nat) returns (digits: string, b: nat, a': nat)
    requires RenderableDescriptors(ds) && ds != []
    requires a <= |t| && t[a..] == RenderDescriptors(ds)
    ensures a < a' <= |t| && t[a'..] == RenderDescriptors(ds[1..])
    ensures Has(t, a, '\n') && RecordLength(t, a) != 0
    ensures Has(t, a, ',') && GetToken(t, a, ',') == Token(digits, b)
    ensures Has(t, b, '\n') && GetToken(t, b, '\n') == Token(ds[0].description, a')
    ensures Atoi(digits) % 256 == ds[0].id
  {
    var d, rest := ds[0], RenderDescriptors(ds[1..]);
    digits := Itoa(d.id);
    b, a' := DescriptorStep(t, a, digits, d.description, rest);
    IdOfItoa(d.id);
  }

  /** The walk over the first record of a rendered table yields its first
    * descriptor and continues at the rest of the table. */
  lemma RenderStep(ds: seq<Descriptor>, t: string, a: nat) returns (a': nat)
    requires RenderableDescriptors(ds) && ds != []
    requires a <= |t| && t[a..] == RenderDescriptors(ds)
    ensures a < a' <= |t| && t[a'..] == RenderDescriptors(ds[1..])
    ensures DescriptorWalkOk(t, a') ==>
              DescriptorWalkOk(t, a) && Descriptors(t, a) == [ds[0]] + Descriptors(t, a')
  {
    var digits, b;
    digits, b, a' := FirstRecord(ds, t, a);
    if DescriptorWalkOk(t, a') {
      WalkStep(t, a, digits, b, a', ds[0]);
    }
  }

  /** The walk reads back exactly the descriptors a table was written from,
    * wherever in a larger text that table starts. */
  lemma {:induction false} DescriptorsOfRender(ds: seq<Descriptor>, t: string, a: nat)
    requires RenderableDescriptors(ds)
    requires a <= |t| && t[a..] == RenderDescriptors(ds)
    ensures DescriptorWalkOk(t, a) && Descriptors(t, a) == ds
    decreases |ds|
  {
    if ds == [] {
      assert t[a] == t[a..][0];
      EndOfTable(t, a);
    } else {
      var a' := RenderStep(ds, t, a);
      assert RenderableDescriptors(ds[1..]);
      DescriptorsOfRender(ds[1..], t, a');
      HeadTail(ds);
    }
  }

  /** A rendered table, on its own, reads back as the descriptors it was written from. */
  lemma DescriptorTableRoundTrip(ds: seq<Descriptor>)
    requires RenderableDescriptors(ds)
    ensures DescriptorWalkOk(RenderDescriptors(ds), 0)
    ensures Descriptors(RenderDescriptors(ds), 0) == ds
  {
    var t := RenderDescriptors(ds);
    assert t[0..] == t;
    DescriptorsOfRender(ds, t, 0);
  }
}

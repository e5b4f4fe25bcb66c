/**
 * The test-case table: one record `<description>,<v1>,...,<vN>,<delay>\n`
 * per test vector, N being the number of input pins, ended by an empty line.
 * `getTestCase` reads it one record at a time, and never more than
 * `MAX_TEST_CASES` records. A read whose delimiter search would find
 * nothing is undefined in the source; here it yields `None`.
 */
module TestCaseTable {
  import opened Arduino
  import opened RecordStore

  /** The cap on the number of test vectors ever loaded (`nextTestCaseNumber` stops at it). */
  const MAX_TEST_CASES: nat := 10000

  /** One test vector: its description, the values for the input slots, and
    * the delay in milliseconds before it is activated. */
  datatype TestVector = TestVector(description: string, inputs: seq<uint16>, delay: nat)

  /** A value read from a table, and the offset where reading continues. */
  datatype Parsed<T> = Parsed(value: T, next: nat)

  /** The loop of `getTestCase` over the input values: `k` tokens, each ended
    * by a comma, each converted by `atoi` and stored as a `uint16_t`. */
  function ParseValues(t: string, p: nat, k: nat): (r: Option<Parsed<seq<uint16>>>)
    ensures r.Some? ==> |r.value.value| == k && p <= r.value.next
    ensures r.Some? && 0 < k ==> p < r.value.next <= |t|
    decreases k
  {
    if k == 0 then Some(Parsed([], p))
    else if !Has(t, p, ',') then None
    else
      var tok := GetToken(t, p, ',');
      match ParseValues(t, tok.next, k - 1)
      case None => None
      case Some(rest) => Some(Parsed([Atoi(tok.text) % 65536] + rest.value, rest.next))
  }

  /** The test vector `getTestCase` reads from the record at `p`: the
    * description up to the first comma, `n` values, and the delay up to the
    * newline. */
  function ParseVector(t: string, p: nat, n: nat): (r: Option<Parsed<TestVector>>)
    ensures r.Some? ==> |r.value.value.inputs| == n && ',' !in r.value.value.description
    ensures r.Some? ==> p < r.value.next <= |t|
  {
    if !Has(t, p, ',') then None
    else
      var desc := GetToken(t, p, ',');
      TokenIsTextBeforeDelimiter(t, p, ',');
      match ParseValues(t, desc.next, n)
      case None => None
      case Some(vals) =>
        if !Has(t, vals.next, '\n') then None
        else
          var delay := GetToken(t, vals.next, '\n');
          Some(Parsed(TestVector(desc.text, vals.value, Atoi(delay.text)), delay.next))
  }

  /** The test vectors that at most `budget` loads from offset `p` yield, in
    * table order, stopping at the first empty record; `None` if one of those
    * loads cannot read its record. */
  function Vectors(t: string, p: nat, n: nat, budget: nat): (r: Option<seq<TestVector>>)
    ensures r.Some? ==> |r.value| <= budget
    decreases budget
  {
    if budget == 0 then Some([])
    else if !Has(t, p, '\n') then None
    else if RecordLength(t, p) == 0 then Some([])
    else
      match ParseVector(t, p, n)
      case None => None
      case Some(v) => Cons(v.value, Vectors(t, v.next, n, OneFewer(budget)))
  }

  /** The budget left after one more load. The walk and its lemmas name the
    * smaller budget by this one term rather than by a subtraction. */
  function OneFewer(budget: nat): nat
    requires 0 < budget
  {
    budget - 1
  }

  /** `v` before the vectors of `rest`, or `None` if `rest` could not be read. */
  function Cons(v: TestVector, rest: Option<seq<TestVector>>): Option<seq<TestVector>> {
    match rest
    case None => None
    case Some(vs) => Some([v] + vs)
  }

  /** A load over a record already read yields that record's vector before
    * the vectors of the rest of the table. */
  lemma WalkStep(t: string, a: nat, n: nat, budget: nat, v: TestVector, a': nat)
    returns (whole: Option<seq<TestVector>>, tail: Option<seq<TestVector>>)
    requires 0 < budget && Has(t, a, '\n') && RecordLength(t, a) != 0
    requires ParseVector(t, a, n) == Some(Parsed(v, a'))
    ensures whole == Vectors(t, a, n, budget) && tail == Vectors(t, a', n, OneFewer(budget))
    ensures whole == Cons(v, tail)
  {
    whole, tail := Vectors(t, a, n, budget), Vectors(t, a', n, OneFewer(budget));
  }

  /** An empty line ends the test-case table. */
  lemma EndOfVectors(t: string, a: nat, n: nat, budget: nat)
    requires a < |t| && t[a] == '\n'
    ensures Vectors(t, a, n, budget) == Some([])
  {
    FindFromIs(t, a, '\n', a);
  }

  /** The offsets where the loads of the walk of `Vectors` begin, one per
    * vector read, then the offset where the walk stops. */
  function Starts(t: string, p: nat, n: nat, budget: nat): (r: seq<nat>)
    ensures 0 < |r| && r[0] == p
    decreases budget
  {
    if budget == 0 || !Has(t, p, '\n') || RecordLength(t, p) == 0 then [p]
    else
      match ParseVector(t, p, n)
      case None => [p]
      case Some(v) => [p] + Starts(t, v.next, n, OneFewer(budget))
  }

  /** The `k`-th load of a walk whose loads begin at the offsets `s` and
    * yield `vs`: the record at `s[k]` holds the `k`-th vector and the next
    * record begins at `s[k + 1]`; after the last vector, if the budget allows
    * one more load, comes the empty record that ends the table. */
  predicate LoadsRecord(t: string, n: nat, s: seq<nat>, vs: seq<TestVector>, budget: nat, k: nat) {
    && k <= |vs| && |s| == |vs| + 1
    && (k < |vs| ==>
          && Has(t, s[k], '\n') && RecordLength(t, s[k]) != 0
          && ParseVector(t, s[k], n) == Some(Parsed(vs[k], s[k + 1])))
    && (k == |vs| < budget ==> Has(t, s[k], '\n') && RecordLength(t, s[k]) == 0)
  }

  /** Every load of a walk that is defined is as `LoadsRecord` says, with
    * `Starts` as the offsets. */
  lemma {:induction false} LoadAt(t: string, p: nat, n: nat, budget: nat, vs: seq<TestVector>, k: nat)
    requires Vectors(t, p, n, budget) == Some(vs) && k <= |vs|
    ensures LoadsRecord(t, n, Starts(t, p, n, budget), vs, budget, k)
    decreases budget
  {
    if budget != 0 {
      var next := NextVector(t, p, n, budget, vs);
      if vs != [] {
        LoadAt(t, next, n, OneFewer(budget), vs[1..], if k == 0 then 0 else k - 1);
      }
    }
  }

  /** All the loads of a walk that is defined. */
  lemma WalkLoads(t: string, p: nat, n: nat, budget: nat, vs: seq<TestVector>)
    requires Vectors(t, p, n, budget) == Some(vs)
    ensures var s := Starts(t, p, n, budget);
            && |vs| <= budget && |s| == |vs| + 1 && s[0] == p
            && forall k :: 0 <= k <= |vs| ==> LoadsRecord(t, n, s, vs, budget, k)
  {
    var s := Starts(t, p, n, budget);
    forall k | 0 <= k <= |vs| ensures LoadsRecord(t, n, s, vs, budget, k) {
      LoadAt(t, p, n, budget, vs, k);
    }
    LoadAt(t, p, n, budget, vs, 0);
  }

  /** One load from a walk that is defined: the record at `p` is empty
    * exactly when no vector is left, and otherwise it holds the first vector
    * and the walk continues at `next` with one load fewer. */
  lemma NextVector(t: string, p: nat, n: nat, budget: nat, vs: seq<TestVector>) returns (next: nat)
    requires 0 < budget && Vectors(t, p, n, budget) == Some(vs)
    ensures Has(t, p, '\n')
    ensures RecordLength(t, p) == 0 <==> vs == []
    ensures vs != [] ==> ParseVector(t, p, n) == Some(Parsed(vs[0], next))
    ensures vs != [] ==> Vectors(t, next, n, OneFewer(budget)) == Some(vs[1..])
  {
    next := p;
    if RecordLength(t, p) != 0 {
      var v := ParseVector(t, p, n).value;
      next := v.next;
      var whole, tail := WalkStep(t, p, n, budget, v.value, next);
    }
  }

  /** The tokens of a record that reads as vector `v`: the description up
    * to offset `b`, the values up to offset `c`, and the delay up to `next`. */
  lemma VectorTokens(t: string, p: nat, n: nat, v: TestVector, next: nat) returns (b: nat, c: nat)
    requires ParseVector(t, p, n) == Some(Parsed(v, next))
    ensures Has(t, p, ',') && GetToken(t, p, ',') == Token(v.description, b)
    ensures ParseValues(t, b, n) == Some(Parsed(v.inputs, c))
    ensures Has(t, c, '\n') && GetToken(t, c, '\n').next == next
    ensures Atoi(GetToken(t, c, '\n').text) == v.delay
  {
    b := GetToken(t, p, ',').next;
    c := ParseValues(t, b, n).value.next;
  }

  /** One turn of the value loop: the next token holds the first of the
    * values still to read, and `k'` values are left after it. */
  lemma ValuesStep(t: string, p: nat, k: nat, vals: seq<uint16>, end: nat) returns (k': nat)
    requires 0 < k && ParseValues(t, p, k) == Some(Parsed(vals, end))
    ensures k' + 1 == k && Has(t, p, ',') && vals != []
    ensures vals[0] == Atoi(GetToken(t, p, ',').text) % 65536
    ensures ParseValues(t, GetToken(t, p, ',').next, k') == Some(Parsed(vals[1..], end))
  {
    k' := k - 1;
  }

  /** The values `xs`, each written in decimal and followed by a comma, then `tail`. */
  function RenderValues(xs: seq<uint16>, tail: string): string {
    if xs == [] then tail else Itoa(xs[0]) + ([','] + RenderValues(xs[1..], tail))
  }

  /** A test-case table holding `vs`, in order, ended by an empty line. */
  function RenderVectors(vs: seq<TestVector>): string {
    if vs == [] then "\n"
    else
      var v := vs[0];
      v.description + ([','] + RenderValues(v.inputs, Itoa(v.delay) + (['\n'] + RenderVectors(vs[1..]))))
  }

  /** Vectors that a table can hold: `n` inputs each, and descriptions free of
    * the two delimiters. */
  predicate RenderableVectors(vs: seq<TestVector>, n: nat) {
    forall k :: 0 <= k < |vs| ==>
      |vs[k].inputs| == n && ',' !in vs[k].description && '\n' !in vs[k].description
  }

  /** An input value written in decimal reads back, after narrowing, as itself. */
  lemma ValueOfItoa(x: uint16)
    ensures Atoi(Itoa(x)) % 65536 == x
  {
    AtoiItoa(x);
  }

  /** Reading one value token of a rendered value list. */
  lemma ValueStep(t: string, a: nat, x: uint16, tail: string) returns (b: nat)
    requires a <= |t| && t[a..] == Itoa(x) + ([','] + tail)
    ensures Has(t, a, ',') && GetToken(t, a, ',') == Token(Itoa(x), b)
    ensures b <= |t| && t[b..] == tail
  {
    DigitsHaveNoDelimiter(Itoa(x), ',');
    b := TokenAt(t, a, Itoa(x), ',', tail);
  }

  /** The value loop reads back exactly the values that were written. */
  lemma {:induction false} ValuesOfRender(xs: seq<uint16>, tail: string, t: string, a: nat) returns (a': nat)
    requires a <= |t| && t[a..] == RenderValues(xs, tail)
    ensures ParseValues(t, a, |xs|) == Some(Parsed(xs, a'))
    ensures a' <= |t| && t[a'..] == tail
    decreases |xs|
  {
    if xs == [] {
      a' := a;
    } else {
      var b := ValueStep(t, a, xs[0], RenderValues(xs[1..], tail));
      a' := ValuesOfRender(xs[1..], tail, t, b);
      ValueOfItoa(xs[0]);
      HeadTail(xs);
    }
  }

  /** A record whose first character is not a newline is not the empty record. */
  lemma NonEmptyRecord(t: string, a: nat, e: nat)
    requires a <= e < |t| && t[e] == '\n' && t[a] != '\n'
    ensures Has(t, a, '\n') && RecordLength(t, a) != 0
  {
    HasAt(t, a, e, '\n');
  }

  /** The first character of a rendered record is not a newline. */
  lemma RecordStart(t: string, a: nat, desc: string, tail: string)
    requires a <= |t| && t[a..] == desc + ([','] + tail) && '\n' !in desc
    ensures a < |t| && t[a] != '\n'
  {
    assert t[a] == t[a..][0];
    if desc != [] {
      assert t[a..][0] == desc[0];
    }
  }

  /** Reading the delay token of a record: digits ended by a newline. */
  lemma DelayAt(t: string, c: nat, ds: string, rest: string) returns (a': nat)
    requires 0 < |ds| && AllDigits(ds)
    requires c <= |t| && t[c..] == ds + (['\n'] + rest)
    ensures Has(t, c, '\n') && GetToken(t, c, '\n') == Token(ds, a')
    ensures c < a' <= |t| && t[a' - 1] == '\n' && t[a'..] == rest
  {
    DigitsHaveNoDelimiter(ds, '\n');
    a' := TokenAt(t, c, ds, '\n', rest);
  }

  /** A record read token by token is the vector built from those tokens. */
  lemma RecordFromTokens(t: string, a: nat, n: nat, desc: string, b: nat, vals: seq<uint16>, c: nat, delay: string, a': nat)
    requires Has(t, a, ',') && GetToken(t, a, ',') == Token(desc, b)
    requires ParseValues(t, b, n) == Some(Parsed(vals, c))
    requires Has(t, c, '\n') && GetToken(t, c, '\n') == Token(delay, a')
    ensures ParseVector(t, a, n) == Some(Parsed(TestVector(desc, vals, Atoi(delay)), a'))
  {
  }

  /** Reading one rendered record that starts at offset `a`: a description,
    * the values `xs` and the delay digits `ds`. */
  lemma RecordAt(t: string, a: nat, desc: string, xs: seq<uint16>, ds: string, rest: string) returns (a': nat)
    requires ',' !in desc && '\n' !in desc && 0 < |ds| && AllDigits(ds)
    requires a <= |t| && t[a..] == desc + ([','] + RenderValues(xs, ds + (['\n'] + rest)))
    ensures a' <= |t| && t[a'..] == rest
    ensures Has(t, a, '\n') && RecordLength(t, a) != 0
    ensures ParseVector(t, a, |xs|) == Some(Parsed(TestVector(desc, xs, Atoi(ds)), a'))
  {
    var tail := ds + (['\n'] + rest);
    var b := TokenAt(t, a, desc, ',', RenderValues(xs, tail));
    var c := ValuesOfRender(xs, tail, t, b);
    a' := DelayAt(t, c, ds, rest);
    RecordFromTokens(t, a, |xs|, desc, b, xs, c, ds, a');
    RecordStart(t, a, desc, RenderValues(xs, tail));
    NonEmptyRecord(t, a, a' - 1);
  }

  /** Reading the first record of a rendered table gives its first vector. */
  lemma FirstVector(vs: seq<TestVector>, n: nat, t: string, a: nat) returns (a': nat)
    requires RenderableVectors(vs, n) && vs != []
    requires a <= |t| && t[a..] == RenderVectors(vs)
    ensures a' <= |t| && t[a'..] == RenderVectors(vs[1..])
    ensures Has(t, a, '\n') && RecordLength(t, a) != 0
    ensures ParseVector(t, a, n) == Some(Parsed(vs[0], a'))
  {
    var v := vs[0];
    a' := RecordAt(t, a, v.description, v.inputs, Itoa(v.delay), RenderVectors(vs[1..]));
    AtoiItoa(v.delay);
  }

  /** An empty rendered table reads back as no vectors. */
  lemma EmptyTable(vs: seq<TestVector>, t: string, a: nat, n: nat, budget: nat)
    requires vs == [] && a <= |t| && t[a..] == RenderVectors(vs)
    ensures Vectors(t, a, n, budget) == Some(vs)
  {
    if budget != 0 {
      assert t[a] == t[a..][0];
      EndOfVectors(t, a, n, budget);
    }
  }

  /** A walk with enough loads reads back the vectors a table was written
    * from, wherever in a larger text that table starts. */
  lemma {:induction false} VectorsOfRender(vs: seq<TestVector>, n: nat, t: string, a: nat, budget: nat)
    requires RenderableVectors(vs, n) && |vs| <= budget
    requires a <= |t| && t[a..] == RenderVectors(vs)
    ensures Vectors(t, a, n, budget) == Some(vs)
    decreases budget, 1
  {
    if vs == [] {
      EmptyTable(vs, t, a, n, budget);
    } else {
      var a' := FirstVector(vs, n, t, a);
      var whole, tail := WalkStep(t, a, n, budget, vs[0], a');
      assert RenderableVectors(vs[1..], n);
      VectorsAfterFirst(vs[0], vs[1..], n, t, a', budget, whole, tail);
      HeadTail(vs);
    }
  }

  /** The walk over the rest of a rendered table, after its first vector
    * `head` was read: `whole` holds `head` and then the rest. */
  lemma {:induction false} VectorsAfterFirst(head: TestVector, rest: seq<TestVector>, n: nat, t: string, a': nat, budget: nat,
                                             whole: Option<seq<TestVector>>, tail: Option<seq<TestVector>>)
    requires RenderableVectors(rest, n) && |rest| < budget
    requires a' <= |t| && t[a'..] == RenderVectors(rest)
    requires tail == Vectors(t, a', n, OneFewer(budget)) && whole == Cons(head, tail)
    ensures whole == Some([head] + rest)
    decreases budget, 0
  {
    VectorsOfRender(rest, n, t, a', OneFewer(budget));
  }

  /** A rendered table of at most `MAX_TEST_CASES` vectors, on its own, reads
    * back as the vectors it was written from. */
  lemma TestCaseTableRoundTrip(vs: seq<TestVector>, n: nat)
    requires RenderableVectors(vs, n) && |vs| <= MAX_TEST_CASES
    ensures Vectors(RenderVectors(vs), 0, n, MAX_TEST_CASES) == Some(vs)
  {
    var t := RenderVectors(vs);
    assert t[0..] == t;
    VectorsOfRender(vs, n, t, 0, MAX_TEST_CASES);
  }
}

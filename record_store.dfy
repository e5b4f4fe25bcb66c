/**
 * The record store: an immutable character table of newline-terminated,
 * comma-separated records, read through a cursor that is an offset into it.
 * A table ends with an empty line, i.e. a record of length 0.
 */
module RecordStore {

  datatype Option<T> = None | Some(value: T)

  /** A token copied out of a table, and the offset just past its delimiter. */
  datatype Token = Token(text: string, next: nat)

  /** Some character at or after offset `p` is `c`. */
  predicate Has(t: string, p: nat, c: char)
    decreases |t| - p
  {
    p < |t| && (t[p] == c || Has(t, p + 1, c))
  }

  /** A `c` at offset `e` is one at or after every offset up to `e`. */
  lemma {:induction false} HasAt(t: string, p: nat, e: nat, c: char)
    requires p <= e < |t| && t[e] == c
    ensures Has(t, p, c)
    decreases e - p
  {
    if p < e {
      HasAt(t, p + 1, e, c);
    }
  }

  /** The offset of the first `c` at or after `p` (the table search that
    * `strchr_P` performs). */
  function FindFrom(t: string, p: nat, c: char): (r: nat)
    requires Has(t, p, c)
    ensures p <= r < |t| && t[r] == c
    decreases |t| - p
  {
    if t[p] == c then p else FindFrom(t, p + 1, c)
  }

  /** No `c` lies between `p` and the first occurrence. */
  lemma {:induction false} FindFromFirst(t: string, p: nat, c: char)
    requires Has(t, p, c)
    ensures forall i :: p <= i < FindFrom(t, p, c) ==> t[i] != c
    decreases |t| - p
  {
    if t[p] != c {
      FindFromFirst(t, p + 1, c);
    }
  }

  /** The first occurrence is the only offset that has `c` and no earlier `c`. */
  lemma {:induction false} FindFromIs(t: string, p: nat, c: char, r: nat)
    requires p <= r < |t| && t[r] == c
    requires forall i :: p <= i < r ==> t[i] != c
    ensures Has(t, p, c) && FindFrom(t, p, c) == r
    decreases r - p
  {
    if p < r {
      FindFromIs(t, p + 1, c, r);
    }
  }

  /** Reading a token `x` that starts at offset `a` and is followed by `d`. */
  lemma TokenAt(t: string, a: nat, x: string, d: char, rest: string) returns (b: nat)
    requires a <= |t| && t[a..] == x + ([d] + rest)
    requires d !in x
    ensures b == a + |x| + 1 && b <= |t| && t[b - 1] == d
    ensures Has(t, a, d) && GetToken(t, a, d) == Token(x, b)
    ensures t[b..] == rest
  {
    var e := a + |x|;
    b := e + 1;
    assert t[e] == t[a..][|x|] == d;
    forall i | a <= i < e ensures t[i] != d {
      assert t[i] == t[a..][i - a] == x[i - a];
    }
    FindFromIs(t, a, d, e);
    assert t[a..e] == t[a..][..|x|] == x;
    assert t[e + 1..] == t[a..][|x| + 1..] == rest;
  }

  /** `getRecordLength`: the distance from `p` to the first newline at or after it. */
  function RecordLength(t: string, p: nat): (n: nat)
    requires Has(t, p, '\n')
    ensures p + n < |t| && t[p + n] == '\n'
  {
    FindFrom(t, p, '\n') - p
  }

  /** The record length stops at the first newline: the record itself holds none. */
  lemma RecordHasNoNewline(t: string, p: nat)
    requires Has(t, p, '\n')
    ensures '\n' !in t[p..p + RecordLength(t, p)]
  {
    var n := RecordLength(t, p);
    var s := t[p..p + n];
    FindFromFirst(t, p, '\n');
    forall k | 0 <= k < |s| ensures s[k] != '\n' {
      assert s[k] == t[p + k];
    }
  }

  /** `getToken`: the characters from `p` up to the first delimiter `d`, and
    * the offset one past that delimiter. */
  function GetToken(t: string, p: nat, d: char): (r: Token)
    requires Has(t, p, d)
    ensures p < r.next <= |t| && t[r.next - 1] == d
  {
    var e := FindFrom(t, p, d);
    Token(t[p..e], e + 1)
  }

  /** A token is exactly the text before the first delimiter: the characters
    * from `p` up to the returned offset are the token and then `d`, and the
    * token holds no `d`. */
  lemma TokenIsTextBeforeDelimiter(t: string, p: nat, d: char)
    requires Has(t, p, d)
    ensures t[p..GetToken(t, p, d).next] == GetToken(t, p, d).text + [d]
    ensures d !in GetToken(t, p, d).text
  {
    var r := GetToken(t, p, d);
    FindFromFirst(t, p, d);
    forall k | 0 <= k < |r.text| ensures r.text[k] != d {
      assert r.text[k] == t[p + k];
    }
  }

  predicate IsDigit(c: char) {
    '0' <= c <= '9'
  }

  predicate AllDigits(s: string) {
    forall i :: 0 <= i < |s| ==> IsDigit(s[i])
  }

  /** The longest prefix of `s` made of decimal digits. */
  function LeadingDigits(s: string): (ds: string)
    ensures |ds| <= |s| && ds == s[..|ds|] && AllDigits(ds)
    ensures |ds| < |s| ==> !IsDigit(s[|ds|])
  {
    if |s| == 0 || !IsDigit(s[0]) then [] else [s[0]] + LeadingDigits(s[1..])
  }

  /** The decimal value of a string of digits (most significant first). */
  function DigitsValue(ds: string): nat
    requires AllDigits(ds)
  {
    if ds == [] then 0
    else 10 * DigitsValue(ds[..|ds| - 1]) + (ds[|ds| - 1] as int - '0' as int)
  }

  /** `atoi` as the tables use it: the value of the leading decimal digits, 0 if there are none. */
  function Atoi(s: string): nat {
    DigitsValue(LeadingDigits(s))
  }

  function DigitChar(d: nat): (c: char)
    requires d < 10
    ensures IsDigit(c)
  {
    ('0' as int + d) as char
  }

  /** `itoa(n, buf, 10)` for a non-negative `n`: its decimal digits without leading zeros. */
  function Itoa(n: nat): (s: string)
    ensures 0 < |s| && AllDigits(s)
  {
    if n < 10 then [DigitChar(n)] else Itoa(n / 10) + [DigitChar(n % 10)]
  }

  lemma {:induction false} DigitsValueOfItoa(n: nat)
    ensures DigitsValue(Itoa(n)) == n
  {
    if n >= 10 {
      var s := Itoa(n);
      assert s[..|s| - 1] == Itoa(n / 10);
      DigitsValueOfItoa(n / 10);
    }
  }

  /** Reading back a number written in decimal gives the number: `atoi(itoa(n)) == n`. */
  lemma {:induction false} AtoiItoa(n: nat)
    ensures Atoi(Itoa(n)) == n
  {
    var s := Itoa(n);
    assert LeadingDigits(s) == s;
    DigitsValueOfItoa(n);
  }

  /** A non-empty sequence is its head followed by its tail. */
  lemma HeadTail<T>(s: seq<T>)
    requires s != []
    ensures s == [s[0]] + s[1..]
  {
  }

  /** Element `i` of `s` ends the prefix before it and starts the suffix from it. */
  lemma SplitAt<T>(s: seq<T>, i: nat)
    requires i < |s|
    ensures s[..i] + [s[i]] == s[..i + 1]
    ensures s[i..] == [s[i]] + s[i + 1..]
  {
  }

  /** Decimal digits never contain a table delimiter. */
  lemma DigitsHaveNoDelimiter(s: string, c: char)
    requires AllDigits(s) && !IsDigit(c)
    ensures c !in s
  {
  }
}

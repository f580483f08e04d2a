/** Small shared vocabulary: an optional value, JSON values as exchanged with the
    model and the tools, string concatenation and decimal rendering of counters. */
module Base {

  /** `undefined` versus a present value. */
  datatype Option<+T> = None | Some(value: T)

  /** The elements of an optional value: none or one. */
  function OptionSeq<T>(x: Option<T>): seq<T>
  {
    if x.Some? then [x.value] else []
  }

  /** A JSON value. Numbers are kept as integers: the tool activities' floating
      point is not part of this model. Object fields keep their written order. */
  datatype Json =
    | JNull
    | JBool(b: bool)
    | JNum(n: int)
    | JStr(s: string)
    | JArr(items: seq<Json>)
    | JObj(fields: seq<(string, Json)>)

  /** The concatenation of a sequence of strings, in order. */
  function Concat(parts: seq<string>): string
  {
    if |parts| == 0 then "" else Concat(parts[..|parts| - 1]) + parts[|parts| - 1]
  }

  lemma ConcatSnoc(parts: seq<string>, s: string)
    ensures Concat(parts + [s]) == Concat(parts) + s
  {
  }

  /** Concatenation distributes over joining the sequence of parts. */
  lemma {:induction false} ConcatAppend(a: seq<string>, b: seq<string>)
    ensures Concat(a + b) == Concat(a) + Concat(b)
    decreases |b|
  {
    if |b| == 0 {
      assert a + b == a;
    } else {
      var init := b[..|b| - 1];
      assert a + b == (a + init) + [b[|b| - 1]];
      assert b == init + [b[|b| - 1]];
      ConcatSnoc(a + init, b[|b| - 1]);
      ConcatSnoc(init, b[|b| - 1]);
      ConcatAppend(a, init);
    }
  }

  lemma AppendAssoc<T>(a: seq<T>, b: seq<T>, c: seq<T>)
    ensures (a + b) + c == a + (b + c)
  {
  }

  /** `a` is a prefix of `b`. */
  predicate IsPrefix(a: string, b: string)
  {
    |a| <= |b| && b[..|a|] == a
  }

  /** The decimal digit for `d`. */
  function DigitChar(d: nat): (c: char)
    requires d < 10
    ensures '0' <= c <= '9'
  {
    (('0' as int) + d) as char
  }

  /** The decimal rendering of `n`, as a template literal `${n}` produces it. */
  function NatToString(n: nat): (s: string)
    ensures |s| > 0
    ensures forall i :: 0 <= i < |s| ==> '0' <= s[i] <= '9'
  {
    if n < 10 then [DigitChar(n)] else NatToString(n / 10) + [DigitChar(n % 10)]
  }

  predicate AllDigits(s: string)
  {
    forall i :: 0 <= i < |s| ==> '0' <= s[i] <= '9'
  }

  /** The number a string of decimal digits denotes; the empty string denotes 0. */
  function ParseNat(s: string): nat
    requires AllDigits(s)
  {
    if |s| == 0 then 0 else ParseNat(s[..|s| - 1]) * 10 + ((s[|s| - 1] as int) - ('0' as int))
  }

  /** Reading back the decimal rendering of `n` gives `n`. */
  lemma {:induction false} ParseNatToString(n: nat)
    ensures AllDigits(NatToString(n))
    ensures ParseNat(NatToString(n)) == n
  {
    if n >= 10 {
      var s := NatToString(n);
      assert s[..|s| - 1] == NatToString(n / 10);
      ParseNatToString(n / 10);
    }
  }

  /** The length of the run of decimal digits `s` starts with. */
  function DigitRun(s: string): (k: nat)
    ensures k <= |s|
    ensures AllDigits(s[..k])
    ensures k < |s| ==> !('0' <= s[k] <= '9')
  {
    if |s| == 0 || !('0' <= s[0] <= '9') then 0 else 1 + DigitRun(s[1..])
  }

  /** A digit string followed by text that does not start with a digit splits back
      into the two. */
  lemma {:induction false} DigitRunSplits(d: string, rest: string)
    requires AllDigits(d)
    requires |rest| > 0 && !('0' <= rest[0] <= '9')
    ensures DigitRun(d + rest) == |d|
    decreases |d|
  {
    if |d| > 0 {
      assert (d + rest)[1..] == d[1..] + rest;
      DigitRunSplits(d[1..], rest);
    } else {
      assert d + rest == rest;
    }
  }
}

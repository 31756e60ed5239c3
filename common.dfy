/** Small value types and text helpers shared by every module of the audit-trail model:
    an optional value (JavaScript's `null`/`undefined`), JavaScript string truthiness,
    `String.prototype.includes`, `Array.prototype.join` and `String.prototype.split`
    on one separator character, decimal rendering of numbers, and the quote doubling
    used when a text is put into a CSV field. */
module Common {

  datatype Option<+T> = None | Some(value: T) {
    function GetOr(default: T): T {
      match this
      case Some(v) => v
      case None => default
    }
  }

  /** A JavaScript string value that may be missing is truthy when present and non-empty. */
  predicate Truthy(o: Option<string>) {
    o.Some? && o.value != ""
  }

  /** `o || d` for an optional string: the falsy values (missing or "") give the default. */
  function OrElse(o: Option<string>, d: string): (r: string)
    ensures Truthy(o) ==> r == o.value
    ensures !Truthy(o) ==> r == d
  {
    if Truthy(o) then o.value else d
  }

  /** `sub` occurs in `s` at position `i`. */
  ghost predicate OccursAt(s: string, sub: string, i: int) {
    0 <= i && i + |sub| <= |s| && s[i..i + |sub|] == sub
  }

  /** `s.includes(sub)`: scanning the positions of `s` from the left. */
  function Includes(s: string, sub: string): (b: bool)
    ensures b <==> exists i :: OccursAt(s, sub, i)
    decreases |s|
  {
    if |sub| > |s| then false
    else if s[..|sub|] == sub then (assert OccursAt(s, sub, 0); true)
    else
      var b := Includes(s[1..], sub);
      assert b ==> exists i :: OccursAt(s, sub, i) by {
        if b {
          var i :| OccursAt(s[1..], sub, i);
          assert s[1..][i..i + |sub|] == s[i + 1..i + 1 + |sub|];
          assert OccursAt(s, sub, i + 1);
        }
      }
      assert (exists i :: OccursAt(s, sub, i)) ==> b by {
        if exists i :: OccursAt(s, sub, i) {
          var i :| OccursAt(s, sub, i);
          assert i != 0;
          assert s[1..][i - 1..i - 1 + |sub|] == s[i..i + |sub|];
          assert OccursAt(s[1..], sub, i - 1);
        }
      }
      b
  }

  /** `parts.join(sep)`. */
  function Join(parts: seq<string>, sep: string): string
    decreases |parts|
  {
    if |parts| == 0 then ""
    else if |parts| == 1 then parts[0]
    else parts[0] + sep + Join(parts[1..], sep)
  }

  /** `s.split(c)` for a separator of one character. */
  function Split(s: string, c: char): (r: seq<string>)
    ensures |r| >= 1
  {
    if s == "" then [""]
    else if s[0] == c then [""] + Split(s[1..], c)
    else
      var rest := Split(s[1..], c);
      [[s[0]] + rest[0]] + rest[1..]
  }

  lemma {:induction false} SplitWithoutSeparator(p: string, c: char)
    requires c !in p
    ensures Split(p, c) == [p]
  {
    if p != "" {
      SplitWithoutSeparator(p[1..], c);
      assert [p[0]] + p[1..] == p;
    }
  }

  lemma {:induction false} SplitAtFirstSeparator(p: string, c: char, rest: string)
    requires c !in p
    ensures Split(p + [c] + rest, c) == [p] + Split(rest, c)
  {
    if p == "" {
      assert p + [c] + rest == [c] + rest;
      assert ([c] + rest)[1..] == rest;
    } else {
      SplitAtFirstSeparator(p[1..], c, rest);
      var whole := p + [c] + rest;
      assert whole[0] == p[0];
      assert whole[1..] == p[1..] + [c] + rest;
      assert [p[0]] + p[1..] == p;
    }
  }

  /** Splitting a join on a separator that no part contains gives back the parts. */
  lemma {:induction false} SplitJoin(parts: seq<string>, c: char)
    requires |parts| >= 1
    requires forall i :: 0 <= i < |parts| ==> c !in parts[i]
    ensures Split(Join(parts, [c]), c) == parts
  {
    if |parts| == 1 {
      SplitWithoutSeparator(parts[0], c);
    } else {
      SplitJoin(parts[1..], c);
      SplitAtFirstSeparator(parts[0], c, Join(parts[1..], [c]));
      assert [parts[0]] + parts[1..] == parts;
    }
  }

  /** A separator that occurs neither in the parts nor in the glue does not occur in the join. */
  lemma {:induction false} JoinAvoids(parts: seq<string>, sep: string, c: char)
    requires c !in sep
    requires forall i :: 0 <= i < |parts| ==> c !in parts[i]
    ensures c !in Join(parts, sep)
    decreases |parts|
  {
    if |parts| > 1 {
      JoinAvoids(parts[1..], sep, c);
    }
  }

  function DigitChar(d: nat): (c: char)
    requires d < 10
    ensures '0' <= c <= '9' && c as int - '0' as int == d
  {
    "0123456789"[d]
  }

  function DigitValue(c: char): nat
    requires '0' <= c <= '9'
  {
    (c as int - '0' as int) as nat
  }

  /** `String(n)` for a non-negative integer. */
  function NatToDecimal(n: nat): (r: string)
    ensures |r| >= 1
    ensures forall k :: 0 <= k < |r| ==> '0' <= r[k] <= '9'
  {
    if n < 10 then [DigitChar(n)] else NatToDecimal(n / 10) + [DigitChar(n % 10)]
  }

  /** The number a string of decimal digits denotes. */
  function DecimalValue(s: string): nat
    requires forall k :: 0 <= k < |s| ==> '0' <= s[k] <= '9'
  {
    if s == "" then 0 else 10 * DecimalValue(s[..|s| - 1]) + DigitValue(s[|s| - 1])
  }

  lemma {:induction false} DecimalRoundTrip(n: nat)
    ensures DecimalValue(NatToDecimal(n)) == n
  {
    if n >= 10 {
      DecimalRoundTrip(n / 10);
      var p, r := NatToDecimal(n / 10), NatToDecimal(n);
      assert r == p + [DigitChar(n % 10)];
      assert r[..|r| - 1] == p;
      assert DigitValue(r[|r| - 1]) == n % 10;
      assert DecimalValue(r) == 10 * (n / 10) + n % 10;
    }
  }

  /** `String(i)` for any integer: a minus sign before the digits of a negative one. */
  function IntToDecimal(i: int): (r: string)
    ensures |r| >= 1
    ensures forall k :: 0 <= k < |r| ==> r[k] == '-' || '0' <= r[k] <= '9'
  {
    if i < 0 then "-" + NatToDecimal(-i) else NatToDecimal(i)
  }

  lemma NatToDecimalInjective(a: nat, b: nat)
    requires NatToDecimal(a) == NatToDecimal(b)
    ensures a == b
  {
    DecimalRoundTrip(a);
    DecimalRoundTrip(b);
  }

  /** The rendering starts with a minus sign exactly for negative integers. */
  lemma SignOfDecimal(i: int)
    ensures IntToDecimal(i)[0] == '-' <==> i < 0
  {
  }

  /** Different integers render as different texts. */
  lemma {:induction false} IntToDecimalInjective(i: int, j: int)
    requires IntToDecimal(i) == IntToDecimal(j)
    ensures i == j
  {
    if i < 0 && j < 0 {
      var t := IntToDecimal(i);
      assert t == "-" + NatToDecimal(-i);
      assert t[1..] == NatToDecimal(-i);
      assert t[1..] == NatToDecimal(-j);
      NatToDecimalInjective(-i, -j);
    } else if i >= 0 && j >= 0 {
      NatToDecimalInjective(i, j);
    } else {
      SignOfDecimal(i);
      SignOfDecimal(j);
    }
  }

  /** `s.replace(/"/g, '""')`. */
  function DoubleQuotes(s: string): (r: string)
    ensures |r| >= |s|
  {
    if s == "" then ""
    else (if s[0] == '"' then "\"\"" else [s[0]]) + DoubleQuotes(s[1..])
  }

  /** Reads a CSV field body back: every `""` stands for one `"`, and a lone `"` is malformed. */
  function UndoubleQuotes(s: string): Option<string>
  {
    if s == "" then Some("")
    else if s[0] != '"' then
      match UndoubleQuotes(s[1..])
      case Some(t) => Some([s[0]] + t)
      case None => None
    else if |s| >= 2 && s[1] == '"' then
      match UndoubleQuotes(s[2..])
      case Some(t) => Some("\"" + t)
      case None => None
    else None
  }

  /** Quote doubling loses nothing: reading the doubled text back gives the original. */
  lemma {:induction false} UndoubleDoubleQuotes(s: string)
    ensures UndoubleQuotes(DoubleQuotes(s)) == Some(s)
  {
    if s != "" {
      UndoubleDoubleQuotes(s[1..]);
      var d := DoubleQuotes(s);
      if s[0] == '"' {
        assert d[2..] == DoubleQuotes(s[1..]);
      } else {
        assert d[1..] == DoubleQuotes(s[1..]);
      }
      assert [s[0]] + s[1..] == s;
    }
  }

  /** Quote doubling adds no character other than `"`. */
  lemma {:induction false} DoubleQuotesAvoids(s: string, c: char)
    requires c != '"' && c !in s
    ensures c !in DoubleQuotes(s)
  {
    if s != "" {
      DoubleQuotesAvoids(s[1..], c);
    }
  }

  /** The elements in the opposite order. */
  function Reverse<T>(s: seq<T>): (r: seq<T>)
    ensures |r| == |s|
    ensures forall i :: 0 <= i < |s| ==> r[i] == s[|s| - 1 - i]
  {
    if s == [] then [] else [s[|s| - 1]] + Reverse(s[..|s| - 1])
  }
}

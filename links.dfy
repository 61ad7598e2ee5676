/** The interaction record of a link stream, `(node1, node2, time)`, its
    text form `"node1 node2 time"` and the line parser that reads it back. */
module Links {

  /** `u64::MAX`: the time sentinel meaning "never / unknown / infinitely far". */
  const MAX: nat := 0xFFFF_FFFF_FFFF_FFFF
  /** `usize::MAX` on a 64-bit target. */
  const USIZE_MAX: nat := 0xFFFF_FFFF_FFFF_FFFF

  /** `Time` is a `u64`. */
  type Time = t: nat | t <= MAX
  /** `Node` is a `usize`. */
  type Node = n: nat | n <= USIZE_MAX

  datatype Option<T> = None | Some(value: T)

  /** An undirected interaction between two nodes at one instant. */
  datatype Link = Link(node1: Node, node2: Node, time: Time)

  /** A stream whose times never increase: the order every streaming pass
      of the engine relies on. */
  predicate NonIncreasing(links: seq<Link>)
  {
    forall i, j :: 0 <= i < j < |links| ==> links[j].time <= links[i].time
  }

  /** The link has `n` as one of its ends. */
  predicate Touches(l: Link, n: nat)
  {
    l.node1 == n || l.node2 == n
  }

  /** The time of the last link of the stream with `n` as an end. */
  function LatestTouch(links: seq<Link>, n: nat): Option<Time>
  {
    if links == [] then None
    else if Touches(links[|links| - 1], n) then Some(links[|links| - 1].time)
    else LatestTouch(links[..|links| - 1], n)
  }

  /** The time of the first link of the stream with `n` as an end. */
  function EarliestTouch(links: seq<Link>, n: nat): Option<Time>
  {
    if links == [] then None
    else
      var before := EarliestTouch(links[..|links| - 1], n);
      if before.None? && Touches(links[|links| - 1], n) then Some(links[|links| - 1].time) else before
  }

  // ---------------------------------------------------------------------
  // Equality
  // ---------------------------------------------------------------------

  /** `PartialEq::eq`: field-by-field comparison, which is exactly
      structural equality of links. */
  function Equals(a: Link, b: Link): (r: bool)
    ensures r <==> a == b
  {
    a.node1 == b.node1 && a.node2 == b.node2 && a.time == b.time
  }

  /** `PartialEq::ne`, the negation of `eq`. */
  function NotEquals(a: Link, b: Link): (r: bool)
    ensures r <==> a != b
  {
    !Equals(a, b)
  }

  // ---------------------------------------------------------------------
  // Decimal numbers
  // ---------------------------------------------------------------------

  predicate IsDigit(c: char) { '0' <= c <= '9' }

  predicate AllDigits(s: string) { forall i :: 0 <= i < |s| ==> IsDigit(s[i]) }

  function DigitChar(d: nat): (c: char)
    requires d < 10
    ensures IsDigit(c) && (c == '0' <==> d == 0)
  {
    (('0' as int) + d) as char
  }

  function DigitValue(c: char): (d: nat)
    requires IsDigit(c)
    ensures d < 10
  {
    (c as int) - ('0' as int)
  }

  /** The value of a string of decimal digits, most significant first. */
  function DigitsValue(s: string): nat
    requires AllDigits(s)
  {
    if s == [] then 0 else DigitsValue(s[..|s| - 1]) * 10 + DigitValue(s[|s| - 1])
  }

  /** `format!("{}", n)` for an unsigned number: the shortest decimal
      spelling, without sign and without leading zero. */
  function Decimal(n: nat): (s: string)
    ensures |s| >= 1 && AllDigits(s)
    ensures |s| > 1 ==> s[0] != '0'
    ensures DigitsValue(s) == n
  {
    if n < 10 then [DigitChar(n)]
    else
      var s := Decimal(n / 10) + [DigitChar(n % 10)];
      assert s[..|s| - 1] == Decimal(n / 10);
      s
  }

  /** `str::parse` for an unsigned integer type whose largest value is
      `bound`: an optional `+`, then one or more decimal digits, denoting a
      value no larger than `bound`; anything else is an error. */
  function ParseUnsigned(s: string, bound: nat): (r: Option<nat>)
    ensures r.Some? ==> r.value <= bound
    ensures r.Some? ==> |s| >= 1 && (IsDigit(s[0]) || s[0] == '+')
  {
    var digits := if |s| > 0 && s[0] == '+' then s[1..] else s;
    if digits == [] || !AllDigits(digits) then None
    else if DigitsValue(digits) <= bound then Some(DigitsValue(digits))
    else None
  }

  lemma ParseDecimal(n: nat, bound: nat)
    ensures ParseUnsigned(Decimal(n), bound) == if n <= bound then Some(n) else None
  {
  }

  /** `s` spells the digit string `d`: `d` itself or `+d`, where `d` is a
      non-empty run of decimal digits. */
  ghost predicate Spells(s: string, d: string)
  {
    (s == d || s == "+" + d) && d != [] && AllDigits(d)
  }

  /** `s` denotes `n`, a value of the type whose largest value is `bound`. */
  ghost predicate Reads(s: string, bound: nat, n: nat)
  {
    n <= bound && exists d :: Spells(s, d) && DigitsValue(d) == n
  }

  /** `s` denotes some value of the type. */
  ghost predicate Readable(s: string, bound: nat)
  {
    exists n :: Reads(s, bound, n)
  }

  /** `str::parse` gives `n` exactly when the text denotes `n` within the
      type; it is an error exactly when the text denotes no such value: it
      is empty, holds a character other than a digit after the optional
      `+`, or its value is too large. */
  lemma ParseUnsignedSpec(s: string, bound: nat)
    ensures forall n: nat :: ParseUnsigned(s, bound) == Some(n) <==> Reads(s, bound, n)
    ensures ParseUnsigned(s, bound) == None <==> !Readable(s, bound)
  {
    var digits := if |s| > 0 && s[0] == '+' then s[1..] else s;
    assert s == digits || s == "+" + digits;
    forall n: nat
      ensures ParseUnsigned(s, bound) == Some(n) <==> Reads(s, bound, n)
    {
      if ParseUnsigned(s, bound) == Some(n) {
        assert Spells(s, digits) && DigitsValue(digits) == n;
      }
      if Reads(s, bound, n) {
        var d :| Spells(s, d) && DigitsValue(d) == n;
        if s == d {
          assert !(|s| > 0 && s[0] == '+');
        } else {
          assert s[1..] == d;
        }
        assert d == digits;
      }
    }
  }

  // ---------------------------------------------------------------------
  // Splitting on single spaces
  // ---------------------------------------------------------------------

  function Spaces(s: string): nat
  {
    if s == [] then 0 else (if s[0] == ' ' then 1 else 0) + Spaces(s[1..])
  }

  /** The fields glued back together with one space between neighbours. */
  function Join(fields: seq<string>): string
    requires |fields| >= 1
  {
    if |fields| == 1 then fields[0] else fields[0] + " " + Join(fields[1..])
  }

  /** `str::split(" ")`: cut at every single space; two neighbouring spaces
      give an empty field, and the result always has one field more than
      the line has spaces. */
  function Split(s: string): (fields: seq<string>)
    ensures |fields| == Spaces(s) + 1
    ensures forall k :: 0 <= k < |fields| ==> ' ' !in fields[k]
    ensures Join(fields) == s
  {
    if s == [] then [""]
    else
      var rest := Split(s[1..]);
      if s[0] == ' ' then
        assert s == " " + s[1..];
        [""] + rest
      else
        var fields := [[s[0]] + rest[0]] + rest[1..];
        assert fields[1..] == rest[1..];
        assert Join(fields) == s by {
          if |rest| > 1 {
            calc {
              Join(fields);
              ([s[0]] + rest[0]) + " " + Join(rest[1..]);
              [s[0]] + (rest[0] + " " + Join(rest[1..]));
              [s[0]] + Join(rest);
            }
          }
          assert s == [s[0]] + s[1..];
        }
        fields
  }

  lemma {:induction false} SplitSingle(a: string)
    requires ' ' !in a
    ensures Split(a) == [a]
  {
    if a != [] {
      SplitSingle(a[1..]);
      assert [a[0]] + a[1..] == a;
    }
  }

  lemma {:induction false} SplitCons(a: string, b: string)
    requires ' ' !in a
    ensures Split(a + " " + b) == [a] + Split(b)
  {
    if a == [] {
      assert a + " " + b == " " + b;
      assert (" " + b)[1..] == b;
    } else {
      var s := a + " " + b;
      assert s[1..] == a[1..] + " " + b;
      SplitCons(a[1..], b);
      assert [a[0]] + a[1..] == a;
    }
  }

  /** Splitting a join of space-free fields gives the fields back. */
  lemma {:induction false} SplitJoin(fields: seq<string>)
    requires |fields| >= 1
    requires forall k :: 0 <= k < |fields| ==> ' ' !in fields[k]
    ensures Split(Join(fields)) == fields
  {
    if |fields| == 1 {
      SplitSingle(fields[0]);
    } else {
      SplitJoin(fields[1..]);
      SplitCons(fields[0], Join(fields[1..]));
      assert [fields[0]] + fields[1..] == fields;
    }
  }

  // ---------------------------------------------------------------------
  // Text form and parser
  // ---------------------------------------------------------------------

  /** `Link::to_string`: `"node1 node2 time"`, that is, exactly three
      decimal fields separated by single spaces. */
  function ToString(l: Link): (s: string)
    ensures Split(s) == [Decimal(l.node1), Decimal(l.node2), Decimal(l.time)]
  {
    var s := Decimal(l.node1) + " " + Decimal(l.node2) + " " + Decimal(l.time);
    var fields := [Decimal(l.node1), Decimal(l.node2), Decimal(l.time)];
    assert fields[1..][1..] == [Decimal(l.time)];
    assert Join(fields[1..]) == Decimal(l.node2) + " " + Decimal(l.time);
    assert Join(fields) == s;
    SplitJoin(fields);
    s
  }

  /** `parse_line`: split at single spaces, demand at least three fields and
      read the first three as `usize`, `usize` and `u64`; later fields are
      ignored. Each failure (the assertion on the field count, a failed
      `unwrap`) is `None`. */
  function ParseLine(line: string): (r: Option<Link>)
    ensures r.None? <==>
              var data := Split(line);
              |data| < 3 || !Readable(data[0], USIZE_MAX) || !Readable(data[1], USIZE_MAX) || !Readable(data[2], MAX)
  {
    var data := Split(line);
    if |data| < 3 then None
    else
      ParseUnsignedSpec(data[0], USIZE_MAX);
      ParseUnsignedSpec(data[1], USIZE_MAX);
      ParseUnsignedSpec(data[2], MAX);
      match (ParseUnsigned(data[0], USIZE_MAX), ParseUnsigned(data[1], USIZE_MAX), ParseUnsigned(data[2], MAX))
      case (Some(a), Some(b), Some(t)) => Some(Link(a, b, t))
      case _ => None
  }

  /** Reading back the text form of any link gives that link. */
  lemma ParseLineRoundTrip(l: Link)
    ensures ParseLine(ToString(l)) == Some(l)
  {
    ParseDecimal(l.node1, USIZE_MAX);
    ParseDecimal(l.node2, USIZE_MAX);
    ParseDecimal(l.time, MAX);
  }

  /** Fields after the third are ignored. */
  lemma ParseLineIgnoresExtraFields(l: Link, rest: string)
    ensures ParseLine(ToString(l) + " " + rest) == Some(l)
  {
    var fields := [Decimal(l.node1), Decimal(l.node2), Decimal(l.time)];
    var line := ToString(l) + " " + rest;
    assert line == Decimal(l.node1) + " " + (Decimal(l.node2) + " " + (Decimal(l.time) + " " + rest));
    SplitCons(Decimal(l.time), rest);
    SplitCons(Decimal(l.node2), Decimal(l.time) + " " + rest);
    SplitCons(Decimal(l.node1), Decimal(l.node2) + " " + (Decimal(l.time) + " " + rest));
    ParseDecimal(l.node1, USIZE_MAX);
    ParseDecimal(l.node2, USIZE_MAX);
    ParseDecimal(l.time, MAX);
  }

  /** A line with fewer than two spaces has fewer than three fields and is
      rejected. */
  lemma ParseLineNeedsThreeFields(line: string)
    requires Spaces(line) < 2
    ensures ParseLine(line) == None
  {
  }

  /** A line whose first field is not a number is rejected: here, one that
      does not start with a digit or `+`. */
  lemma ParseLineRejectsNonNumeric(line: string)
    requires line == [] || !(IsDigit(line[0]) || line[0] == '+')
    ensures ParseLine(line) == None
  {
    var data := Split(line);
    if |data| >= 3 && data[0] != [] {
      assert Join(data) == line;
      assert Join(data) == data[0] + " " + Join(data[1..]);
      assert line[0] == data[0][0];
    }
  }

  /** A node id beyond `usize::MAX` is rejected, whatever follows it. */
  lemma ParseLineRejectsOutOfRange(n: nat, rest: string)
    requires n > USIZE_MAX
    ensures ParseLine(Decimal(n) + " " + rest) == None
  {
    SplitCons(Decimal(n), rest);
    ParseDecimal(n, USIZE_MAX);
  }

  /** A `node2` beyond `usize::MAX` is rejected, whatever surrounds it. */
  lemma ParseLineRejectsLargeNode2(first: string, n: nat, rest: string)
    requires ' ' !in first && n > USIZE_MAX
    ensures ParseLine(first + " " + Decimal(n) + " " + rest) == None
  {
    SplitCons(Decimal(n), rest);
    assert first + " " + Decimal(n) + " " + rest == first + " " + (Decimal(n) + " " + rest);
    SplitCons(first, Decimal(n) + " " + rest);
    ParseDecimal(n, USIZE_MAX);
    ParseUnsignedSpec(Decimal(n), USIZE_MAX);
  }

  /** A time beyond `u64::MAX` is rejected, whatever precedes it. */
  lemma ParseLineRejectsLargeTime(first: string, second: string, n: nat)
    requires ' ' !in first && ' ' !in second && n > MAX
    ensures ParseLine(first + " " + second + " " + Decimal(n)) == None
  {
    SplitSingle(Decimal(n));
    SplitCons(second, Decimal(n));
    assert first + " " + second + " " + Decimal(n) == first + " " + (second + " " + Decimal(n));
    SplitCons(first, second + " " + Decimal(n));
    ParseDecimal(n, MAX);
    ParseUnsignedSpec(Decimal(n), MAX);
  }

  /** A line parses to `l` exactly when it has at least three fields and
      its first three denote `l.node1` and `l.node2` as `usize` values and
      `l.time` as a `u64` value. */
  lemma ParseLineSpec(line: string, l: Link)
    ensures ParseLine(line) == Some(l) <==>
              var data := Split(line);
              |data| >= 3 && Reads(data[0], USIZE_MAX, l.node1) && Reads(data[1], USIZE_MAX, l.node2)
              && Reads(data[2], MAX, l.time)
  {
    var data := Split(line);
    if |data| >= 3 {
      ParseUnsignedSpec(data[0], USIZE_MAX);
      ParseUnsignedSpec(data[1], USIZE_MAX);
      ParseUnsignedSpec(data[2], MAX);
    }
  }

  /** A line on which the source panics: a letter as the second field. */
  lemma ParseLineRejectsLetterField()
    ensures ParseLine("1 x 3") == None
  {
    SplitCons("x", "3");
    SplitCons("1", "x 3");
    SplitSingle("3");
    assert "1 x 3" == "1" + " " + "x 3";
    assert "x 3" == "x" + " " + "3";
    assert !IsDigit("x"[0]);
  }

  /** A line on which the source panics: a letter after the digits of the
      time. */
  lemma ParseLineRejectsTrailingLetter()
    ensures ParseLine("1 2 9z") == None
  {
    SplitCons("2", "9z");
    SplitCons("1", "2 9z");
    SplitSingle("9z");
    assert "1 2 9z" == "1" + " " + "2 9z";
    assert "2 9z" == "2" + " " + "9z";
    assert !IsDigit("9z"[1]);
  }

  /** The example of the source's documentation. */
  lemma ParseLineExample()
    ensures ParseLine("0 1 10") == Some(Link(0, 1, 10))
  {
    var l := Link(0, 1, 10);
    assert Decimal(10) == Decimal(1) + ['0'];
    assert ToString(l) == "0 1 10";
    ParseLineRoundTrip(l);
  }
}

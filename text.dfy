/** The string operations the formatters rely on: `Array.prototype.join`,
    splitting a document back into its lines, and the decimal rendering of
    a non-negative integer that `'DNS.' + (index + 1)` performs. */
module Text {

  /** `parts.join(sep)`: the parts in order, one separator between each two
      neighbours, none before the first or after the last. */
  function Join(parts: seq<string>, sep: string): string
  {
    if |parts| == 0 then ""
    else if |parts| == 1 then parts[0]
    else parts[0] + sep + Join(parts[1..], sep)
  }

  /** Joining one more part puts exactly one separator before it. */
  lemma {:induction false} JoinAppend(parts: seq<string>, sep: string, x: string)
    requires |parts| > 0
    ensures Join(parts + [x], sep) == Join(parts, sep) + sep + x
  {
    if |parts| > 1 {
      assert (parts + [x])[1..] == parts[1..] + [x];
      JoinAppend(parts[1..], sep, x);
    }
  }

  /** A join of at least two parts ends with the separator and the last
      part: no separator trails it. */
  lemma JoinEnds(parts: seq<string>, sep: string)
    requires |parts| > 1
    ensures var tail := sep + parts[|parts| - 1]; var j := Join(parts, sep);
            |tail| <= |j| && j[|j| - |tail|..] == tail
  {
    var init := parts[..|parts| - 1];
    assert init + [parts[|parts| - 1]] == parts;
    JoinAppend(init, sep, parts[|parts| - 1]);
    assert Join(parts, sep) == Join(init, sep) + (sep + parts[|parts| - 1]);
  }

  /** Joining with the empty separator is plain concatenation, so prepending
      a part prepends its text. */
  lemma {:induction false} JoinEmptyPrepend(x: string, parts: seq<string>)
    ensures Join([x] + parts, "") == x + Join(parts, "")
  {
    if |parts| > 0 {
      assert ([x] + parts)[1..] == parts;
    }
  }

  /** No line of `lines` contains the character `c`. */
  predicate NoneContains(lines: seq<string>, c: char)
  {
    forall i :: 0 <= i < |lines| ==> c !in lines[i]
  }

  /** `s.split(c)`: the maximal runs of `s` between occurrences of `c`;
      there is always one more piece than there are occurrences. */
  function Split(s: string, c: char): (r: seq<string>)
    ensures |r| >= 1
  {
    if s == [] then [""]
    else
      var rest := Split(s[1..], c);
      if s[0] == c then [""] + rest
      else [[s[0]] + rest[0]] + rest[1..]
  }

  lemma {:induction false} SplitWithoutSeparator(s: string, c: char)
    requires c !in s
    ensures Split(s, c) == [s]
  {
    if s != [] {
      SplitWithoutSeparator(s[1..], c);
      assert [s[0]] + s[1..] == s;
    }
  }

  /** A line free of `c`, followed by `c`, splits off as the first piece. */
  lemma {:induction false} SplitFirstLine(a: string, c: char, t: string)
    requires c !in a
    ensures Split(a + [c] + t, c) == [a] + Split(t, c)
  {
    var s := a + [c] + t;
    if a == [] {
      assert s[0] == c && s[1..] == t;
    } else {
      assert s[0] == a[0] && s[1..] == a[1..] + [c] + t;
      SplitFirstLine(a[1..], c, t);
      assert [a[0]] + a[1..] == a;
    }
  }

  /** Joining lines free of `c` with `c` and splitting at `c` gives the lines
      back: the joined document has exactly these lines and no trailing
      separator. */
  lemma {:induction false} SplitJoin(lines: seq<string>, c: char)
    requires |lines| > 0
    requires NoneContains(lines, c)
    ensures Split(Join(lines, [c]), c) == lines
  {
    if |lines| == 1 {
      SplitWithoutSeparator(lines[0], c);
    } else {
      SplitFirstLine(lines[0], c, Join(lines[1..], [c]));
      SplitJoin(lines[1..], c);
      assert [lines[0]] + lines[1..] == lines;
    }
  }

  predicate IsDigit(ch: char)
  {
    '0' <= ch <= '9'
  }

  predicate AllDigits(s: string)
  {
    forall i :: 0 <= i < |s| ==> IsDigit(s[i])
  }

  function DigitChar(d: nat): (ch: char)
    requires d < 10
    ensures IsDigit(ch) && ch as int - '0' as int == d
  {
    (d + '0' as int) as char
  }

  /** The decimal numeral of `n` as JavaScript writes an integral number:
      digits only, and a leading zero only for zero itself. */
  function NatToString(n: nat): (r: string)
    ensures |r| >= 1 && AllDigits(r)
    ensures r[0] == '0' <==> n == 0
  {
    if n < 10 then [DigitChar(n)]
    else NatToString(n / 10) + [DigitChar(n % 10)]
  }

  /** Reads a numeral back; the partner of `NatToString`. */
  function ParseDecimal(s: string): nat
    requires AllDigits(s)
  {
    if s == [] then 0
    else 10 * ParseDecimal(s[..|s| - 1]) + (s[|s| - 1] as int - '0' as int)
  }

  lemma {:induction false} ParseNatToString(n: nat)
    ensures ParseDecimal(NatToString(n)) == n
  {
    var s := NatToString(n);
    if n < 10 {
      assert s[..0] == [];
    } else {
      assert s[..|s| - 1] == NatToString(n / 10);
      ParseNatToString(n / 10);
    }
  }

  /** Distinct numbers have distinct numerals. */
  lemma NatToStringInjective(m: nat, n: nat)
    requires NatToString(m) == NatToString(n)
    ensures m == n
  {
    ParseNatToString(m);
    ParseNatToString(n);
  }
}

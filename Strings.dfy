/** The string operations the exporter takes from Go's `strings`, `strconv`
    and `fmt` packages: ASCII lower-casing, splitting and joining on a
    single-character separator, and decimal formatting of integers. */
module Strings {

  predicate IsUpper(c: char) {
    'A' <= c <= 'Z'
  }

  /** ASCII lower-casing of one character (strings.ToLower restricted to ASCII). */
  function LowerChar(c: char): (r: char)
    ensures !IsUpper(r)
    ensures IsUpper(c) ==> r as int == c as int + 32
    ensures !IsUpper(c) ==> r == c
  {
    if IsUpper(c) then (c as int + 32) as char else c
  }

  function Lower(s: string): (r: string)
    ensures |r| == |s|
    ensures forall i :: 0 <= i < |s| ==> r[i] == LowerChar(s[i])
  {
    seq(|s|, i requires 0 <= i < |s| => LowerChar(s[i]))
  }

  /** Lower-casing is idempotent and leaves no upper-case letter behind. */
  lemma LowerIdempotent(s: string)
    ensures Lower(Lower(s)) == Lower(s)
    ensures forall i :: 0 <= i < |Lower(s)| ==> !IsUpper(Lower(s)[i])
  {
  }

  /** strings.Join(parts, sep). */
  function Join(parts: seq<string>, sep: string): string
  {
    if |parts| == 0 then ""
    else if |parts| == 1 then parts[0]
    else parts[0] + sep + Join(parts[1..], sep)
  }

  /** strings.Split(s, string(sep)) for a one-character separator: the pieces
      between separators, at least one piece (the empty string splits to [""]). */
  function Split(s: string, sep: char): (parts: seq<string>)
    ensures |parts| >= 1
    ensures forall i :: 0 <= i < |parts| ==> sep !in parts[i]
    ensures Join(parts, [sep]) == s
  {
    if s == [] then [""]
    else if s[0] == sep then
      var rest := Split(s[1..], sep);
      assert s == [sep] + s[1..];
      [""] + rest
    else
      var rest := Split(s[1..], sep);
      assert s == [s[0]] + s[1..];
      [[s[0]] + rest[0]] + rest[1..]
  }

  /** Splitting undoes joining: for pieces free of the separator, Split
      recovers exactly the pieces that Join glued together. */
  lemma {:induction false} SplitJoin(parts: seq<string>, sep: char)
    requires |parts| >= 1
    requires forall i :: 0 <= i < |parts| ==> sep !in parts[i]
    ensures Split(Join(parts, [sep]), sep) == parts
  {
    if |parts| == 1 {
      SplitOfSeparatorFree(parts[0], sep);
    } else {
      SplitJoin(parts[1..], sep);
      SplitConcat(parts[0], Join(parts[1..], [sep]), sep);
      assert Join(parts, [sep]) == parts[0] + [sep] + Join(parts[1..], [sep]);
      assert [parts[0]] + parts[1..] == parts;
    }
  }

  lemma {:induction false} SplitOfSeparatorFree(s: string, sep: char)
    requires sep !in s
    ensures Split(s, sep) == [s]
  {
    if s != [] {
      SplitOfSeparatorFree(s[1..], sep);
      assert [s[0]] + s[1..] == s;
    }
  }

  /** Splitting `a + [sep] + b` for a separator-free `a` gives `a` followed by the pieces of `b`. */
  lemma {:induction false} SplitConcat(a: string, b: string, sep: char)
    requires sep !in a
    ensures Split(a + [sep] + b, sep) == [a] + Split(b, sep)
  {
    if a == [] {
      assert a + [sep] + b == [sep] + b;
      assert ([sep] + b)[1..] == b;
    } else {
      var s := a + [sep] + b;
      assert s[0] == a[0] != sep;
      assert s[1..] == a[1..] + [sep] + b;
      SplitConcat(a[1..], b, sep);
      var rest := Split(s[1..], sep);
      assert rest[0] == a[1..] && rest[1..] == Split(b, sep);
      assert Split(s, sep) == [[a[0]] + rest[0]] + rest[1..];
      assert [a[0]] + a[1..] == a;
    }
  }

  /** A message made of the clauses that apply, the first clause first,
      starts with the first clause iff it applies and ends with the second iff
      it applies, when the first is shorter and the two differ at one
      position. */
  lemma ClauseMessage(first: bool, second: bool, a: string, b: string)
    requires first || second
    requires 6 < |a| < |b| && a[6] != b[6]
    ensures var msg := (if first then a else "") + (if second then b else "");
      && (a <= msg <==> first)
      && ((|msg| >= |b| && msg[|msg| - |b|..] == b) <==> second)
  {
    var msg := (if first then a else "") + (if second then b else "");
    if first && second {
      assert msg[|msg| - |b|..] == b;
    } else if second {
      assert msg == b;
      assert !(a <= msg) by {
        assert msg[6] != a[6];
      }
    }
  }

  /** Two parts join around one separator. */
  lemma JoinPair(a: string, b: string, sep: string)
    ensures Join([a, b], sep) == a + sep + b
  {
    assert [a, b][1..] == [b];
  }

  /** Joining a prefix of the pieces gives a prefix of the joined string. */
  lemma {:induction false} JoinPrefix(parts: seq<string>, sep: string, k: nat)
    requires k <= |parts|
    ensures Join(parts[..k], sep) <= Join(parts, sep)
  {
    if k == 0 || |parts| == 1 {
      assert parts[..|parts|] == parts;
    } else {
      JoinPrefix(parts[1..], sep, k - 1);
      assert parts[..k][1..] == parts[1..][..k - 1];
      if k == 1 {
        assert Join(parts[..k], sep) == parts[0];
      }
    }
  }

  /** The first k pieces of a split, joined back with the separator, are a prefix of the original. */
  lemma SplitPrefixIsPrefix(s: string, sep: char, k: nat)
    requires k <= |Split(s, sep)|
    ensures Join(Split(s, sep)[..k], [sep]) <= s
  {
    JoinPrefix(Split(s, sep), [sep], k);
  }

  /** A separator-free `a`, the separator and `b` split into `a` and the pieces of `b`. */
  lemma ConsPiece(a: string, b: string, sep: char, rest: seq<string>)
    requires sep !in a && Split(b, sep) == rest
    ensures Split(a + [sep] + b, sep) == [a] + rest
  {
    SplitConcat(a, b, sep);
  }

  lemma TwoPieces(a: string, b: string, sep: char)
    requires sep !in a && sep !in b
    ensures Split(a + [sep] + b, sep) == [a, b]
  {
    SplitOfSeparatorFree(b, sep);
    SplitConcat(a, b, sep);
  }

  lemma FourPieces(a: string, b: string, c: string, d: string, sep: char)
    requires sep !in a && sep !in b && sep !in c && sep !in d
    ensures Split(a + [sep] + b + [sep] + c + [sep] + d, sep) == [a, b, c, d]
  {
    var x := c + [sep] + d;
    TwoPieces(c, d, sep);
    var y := b + [sep] + x;
    ConsPiece(b, x, sep, [c, d]);
    ConsPiece(a, y, sep, [b, c, d]);
    Assoc4(a, b, c, d, [sep]);
  }

  lemma Assoc4(a: string, b: string, c: string, d: string, s: string)
    ensures a + s + b + s + c + s + d == a + s + (b + s + (c + s + d))
  {
  }

  function DigitChar(d: nat): (c: char)
    requires d < 10
    ensures '0' <= c <= '9'
    ensures c as int - '0' as int == d
  {
    ('0' as int + d) as char
  }

  /** Decimal digits of a natural number, most significant first, no leading zeros. */
  function NatToString(n: nat): (s: string)
    ensures |s| >= 1
    ensures forall i :: 0 <= i < |s| ==> '0' <= s[i] <= '9'
    ensures |s| > 1 ==> s[0] != '0'
  {
    if n < 10 then [DigitChar(n)] else NatToString(n / 10) + [DigitChar(n % 10)]
  }

  /** strconv.FormatInt(n, 10), equivalently fmt's %d verb. */
  function Itoa(n: int): (s: string)
    ensures |s| >= 1
  {
    if n < 0 then "-" + NatToString(-n) else NatToString(n)
  }

  /** The value of a string of decimal digits. */
  function DecimalValue(s: string): nat
    requires forall i :: 0 <= i < |s| ==> '0' <= s[i] <= '9'
  {
    if s == [] then 0 else DecimalValue(s[..|s| - 1]) * 10 + (s[|s| - 1] as int - '0' as int)
  }

  /** Reading the digits back gives the number: decimal formatting is injective. */
  lemma {:induction false} DecimalRoundTrip(n: nat)
    ensures DecimalValue(NatToString(n)) == n
  {
    if n >= 10 {
      DecimalRoundTrip(n / 10);
      var s := NatToString(n);
      assert s[..|s| - 1] == NatToString(n / 10);
    }
  }

  /** Distinct integers format to distinct strings. */
  lemma ItoaInjective(a: int, b: int)
    requires Itoa(a) == Itoa(b)
    ensures a == b
  {
    var x, y := NatToString(if a < 0 then -a else a), NatToString(if b < 0 then -b else b);
    assert ("-" + x)[1..] == x && ("-" + y)[1..] == y;
    DecimalRoundTrip(if a < 0 then -a else a);
    DecimalRoundTrip(if b < 0 then -b else b);
    assert (a < 0) == (Itoa(a)[0] == '-') && (b < 0) == (Itoa(b)[0] == '-');
  }

  lemma ItoaOfNatural(n: int)
    requires n >= 0
    ensures Itoa(n) == NatToString(n)
    ensures DecimalValue(Itoa(n)) == n
  {
    DecimalRoundTrip(n);
  }
}

/** Splitting text at a separator and decimal numbers, as the standard library functions used by the
    modelled code do it (strings.Split, strconv.Atoi, fmt's %d). */
module Text {
  import opened Wrappers

  function Split(s: string, sep: char): (parts: seq<string>)
    ensures |parts| >= 1 && forall p <- parts :: sep !in p
  {
    if s == "" then [""]
    else
      var before, c := Split(s[..|s| - 1], sep), s[|s| - 1];
      if c == sep then before + [""] else AppendLast(before, [c])
  }

  function AppendLast(parts: seq<string>, part: string): (r: seq<string>)
    requires |parts| >= 1
    ensures |r| == |parts|
  {
    parts[..|parts| - 1] + [parts[|parts| - 1] + part]
  }

  lemma AppendTwice(parts: seq<string>, a: string, b: string)
    requires |parts| >= 1
    ensures AppendLast(AppendLast(parts, a), b) == AppendLast(parts, a + b)
  {
    var last := parts[|parts| - 1];
    assert (last + a) + b == last + (a + b);
  }

  lemma {:induction false} SplitAppends(s: string, part: string, sep: char)
    requires sep !in part
    ensures Split(s + part, sep) == AppendLast(Split(s, sep), part)
  {
    if part == "" {
      assert s + part == s && Split(s, sep)[|Split(s, sep)| - 1] + "" == Split(s, sep)[|Split(s, sep)| - 1];
    } else {
      var before, c := part[..|part| - 1], part[|part| - 1];
      assert c in part && forall x <- before :: x in part;
      SplitAppends(s, before, sep);
      assert (s + part)[..|s + part| - 1] == s + before;
      AppendTwice(Split(s, sep), before, [c]);
      assert part == before + [c];
    }
  }

  lemma SplitAtEnd(s: string, sep: char)
    ensures Split(s + [sep], sep) == Split(s, sep) + [""]
  {
    assert (s + [sep])[..|s|] == s;
  }

  /** One more part and its separator, after text that ends at a separator or is empty. */
  lemma SplitOneMore(head: string, before: seq<string>, part: string, sep: char)
    requires Split(head, sep) == before + [""] && sep !in part
    ensures Split(head + part + [sep], sep) == before + [part] + [""]
  {
    SplitAppends(head, part, sep);
    assert "" + part == part;
    var s := head + part + [sep];
    assert s[..|s| - 1] == head + part;
  }

  // ----- decimal numbers -----

  const MAX_INT := 0x7fff_ffff_ffff_ffff

  predicate IsDigit(c: char) {
    '0' <= c <= '9'
  }

  function DigitValue(c: char): nat
    requires IsDigit(c)
  {
    c as int - '0' as int
  }

  function Digit(d: nat): (c: char)
    requires d < 10
    ensures IsDigit(c) && DigitValue(c) == d
  {
    ('0' as int + d) as char
  }

  function Digits(s: string): Option<nat> {
    if s == "" then None
    else if !IsDigit(s[|s| - 1]) then None
    else if |s| == 1 then Some(DigitValue(s[0]))
    else
      match Digits(s[..|s| - 1])
      case None => None
      case Some(n) => Some(10 * n + DigitValue(s[|s| - 1]))
  }

  /** A sign is allowed; what does not fit in 64 bits is an error. */
  function Atoi(s: string): (r: Option<int>)
    ensures r.Some? ==> -MAX_INT - 1 <= r.value <= MAX_INT
  {
    var negative := s != "" && s[0] == '-';
    var digits := if s != "" && (s[0] == '-' || s[0] == '+') then s[1..] else s;
    match Digits(digits)
    case None => None
    case Some(n) =>
      var size: int := n;
      var v := if negative then -size else size;
      if -MAX_INT - 1 <= v <= MAX_INT then Some(v) else None
  }

  function Itoa(n: nat): (s: string)
    ensures s != "" && forall c <- s :: IsDigit(c)
  {
    if n < 10 then [Digit(n)] else Itoa(n / 10) + [Digit(n % 10)]
  }

  lemma {:induction false} DigitsOfItoa(n: nat)
    ensures Digits(Itoa(n)) == Some(n)
  {
    if n >= 10 {
      DigitsOfItoa(n / 10);
      var s := Itoa(n);
      assert s[..|s| - 1] == Itoa(n / 10);
    }
  }

  lemma AtoiOfItoa(n: nat)
    requires n <= MAX_INT
    ensures Atoi(Itoa(n)) == Some(n)
  {
    DigitsOfItoa(n);
    assert Itoa(n)[0] in Itoa(n);
  }
}

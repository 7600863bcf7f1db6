/** Template substitution (pkg/types/stackerfile.go): one rewriting pass over the text per given
    substitution, then defaults filled in one at a time, against an evaluator that reads the
    template once. */
module Substitute {
  import opened Wrappers

  // ----- matching -----

  // How many characters come before the first closing brace.
  function Run(s: string): (n: nat)
    ensures n <= |s|
  {
    if s == "" || s[0] == '}' then 0 else 1 + Run(s[1..])
  }

  /** The match of PRE(:[^\}]*)?CLOSE at the start of the text, by its length.  CLOSE begins with a
      brace, so the optional group and the run inside it can be taken in one way only. */
  function MatchAt(s: string, pre: string, close: string): (r: Option<nat>)
    ensures r.Some? ==> |pre| + |close| <= r.value <= |s|
  {
    if !(pre <= s) then None
    else
      var rest := s[|pre|..];
      if close <= rest then Some(|pre| + |close|)
      else if rest != "" && rest[0] == ':' then
        var n := Run(rest[1..]);
        if close <= rest[1 + n..] then Some(|pre| + 1 + n + |close|) else None
      else None
  }

  predicate HasMatch(s: string, pre: string, close: string) {
    MatchAt(s, pre, close).Some? || (s != "" && HasMatch(s[1..], pre, close))
  }

  predicate Contains(s: string, sub: string) {
    sub <= s || (s != "" && Contains(s[1..], sub))
  }

  /** Leftmost non-overlapping matches replaced; the replacement has no `$` to expand. */
  function ReplaceAll(s: string, pre: string, close: string, to: string): string
    requires |pre| > 0
  {
    if s == "" then ""
    else match MatchAt(s, pre, close)
      case Some(n) => to + ReplaceAll(s[n..], pre, close, to)
      case None => [s[0]] + ReplaceAll(s[1..], pre, close, to)
  }

  /** The match of \$\{\{[^\}]*\}\} at the start of the text, by its length. */
  function HoleAt(s: string): (r: Option<nat>)
    ensures r.Some? ==> 5 <= r.value <= |s|
  {
    if !("${{" <= s) then None
    else
      var n := Run(s[3..]);
      if "}}" <= s[3 + n..] then Some(3 + n + 2) else None
  }

  datatype Place = Nowhere | At(start: nat, length: nat)

  /** Where the leftmost placeholder is. */
  function FindHole(s: string): (r: Place)
    ensures r.At? ==> r.start + r.length <= |s| && r.length >= 5
  {
    if s == "" then Nowhere
    else match HoleAt(s)
      case Some(n) => At(0, n)
      case None =>
        match FindHole(s[1..])
        case Nowhere => Nowhere
        case At(i, n) => At(i + 1, n)
  }

  function FindChar(s: string, c: char): (r: Option<nat>)
    ensures r.Some? ==> r.value < |s| && s[r.value] == c && forall i :: 0 <= i < r.value ==> s[i] != c
    ensures r.None? ==> c !in s
  {
    if s == "" then None
    else if s[0] == c then Some(0)
    else match FindChar(s[1..], c)
      case None => None
      case Some(i) => Some(i + 1)
  }

  // ----- one substitution -----

  predicate Unsupported(s: string, key: string) {
    Contains(s, "$" + key) || Contains(s, "${" + key + "}") || HasMatch(s, "${" + key, "}")
  }

  function OnePass(s: string, key: string, to: string): string {
    ReplaceAll(s, "${{" + key, "}}", to)
  }

  /** A KEY=VALUE argument split at the first equals sign. */
  function SplitArgument(arg: string): Option<(string, string)> {
    match FindChar(arg, '=')
    case None => None
    case Some(i) => Some((arg[..i], arg[i + 1..]))
  }

  /** The text after the passes for the given arguments, and whether an unsupported placeholder
      was met on the way. */
  function Passes(s: string, args: seq<string>): Result<(string, bool)> {
    if args == [] then Ok((s, false))
    else
      var (before, bad) :- Passes(s, args[..|args| - 1]);
      match SplitArgument(args[|args| - 1])
      case None => Err
      case Some((key, to)) => Ok((OnePass(before, key, to), bad || Unsupported(before, key)))
  }

  // ----- defaults -----

  datatype Filling = Done | NoValue | Filled(text: string)

  // What a placeholder's text says after its first colon, put in its place.
  function WithDefault(before: string, variable: string, after: string): (r: Filling)
    ensures !r.Done?
    ensures r.Filled? ==> |r.text| <= |before| + |variable| - 1 + |after|
  {
    match FindChar(variable, ':')
    case None => NoValue
    case Some(c) => Filled(before + variable[c + 1..] + after)
  }

  /** The leftmost placeholder replaced by its default. */
  function FillFirst(s: string): (r: Filling)
    ensures r.Done? <==> FindHole(s).Nowhere?
    ensures r.Filled? ==> |r.text| <= |s| - 6
  {
    match FindHole(s)
    case Nowhere => Done
    case At(i, n) => WithDefault(s[..i], s[i + 3..i + n - 2], s[i + n..])
  }

  /** Fills in defaults from the left, until none is left. */
  function Defaults(s: string): (r: Result<string>)
    ensures r.Ok? ==> FindHole(r.value).Nowhere?
    decreases |s|
  {
    match FillFirst(s)
    case Done => Ok(s)
    case NoValue => Err
    case Filled(text) => Defaults(text)
  }

  function SubstituteAll(s: string, args: seq<string>): Result<string> {
    var (content, bad) :- Passes(s, args);
    if bad then Err else Defaults(content)
  }

  lemma PassesFail(s: string, args: seq<string>, i: nat)
    requires i <= |args| && Passes(s, args[..i]).Err?
    ensures Passes(s, args).Err?
    decreases |args| - i
  {
    if i < |args| {
      assert args[..i + 1][..i] == args[..i];
      PassesFail(s, args, i + 1);
    } else {
      assert args[..i] == args;
    }
  }

  method ReplaceGiven(text: string, substitutions: seq<string>) returns (r: Result<(string, bool)>)
    ensures r == Passes(text, substitutions)
  {
    var content, unsupported := text, false;
    for i := 0 to |substitutions|
      invariant Passes(text, substitutions[..i]) == Ok((content, unsupported))
    {
      assert substitutions[..i + 1][..i] == substitutions[..i] && substitutions[..i + 1][i] == substitutions[i];
      var membs := SplitArgument(substitutions[i]);
      if membs.None? {
        PassesFail(text, substitutions, i + 1);
        return Err;
      }
      var (key, to) := membs.value;
      var bad := Unsupported(content, key);
      if bad {
        unsupported := true;
      }
      content := OnePass(content, key, to);
    }
    assert substitutions[..|substitutions|] == substitutions;
    return Ok((content, unsupported));
  }

  /** Terminates on every text, because each default is at least six characters shorter than its
      placeholder; a result has no placeholder left, even one that an expansion has made. */
  method FillDefaults(text: string) returns (r: Result<string>)
    ensures r == Defaults(text)
    ensures r.Ok? ==> FindHole(r.value).Nowhere?
  {
    var content := text;
    while true
      invariant Defaults(content) == Defaults(text)
      decreases |content|
    {
      var next := FillFirst(content);
      match next {
        case Done => return Ok(content);
        case NoValue => return Err;
        case Filled(text') => content := text';
      }
    }
  }

  method RunSubstitute(text: string, substitutions: seq<string>) returns (r: Result<string>)
    ensures r == SubstituteAll(text, substitutions)
    ensures r.Ok? ==> FindHole(r.value).Nowhere?
  {
    var given := ReplaceGiven(text, substitutions);
    if given.Err? || given.value.1 {
      return Err;
    }
    r := FillDefaults(given.value.0);
  }

  // ----- templates -----

  /** A template is text in which `$` appears only in placeholders. */
  datatype Piece = Text(text: string) | Hole(key: string, default: Option<string>)

  predicate Plain(key: string) {
    key != "" && forall c <- key :: c != '$' && c != '{' && c != '}' && c != ':' && c != '='
  }

  predicate PieceOk(p: Piece) {
    match p
    case Text(text) => '$' !in text
    case Hole(key, default) => Plain(key) && (default.Some? ==> '$' !in default.value && '}' !in default.value)
  }

  function Show(p: Piece): string {
    match p
    case Text(text) => text
    case Hole(key, None) => "${{" + key + "}}"
    case Hole(key, Some(default)) => "${{" + key + ":" + default + "}}"
  }

  function Render(t: seq<Piece>): string {
    if t == [] then "" else Show(t[0]) + Render(t[1..])
  }

  datatype Binding = Binding(key: string, value: string)

  // What a given key, which goes into a pattern as it is, must not have for the pattern to mean it.
  const METACHARACTERS: string := "\\.+*?()|[]^"

  predicate Literal(key: string) {
    forall c <- key :: c !in METACHARACTERS
  }

  predicate BindingOk(b: Binding) {
    Plain(b.key) && Literal(b.key) && '$' !in b.value
  }

  function Argument(b: Binding): string {
    b.key + "=" + b.value
  }

  function Arguments(bs: seq<Binding>): seq<string> {
    seq(|bs|, i requires 0 <= i < |bs| => Argument(bs[i]))
  }

  /** The first value given for a key. */
  function Given(bs: seq<Binding>, key: string): Option<string> {
    if bs == [] then None else if bs[0].key == key then Some(bs[0].value) else Given(bs[1..], key)
  }

  /** The reference: reads the template once, from left to right. */
  function Evaluate(t: seq<Piece>, bs: seq<Binding>): Result<string> {
    if t == [] then Ok("")
    else
      var rest :- Evaluate(t[1..], bs);
      match t[0]
      case Text(text) => Ok(text + rest)
      case Hole(key, default) =>
        match Given(bs, key)
        case Some(value) => Ok(value + rest)
        case None => if default.Some? then Ok(default.value + rest) else Err
  }

  function Fill(t: seq<Piece>, b: Binding): seq<Piece> {
    if t == [] then []
    else [if t[0].Hole? && t[0].key == b.key then Text(b.value) else t[0]] + Fill(t[1..], b)
  }

  predicate TemplateOk(t: seq<Piece>) {
    forall p <- t :: PieceOk(p)
  }

  // ----- one pass on a template -----

  lemma {:induction false} ReplaceText(text: string, rest: string, pre: string, close: string, to: string)
    requires '$' !in text && pre != "" && pre[0] == '$'
    ensures ReplaceAll(text + rest, pre, close, to) == text + ReplaceAll(rest, pre, close, to)
  {
    if text == "" {
      assert text + rest == rest;
    } else {
      assert (text + rest)[0] == text[0] && text[0] in text;
      assert (text + rest)[1..] == text[1..] + rest;
      ReplaceText(text[1..], rest, pre, close, to);
    }
  }

  lemma {:induction false} RunStops(s: string, rest: string)
    requires '}' !in s && rest != "" && rest[0] == '}'
    ensures Run(s + rest) == |s|
  {
    if s == "" {
      assert s + rest == rest;
    } else {
      assert s[0] in s && (s + rest)[1..] == s[1..] + rest;
      RunStops(s[1..], rest);
    }
  }

  /** After its key a placeholder goes on with a brace or a colon. */
  function AfterKey(default: Option<string>): string {
    if default.None? then "}}" else ":" + default.value + "}}"
  }

  lemma ShowHole(key: string, default: Option<string>)
    ensures Show(Hole(key, default)) == "${{" + key + AfterKey(default)
  {
  }

  /** After the opening the placeholder matches up to its closing braces. */
  lemma PlainMatches(pre: string, rest: string)
    ensures MatchAt(pre + ("}}" + rest), pre, "}}") == Some(|pre| + 2)
  {
    var s := pre + ("}}" + rest);
    assert s[|pre|..] == "}}" + rest;
  }

  lemma DefaultMatches(pre: string, d: string, rest: string)
    requires '}' !in d
    ensures MatchAt(pre + (":" + d + "}}" + rest), pre, "}}") == Some(|pre| + 1 + |d| + 2)
  {
    var tail := ":" + d + "}}" + rest;
    assert (pre + tail)[|pre|..] == tail;
    assert tail[1..] == d + ("}}" + rest);
    RunStops(d, "}}" + rest);
    assert tail[1 + |d|..] == "}}" + rest;
  }

  lemma HoleMatches(p: Piece, rest: string)
    requires p.Hole? && PieceOk(p)
    ensures MatchAt(Show(p) + rest, "${{" + p.key, "}}") == Some(|Show(p)|)
  {
    ShowHole(p.key, p.default);
    var pre := "${{" + p.key;
    assert Show(p) + rest == pre + (AfterKey(p.default) + rest);
    if p.default.None? {
      PlainMatches(pre, rest);
    } else {
      DefaultMatches(pre, p.default.value, rest);
    }
  }

  lemma LongPrefix(a: string, b: string, x: string)
    requires b <= a + x && |b| > |a|
    ensures x != "" && x[0] in b
  {
    assert b[|a|] == (a + x)[|a|] == x[0];
  }

  lemma EqualPrefix(a: string, b: string, x: string)
    requires b <= a + x && |b| == |a|
    ensures b == a
  {
    assert b == (a + x)[..|b|];
  }

  lemma KeyMismatch(a: string, b: string, x: string)
    requires Plain(a) && Plain(b) && a != b
    requires x != "" && (x[0] == '}' || x[0] == ':')
    requires b <= a + x
    ensures |b| < |a| && (a + x)[|b|] in a
  {
    if |b| > |a| {
      LongPrefix(a, b, x);
    } else if |b| == |a| {
      EqualPrefix(a, b, x);
    } else {
      assert (a + x)[|b|] == a[|b|];
    }
  }

  lemma OtherHoleNoMatch(p: Piece, rest: string, key: string)
    requires p.Hole? && PieceOk(p) && Plain(key) && p.key != key
    ensures MatchAt(Show(p) + rest, "${{" + key, "}}") == None
  {
    ShowHole(p.key, p.default);
    var s, pre := Show(p) + rest, "${{" + key;
    var x := AfterKey(p.default) + rest;
    assert s == "${{" + (p.key + x);
    if pre <= s {
      assert key <= p.key + x by {
        assert s[3..] == p.key + x;
        assert pre[3..] == key;
        assert s[..|pre|] == pre;
        assert s[3..|pre|] == key;
      }
      KeyMismatch(p.key, key, x);
      var tail := s[|pre|..];
      assert tail[0] == (p.key + x)[|key|];
      assert tail[0] in p.key;
    }
  }

  lemma TailNoDollar(p: Piece)
    requires p.Hole? && PieceOk(p)
    ensures |Show(p)| > 1 && Show(p)[0] == '$' && '$' !in Show(p)[1..]
  {
    ShowHole(p.key, p.default);
    assert Show(p)[1..] == "{{" + p.key + AfterKey(p.default);
  }

  lemma ReplaceHere(s: string, pre: string, close: string, to: string, n: nat)
    requires |pre| > 0 && MatchAt(s, pre, close) == Some(n)
    ensures ReplaceAll(s, pre, close, to) == to + ReplaceAll(s[n..], pre, close, to)
  {
  }

  lemma ReplaceSame(p: Piece, rest: string, to: string)
    requires p.Hole? && PieceOk(p)
    ensures OnePass(Show(p) + rest, p.key, to) == to + OnePass(rest, p.key, to)
  {
    var s := Show(p) + rest;
    HoleMatches(p, rest);
    ReplaceHere(s, "${{" + p.key, "}}", to, |Show(p)|);
    assert s[|Show(p)|..] == rest;
  }

  lemma SkipFirst(s: string, pre: string, close: string, to: string)
    requires |pre| > 0 && s != "" && MatchAt(s, pre, close) == None
    ensures ReplaceAll(s, pre, close, to) == [s[0]] + ReplaceAll(s[1..], pre, close, to)
  {
  }

  lemma HeadAndTail(s: string, x: string)
    requires s != ""
    ensures [s[0]] + (s[1..] + x) == s + x && (s + x)[0] == s[0] && (s + x)[1..] == s[1..] + x
  {
  }

  lemma ReplaceOther(p: Piece, rest: string, key: string, to: string)
    requires p.Hole? && PieceOk(p) && Plain(key) && p.key != key
    ensures OnePass(Show(p) + rest, key, to) == Show(p) + OnePass(rest, key, to)
  {
    var s, pre := Show(p) + rest, "${{" + key;
    OtherHoleNoMatch(p, rest, key);
    TailNoDollar(p);
    SkipFirst(s, pre, "}}", to);
    HeadAndTail(Show(p), rest);
    HeadAndTail(Show(p), ReplaceAll(rest, pre, "}}", to));
    ReplaceText(Show(p)[1..], rest, pre, "}}", to);
  }

  lemma ReplaceHole(p: Piece, rest: string, b: Binding)
    requires p.Hole? && PieceOk(p) && Plain(b.key)
    ensures OnePass(Show(p) + rest, b.key, b.value) ==
      (if p.key == b.key then b.value else Show(p)) + OnePass(rest, b.key, b.value)
  {
    if p.key == b.key {
      ReplaceSame(p, rest, b.value);
    } else {
      ReplaceOther(p, rest, b.key, b.value);
    }
  }

  /** A pass over the text fills in exactly the placeholders with that key. */
  lemma {:induction false} PassFills(t: seq<Piece>, b: Binding)
    requires TemplateOk(t) && BindingOk(b)
    ensures OnePass(Render(t), b.key, b.value) == Render(Fill(t, b)) && TemplateOk(Fill(t, b))
  {
    if t != [] {
      var p, rest := t[0], Render(t[1..]);
      assert p in t;
      PassFills(t[1..], b);
      if p.Text? {
        ReplaceText(p.text, rest, "${{" + b.key, "}}", b.value);
      } else {
        ReplaceHole(p, rest, b);
      }
      assert Fill(t, b)[0] == (if p.Hole? && p.key == b.key then Text(b.value) else p) && Fill(t, b)[1..] == Fill(t[1..], b);
    }
  }

  // ----- all passes -----

  function FillAll(t: seq<Piece>, bs: seq<Binding>): seq<Piece> {
    if bs == [] then t else Fill(FillAll(t, bs[..|bs| - 1]), bs[|bs| - 1])
  }

  lemma SplitBinding(b: Binding)
    requires BindingOk(b)
    ensures SplitArgument(Argument(b)) == Some((b.key, b.value))
  {
    assert Argument(b) == b.key + (['='] + b.value);
    FindCharAfter(b.key, '=', b.value);
    assert Argument(b)[..|b.key|] == b.key && Argument(b)[|b.key| + 1..] == b.value;
  }

  lemma {:induction false} FindCharAfter(a: string, c: char, rest: string)
    requires c !in a
    ensures FindChar(a + ([c] + rest), c) == Some(|a|)
  {
    if a == "" {
      assert a + ([c] + rest) == [c] + rest;
    } else {
      assert a[0] in a && (a + ([c] + rest))[1..] == a[1..] + ([c] + rest);
      FindCharAfter(a[1..], c, rest);
    }
  }

  lemma {:induction false} FindCharAbsent(s: string, c: char)
    requires c !in s
    ensures FindChar(s, c) == None
  {
    if s != "" {
      assert s[0] in s;
      FindCharAbsent(s[1..], c);
    }
  }

  // With `$` only in placeholders, no unsupported one is ever seen.
  lemma {:induction false} TextContainsNot(text: string, rest: string, sub: string)
    requires '$' !in text && sub != "" && sub[0] == '$'
    ensures Contains(text + rest, sub) == Contains(rest, sub)
  {
    if text == "" {
      assert text + rest == rest;
    } else {
      assert text[0] in text && (text + rest)[1..] == text[1..] + rest;
      TextContainsNot(text[1..], rest, sub);
    }
  }

  lemma {:induction false} TextMatchesNot(text: string, rest: string, pre: string, close: string)
    requires '$' !in text && pre != "" && pre[0] == '$'
    ensures HasMatch(text + rest, pre, close) == HasMatch(rest, pre, close)
  {
    if text == "" {
      assert text + rest == rest;
    } else {
      assert text[0] in text && (text + rest)[1..] == text[1..] + rest;
      TextMatchesNot(text[1..], rest, pre, close);
    }
  }

  lemma NotPrefix(s: string, sub: string, i: nat)
    requires i < |sub| && i < |s| && s[i] != sub[i]
    ensures !(sub <= s)
  {
  }

  lemma HoleSupported(p: Piece, rest: string, key: string)
    requires p.Hole? && PieceOk(p) && Plain(key) && !Unsupported(rest, key)
    ensures !Unsupported(Show(p) + rest, key)
  {
    ShowHole(p.key, p.default);
    TailNoDollar(p);
    var s, tail := Show(p) + rest, Show(p)[1..];
    assert s[1..] == tail + rest && s[1] == '{' && s[2] == '{';
    assert key[0] in key;
    TextContainsNot(tail, rest, "$" + key);
    NotPrefix(s, "$" + key, 1);
    TextContainsNot(tail, rest, "${" + key + "}");
    NotPrefix(s, "${" + key + "}", 2);
    TextMatchesNot(tail, rest, "${" + key, "}");
    NotPrefix(s, "${" + key, 2);
  }

  lemma {:induction false} TemplateSupported(t: seq<Piece>, key: string)
    requires TemplateOk(t) && Plain(key)
    ensures !Unsupported(Render(t), key)
  {
    if t != [] {
      assert t[0] in t;
      TemplateSupported(t[1..], key);
      var rest := Render(t[1..]);
      if t[0].Text? {
        TextContainsNot(t[0].text, rest, "$" + key);
        TextContainsNot(t[0].text, rest, "${" + key + "}");
        TextMatchesNot(t[0].text, rest, "${" + key, "}");
      } else {
        HoleSupported(t[0], rest, key);
      }
    }
  }

  lemma {:induction false} PassesFill(t: seq<Piece>, bs: seq<Binding>)
    requires TemplateOk(t) && forall b <- bs :: BindingOk(b)
    ensures Passes(Render(t), Arguments(bs)) == Ok((Render(FillAll(t, bs)), false)) && TemplateOk(FillAll(t, bs))
  {
    if bs != [] {
      var before, b := bs[..|bs| - 1], bs[|bs| - 1];
      assert b in bs;
      PassesFill(t, before);
      assert Arguments(bs)[..|bs| - 1] == Arguments(before);
      SplitBinding(b);
      TemplateSupported(FillAll(t, before), b.key);
      PassFills(FillAll(t, before), b);
    }
  }

  // ----- defaults on a template -----

  lemma NoHoleAt(s: string)
    requires s != "" && s[0] != '$'
    ensures HoleAt(s) == None
  {
    NotPrefix(s, "${{", 0);
  }

  lemma {:induction false} FindAfterText(text: string, rest: string)
    requires '$' !in text
    ensures FindHole(text + rest) == match FindHole(rest) case Nowhere => Nowhere case At(i, n) => At(|text| + i, n)
  {
    var s := text + rest;
    if text == "" {
      assert s == rest;
    } else {
      assert s[0] == text[0] && text[0] in text && s[1..] == text[1..] + rest;
      NoHoleAt(s);
      FindAfterText(text[1..], rest);
    }
  }

  /** What stands between a placeholder's braces. */
  function Inside(p: Piece): string
    requires p.Hole?
  {
    if p.default.None? then p.key else p.key + ":" + p.default.value
  }

  lemma HoleAtParts(inside: string, rest: string)
    requires '}' !in inside
    ensures HoleAt("${{" + inside + "}}" + rest) == Some(|inside| + 5)
  {
    var s := "${{" + inside + "}}" + rest;
    assert s[3..] == inside + ("}}" + rest);
    RunStops(inside, "}}" + rest);
    assert s[3 + |inside|..] == "}}" + rest;
  }

  lemma ShowInside(p: Piece)
    requires p.Hole? && PieceOk(p)
    ensures Show(p) == "${{" + Inside(p) + "}}" && '}' !in Inside(p)
  {
  }

  lemma HoleFound(p: Piece, rest: string)
    requires p.Hole? && PieceOk(p)
    ensures HoleAt(Show(p) + rest) == Some(|Show(p)|) && |Show(p)| >= 5 && Show(p)[3..|Show(p)| - 2] == Inside(p)
  {
    ShowInside(p);
    HoleAtParts(Inside(p), rest);
  }

  lemma DefaultPart(p: Piece)
    requires p.Hole? && PieceOk(p)
    ensures p.default.None? ==> FindChar(Inside(p), ':') == None
    ensures p.default.Some? ==> FindChar(Inside(p), ':') == Some(|p.key|) && Inside(p)[|p.key| + 1..] == p.default.value
  {
    if p.default.Some? {
      assert Inside(p) == p.key + ([':'] + p.default.value);
      FindCharAfter(p.key, ':', p.default.value);
    } else {
      FindCharAbsent(p.key, ':');
    }
  }

  lemma PartsAfter(text: string, shown: string, rest: string, lo: nat, hi: nat)
    requires lo <= hi <= |shown|
    ensures var s := text + (shown + rest);
      && s[|text|..] == shown + rest && s[..|text|] == text && s[|text| + |shown|..] == rest
      && s[|text| + lo..|text| + hi] == shown[lo..hi]
  {
  }

  lemma HoleParts(text: string, p: Piece, rest: string)
    requires '$' !in text && p.Hole? && PieceOk(p)
    ensures var s := text + (Show(p) + rest);
      && FindHole(s) == At(|text|, |Show(p)|) && |Show(p)| >= 5
      && s[|text| + 3..|text| + |Show(p)| - 2] == Inside(p)
      && s[..|text|] == text && s[|text| + |Show(p)|..] == rest
  {
    var s := text + (Show(p) + rest);
    HoleFound(p, rest);
    FindAfterText(text, Show(p) + rest);
    assert FindHole(Show(p) + rest) == At(0, |Show(p)|);
    PartsAfter(text, Show(p), rest, 3, |Show(p)| - 2);
  }

  lemma InsideFilled(text: string, p: Piece, rest: string)
    requires p.Hole? && PieceOk(p)
    ensures WithDefault(text, Inside(p), rest) ==
      if p.default.Some? then Filled((text + p.default.value) + rest) else NoValue
  {
    DefaultPart(p);
  }

  lemma FillFirstIs(s: string, i: nat, n: nat, before: string, inside: string, after: string)
    requires FindHole(s) == At(i, n) && n >= 5
    requires s[..i] == before && s[i + 3..i + n - 2] == inside && s[i + n..] == after
    ensures FillFirst(s) == WithDefault(before, inside, after)
  {
  }

  lemma FirstHoleFilled(text: string, p: Piece, rest: string)
    requires '$' !in text && p.Hole? && PieceOk(p)
    ensures FillFirst(text + (Show(p) + rest)) ==
      if p.default.Some? then Filled((text + p.default.value) + rest) else NoValue
  {
    HoleParts(text, p, rest);
    var s := text + (Show(p) + rest);
    var inside := Inside(p);
    FillFirstIs(s, |text|, |Show(p)|, text, inside, rest);
    InsideFilled(text, p, rest);
  }

  /** The reference for templates whose given values have been filled in. */
  function DefaultText(t: seq<Piece>): Result<string> {
    Evaluate(t, [])
  }

  lemma {:induction false} NoHoleInText(text: string)
    requires '$' !in text
    ensures FindHole(text) == Nowhere
  {
    FindAfterText(text, "");
    assert text + "" == text;
  }

  lemma {:induction false} DefaultsEvaluate(text: string, t: seq<Piece>)
    requires '$' !in text && TemplateOk(t)
    ensures Defaults(text + Render(t)) == match DefaultText(t) case Err => Err case Ok(rest) => Ok(text + rest)
    decreases |t|
  {
    if t == [] {
      assert text + Render(t) == text;
      assert text + "" == text;
      NoHoleInText(text);
    } else {
      var p, rest := t[0], t[1..];
      assert p in t;
      if p.Text? {
        assert text + (p.text + Render(rest)) == (text + p.text) + Render(rest);
        DefaultsEvaluate(text + p.text, rest);
        AppendResult(text, p.text, DefaultText(rest));
      } else {
        FirstHoleFilled(text, p, Render(rest));
        if p.default.Some? {
          DefaultsEvaluate(text + p.default.value, rest);
          AppendResult(text, p.default.value, DefaultText(rest));
        }
      }
    }
  }

  lemma AppendResult(a: string, b: string, r: Result<string>)
    ensures r.Ok? ==> (a + b) + r.value == a + (b + r.value)
  {
  }

  // ----- the evaluator and the passes agree -----

  lemma {:induction false} GivenLast(bs: seq<Binding>, b: Binding, key: string)
    ensures Given(bs + [b], key) == if Given(bs, key).Some? then Given(bs, key) else if b.key == key then Some(b.value) else None
  {
    if bs == [] {
      assert bs + [b] == [b];
    } else {
      assert (bs + [b])[0] == bs[0] && (bs + [b])[1..] == bs[1..] + [b];
      GivenLast(bs[1..], b, key);
    }
  }

  /** Each placeholder once all passes are done. */
  function Filled1(p: Piece, bs: seq<Binding>): Piece {
    if p.Hole? && Given(bs, p.key).Some? then Text(Given(bs, p.key).value) else p
  }

  lemma {:induction false} FillAt(t: seq<Piece>, b: Binding)
    ensures |Fill(t, b)| == |t|
    ensures forall i :: 0 <= i < |t| ==> Fill(t, b)[i] == if t[i].Hole? && t[i].key == b.key then Text(b.value) else t[i]
  {
    if t != [] {
      FillAt(t[1..], b);
    }
  }

  lemma {:induction false} FillAllAt(t: seq<Piece>, bs: seq<Binding>)
    ensures |FillAll(t, bs)| == |t| && forall i :: 0 <= i < |t| ==> FillAll(t, bs)[i] == Filled1(t[i], bs)
  {
    if bs != [] {
      var before, b := bs[..|bs| - 1], bs[|bs| - 1];
      FillAllAt(t, before);
      FillAt(FillAll(t, before), b);
      forall i | 0 <= i < |t| ensures FillAll(t, bs)[i] == Filled1(t[i], bs) {
        if t[i].Hole? {
          GivenLast(before, b, t[i].key);
          assert before + [b] == bs;
        }
      }
    }
  }

  lemma {:induction false} EvaluateFilled(t: seq<Piece>, u: seq<Piece>, bs: seq<Binding>)
    requires |u| == |t| && forall i :: 0 <= i < |t| ==> u[i] == Filled1(t[i], bs)
    ensures Evaluate(u, []) == Evaluate(t, bs)
  {
    if t != [] {
      forall i | 0 <= i < |t[1..]| ensures u[1..][i] == Filled1(t[1..][i], bs) {
        assert u[1..][i] == u[i + 1] && t[1..][i] == t[i + 1];
      }
      EvaluateFilled(t[1..], u[1..], bs);
      assert u[0] == Filled1(t[0], bs);
    }
  }

  /** On a template, substitution succeeds if and only if every placeholder has a given value or a
      default, and gives what reading the template once gives: the first value given for the key,
      else the default. */
  lemma SubstituteIsEvaluate(t: seq<Piece>, bs: seq<Binding>)
    requires TemplateOk(t) && forall b <- bs :: BindingOk(b)
    ensures SubstituteAll(Render(t), Arguments(bs)) == Evaluate(t, bs)
  {
    PassesFill(t, bs);
    DefaultsEvaluate("", FillAll(t, bs));
    assert "" + Render(FillAll(t, bs)) == Render(FillAll(t, bs));
    FillAllAt(t, bs);
    EvaluateFilled(t, FillAll(t, bs), bs);
    var r := Evaluate(t, bs);
    assert r.Ok? ==> "" + r.value == r.value;
  }

  /** When every placeholder has a value, and only then. */
  lemma {:induction false} EvaluateSucceeds(t: seq<Piece>, bs: seq<Binding>)
    ensures Evaluate(t, bs).Ok? <==> forall p <- t :: p.Hole? ==> Given(bs, p.key).Some? || p.default.Some?
  {
    if t != [] {
      EvaluateSucceeds(t[1..], bs);
      assert t == [t[0]] + t[1..];
    }
  }
}

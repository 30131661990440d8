// The part of a regular-expression library the engines use, over an
// abstract pattern. A pattern is known only through `at`: the capture it
// produces when an attempt is anchored at a position (leftmost-first
// semantics, as both Go `regexp` and Rust `regex` use). Searching,
// finding all matches, Go's template expansion and replacement are
// defined on top of it the way the libraries define them (Rust's reading
// of a template is in module RustTemplate).
module Regex {
  import opened Base
  import opened Text

  /** A half-open range `[lo, hi)` of the searched text. */
  datatype Span = Span(lo: nat, hi: nat)

  /** What an anchored attempt yields: where the match ends and groups 1.. (None: did not participate). */
  datatype Capture = Capture(end: nat, groups: seq<Option<Span>>)

  /** A match; `groups[0]` is the whole match. */
  datatype Match = Match(start: nat, end: nat, groups: seq<Option<Span>>)

  /**
   * A compiled pattern: its source text, the names of groups 1.. ("" for
   * an unnamed group), and the anchored matcher.
   */
  datatype Regex = Regex(source: string, names: seq<string>, at: (string, nat) -> Option<Capture>)

  predicate SpansWithin(groups: seq<Option<Span>>, n: nat) {
    forall k :: 0 <= k < |groups| && groups[k].Some? ==> groups[k].value.lo <= groups[k].value.hi <= n
  }

  /** A match that lies inside `s`, with group 0 spanning it. */
  predicate WellFormed(m: Match, s: string) {
    m.start <= m.end <= |s| && |m.groups| >= 1 && m.groups[0] == Some(Span(m.start, m.end))
    && SpansWithin(m.groups, |s|)
  }

  /** The anchored attempt at `i`, kept only when it describes a match inside `s`. */
  function MatchAt(re: Regex, s: string, i: nat): (r: Option<Match>)
    ensures r.Some? ==> r.value.start == i && WellFormed(r.value, s)
  {
    if i > |s| then None
    else match re.at(s, i)
      case None => None
      case Some(c) =>
        if i <= c.end <= |s| && SpansWithin(c.groups, |s|)
        then Some(Match(i, c.end, [Some(Span(i, c.end))] + c.groups))
        else None
  }

  /** The leftmost match starting at or after `pos`. */
  function Search(re: Regex, s: string, pos: nat): (r: Option<Match>)
    ensures r.Some? ==> pos <= r.value.start && MatchAt(re, s, r.value.start) == r && WellFormed(r.value, s)
    ensures r.Some? ==> forall i :: pos <= i < r.value.start ==> MatchAt(re, s, i).None?
    ensures r.None? ==> forall i :: pos <= i ==> MatchAt(re, s, i).None?
    decreases |s| + 1 - pos
  {
    if pos > |s| then None
    else match MatchAt(re, s, pos)
      case Some(m) => Some(m)
      case None => Search(re, s, pos + 1)
  }

  /** `MatchString` / `is_match`: the pattern occurs somewhere in `s`. */
  predicate IsMatch(re: Regex, s: string) {
    Search(re, s, 0).Some?
  }

  /**
   * The match loop of Go's `FindAll*` (and Rust's `find_iter`): search from
   * `pos`; an empty match at `pos` right where the previous match ended is
   * skipped; after an empty match the search moves one character on,
   * otherwise it resumes at the end of the match.
   */
  function FindAllFrom(re: Regex, s: string, pos: nat, prevEnd: int): seq<Match>
    decreases |s| + 1 - pos
  {
    if pos > |s| then []
    else match Search(re, s, pos)
      case None => []
      case Some(m) =>
        var accept := !(m.end == pos && m.start == prevEnd);
        var next := if m.end == pos then pos + 1 else m.end;
        (if accept then [m] else []) + FindAllFrom(re, s, next, m.end)
  }

  /** Every successive non-overlapping match of `re` in `s`. */
  function FindAll(re: Regex, s: string): seq<Match> {
    FindAllFrom(re, s, 0, -1)
  }

  /** The text a match covers. */
  function MatchText(s: string, m: Match): string {
    if m.start <= m.end <= |s| then s[m.start..m.end] else ""
  }

  /** `FindAllString(s, -1)`: the matched substrings, in order. */
  function FindAllString(re: Regex, s: string): seq<string> {
    var ms := FindAll(re, s);
    seq(|ms|, k requires 0 <= k < |ms| => MatchText(s, ms[k]))
  }

  /** Matches inside `s`, starting at or after `pos`, in increasing order and not overlapping. */
  predicate OrderedFrom(ms: seq<Match>, s: string, pos: nat) {
    (forall k :: 0 <= k < |ms| ==> WellFormed(ms[k], s) && pos <= ms[k].start)
    && (forall k :: 0 < k < |ms| ==> ms[k - 1].end <= ms[k].start)
  }

  lemma OrderedCons(m: Match, rest: seq<Match>, s: string, pos: nat, next: nat)
    requires WellFormed(m, s) && pos <= m.start && m.end <= next
    requires OrderedFrom(rest, s, next)
    ensures OrderedFrom([m] + rest, s, pos)
  {
    var ms := [m] + rest;
    forall k | 0 < k < |ms|
      ensures ms[k - 1].end <= ms[k].start
    {
      if k == 1 {
        assert ms[1] == rest[0];
      } else {
        assert ms[k - 1] == rest[k - 2] && ms[k] == rest[k - 1];
      }
    }
  }

  /** Matches found from `pos` on lie inside `s`, start at or after `pos`, and do not overlap. */
  lemma {:induction false} FindAllFromOrdered(re: Regex, s: string, pos: nat, prevEnd: int)
    ensures OrderedFrom(FindAllFrom(re, s, pos, prevEnd), s, pos)
    decreases |s| + 1 - pos
  {
    if pos <= |s| {
      match Search(re, s, pos)
      case None =>
      case Some(m) =>
        var next := if m.end == pos then pos + 1 else m.end;
        var rest := FindAllFrom(re, s, next, m.end);
        FindAllFromOrdered(re, s, next, m.end);
        if !(m.end == pos && m.start == prevEnd) {
          OrderedCons(m, rest, s, pos, next);
        }
    }
  }

  /**
   * The matches `FindAll` reports lie inside `s`, in increasing order and
   * without overlapping.
   */
  lemma FindAllOrdered(re: Regex, s: string)
    ensures OrderedFrom(FindAll(re, s), s, 0)
  {
    FindAllFromOrdered(re, s, 0, -1);
  }

  /**
   * There are matches exactly when the pattern occurs, and the first one
   * is the leftmost match.
   */
  lemma FindAllFirst(re: Regex, s: string)
    ensures IsMatch(re, s) <==> FindAll(re, s) != []
    ensures IsMatch(re, s) ==> FindAll(re, s)[0] == Search(re, s, 0).value
  {
  }

  /**
   * A match at the start that is not empty and is followed by no other
   * match is the only one.
   */
  lemma OnlyMatch(re: Regex, s: string, m: Match)
    requires MatchAt(re, s, 0) == Some(m)
    requires m.end > 0
    requires forall i :: m.end <= i <= |s| ==> MatchAt(re, s, i).None?
    ensures FindAll(re, s) == [m]
  {
    assert Search(re, s, 0) == Some(m);
    assert FindAllFrom(re, s, m.end, m.end) == [];
  }

  // Template expansion, as Go's `Regexp.Expand` reads a template.

  /** A group reference in a template: by number or by name. */
  datatype GroupRef = Num(n: nat) | Name(name: string)

  /**
   * Characters of a reference name: ASCII letters, digits and `_` (Go
   * also takes non-ASCII letters and digits; templates here are ASCII).
   */
  predicate IsNameChar(c: char) {
    IsWordChar(c)
  }

  /** Length of the run of name characters at the start of `t`. */
  function NameLen(t: string): (n: nat)
    ensures n <= |t|
    ensures forall k :: 0 <= k < n ==> IsNameChar(t[k])
    ensures n == |t| || !IsNameChar(t[n])
  {
    if t != [] && IsNameChar(t[0]) then 1 + NameLen(t[1..]) else 0
  }

  /** A run of name characters followed by a non-name character (or nothing) is read whole. */
  lemma {:induction false} NameLenOf(name: string, rest: string)
    requires forall k :: 0 <= k < |name| ==> IsNameChar(name[k])
    requires rest == [] || !IsNameChar(rest[0])
    ensures NameLen(name + rest) == |name|
    decreases |name|
  {
    if name != [] {
      NameLenOf(name[1..], rest);
      assert (name + rest)[1..] == name[1..] + rest;
    } else {
      assert name + rest == rest;
    }
  }

  /**
   * Go's decimal reading of a reference: digits only, refusing to grow
   * once the value reaches 1e8.
   */
  function ParseNum(name: string, i: nat, acc: nat): Option<nat>
    decreases |name| - i
  {
    if i >= |name| then Some(acc)
    else if !IsDigit(name[i]) || acc >= 100000000 then None
    else ParseNum(name, i + 1, acc * 10 + (name[i] as int - '0' as int))
  }

  /** A name is a group number when it parses as one and has no leading zero. */
  function RefOf(name: string): (r: GroupRef)
    requires name != []
    ensures r.Name? ==> r.name == name
  {
    match ParseNum(name, 0, 0)
    case Some(n) => if name[0] == '0' && |name| > 1 then Name(name) else Num(n)
    case None => Name(name)
  }

  /**
   * Reads the reference after a `$`: `{name}` or a bare name. Yields the
   * reference and how many characters of `t` it used, or None when the
   * `$` is not followed by a well-formed reference.
   */
  function Extract(t: string): (r: Option<(GroupRef, nat)>)
    ensures r.Some? ==> 1 <= r.value.1 <= |t|
    ensures r.Some? && r.value.0.Name? ==> r.value.0.name != []
  {
    if t == [] then None
    else
      var brace := t[0] == '{';
      var b := if brace then 1 else 0;
      var n := NameLen(t[b..]);
      if n == 0 then None
      else if brace && !(b + n < |t| && t[b + n] == '}') then None
      else Some((RefOf(t[b..b + n]), b + n + b))
  }

  /** The text of group `k` of `m`, or "" when the group is absent. */
  function GroupText(s: string, m: Match, k: nat): string {
    if k < |m.groups| && m.groups[k].Some? && m.groups[k].value.lo <= m.groups[k].value.hi <= |s|
    then s[m.groups[k].value.lo..m.groups[k].value.hi]
    else ""
  }

  /** The text of the first participating group called `name` (searching from group `k`). */
  function NamedTextFrom(re: Regex, s: string, m: Match, name: string, k: nat): string
    decreases |re.names| + 1 - k
  {
    if k == 0 then NamedTextFrom(re, s, m, name, 1)
    else if k > |re.names| then ""
    else if re.names[k - 1] == name && k < |m.groups| && m.groups[k].Some? then GroupText(s, m, k)
    else NamedTextFrom(re, s, m, name, k + 1)
  }

  function RefText(re: Regex, r: GroupRef, s: string, m: Match): string {
    match r
    case Num(n) => GroupText(s, m, n)
    case Name(x) => NamedTextFrom(re, s, m, x, 1)
  }

  /**
   * What `Expand` does at the start of a non-empty template: the text it
   * appends and how many characters it reads. `$$` is `$`; a reference is
   * its group's text; a `$` without a well-formed reference is kept.
   */
  function Piece(re: Regex, t: string, s: string, m: Match): (p: (string, nat))
    requires t != []
    ensures 1 <= p.1 <= |t|
  {
    if t[0] != '$' then ([t[0]], 1)
    else if |t| >= 2 && t[1] == '$' then ("$", 2)
    else match Extract(t[1..])
      case None => ("$", 1)
      case Some(r) => (RefText(re, r.0, s, m), 1 + r.1)
  }

  /** The template's pieces, left to right. */
  function Expand(re: Regex, t: string, s: string, m: Match): string
    decreases |t|
  {
    if t == [] then []
    else
      var p := Piece(re, t, s, m);
      p.0 + Expand(re, t[p.1..], s, m)
  }

  /** A piece of template text without `$`. */
  predicate Plain(lit: string) {
    '$' !in lit
  }

  /** A template piece without `$` is copied as it is. */
  lemma {:induction false} ExpandLiteral(re: Regex, lit: string, rest: string, s: string, m: Match)
    requires Plain(lit)
    ensures Expand(re, lit + rest, s, m) == lit + Expand(re, rest, s, m)
    decreases |lit|
  {
    if lit == [] {
      assert lit + rest == rest;
    } else {
      assert (lit + rest)[0] == lit[0];
      assert (lit + rest)[1..] == lit[1..] + rest;
      ExpandLiteral(re, lit[1..], rest, s, m);
    }
  }

  /** `ref` is the template reference `$d` for a non-zero digit `d`. */
  predicate DigitRef(ref: string) {
    |ref| == 2 && ref[0] == '$' && '1' <= ref[1] <= '9'
  }

  /** The group number of a `$d` reference. */
  function RefNum(ref: string): nat
    requires DigitRef(ref)
  {
    ref[1] as int - '0' as int
  }

  /** A piece of template text that ends a `$d` reference before it: no `$`, and not a name character first. */
  predicate Separator(lit: string) {
    Plain(lit) && lit != [] && !IsNameChar(lit[0])
  }

  /** After the `$` of `$d`, `Extract` reads the one digit as group number `d`. */
  lemma ExtractDigit(ref: string, rest: string)
    requires DigitRef(ref)
    requires rest == [] || !IsNameChar(rest[0])
    ensures Extract(ref[1..] + rest) == Some((Num(RefNum(ref)), 1))
  {
    var u := ref[1..] + rest;
    NameLenOf(ref[1..], rest);
    assert u[0..1] == ref[1..];
    assert ParseNum(ref[1..], 0, 0) == Some(RefNum(ref));
  }

  /** `$d` not followed by a name character is group `d`. */
  lemma ExpandDigit(re: Regex, ref: string, rest: string, s: string, m: Match)
    requires DigitRef(ref)
    requires rest == [] || !IsNameChar(rest[0])
    ensures Expand(re, ref + rest, s, m) == GroupText(s, m, RefNum(ref)) + Expand(re, rest, s, m)
  {
    var t := ref + rest;
    assert t[0] == '$' && t[1] == ref[1];
    assert t[1..] == ref[1..] + rest;
    ExtractDigit(ref, rest);
    assert t[2..] == rest;
  }

  /** `$d` followed by separating text: group `d`, then that text. */
  lemma ExpandDigitThen(re: Regex, ref: string, lit: string, rest: string, s: string, m: Match)
    requires DigitRef(ref) && Separator(lit)
    ensures Expand(re, ref + (lit + rest), s, m) == GroupText(s, m, RefNum(ref)) + (lit + Expand(re, rest, s, m))
  {
    assert (lit + rest)[0] == lit[0];
    ExpandDigit(re, ref, lit + rest, s, m);
    ExpandLiteral(re, lit, rest, s, m);
  }

  /** A template that is a single `$d` reference is group `d`. */
  lemma ExpandSoleDigit(re: Regex, ref: string, s: string, m: Match)
    requires DigitRef(ref)
    ensures Expand(re, ref, s, m) == GroupText(s, m, RefNum(ref))
  {
    ExpandDigit(re, ref, "", s, m);
    assert ref + "" == ref;
  }

  /**
   * A template `a$1b$2c$3`, with `b` and `c` separating the references,
   * is groups 1, 2 and 3 between the same texts.
   */
  lemma ExpandThreeRefs(re: Regex, a: string, b: string, c: string, s: string, m: Match)
    requires Plain(a) && Separator(b) && Separator(c)
    ensures Expand(re, a + ("$1" + (b + ("$2" + (c + "$3")))), s, m)
         == a + (GroupText(s, m, 1) + (b + (GroupText(s, m, 2) + (c + GroupText(s, m, 3)))))
  {
    assert DigitRef("$1") && RefNum("$1") == 1 && DigitRef("$2") && RefNum("$2") == 2;
    assert DigitRef("$3") && RefNum("$3") == 3;
    ExpandSoleDigit(re, "$3", s, m);
    ExpandDigitThen(re, "$2", c, "$3", s, m);
    ExpandDigitThen(re, "$1", b, "$2" + (c + "$3"), s, m);
    ExpandLiteral(re, a, "$1" + (b + ("$2" + (c + "$3"))), s, m);
  }

  /** `ref` is the template reference `${name}`, for a name that starts with a letter. */
  predicate NamedRef(ref: string, name: string) {
    name != [] && !IsDigit(name[0])
    && |ref| == |name| + 3 && ref[0] == '$' && ref[1] == '{' && ref[|ref| - 1] == '}'
    && forall k :: 0 <= k < |name| ==> ref[k + 2] == name[k] && IsNameChar(name[k])
  }

  /** After the `$` of `${name}`, `Extract` reads the name and the two braces. */
  lemma ExtractNamed(ref: string, name: string, rest: string)
    requires NamedRef(ref, name)
    ensures Extract(ref[1..] + rest) == Some((Name(name), |name| + 2))
  {
    var u := ref[1..] + rest;
    assert ref[2..|ref| - 1] == name;
    assert u[1..] == name + ([ref[|ref| - 1]] + rest);
    NameLenOf(name, [ref[|ref| - 1]] + rest);
    assert u[1..1 + |name|] == name;
    assert u[1 + |name|] == '}';
    assert ParseNum(name, 0, 0).None?;
  }

  /** `${name}` is the first group called `name`. */
  lemma ExpandNamed(re: Regex, ref: string, name: string, rest: string, s: string, m: Match)
    requires NamedRef(ref, name)
    ensures Expand(re, ref + rest, s, m) == NamedTextFrom(re, s, m, name, 1) + Expand(re, rest, s, m)
  {
    var t := ref + rest;
    assert t[0] == '$' && t[1] == '{';
    assert t[1..] == ref[1..] + rest;
    ExtractNamed(ref, name, rest);
    assert t[1 + (|name| + 2)..] == rest;
  }

  /**
   * The text with match `ms[k]` replaced by `xs[k]`, keeping the text
   * from `from` to the first match, between matches and after the last.
   */
  function Splice(s: string, ms: seq<Match>, xs: seq<string>, from: nat): string
    requires |xs| == |ms|
    decreases |ms|
  {
    if ms == [] then (if from <= |s| then s[from..] else "")
    else
      (if from <= ms[0].start <= |s| then s[from..ms[0].start] else "")
      + xs[0] + Splice(s, ms[1..], xs[1..], ms[0].end)
  }

  /** The template expanded against each match. */
  function Expansions(re: Regex, t: string, s: string, ms: seq<Match>): (xs: seq<string>)
    ensures |xs| == |ms|
  {
    seq(|ms|, k requires 0 <= k < |ms| => Expand(re, t, s, ms[k]))
  }

  /**
   * Go's `ReplaceAllString`: the text between matches is kept and each
   * match is replaced by the expanded template.
   */
  function ReplaceAllString(re: Regex, s: string, t: string): string {
    var ms := FindAll(re, s);
    Splice(s, ms, Expansions(re, t, s, ms), 0)
  }

  /** Without a match `ReplaceAllString` returns the text unchanged. */
  lemma ReplaceWithoutMatch(re: Regex, s: string, t: string)
    requires !IsMatch(re, s)
    ensures ReplaceAllString(re, s, t) == s
  {
    FindAllFirst(re, s);
  }

  /** A text that is one whole match is replaced by the expansion alone. */
  lemma ReplaceWholeMatch(re: Regex, s: string, t: string, m: Match)
    requires FindAll(re, s) == [m] && m.start == 0 && m.end == |s|
    ensures ReplaceAllString(re, s, t) == Expand(re, t, s, m)
  {
    var x := Expand(re, t, s, m);
    assert Expansions(re, t, s, [m]) == [x];
    assert Splice(s, [], [], m.end) == [];
    assert Splice(s, [m], [x], 0) == s[0..0] + x + [];
  }
}

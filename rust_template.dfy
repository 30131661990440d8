// Template expansion and replacement as Rust's `regex` crate does them
// (`Captures::expand`, `Regex::replace`, `Regex::replace_all`). Rust
// reads a template differently from Go's `Regexp.Expand` (module Regex):
// a reference that parses as an unsigned integer is a group number even
// with leading zeros (`$01` is group 1, where Go looks for a group named
// "01"); inside braces any text up to the first `}` is a reference
// (`${a-b}` and `${}` are references, which Go keeps as text); and a name
// refers to the one group so named, since Rust refuses duplicate names.
module RustTemplate {
  import opened Base
  import opened Text
  import opened Regex

  /** One more than the largest `usize` of a 64-bit target. */
  const UsizeLimit: nat := 0x1_0000_0000_0000_0000

  predicate AllDigits(d: string) {
    forall k :: 0 <= k < |d| ==> IsDigit(d[k])
  }

  /** The value of a run of decimal digits. */
  function DecimalValue(d: string): nat
    requires AllDigits(d)
    decreases |d|
  {
    if d == [] then 0
    else DecimalValue(d[..|d| - 1]) * 10 + (d[|d| - 1] as int - '0' as int)
  }

  /**
   * `str::parse::<usize>`: an optional `+`, then one or more digits
   * (leading zeros allowed), with a value below 2^64; None otherwise.
   */
  function ParseUsize(x: string): (r: Option<nat>)
    ensures r.Some? ==> r.value < UsizeLimit
  {
    var d := if x != [] && x[0] == '+' then x[1..] else x;
    if d == [] || !AllDigits(d) then None
    else if DecimalValue(d) < UsizeLimit then Some(DecimalValue(d))
    else None
  }

  /** A reference is a group number when it parses as one, and a name otherwise. */
  function RustRefOf(x: string): (r: GroupRef)
    ensures r.Name? ==> r.name == x
  {
    match ParseUsize(x)
    case Some(n) => Num(n)
    case None => Name(x)
  }

  /** The number of characters of `t` before its first `}` (all of `t` when it has none). */
  function BraceLen(t: string): (n: nat)
    ensures n <= |t|
  {
    if t == [] || t[0] == '}' then 0 else 1 + BraceLen(t[1..])
  }

  /** Text without `}` followed by a `}` is read up to that brace. */
  lemma {:induction false} BraceLenOf(x: string, rest: string)
    requires forall k :: 0 <= k < |x| ==> x[k] != '}'
    requires rest != [] && rest[0] == '}'
    ensures BraceLen(x + rest) == |x|
    decreases |x|
  {
    if x != [] {
      BraceLenOf(x[1..], rest);
      assert (x + rest)[1..] == x[1..] + rest;
    } else {
      assert x + rest == rest;
    }
  }

  /**
   * `find_cap_ref` on the text after a `$`: braces holding any text up to
   * the first `}`, or a non-empty run of ASCII letters, digits and `_`.
   * Yields the reference and how many characters of `t` it used, or None
   * when there is no reference (a `{` never closed, or no name character).
   */
  function RustExtract(t: string): (r: Option<(GroupRef, nat)>)
    ensures r.Some? ==> 1 <= r.value.1 <= |t|
  {
    if t == [] then None
    else if t[0] == '{' then
      var n := BraceLen(t[1..]);
      if n == |t| - 1 then None else Some((RustRefOf(t[1..1 + n]), n + 2))
    else
      var n := NameLen(t);
      if n == 0 then None else Some((RustRefOf(t[..n]), n))
  }

  /**
   * The text of the group called `name`, looking from group `k + 1` on;
   * "" when no group has that name (no group is called "") or it did not
   * participate.
   */
  function RustNamedText(re: Regex, s: string, m: Match, name: string, k: nat): string
    decreases |re.names| - k
  {
    if name == [] || k >= |re.names| then ""
    else if re.names[k] == name then GroupText(s, m, k + 1)
    else RustNamedText(re, s, m, name, k + 1)
  }

  function RustRefText(re: Regex, r: GroupRef, s: string, m: Match): string {
    match r
    case Num(n) => GroupText(s, m, n)
    case Name(x) => RustNamedText(re, s, m, x, 0)
  }

  /**
   * What `expand` does at the start of a non-empty template: the text it
   * appends and how many characters it reads. `$$` is `$`; a reference is
   * its group's text ("" when absent); a `$` without a reference is kept.
   */
  function RustPiece(re: Regex, t: string, s: string, m: Match): (p: (string, nat))
    requires t != []
    ensures 1 <= p.1 <= |t|
  {
    if t[0] != '$' then ([t[0]], 1)
    else if |t| >= 2 && t[1] == '$' then ("$", 2)
    else match RustExtract(t[1..])
      case None => ("$", 1)
      case Some(r) => (RustRefText(re, r.0, s, m), 1 + r.1)
  }

  /** `Captures::expand`: the pieces of the template, left to right. */
  function RustExpand(re: Regex, t: string, s: string, m: Match): string
    decreases |t|
  {
    if t == [] then []
    else
      var p := RustPiece(re, t, s, m);
      p.0 + RustExpand(re, t[p.1..], s, m)
  }

  /** The template expanded against each match. */
  function RustExpansions(re: Regex, t: string, s: string, ms: seq<Match>): (xs: seq<string>)
    ensures |xs| == |ms|
  {
    seq(|ms|, k requires 0 <= k < |ms| => RustExpand(re, t, s, ms[k]))
  }

  /** `Regex::replace_all`: every match replaced, the text between matches kept. */
  function ReplaceAll(re: Regex, s: string, t: string): string {
    var ms := FindAll(re, s);
    Splice(s, ms, RustExpansions(re, t, s, ms), 0)
  }

  /** `Regex::replace`: only the leftmost match is replaced. */
  function ReplaceFirst(re: Regex, s: string, t: string): string {
    match Search(re, s, 0)
    case None => s
    case Some(m) => s[..m.start] + RustExpand(re, t, s, m) + s[m.end..]
  }

  /** Without a match both replacement functions return the text unchanged. */
  lemma ReplaceWithoutMatch(re: Regex, s: string, t: string)
    requires !IsMatch(re, s)
    ensures ReplaceAll(re, s, t) == s
    ensures ReplaceFirst(re, s, t) == s
  {
    FindAllFirst(re, s);
  }

  /** When the text holds exactly one match, `replace` and `replace_all` agree. */
  lemma ReplaceSingleMatch(re: Regex, s: string, t: string)
    requires |FindAll(re, s)| == 1
    ensures ReplaceAll(re, s, t) == ReplaceFirst(re, s, t)
  {
    FindAllFirst(re, s);
    FindAllOrdered(re, s);
    var m := FindAll(re, s)[0];
    var x := RustExpand(re, t, s, m);
    assert FindAll(re, s) == [m];
    assert RustExpansions(re, t, s, [m]) == [x];
    assert Search(re, s, 0) == Some(m);
    assert Splice(s, [m], [x], 0) == s[0..m.start] + x + Splice(s, [], [], m.end);
  }

  // Against Go's reading of the same template.

  /** No two groups share a name; Rust refuses a pattern that breaks this. */
  predicate UniqueNames(re: Regex) {
    forall i, j :: 0 <= i < j < |re.names| && re.names[i] == re.names[j] ==> re.names[i] == ""
  }

  /** Every reference in `t` reads the same in Go and in Rust. */
  predicate Portable(t: string)
    decreases |t|
  {
    if t == [] then true
    else if t[0] != '$' then Portable(t[1..])
    else if |t| >= 2 && t[1] == '$' then Portable(t[2..])
    else
      Extract(t[1..]) == RustExtract(t[1..])
      && match RustExtract(t[1..])
        case None => Portable(t[1..])
        case Some(r) => Portable(t[1 + r.1..])
  }

  /** From group `k` on no group is called `name`: Go's lookup finds nothing. */
  lemma {:induction false} NoLaterName(re: Regex, s: string, m: Match, name: string, k: nat)
    requires k >= 1
    requires forall j :: k - 1 <= j < |re.names| ==> re.names[j] != name
    ensures NamedTextFrom(re, s, m, name, k) == ""
    decreases |re.names| + 1 - k
  {
    if k <= |re.names| {
      NoLaterName(re, s, m, name, k + 1);
    }
  }

  /** With unique names, a name denotes the same text in Go and in Rust. */
  lemma {:induction false} NamedAgrees(re: Regex, s: string, m: Match, name: string, k: nat)
    requires UniqueNames(re) && name != []
    requires forall j :: 0 <= j < k && j < |re.names| ==> re.names[j] != name
    ensures RustNamedText(re, s, m, name, k) == NamedTextFrom(re, s, m, name, k + 1)
    decreases |re.names| - k
  {
    if k < |re.names| {
      if re.names[k] == name {
        NoLaterName(re, s, m, name, k + 2);
      } else {
        NamedAgrees(re, s, m, name, k + 1);
      }
    }
  }

  /** A reference that Go's reading gives denotes the same text in Go and in Rust. */
  lemma {:induction false} RefAgrees(re: Regex, r: GroupRef, s: string, m: Match)
    requires UniqueNames(re)
    requires r.Name? ==> r.name != []
    ensures RustRefText(re, r, s, m) == RefText(re, r, s, m)
  {
    if r.Name? {
      NamedAgrees(re, s, m, r.name, 0);
    }
  }

  /**
   * At the start of a portable template both expansions append the same
   * text and read the same number of characters, and what is left is
   * portable.
   */
  lemma {:induction false} PieceAgrees(re: Regex, t: string, s: string, m: Match)
    requires t != [] && UniqueNames(re) && Portable(t)
    ensures RustPiece(re, t, s, m) == Piece(re, t, s, m)
    ensures Portable(t[RustPiece(re, t, s, m).1..])
  {
    if t[0] != '$' {
      assert RustPiece(re, t, s, m) == ([t[0]], 1) == Piece(re, t, s, m);
    } else if |t| >= 2 && t[1] == '$' {
      assert RustPiece(re, t, s, m) == ("$", 2) == Piece(re, t, s, m);
    } else {
      var x := RustExtract(t[1..]);
      assert Extract(t[1..]) == x;
      if x.None? {
        assert RustPiece(re, t, s, m) == ("$", 1) == Piece(re, t, s, m);
      } else {
        var r := x.value;
        RefAgrees(re, r.0, s, m);
        assert RustPiece(re, t, s, m) == (RustRefText(re, r.0, s, m), 1 + r.1);
        assert Piece(re, t, s, m) == (RefText(re, r.0, s, m), 1 + r.1);
      }
    }
  }

  /** A portable template expands to the same text in Go and in Rust. */
  lemma {:induction false} ExpandAgrees(re: Regex, t: string, s: string, m: Match)
    requires UniqueNames(re) && Portable(t)
    ensures RustExpand(re, t, s, m) == Expand(re, t, s, m)
    decreases |t|
  {
    if t != [] {
      var p := RustPiece(re, t, s, m);
      PieceAgrees(re, t, s, m);
      ExpandAgrees(re, t[p.1..], s, m);
      assert RustExpand(re, t, s, m) == p.0 + RustExpand(re, t[p.1..], s, m);
      assert Expand(re, t, s, m) == p.0 + Expand(re, t[p.1..], s, m);
    }
  }

  /** With a portable template, Rust's `replace_all` is Go's `ReplaceAllString`. */
  lemma ReplaceAllAgrees(re: Regex, s: string, t: string)
    requires UniqueNames(re) && Portable(t)
    ensures ReplaceAll(re, s, t) == ReplaceAllString(re, s, t)
  {
    var ms := FindAll(re, s);
    forall k | 0 <= k < |ms|
      ensures RustExpansions(re, t, s, ms)[k] == Expansions(re, t, s, ms)[k]
    {
      ExpandAgrees(re, t, s, ms[k]);
    }
    assert RustExpansions(re, t, s, ms) == Expansions(re, t, s, ms);
  }

  /** Text without `$` keeps a template portable. */
  lemma {:induction false} PortablePlain(lit: string, rest: string)
    requires Plain(lit) && Portable(rest)
    ensures Portable(lit + rest)
    decreases |lit|
  {
    if lit == [] {
      assert lit + rest == rest;
    } else {
      assert (lit + rest)[0] == lit[0];
      assert (lit + rest)[1..] == lit[1..] + rest;
      PortablePlain(lit[1..], rest);
    }
  }

  /** `$d` before a non-name character reads as group `d` in both. */
  lemma PortableDigit(ref: string, rest: string)
    requires DigitRef(ref) && (rest == [] || !IsNameChar(rest[0]))
    requires Portable(rest)
    ensures Portable(ref + rest)
  {
    var t := ref + rest;
    var u := t[1..];
    assert u == ref[1..] + rest;
    ExtractDigit(ref, rest);
    NameLenOf(ref[1..], rest);
    assert u[..1] == ref[1..];
    assert DecimalValue(ref[1..]) == RefNum(ref) by {
      assert ref[1..][..0] == [];
    }
    assert RustExtract(u) == Some((Num(RefNum(ref)), 1));
    assert t[2..] == rest;
  }

  /** `${name}`, for a name that starts with a letter, reads as that name in both. */
  lemma PortableNamed(ref: string, name: string, rest: string)
    requires NamedRef(ref, name) && Portable(rest)
    ensures Portable(ref + rest)
  {
    var t := ref + rest;
    var u := t[1..];
    assert u == ref[1..] + rest;
    ExtractNamed(ref, name, rest);
    assert u[1..] == name + ([ref[|ref| - 1]] + rest);
    BraceLenOf(name, [ref[|ref| - 1]] + rest);
    assert u[1..1 + |name|] == name;
    assert !AllDigits(name);
    assert RustExtract(u) == Some((Name(name), |name| + 2));
    assert t[1 + (|name| + 2)..] == rest;
  }

  /**
   * `$01` parts the two readings: Rust expands group 1, Go looks for a
   * group named "01" and, without one, expands nothing.
   */
  lemma ZeroPaddedRef(re: Regex, s: string, m: Match)
    requires "01" !in re.names
    ensures RustExpand(re, "$01", s, m) == GroupText(s, m, 1)
    ensures Expand(re, "$01", s, m) == ""
  {
    var t := "$01";
    assert t[1..] == "01" && t[3..] == [];
    NameLenOf("01", "");
    assert "01" + "" == "01" && "01"[..2] == "01" && "01"[0..0 + 2] == "01";
    assert ParseNum("01", 0, 0) == Some(1);
    assert Extract("01") == Some((Name("01"), 2));
    NoLaterName(re, s, m, "01", 1);
    assert DecimalValue("01") == 1 by {
      assert "01"[..1] == "0" && "0"[..0] == [];
    }
    assert RustExtract("01") == Some((Num(1), 2));
  }

  /**
   * `${a-b}` parts them too: Rust reads the braces as a reference to a
   * group named "a-b" (none, so nothing); Go keeps the text as it is.
   */
  lemma BracedAnyText(re: Regex, s: string, m: Match)
    requires "a-b" !in re.names
    ensures RustExpand(re, "${a-b}", s, m) == ""
    ensures Expand(re, "${a-b}", s, m) == "${a-b}"
  {
    RustReadsBraced(re, s, m);
    GoKeepsBraced(re, s, m);
  }

  /** Rust reads `${a-b}` as a reference to a name no group has. */
  lemma RustReadsBraced(re: Regex, s: string, m: Match)
    requires "a-b" !in re.names
    ensures RustExpand(re, "${a-b}", s, m) == ""
  {
    var t := "${a-b}";
    assert t[1..] == "{a-b}" && t[6..] == [];
    BraceLenOf("a-b", "}");
    assert "{a-b}"[1..] == "a-b" + "}";
    assert "{a-b}"[1..1 + 3] == "a-b";
    assert RustExtract("{a-b}") == Some((Name("a-b"), 5));
    NoNamed(re, s, m, "a-b", 0);
    assert RustPiece(re, t, s, m) == ("", 6);
    assert RustExpand(re, t, s, m) == "" + RustExpand(re, t[6..], s, m);
  }

  /** Go reads no reference at `${a-b}` and keeps the text. */
  lemma GoKeepsBraced(re: Regex, s: string, m: Match)
    ensures Expand(re, "${a-b}", s, m) == "${a-b}"
  {
    var t := "${a-b}";
    assert t[1..] == "{a-b}";
    NameLenOf("a", "-b}");
    assert "{a-b}"[1..] == "a" + "-b}";
    assert Extract("{a-b}").None?;
    assert Piece(re, t, s, m) == ("$", 1);
    ExpandLiteral(re, "{a-b}", "", s, m);
    assert "{a-b}" + "" == "{a-b}";
    assert Expand(re, t, s, m) == "$" + Expand(re, t[1..], s, m);
  }

  /** Rust's lookup of a name no group has finds nothing. */
  lemma {:induction false} NoNamed(re: Regex, s: string, m: Match, name: string, k: nat)
    requires name !in re.names
    ensures RustNamedText(re, s, m, name, k) == ""
    decreases |re.names| - k
  {
    if name != [] && k < |re.names| {
      NoNamed(re, s, m, name, k + 1);
    }
  }
}

// String primitives the engines rely on: substring tests, joining and
// splitting on a separator, spoiler wrapping, literal substitution and
// the character classes used by the provider patterns.
module Text {
  import opened Base

  /** `lit` occurs in `s` starting at index `i`. */
  predicate StartsAt(s: string, i: nat, lit: string) {
    i + |lit| <= |s| && s[i..i + |lit|] == lit
  }

  /** A literal is not found where one of its characters is missing. */
  lemma NotStartingWith(s: string, i: nat, lit: string, j: nat)
    requires j < |lit| && i + j < |s| && s[i + j] != lit[j]
    ensures !StartsAt(s, i, lit)
  {
    if i + |lit| <= |s| {
      assert s[i..i + |lit|][j] == s[i + j];
    }
  }

  /** `strings.Contains` in Go, `str::contains` in Rust. */
  predicate Contains(s: string, sub: string) {
    exists i: nat | i <= |s| :: StartsAt(s, i, sub)
  }

  /** An occurrence of `sub` in a suffix of `s` is an occurrence in `s`. */
  lemma ContainsInSuffix(s: string, k: nat, sub: string)
    requires k <= |s|
    requires Contains(s[k..], sub)
    ensures Contains(s, sub)
  {
    var i: nat :| i <= |s[k..]| && StartsAt(s[k..], i, sub);
    assert s[k + i..k + i + |sub|] == s[k..][i..i + |sub|];
    assert StartsAt(s, k + i, sub);
  }

  /** `strings.Join` / `Vec::join`: the parts with `sep` between neighbours. */
  function Join(parts: seq<string>, sep: string): string {
    if |parts| == 0 then ""
    else if |parts| == 1 then parts[0]
    else parts[0] + sep + Join(parts[1..], sep)
  }

  /** `strings.Split(s, string(sep))`: never empty, one more part than separators. */
  function Split(s: string, sep: char): (parts: seq<string>)
    ensures |parts| >= 1
    decreases |s|
  {
    if s == [] then [""]
    else if s[0] == sep then [""] + Split(s[1..], sep)
    else
      var rest := Split(s[1..], sep);
      [[s[0]] + rest[0]] + rest[1..]
  }

  /** A separator-free prefix only extends the first part. */
  lemma {:induction false} SplitAfterPlain(a: string, b: string, sep: char)
    requires sep !in a
    ensures Split(a + b, sep) == [a + Split(b, sep)[0]] + Split(b, sep)[1..]
    decreases |a|
  {
    var parts := Split(b, sep);
    if a == [] {
      assert a + b == b;
      assert a + parts[0] == parts[0];
      assert parts == [parts[0]] + parts[1..];
    } else {
      SplitAfterPlain(a[1..], b, sep);
      assert (a + b)[0] == a[0] != sep;
      assert (a + b)[1..] == a[1..] + b;
      assert [a[0]] + (a[1..] + Split(b, sep)[0]) == a + Split(b, sep)[0];
    }
  }

  /**
   * Splitting a join recovers the parts, provided no part contains the
   * separator: the lines of a newline-joined output are exactly its entries.
   */
  lemma {:induction false} SplitJoin(parts: seq<string>, sep: char)
    requires |parts| >= 1
    requires forall k :: 0 <= k < |parts| ==> sep !in parts[k]
    ensures Split(Join(parts, [sep]), sep) == parts
    decreases |parts|
  {
    if |parts| == 1 {
      SplitAfterPlain(parts[0], "", sep);
      assert parts[0] + "" == parts[0];
    } else {
      var rest := Join(parts[1..], [sep]);
      SplitJoin(parts[1..], sep);
      assert Join(parts, [sep]) == parts[0] + ([sep] + rest);
      SplitAfterPlain(parts[0], [sep] + rest, sep);
      assert ([sep] + rest)[0] == sep;
      assert ([sep] + rest)[1..] == rest;
      assert Split([sep] + rest, sep) == [""] + parts[1..];
      assert parts[0] + "" == parts[0];
      assert parts == [parts[0]] + parts[1..];
    }
  }

  /** The `||…||` spoiler delimiters. */
  function Wrap(s: string): string {
    "||" + s + "||"
  }

  /**
   * Rust `str::replace` (and Go `strings.Replace` with n = -1): every
   * leftmost non-overlapping occurrence of `from` becomes `to`; an empty
   * `from` inserts `to` before every character and at the end.
   */
  function ReplaceStr(s: string, from: string, to: string): string
    decreases |s|
  {
    if from == [] then
      if s == [] then to else to + [s[0]] + ReplaceStr(s[1..], from, to)
    else if s == [] then []
    else if StartsAt(s, 0, from) then to + ReplaceStr(s[|from|..], from, to)
    else [s[0]] + ReplaceStr(s[1..], from, to)
  }

  /** A text that does not contain a non-empty `from` is left as it is. */
  lemma {:induction false} ReplaceStrAbsent(s: string, from: string, to: string)
    requires from != []
    requires !Contains(s, from)
    ensures ReplaceStr(s, from, to) == s
    decreases |s|
  {
    if s != [] {
      assert !StartsAt(s, 0, from);
      if Contains(s[1..], from) {
        ContainsInSuffix(s, 1, from);
      }
      ReplaceStrAbsent(s[1..], from, to);
    }
  }

  /** One old/new pair of a literal replacer. */
  datatype Pair = Pair(from: string, to: string)

  /**
   * The first pair, in argument order, whose non-empty `from` starts at
   * the beginning of `s`.
   */
  function FirstPairAt(s: string, pairs: seq<Pair>, j: nat): (k: Option<nat>)
    ensures k.Some? ==> j <= k.value < |pairs| && pairs[k.value].from != []
                        && StartsAt(s, 0, pairs[k.value].from)
    ensures k.None? ==> forall q :: j <= q < |pairs| && pairs[q].from != [] ==> !StartsAt(s, 0, pairs[q].from)
    decreases |pairs| - j
  {
    if j >= |pairs| then None
    else if pairs[j].from != [] && StartsAt(s, 0, pairs[j].from) then Some(j)
    else FirstPairAt(s, pairs, j + 1)
  }

  /**
   * A literal multi-pair replacer (Go `strings.Replacer`): the text is
   * scanned left to right, at each position the first pair in argument
   * order that occurs there is substituted, and scanning resumes after it,
   * so substitutions never overlap and substituted text is not rescanned.
   */
  function ReplacePairs(s: string, pairs: seq<Pair>): string
    decreases |s|
  {
    if s == [] then []
    else match FirstPairAt(s, pairs, 0)
      case Some(k) => pairs[k].to + ReplacePairs(s[|pairs[k].from|..], pairs)
      case None => [s[0]] + ReplacePairs(s[1..], pairs)
  }

  /** When none of the old strings occurs, the text is returned unchanged. */
  lemma {:induction false} ReplacePairsAbsent(s: string, pairs: seq<Pair>)
    requires forall k :: 0 <= k < |pairs| ==> !Contains(s, pairs[k].from)
    ensures ReplacePairs(s, pairs) == s
    decreases |s|
  {
    if s != [] {
      forall k | 0 <= k < |pairs|
        ensures !StartsAt(s, 0, pairs[k].from)
      {
        assert !Contains(s, pairs[k].from);
      }
      forall k | 0 <= k < |pairs|
        ensures !Contains(s[1..], pairs[k].from)
      {
        if Contains(s[1..], pairs[k].from) {
          ContainsInSuffix(s, 1, pairs[k].from);
        }
      }
      ReplacePairsAbsent(s[1..], pairs);
    }
  }

  /**
   * With a single pair whose old string is not empty, the multi-pair
   * replacer and `str::replace` agree.
   */
  lemma {:induction false} ReplacePairsSingle(s: string, from: string, to: string)
    requires from != []
    ensures ReplacePairs(s, [Pair(from, to)]) == ReplaceStr(s, from, to)
    decreases |s|
  {
    if s != [] {
      if StartsAt(s, 0, from) {
        ReplacePairsSingle(s[|from|..], from, to);
      } else {
        ReplacePairsSingle(s[1..], from, to);
      }
    }
  }

  // Character classes of the provider patterns (ASCII, as Go and Rust
  // define `\w`, `\d` and `\s` without Unicode flags).

  predicate IsWordChar(c: char) {
    ('a' <= c <= 'z') || ('A' <= c <= 'Z') || ('0' <= c <= '9') || c == '_'
  }

  predicate IsDigit(c: char) {
    '0' <= c <= '9'
  }

  /** Go's `\s`: tab, newline, form feed, carriage return and space. */
  predicate IsSpace(c: char) {
    c == '\t' || c == '\n' || c == '\U{C}' || c == '\r' || c == ' '
  }

  datatype CharClass = Word | Digit | NotSlash | NotNewline

  predicate InClass(c: char, cls: CharClass) {
    match cls
    case Word => IsWordChar(c)
    case Digit => IsDigit(c)
    case NotSlash => c != '/'
    case NotNewline => c != '\n'
  }

  /** End of the longest run of `cls` characters starting at `i` (a greedy `cls*`). */
  function RunEnd(s: string, i: nat, cls: CharClass): (e: nat)
    requires i <= |s|
    ensures i <= e <= |s|
    ensures e == |s| || !InClass(s[e], cls)
    decreases |s| - i
  {
    if i < |s| && InClass(s[i], cls) then RunEnd(s, i + 1, cls) else i
  }

  /** Every character of the run is in the class. */
  lemma {:induction false} RunEndAll(s: string, i: nat, cls: CharClass)
    requires i <= |s|
    ensures forall k :: i <= k < RunEnd(s, i, cls) ==> InClass(s[k], cls)
    decreases |s| - i
  {
    if i < |s| && InClass(s[i], cls) {
      RunEndAll(s, i + 1, cls);
    }
  }

  /** The run end is the first position at or after `i` outside the class. */
  lemma {:induction false} RunEndUnique(s: string, i: nat, e: nat, cls: CharClass)
    requires i <= e <= |s|
    requires forall k :: i <= k < e ==> InClass(s[k], cls)
    requires e == |s| || !InClass(s[e], cls)
    ensures RunEnd(s, i, cls) == e
    decreases e - i
  {
    if i < e {
      RunEndUnique(s, i + 1, e, cls);
    }
  }

  /** A slice inside a prefix of `s` is that slice of `s`. */
  lemma SliceOfPrefix(s: string, n: nat, i: nat, j: nat)
    requires i <= j <= n <= |s|
    ensures s[..n][i..j] == s[i..j]
  {
  }

  /** A run end depends only on the text up to where the run stops. */
  lemma RunEndPrefix(s: string, n: nat, i: nat, cls: CharClass)
    requires i <= n <= |s|
    requires RunEnd(s, i, cls) <= n
    ensures RunEnd(s[..n], i, cls) == RunEnd(s, i, cls)
  {
    var e := RunEnd(s, i, cls);
    RunEndAll(s, i, cls);
    RunEndUnique(s[..n], i, e, cls);
  }
}

/**
 * The text primitives of Go's standard library that the core relies on:
 * `unicode.IsSpace`, `strings.TrimSpace`, `strings.Fields`, `strings.Split`,
 * `strings.Join`, `strings.Contains`, `strings.HasPrefix`, `bufio.ScanLines`,
 * `strconv.Atoi`/`Itoa`, `strconv.Quote`, and the byte-wise name order in
 * which `os.ReadDir` lists a directory.
 */
module Text {
  import opened Errors

  // ---------------------------------------------------------------------
  // White space

  /** `unicode.IsSpace`: the Latin-1 spaces plus the Unicode category Z spaces. */
  predicate IsSpace(c: char) {
    || c == '\t' || c == '\n' || c == '\U{0B}' || c == '\U{0C}' || c == '\r' || c == ' '
    || c == '\U{85}' || c == '\U{A0}' || c == '\U{1680}'
    || ('\U{2000}' <= c <= '\U{200A}')
    || c == '\U{2028}' || c == '\U{2029}' || c == '\U{202F}' || c == '\U{205F}' || c == '\U{3000}'
  }

  predicate NoSpace(s: string) {
    forall i :: 0 <= i < |s| ==> !IsSpace(s[i])
  }

  /** Drops the leading white space: what remains is a suffix starting with a non-space. */
  function TrimLeft(s: string): (r: string)
    ensures |r| <= |s| && r == s[|s| - |r|..]
    ensures r == [] || !IsSpace(r[0])
    ensures forall i :: 0 <= i < |s| - |r| ==> IsSpace(s[i])
    decreases |s|
  {
    if s != [] && IsSpace(s[0]) then TrimLeft(s[1..]) else s
  }

  /** Drops the trailing white space: what remains is a prefix ending with a non-space. */
  function TrimRight(s: string): (r: string)
    ensures |r| <= |s| && r == s[..|r|]
    ensures r == [] || !IsSpace(r[|r| - 1])
    ensures forall i :: |r| <= i < |s| ==> IsSpace(s[i])
    decreases |s|
  {
    if s != [] && IsSpace(s[|s| - 1]) then TrimRight(s[..|s| - 1]) else s
  }

  /** `strings.TrimSpace`. */
  function TrimSpace(s: string): string {
    TrimRight(TrimLeft(s))
  }

  /** Trimming is idempotent: a trimmed line neither starts nor ends with white space. */
  lemma TrimSpaceIdempotent(s: string)
    ensures TrimSpace(TrimSpace(s)) == TrimSpace(s)
  {
    var t := TrimSpace(s);
    var l := TrimLeft(s);
    assert t == l[..|t|];
    assert t != [] ==> t[0] == l[0];
    assert TrimLeft(t) == t;
    assert TrimRight(t) == t;
  }

  /** Index of the first white-space character of `s`, or `|s|`. */
  function SpanNonSpace(s: string): (k: nat)
    ensures k <= |s|
    ensures forall i :: 0 <= i < k ==> !IsSpace(s[i])
    ensures k < |s| ==> IsSpace(s[k])
    decreases |s|
  {
    if s == [] || IsSpace(s[0]) then 0 else 1 + SpanNonSpace(s[1..])
  }

  /** `strings.Fields`: the maximal runs of non-space characters, in order. */
  function Fields(s: string): (r: seq<string>)
    ensures forall i :: 0 <= i < |r| ==> r[i] != [] && NoSpace(r[i])
    decreases |s|
  {
    var t := TrimLeft(s);
    if t == [] then []
    else
      var k := SpanNonSpace(t);
      SpanIsWord(t);
      var rest := Fields(t[k..]);
      WordsCons(t[..k], rest);
      [t[..k]] + rest
  }

  lemma WordsCons(w: string, rest: seq<string>)
    requires w != [] && NoSpace(w)
    requires forall i :: 0 <= i < |rest| ==> rest[i] != [] && NoSpace(rest[i])
    ensures forall i :: 0 <= i < |[w] + rest| ==> ([w] + rest)[i] != [] && NoSpace(([w] + rest)[i])
  {
    forall i | 0 <= i < |[w] + rest| ensures ([w] + rest)[i] != [] && NoSpace(([w] + rest)[i]) {
      if i > 0 {
        assert ([w] + rest)[i] == rest[i - 1];
      }
    }
  }

  /** The run of non-space characters at the start of a trimmed, non-empty text is a non-empty word. */
  lemma SpanIsWord(t: string)
    requires t != [] && !IsSpace(t[0])
    ensures SpanNonSpace(t) > 0 && NoSpace(t[..SpanNonSpace(t)])
  {
    var k := SpanNonSpace(t);
    forall i | 0 <= i < k ensures !IsSpace(t[..k][i]) {
      assert t[..k][i] == t[i];
    }
  }

  /**
   * A line that starts with the non-empty word `w`, followed by nothing or by
   * white space, has `w` as its first field.
   */
  lemma FirstField(w: string, rest: string)
    requires w != [] && NoSpace(w)
    requires rest == [] || IsSpace(rest[0])
    ensures |Fields(w + rest)| > 0 && Fields(w + rest)[0] == w
    ensures Fields(w + rest) == [w] + Fields(rest)
  {
    var s := w + rest;
    assert TrimLeft(s) == s by {
      assert !IsSpace(s[0]);
    }
    var k := SpanNonSpace(s);
    assert k <= |w| by {
      if rest != [] {
        assert s[|w|] == rest[0];
      }
    }
    assert k >= |w| by {
      assert forall i :: 0 <= i < |w| ==> s[i] == w[i];
    }
    assert s[..k] == w && s[k..] == rest;
  }

  // ---------------------------------------------------------------------
  // Searching

  /** Index of the first `c` in `s`, or `|s|` when there is none. */
  function FindChar(s: string, c: char): (i: nat)
    ensures i <= |s|
    ensures forall j :: 0 <= j < i ==> s[j] != c
    ensures i < |s| ==> s[i] == c
    decreases |s|
  {
    if s == [] || s[0] == c then 0 else 1 + FindChar(s[1..], c)
  }

  predicate OccursAt(s: string, sub: string, i: nat) {
    i + |sub| <= |s| && s[i..i + |sub|] == sub
  }

  lemma SliceOfTail(s: string, j: nat, n: nat)
    requires j + 1 + n <= |s|
    ensures s[j + 1..j + 1 + n] == s[1..][j..j + n]
  {
  }

  /** Leftmost occurrence of `sub` in `s`. */
  function FindSub(s: string, sub: string): (r: Option<nat>)
    ensures r.Some? ==> OccursAt(s, sub, r.value)
    ensures r.Some? ==> forall j :: 0 <= j < r.value ==> !OccursAt(s, sub, j)
    ensures r.None? ==> forall j: nat :: !OccursAt(s, sub, j)
    decreases |s|
  {
    if |s| < |sub| then None
    else if s[..|sub|] == sub then Some(0)
    else
      var t := FindSub(s[1..], sub);
      assert forall j: nat :: OccursAt(s, sub, j + 1) <==> OccursAt(s[1..], sub, j) by {
        forall j: nat ensures OccursAt(s, sub, j + 1) <==> OccursAt(s[1..], sub, j) {
          if j + 1 + |sub| <= |s| {
            SliceOfTail(s, j, |sub|);
          }
        }
      }
      assert !OccursAt(s, sub, 0);
      match t
      case None =>
        assert forall j: nat :: !OccursAt(s, sub, j) by {
          forall j: nat ensures !OccursAt(s, sub, j) {
            if j > 0 {
              assert !OccursAt(s[1..], sub, j - 1);
            }
          }
        }
        None
      case Some(k) =>
        assert forall j :: 0 <= j < k + 1 ==> !OccursAt(s, sub, j) by {
          forall j | 0 <= j < k + 1 ensures !OccursAt(s, sub, j) {
            if j > 0 {
              assert !OccursAt(s[1..], sub, j - 1);
            }
          }
        }
        Some(k + 1)
  }

  /** `strings.Contains`. */
  predicate Contains(s: string, sub: string) {
    FindSub(s, sub).Some?
  }

  /** `strings.HasPrefix`. */
  predicate HasPrefix(s: string, prefix: string) {
    |prefix| <= |s| && s[..|prefix|] == prefix
  }

  // ---------------------------------------------------------------------
  // Joining and splitting

  /** `strings.Join`. */
  function Join(parts: seq<string>, sep: string): string
    decreases |parts|
  {
    if parts == [] then ""
    else if |parts| == 1 then parts[0]
    else parts[0] + sep + Join(parts[1..], sep)
  }

  /** Every line followed by a newline. */
  function Terminated(lines: seq<string>): string
    decreases |lines|
  {
    if lines == [] then "" else lines[0] + "\n" + Terminated(lines[1..])
  }

  /** `strings.Join(lines, "\n") + "\n"` puts a newline after every line, provided there is one. */
  lemma {:induction false} JoinTerminated(lines: seq<string>)
    requires lines != []
    ensures Join(lines, "\n") + "\n" == Terminated(lines)
    decreases |lines|
  {
    if |lines| > 1 {
      JoinTerminated(lines[1..]);
      assert Terminated(lines[1..][1..]) == Terminated(lines[2..]);
    } else {
      assert lines[1..] == [];
    }
  }

  /** `strings.Split(s, string(c))`: the pieces between the occurrences of `c`. */
  function Split(s: string, c: char): (r: seq<string>)
    ensures |r| >= 1
    ensures forall i :: 0 <= i < |r| ==> c !in r[i]
    decreases |s|
  {
    var i := FindChar(s, c);
    if i == |s| then [s]
    else
      assert c !in s[..i];
      [s[..i]] + Split(s[i + 1..], c)
  }

  /** Joining the pieces of a split gives back the text. */
  lemma {:induction false} JoinSplit(s: string, c: char)
    ensures Join(Split(s, c), [c]) == s
    decreases |s|
  {
    var i := FindChar(s, c);
    if i < |s| {
      var rest := Split(s[i + 1..], c);
      var parts := [s[..i]] + rest;
      assert Split(s, c) == parts;
      assert |parts| > 1 && parts[0] == s[..i] && parts[1..] == rest;
      JoinSplit(s[i + 1..], c);
      assert Join(parts, [c]) == s[..i] + [c] + s[i + 1..];
      assert s == s[..i] + [c] + s[i + 1..];
    }
  }

  /** Splitting joined pieces gives back the pieces, when no piece holds the separator. */
  lemma {:induction false} SplitJoin(parts: seq<string>, c: char)
    requires parts != []
    requires forall i :: 0 <= i < |parts| ==> c !in parts[i]
    ensures Split(Join(parts, [c]), c) == parts
    decreases |parts|
  {
    var s := Join(parts, [c]);
    var p := parts[0];
    if |parts| == 1 {
      assert FindChar(s, c) == |s|;
    } else {
      var rest := Join(parts[1..], [c]);
      assert s == p + [c] + rest;
      var i := FindChar(s, c);
      assert s[|p|] == c;
      assert i == |p|;
      assert s[..i] == p;
      assert s[i + 1..] == rest;
      SplitJoin(parts[1..], c);
    }
  }

  // ---------------------------------------------------------------------
  // Searching a sequence

  /** Whether `f` holds of some element of `xs`. */
  predicate Any<T>(xs: seq<T>, f: T -> bool)
    decreases |xs|
  {
    xs != [] && (Any(xs[..|xs| - 1], f) || f(xs[|xs| - 1]))
  }

  /** An element satisfying `f` makes `Any` hold. */
  lemma {:induction false} AnyAt<T>(xs: seq<T>, f: T -> bool, i: nat)
    requires i < |xs| && f(xs[i])
    ensures Any(xs, f)
    decreases |xs|
  {
    if i < |xs| - 1 {
      var init := xs[..|xs| - 1];
      assert init[i] == xs[i];
      AnyAt(init, f, i);
    }
  }

  /** When `Any` holds there is an element to point at. */
  lemma {:induction false} AnyIndex<T>(xs: seq<T>, f: T -> bool) returns (i: nat)
    requires Any(xs, f)
    ensures i < |xs| && f(xs[i])
    decreases |xs|
  {
    var init := xs[..|xs| - 1];
    if Any(init, f) {
      i := AnyIndex(init, f);
      assert init[i] == xs[i];
    } else {
      i := |xs| - 1;
    }
  }

  /** Index of the first element of `xs` that satisfies `f`, or `|xs|` when none does. */
  function FirstWhere<T>(xs: seq<T>, f: T -> bool): (k: nat)
    ensures k <= |xs|
    ensures forall j :: 0 <= j < k ==> !f(xs[j])
    ensures k < |xs| ==> f(xs[k])
    decreases |xs|
  {
    if xs == [] || f(xs[0]) then 0 else 1 + FirstWhere(xs[1..], f)
  }

  // ---------------------------------------------------------------------
  // Line scanning

  /** `bufio`'s dropCR: a single trailing carriage return is dropped. */
  function DropCR(s: string): string {
    if s != [] && s[|s| - 1] == '\r' then s[..|s| - 1] else s
  }

  /**
   * The lines `bufio.Scanner` yields with `ScanLines`: text split at each
   * newline, a trailing carriage return dropped from every line, and no empty
   * last line after a final newline.
   */
  function ScanLines(s: string): (r: seq<string>)
    ensures forall i :: 0 <= i < |r| ==> '\n' !in r[i]
    decreases |s|
  {
    if s == [] then []
    else
      var i := FindChar(s, '\n');
      if i == |s| then [DropCR(s)]
      else
        assert '\n' !in s[..i];
        [DropCR(s[..i])] + ScanLines(s[i + 1..])
  }

  /** Scanning newline-terminated lines gives the lines back, less any trailing carriage return. */
  lemma {:induction false} ScanTerminated(lines: seq<string>)
    requires forall i :: 0 <= i < |lines| ==> '\n' !in lines[i]
    ensures |ScanLines(Terminated(lines))| == |lines|
    ensures forall i :: 0 <= i < |lines| ==> ScanLines(Terminated(lines))[i] == DropCR(lines[i])
    decreases |lines|
  {
    if lines != [] {
      var l := lines[0];
      var rest := Terminated(lines[1..]);
      var s := Terminated(lines);
      assert s == l + "\n" + rest;
      var i := FindChar(s, '\n');
      assert s[|l|] == '\n';
      assert forall j :: 0 <= j < |l| ==> s[j] == l[j];
      assert i == |l|;
      assert s[..i] == l;
      assert s[i + 1..] == rest;
      assert ScanLines(s) == [DropCR(l)] + ScanLines(rest);
      ScanTerminated(lines[1..]);
    }
  }

  // ---------------------------------------------------------------------
  // Decimal numbers

  predicate IsDigit(c: char) {
    '0' <= c <= '9'
  }

  predicate AllDigits(s: string) {
    forall i :: 0 <= i < |s| ==> IsDigit(s[i])
  }

  function DigitsValue(s: string): nat
    requires AllDigits(s)
    decreases |s|
  {
    if s == [] then 0 else 10 * DigitsValue(s[..|s| - 1]) + (s[|s| - 1] as int - '0' as int)
  }

  const MinInt64: int := -0x8000_0000_0000_0000
  const MaxInt64: int := 0x7FFF_FFFF_FFFF_FFFF

  /**
   * `strconv.Atoi` on a 64-bit platform: an optional sign and at least one
   * decimal digit, and the value must fit in 64 bits.
   */
  function Atoi(s: string): (r: Option<int>)
    ensures r.Some? ==> MinInt64 <= r.value <= MaxInt64
    ensures r.Some? ==> s != []
  {
    if s == [] then None
    else
      var negative := s[0] == '-';
      var digits := if s[0] == '-' || s[0] == '+' then s[1..] else s;
      if digits == [] || !AllDigits(digits) then None
      else
        var v: int := if negative then -(DigitsValue(digits) as int) else DigitsValue(digits);
        if MinInt64 <= v <= MaxInt64 then Some(v) else None
  }

  /** `strconv.Itoa` on a non-negative number. */
  function Itoa(n: nat): (r: string)
    ensures r != [] && AllDigits(r)
    decreases n
  {
    var d := [('0' as int + n % 10) as char];
    if n < 10 then d else Itoa(n / 10) + d
  }

  lemma {:induction false} ItoaValue(n: nat)
    ensures DigitsValue(Itoa(n)) == n
    decreases n
  {
    var s := Itoa(n);
    assert s[..|s| - 1] == if n < 10 then "" else Itoa(n / 10);
    if n >= 10 {
      ItoaValue(n / 10);
    }
  }

  /** Reading back a formatted number gives the number. */
  lemma AtoiItoa(n: nat)
    requires n <= MaxInt64
    ensures Atoi(Itoa(n)) == Some(n)
  {
    ItoaValue(n);
    assert IsDigit(Itoa(n)[0]);
  }

  // ---------------------------------------------------------------------
  // Quoting

  /**
   * `strconv.Quote` for text without control characters: double quotes around
   * the text, with `"` and `\` escaped by a backslash.
   */
  function Quote(s: string): string {
    "\"" + QuoteBody(s) + "\""
  }

  function QuoteBody(s: string): string
    decreases |s|
  {
    if s == [] then ""
    else (if s[0] == '"' || s[0] == '\\' then ['\\', s[0]] else [s[0]]) + QuoteBody(s[1..])
  }

  // ---------------------------------------------------------------------
  // Name order

  /** Byte-wise lexicographic order, the order of `sort.Strings` and `os.ReadDir`. */
  predicate Below(a: string, b: string)
    decreases |a|
  {
    if a == [] then b != []
    else if b == [] then false
    else if a[0] != b[0] then a[0] < b[0]
    else Below(a[1..], b[1..])
  }

  lemma {:induction false} BelowIrreflexive(a: string)
    ensures !Below(a, a)
    decreases |a|
  {
    if a != [] {
      BelowIrreflexive(a[1..]);
    }
  }

  lemma {:induction false} BelowTransitive(a: string, b: string, c: string)
    requires Below(a, b) && Below(b, c)
    ensures Below(a, c)
    decreases |a|
  {
    if a != [] && b != [] && c != [] && a[0] == b[0] == c[0] {
      BelowTransitive(a[1..], b[1..], c[1..]);
    }
  }

  lemma {:induction false} BelowTotal(a: string, b: string)
    requires a != b
    ensures Below(a, b) || Below(b, a)
    decreases |a|
  {
    if a != [] && b != [] && a[0] == b[0] {
      assert a == [a[0]] + a[1..] && b == [b[0]] + b[1..];
      BelowTotal(a[1..], b[1..]);
    }
  }

  /** Strictly ascending, hence free of duplicates. */
  predicate Sorted(s: seq<string>) {
    forall i, j :: 0 <= i < j < |s| ==> Below(s[i], s[j])
  }

  /** A directory gains an entry: `x` takes its place in name order, unless it is already listed. */
  function InsertSorted(s: seq<string>, x: string): (r: seq<string>)
    requires Sorted(s)
    ensures Sorted(r)
    ensures forall y :: y in r <==> y in s || y == x
    ensures x in s ==> r == s
    decreases |s|
  {
    if s == [] then [x]
    else if s[0] == x then s
    else if Below(x, s[0]) then
      assert forall j :: 0 <= j < |s| ==> Below(x, s[j]) by {
        forall j | 0 < j < |s| ensures Below(x, s[j]) {
          BelowTransitive(x, s[0], s[j]);
        }
      }
      assert x !in s by {
        forall j | 0 <= j < |s| ensures s[j] != x {
          if s[j] == x {
            BelowIrreflexive(x);
          }
        }
      }
      [x] + s
    else
      BelowTotal(x, s[0]);
      var t := InsertSorted(s[1..], x);
      assert forall y :: y in t ==> Below(s[0], y);
      var r := [s[0]] + t;
      assert x in s ==> r == s by {
        if x in s {
          assert x in s[1..];
        }
      }
      r
  }

  // ---------------------------------------------------------------------
  // Paths

  function TrimTrailingSlashes(p: string): (r: string)
    ensures |r| <= |p| && r == p[..|r|]
    ensures r == [] || r[|r| - 1] != '/'
    ensures forall i :: |r| <= i < |p| ==> p[i] == '/'
  {
    if p != [] && p[|p| - 1] == '/' then TrimTrailingSlashes(p[..|p| - 1]) else p
  }

  /** `filepath.Join(a, b)` and `path.Join(a, b)`: empty elements are ignored; the result is not cleaned further. */
  function JoinPath(a: string, b: string): string {
    if a == "" then b
    else if b == "" then a
    else TrimTrailingSlashes(a) + "/" + b
  }
}

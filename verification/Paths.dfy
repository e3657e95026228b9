/** Secret paths, permission patterns and request path sets (secure.go, store.go). */
module Paths {
  import opened Results
  import opened Text

  // ---- regular expressions by their denotation ----

  datatype Regex =
    | OneOf(chars: CharClass)
    | Cat(left: Regex, right: Regex)
    | Star(body: Regex)

  datatype CharClass = Word | Separator

  predicate InClass(c: char, k: CharClass) {
    match k
    case Word => 'A' <= c <= 'Z' || 'a' <= c <= 'z' || '0' <= c <= '9' || c == '_' || c == '-'
    case Separator => c == '.' || c == '/'
  }

  predicate Matches(r: Regex, s: string)
    decreases r, |s|
  {
    match r
    case OneOf(k) => |s| == 1 && InClass(s[0], k)
    case Cat(a, b) => exists i | 0 <= i <= |s| :: Matches(a, s[..i]) && Matches(b, s[i..])
    case Star(a) => s == "" || exists i | 0 < i <= |s| :: Matches(a, s[..i]) && Matches(r, s[i..])
  }

  function Plus(r: Regex): Regex {
    Cat(r, Star(r))
  }

  const WORD := OneOf(Word)
  const SEGMENT := Cat(OneOf(Separator), Plus(WORD))
  const PATH := Cat(Plus(WORD), Star(SEGMENT))
  const MAX_PATH := 512

  predicate HasDotDot(p: string) {
    exists i | 0 <= i < |p| - 1 :: p[i] == '.' && p[i + 1] == '.'
  }

  predicate ValidPath(p: string) {
    0 < |p| <= MAX_PATH && Matches(PATH, p) && !HasDotDot(p)
  }

  predicate ValidPattern(p: string) {
    ValidPath(p) || (HasSuffix(p, "/*") && ValidPath(TrimSuffix(p, "/*")))
  }

  predicate PatternAllows(pattern: string, p: string) {
    pattern == p || (HasSuffix(pattern, "/*") && HasPrefix(p, TrimSuffix(pattern, "*")))
  }

  predicate Allowed(patterns: seq<string>, p: string) {
    ValidPath(p) && exists i | 0 <= i < |patterns| :: PatternAllows(patterns[i], p)
  }

  // ---- the path language as a scan ----

  predicate IsWord(c: char) { InClass(c, Word) }
  predicate IsSeparator(c: char) { InClass(c, Separator) }

  /** Allowed characters only, no separator at either end, no two adjacent separators. */
  ghost predicate Scan(p: string) {
    && 1 <= |p| <= MAX_PATH
    && (forall i | 0 <= i < |p| :: IsWord(p[i]) || IsSeparator(p[i]))
    && !IsSeparator(p[0]) && !IsSeparator(p[|p| - 1])
    && (forall i | 0 <= i < |p| - 1 :: !(IsSeparator(p[i]) && IsSeparator(p[i + 1])))
  }

  ghost predicate Words(s: string) {
    forall i | 0 <= i < |s| :: IsWord(s[i])
  }

  lemma {:induction false} WordStar(s: string)
    ensures Matches(Star(WORD), s) <==> Words(s)
    decreases |s|
  {
    if s != "" {
      WordStar(s[1..]);
      forall i | 0 < i <= |s| ensures Matches(WORD, s[..i]) <==> i == 1 && IsWord(s[0]) {
      }
      if Words(s) {
        assert Matches(WORD, s[..1]) && Matches(Star(WORD), s[1..]);
      }
      if Matches(Star(WORD), s) {
        assert s == [s[0]] + s[1..];
      }
    }
  }

  lemma WordPlus(s: string)
    ensures Matches(Plus(WORD), s) <==> s != "" && Words(s)
  {
    forall i | 0 <= i <= |s| ensures Matches(WORD, s[..i]) <==> i == 1 && IsWord(s[0]) {
    }
    if s != "" {
      WordStar(s[1..]);
      assert s == [s[0]] + s[1..];
      if Words(s) {
        assert Matches(WORD, s[..1]) && Matches(Star(WORD), s[1..]);
      }
    }
  }

  lemma SegmentShape(s: string)
    ensures Matches(SEGMENT, s) <==> |s| >= 2 && IsSeparator(s[0]) && Words(s[1..])
  {
    forall i | 0 <= i <= |s| ensures Matches(OneOf(Separator), s[..i]) <==> i == 1 && IsSeparator(s[0]) {
    }
    if s != "" {
      WordPlus(s[1..]);
      if |s| >= 2 && IsSeparator(s[0]) && Words(s[1..]) {
        assert Matches(OneOf(Separator), s[..1]) && Matches(Plus(WORD), s[1..]);
      }
    }
  }

  /** What may follow the first word of a path: nothing, or separated words. */
  ghost predicate Tail(s: string) {
    && (forall i | 0 <= i < |s| :: IsWord(s[i]) || IsSeparator(s[i]))
    && (s != "" ==> IsSeparator(s[0]) && !IsSeparator(s[|s| - 1]))
    && (forall i | 0 <= i < |s| - 1 :: !(IsSeparator(s[i]) && IsSeparator(s[i + 1])))
  }

  /** The length of the longest run of word characters at `from`. */
  function RunEnd(s: string, from: nat): (e: nat)
    requires from <= |s|
    ensures from <= e <= |s|
    ensures forall i | from <= i < e :: IsWord(s[i])
    ensures e == |s| || !IsWord(s[e])
    decreases |s| - from
  {
    if from == |s| || !IsWord(s[from]) then from else RunEnd(s, from + 1)
  }

  lemma {:induction false} TailStar(s: string)
    ensures Matches(Star(SEGMENT), s) <==> Tail(s)
    decreases |s|
  {
    if s == "" {
    } else {
      if Matches(Star(SEGMENT), s) {
        var i :| 0 < i <= |s| && Matches(SEGMENT, s[..i]) && Matches(Star(SEGMENT), s[i..]);
        SegmentShape(s[..i]);
        TailStar(s[i..]);
        TailCons(s, i);
      }
      if Tail(s) {
        var i := RunEnd(s, 1);
        TailSplit(s, i);
        SegmentShape(s[..i]);
        TailStar(s[i..]);
        assert Matches(SEGMENT, s[..i]) && Matches(Star(SEGMENT), s[i..]);
      }
    }
  }

  lemma TailCons(s: string, i: nat)
    requires 2 <= i <= |s| && IsSeparator(s[0]) && Words(s[..i][1..]) && Tail(s[i..])
    ensures Tail(s)
  {
    forall j | 0 <= j < |s| ensures IsWord(s[j]) || IsSeparator(s[j]) {
      if 0 < j < i { assert s[j] == s[..i][1..][j - 1]; }
      if j >= i { assert s[j] == s[i..][j - i]; }
    }
    forall j | 0 <= j < |s| - 1 ensures !(IsSeparator(s[j]) && IsSeparator(s[j + 1])) {
      if 0 < j < i { assert s[j] == s[..i][1..][j - 1]; }
      if j + 1 < i { assert s[j + 1] == s[..i][1..][j]; }
      if j >= i { assert s[j] == s[i..][j - i] && s[j + 1] == s[i..][j + 1 - i]; }
    }
    if i == |s| {
      assert s[i - 1] == s[..i][1..][i - 2];
    } else {
      assert s[|s| - 1] == s[i..][|s| - i - 1];
    }
  }

  lemma TailSplit(s: string, i: nat)
    requires s != "" && Tail(s) && i == RunEnd(s, 1)
    ensures 2 <= i <= |s| && Words(s[..i][1..]) && Tail(s[i..])
  {
    assert |s| > 1;
    assert IsSeparator(s[0]) && !IsSeparator(s[1]);
    assert IsWord(s[1]);
    var t := s[i..];
    forall j | 0 <= j < |t| - 1 ensures !(IsSeparator(t[j]) && IsSeparator(t[j + 1])) {
      assert t[j] == s[i + j] && t[j + 1] == s[i + j + 1];
    }
  }

  /** The regular expression accepts exactly the scanned strings; the `..` test is redundant. */
  lemma PathLanguage(p: string)
    ensures ValidPath(p) <==> Scan(p)
    ensures ValidPath(p) <==> 0 < |p| <= MAX_PATH && Matches(PATH, p)
  {
    if 0 < |p| <= MAX_PATH && Matches(PATH, p) {
      var i :| 0 <= i <= |p| && Matches(Plus(WORD), p[..i]) && Matches(Star(SEGMENT), p[i..]);
      WordPlus(p[..i]);
      TailStar(p[i..]);
      ScanCons(p, i);
    }
    if Scan(p) {
      var i := RunEnd(p, 0);
      assert IsWord(p[0]);
      WordPlus(p[..i]);
      ScanSplit(p, i);
      TailStar(p[i..]);
      assert Matches(Plus(WORD), p[..i]) && Matches(Star(SEGMENT), p[i..]);
      forall j | 0 <= j < |p| - 1 ensures !(p[j] == '.' && p[j + 1] == '.') {
        assert !(IsSeparator(p[j]) && IsSeparator(p[j + 1]));
      }
    }
  }

  lemma ScanCons(p: string, i: nat)
    requires 0 < i <= |p| <= MAX_PATH && Words(p[..i]) && Tail(p[i..])
    ensures Scan(p)
  {
    forall j | 0 <= j < |p| ensures IsWord(p[j]) || IsSeparator(p[j]) {
      if j < i { assert p[j] == p[..i][j]; } else { assert p[j] == p[i..][j - i]; }
    }
    forall j | 0 <= j < |p| - 1 ensures !(IsSeparator(p[j]) && IsSeparator(p[j + 1])) {
      if j < i { assert p[j] == p[..i][j]; } else { assert p[j] == p[i..][j - i] && p[j + 1] == p[i..][j + 1 - i]; }
    }
    assert p[0] == p[..i][0];
    if i == |p| {
      assert p[i - 1] == p[..i][i - 1];
    } else {
      assert p[|p| - 1] == p[i..][|p| - i - 1];
    }
  }

  lemma ScanSplit(p: string, i: nat)
    requires Scan(p) && i == RunEnd(p, 0)
    ensures 0 < i <= |p| && Words(p[..i]) && Tail(p[i..])
  {
    var t := p[i..];
    forall j | 0 <= j < |t| - 1 ensures !(IsSeparator(t[j]) && IsSeparator(t[j + 1])) {
      assert t[j] == p[i + j] && t[j + 1] == p[i + j + 1];
    }
  }

  /** The same in characters: a dot or a slash neither first nor last nor next to another one. */
  lemma PathsWrittenOut(p: string)
    ensures ValidPath(p) <==>
            && 1 <= |p| <= 512
            && (forall i | 0 <= i < |p| ::
                  'A' <= p[i] <= 'Z' || 'a' <= p[i] <= 'z' || '0' <= p[i] <= '9' || p[i] in {'_', '-', '.', '/'})
            && p[0] !in {'.', '/'} && p[|p| - 1] !in {'.', '/'}
            && (forall i | 0 <= i < |p| - 1 :: p[i] in {'.', '/'} ==> p[i + 1] !in {'.', '/'})
  {
    hide ValidPath;
    PathLanguage(p);
  }

  /** A pattern is a path, or a path with a slash and a star behind it. */
  lemma PatternsWrittenOut(p: string)
    ensures ValidPattern(p) <==> ValidPath(p) || exists base: string :: ValidPath(base) && p == base + "/*"
  {
    hide ValidPath;
    if HasSuffix(p, "/*") {
      assert p == TrimSuffix(p, "/*") + "/*";
    }
    forall base: string | p == base + "/*" ensures HasSuffix(p, "/*") && TrimSuffix(p, "/*") == base {
    }
  }

  lemma PathCharacters(p: string, c: char)
    requires ValidPath(p) && c in p
    ensures IsWord(c) || IsSeparator(c)
  {
    PathLanguage(p);
  }

  // ---- patterns as segment lists ----

  ghost function Segments(p: string): seq<string> {
    Split(p, '/')
  }

  ghost predicate ProperPrefix(xs: seq<string>, ys: seq<string>) {
    xs < ys
  }

  /** What a valid pattern means: the path itself, or every proper descendant of the starred path. */
  ghost predicate PatternCovers(pattern: string, p: string) {
    if HasSuffix(pattern, "/*")
    then ProperPrefix(Segments(TrimSuffix(pattern, "/*")), Segments(p))
    else pattern == p
  }

  lemma PrefixSegments(base: string, p: string)
    ensures HasPrefix(p, base + "/") <==> ProperPrefix(Segments(base), Segments(p))
  {
    var xs, ys := Segments(base), Segments(p);
    JoinSplit(base, '/');
    JoinSplit(p, '/');
    if HasPrefix(p, base + "/") {
      var rest := p[|base| + 1..];
      assert p == base + ['/'] + rest;
      SplitConcat(base, rest, '/');
    }
    if xs < ys {
      var rest := ys[|xs|..];
      assert ys == xs + rest;
      JoinConcat(xs, rest, '/');
      assert p == base + ['/'] + Join(rest, '/');
      assert p[..|base| + 1] == base + ['/'];
    }
  }

  /** For valid patterns, string prefix matching is segment-list matching. */
  lemma AllowedMeaning(patterns: seq<string>, p: string)
    requires forall i | 0 <= i < |patterns| :: ValidPattern(patterns[i])
    ensures Allowed(patterns, p) <==>
            ValidPath(p) && exists i | 0 <= i < |patterns| :: PatternCovers(patterns[i], p)
  {
    if ValidPath(p) {
      forall i | 0 <= i < |patterns| ensures PatternAllows(patterns[i], p) <==> PatternCovers(patterns[i], p) {
        PatternMeaning(patterns[i], p);
      }
    }
  }

  /** In characters: a path is allowed by itself, or by a starred base and a slash it begins with. */
  lemma AllowedWrittenOut(patterns: seq<string>, p: string)
    ensures Allowed(patterns, p) <==>
            ValidPath(p) && exists i | 0 <= i < |patterns| ::
              patterns[i] == p || exists base: string, rest: string :: patterns[i] == base + "/*" && p == base + "/" + rest
  {
    hide ValidPath;
    forall i | 0 <= i < |patterns|
      ensures PatternAllows(patterns[i], p) <==>
              patterns[i] == p || exists base: string, rest: string :: patterns[i] == base + "/*" && p == base + "/" + rest
    {
      StarredPrefix(patterns[i], p);
    }
  }

  lemma StarredPrefix(pattern: string, p: string)
    ensures HasSuffix(pattern, "/*") && HasPrefix(p, TrimSuffix(pattern, "*")) <==>
            exists base: string, rest: string :: pattern == base + "/*" && p == base + "/" + rest
  {
    if HasSuffix(pattern, "/*") && HasPrefix(p, TrimSuffix(pattern, "*")) {
      var base := pattern[..|pattern| - 2];
      assert pattern == base + "/*";
      assert pattern[|pattern| - 1..] == "*" && TrimSuffix(pattern, "*") == base + "/";
      assert p == base + "/" + p[|base| + 1..];
    }
    forall base: string, rest: string | pattern == base + "/*" && p == base + "/" + rest
      ensures HasSuffix(pattern, "/*") && HasPrefix(p, TrimSuffix(pattern, "*"))
    {
      assert pattern[|pattern| - 1..] == "*" && TrimSuffix(pattern, "*") == base + "/";
      assert p[..|base| + 1] == base + "/";
    }
  }

  lemma PatternMeaning(pattern: string, p: string)
    requires ValidPattern(pattern) && ValidPath(p)
    ensures PatternAllows(pattern, p) <==> PatternCovers(pattern, p)
  {
    if HasSuffix(pattern, "/*") {
      var n := |pattern|;
      assert pattern[n - 2..] == "/*";
      assert pattern[n - 1] == pattern[n - 2..][1] == '*' && pattern[n - 2] == pattern[n - 2..][0] == '/';
      var base := TrimSuffix(pattern, "/*");
      assert pattern[n - 1..] == "*";
      assert TrimSuffix(pattern, "*") == base + "/";
      PrefixSegments(base, p);
      if pattern == p {
        PathCharacters(p, '*');
        assert false;
      }
    }
  }

  // ---- the path set of a request ----

  const MAX_PATHS := 100

  /** The canonical form of a requested path set. */
  function Normalize(paths: seq<string>): Result<seq<string>> {
    if |paths| == 0 || |paths| > MAX_PATHS then Err(Invalid)
    else if exists i | 0 <= i < |paths| :: !ValidPath(paths[i]) then Err(Invalid)
    else Ok(Sort(paths))
  }

  function Sort(paths: seq<string>): seq<string> {
    if paths == [] then [] else Insert(Sort(paths[..|paths| - 1]), paths[|paths| - 1])
  }

  lemma {:induction false} SortCanonical(paths: seq<string>)
    ensures StrictlySorted(Sort(paths)) && Elements(Sort(paths)) == Elements(paths)
  {
    if paths != [] {
      var init, last := paths[..|paths| - 1], paths[|paths| - 1];
      SortCanonical(init);
      InsertSorted(Sort(init), last);
      assert paths == init + [last];
    }
  }

  /** Reordering and repetition do not matter, and nothing else is forgotten. */
  lemma NormalizeCanonical(xs: seq<string>, ys: seq<string>)
    requires Normalize(xs).Ok? && Normalize(ys).Ok?
    ensures Normalize(xs) == Normalize(ys) <==> Elements(xs) == Elements(ys)
  {
    SortCanonical(xs);
    SortCanonical(ys);
    if Elements(xs) == Elements(ys) {
      SortedUnique(Sort(xs), Sort(ys));
    }
  }

  function Printed(paths: seq<string>): string {
    Join(paths, '\n')
  }

  /** Comparing newline-joined path lists compares the lists. */
  lemma PrintedInjective(xs: seq<string>, ys: seq<string>)
    requires xs != [] && ys != []
    requires forall p | p in xs + ys :: ValidPath(p)
    ensures Printed(xs) == Printed(ys) <==> xs == ys
  {
    forall p | p in xs + ys ensures '\n' !in p {
      if '\n' in p {
        PathCharacters(p, '\n');
        assert false;
      }
    }
    forall p | p in xs ensures '\n' !in p { assert p in xs + ys; }
    forall p | p in ys ensures '\n' !in p { assert p in xs + ys; }
    SplitJoin(xs, '\n');
    SplitJoin(ys, '\n');
  }

  /** sort.Strings: a sorted rearrangement. */
  method SortStrings(xs: seq<string>) returns (ys: seq<string>)
    requires Distinct(xs)
    ensures StrictlySorted(ys) && Elements(ys) == Elements(xs)
  {
    ys := [];
    for i := 0 to |xs|
      invariant StrictlySorted(ys) && Elements(ys) == Elements(xs[..i])
    {
      InsertSorted(ys, xs[i]);
      assert xs[..i + 1] == xs[..i] + [xs[i]];
      ys := Insert(ys, xs[i]);
    }
    assert xs[..|xs|] == xs;
  }

  method NormalizePaths(paths: seq<string>) returns (r: Result<seq<string>>)
    ensures r == Normalize(paths)
  {
    if |paths| == 0 || |paths| > MAX_PATHS {
      return Err(Invalid);
    }
    var seen: map<string, bool> := map[];
    var out: seq<string> := [];
    for i := 0 to |paths|
      invariant forall j | 0 <= j < i :: ValidPath(paths[j])
      invariant Distinct(out) && Elements(out) == Elements(paths[..i])
      invariant forall p :: p in seen && seen[p] <==> p in out
    {
      if !ValidPath(paths[i]) {
        return Err(Invalid);
      }
      assert paths[..i + 1] == paths[..i] + [paths[i]];
      assert Elements(paths[..i + 1]) == Elements(paths[..i]) + {paths[i]};
      if !(paths[i] in seen && seen[paths[i]]) {
        seen := seen[paths[i] := true];
        assert Elements(out + [paths[i]]) == Elements(out) + {paths[i]};
        out := out + [paths[i]];
      } else {
        assert paths[i] in Elements(out);
      }
    }
    assert paths[..|paths|] == paths;
    ghost var unsorted := out;
    out := SortStrings(out);
    SortCanonical(unsorted);
    SortCanonical(paths);
    SortedUnique(out, Sort(paths));
    r := Ok(out);
  }

  /** The checks on an application's names and patterns. */
  predicate ValidApplication(name: string, environment: string, patterns: seq<string>) {
    && 1 <= |name| <= 100 && 1 <= |environment| <= 100 && 1 <= |patterns| <= 100
    && forall i | 0 <= i < |patterns| :: ValidPattern(patterns[i])
  }
}

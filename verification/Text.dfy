/** Byte strings: prefixes, splitting and joining, the bytewise order, decimal printing. */
module Text {

  predicate HasPrefix(s: string, p: string) {
    |p| <= |s| && s[..|p|] == p
  }

  predicate HasSuffix(s: string, p: string) {
    |p| <= |s| && s[|s| - |p|..] == p
  }

  function TrimSuffix(s: string, p: string): string {
    if HasSuffix(s, p) then s[..|s| - |p|] else s
  }

  ghost function Elements<T>(xs: seq<T>): set<T> {
    set x | x in xs
  }

  // ---- splitting and joining ----

  function Join(xs: seq<string>, sep: char): string {
    if |xs| == 0 then "" else if |xs| == 1 then xs[0] else xs[0] + [sep] + Join(xs[1..], sep)
  }

  function Split(s: string, sep: char): (r: seq<string>)
    ensures |r| >= 1
  {
    if s == "" then [""] else Push(s[0], Split(s[1..], sep), sep)
  }

  /** Puts one more character in front of the pieces. */
  function Push(c: char, pieces: seq<string>, sep: char): (r: seq<string>)
    requires |pieces| >= 1
    ensures |r| >= 1
  {
    if c == sep then [""] + pieces else [[c] + pieces[0]] + pieces[1..]
  }

  lemma PushConcat(c: char, first: seq<string>, last: seq<string>, sep: char)
    requires |first| >= 1
    ensures Push(c, first + last, sep) == Push(c, first, sep) + last
  {
    assert (first + last)[1..] == first[1..] + last;
  }

  lemma {:induction false} SplitConcat(a: string, b: string, sep: char)
    ensures Split(a + [sep] + b, sep) == Split(a, sep) + Split(b, sep)
  {
    var s := a + [sep] + b;
    if a == "" {
      assert s[1..] == b;
    } else {
      SplitConcat(a[1..], b, sep);
      assert s[0] == a[0] && s[1..] == a[1..] + [sep] + b;
      PushConcat(a[0], Split(a[1..], sep), Split(b, sep), sep);
    }
  }

  lemma {:induction false} SplitAtom(a: string, sep: char)
    requires sep !in a
    ensures Split(a, sep) == [a]
  {
    if a != "" {
      SplitAtom(a[1..], sep);
      assert [a[0]] + a[1..] == a;
    }
  }

  /** Joining loses nothing: the pieces come back when none of them holds the separator. */
  lemma {:induction false} SplitJoin(xs: seq<string>, sep: char)
    requires |xs| > 0
    requires forall x | x in xs :: sep !in x
    ensures Split(Join(xs, sep), sep) == xs
  {
    SplitAtom(xs[0], sep);
    if |xs| > 1 {
      SplitJoin(xs[1..], sep);
      SplitConcat(xs[0], Join(xs[1..], sep), sep);
      assert [xs[0]] + xs[1..] == xs;
    }
  }

  lemma {:induction false} JoinConcat(xs: seq<string>, ys: seq<string>, sep: char)
    requires |xs| > 0 && |ys| > 0
    ensures Join(xs + ys, sep) == Join(xs, sep) + [sep] + Join(ys, sep)
  {
    if |xs| == 1 {
      assert (xs + ys)[1..] == ys;
    } else {
      JoinConcat(xs[1..], ys, sep);
      assert (xs + ys)[1..] == xs[1..] + ys;
    }
  }

  lemma {:induction false} JoinSplit(s: string, sep: char)
    ensures Join(Split(s, sep), sep) == s
  {
    if s != "" {
      JoinSplit(s[1..], sep);
      var rest := Split(s[1..], sep);
      if s[0] == sep {
        JoinConcat([""], rest, sep);
      } else if |rest| > 1 {
        assert Split(s, sep)[1..] == rest[1..];
      }
    }
  }

  // ---- the bytewise order ----

  predicate Less(a: string, b: string) {
    b != "" && (a == "" || a[0] < b[0] || (a[0] == b[0] && Less(a[1..], b[1..])))
  }

  /** They agree up to place i, where the first string has the smaller character. */
  ghost predicate SmallerAt(a: string, b: string, i: nat) {
    i < |a| && i < |b| && a[..i] == b[..i] && a[i] < b[i]
  }

  lemma SmallerLater(a: string, b: string, i: nat)
    requires a != "" && b != "" && a[0] == b[0]
    ensures SmallerAt(a, b, i + 1) <==> SmallerAt(a[1..], b[1..], i)
  {
    if i < |a| - 1 && i < |b| - 1 {
      assert a[..i + 1] == [a[0]] + a[1..][..i] && b[..i + 1] == [b[0]] + b[1..][..i];
      assert a[1..][..i] == a[..i + 1][1..] && b[1..][..i] == b[..i + 1][1..];
    }
  }

  /** Bytewise: a proper prefix, or the smaller character at the first difference. */
  lemma {:induction false} LessWrittenOut(a: string, b: string)
    ensures Less(a, b) <==> a < b || exists i: nat :: SmallerAt(a, b, i)
  {
    if a != "" && b != "" {
      LessWrittenOut(a[1..], b[1..]);
      assert a == [a[0]] + a[1..] && b == [b[0]] + b[1..];
      if a[0] == b[0] {
        forall i: nat { SmallerLater(a, b, i); }
        if i: nat :| SmallerAt(a, b, i) { assert i > 0 && SmallerAt(a[1..], b[1..], i - 1); }
        if i: nat :| SmallerAt(a[1..], b[1..], i) { assert SmallerAt(a, b, i + 1); }
      } else {
        if a[0] < b[0] { assert SmallerAt(a, b, 0); }
        if i: nat :| SmallerAt(a, b, i) && i > 0 { assert a[..i][0] == b[..i][0]; }
      }
    }
  }

  lemma LessIrreflexive(a: string)
    ensures !Less(a, a)
  {
  }

  lemma {:induction false} LessTransitive(a: string, b: string, c: string)
    requires Less(a, b) && Less(b, c)
    ensures Less(a, c)
  {
    if a != "" && a[0] == b[0] && b[0] == c[0] {
      LessTransitive(a[1..], b[1..], c[1..]);
    }
  }

  lemma {:induction false} LessTotal(a: string, b: string)
    ensures Less(a, b) || a == b || Less(b, a)
  {
    if a != "" && b != "" && a[0] == b[0] {
      LessTotal(a[1..], b[1..]);
      assert a == [a[0]] + a[1..] && b == [b[0]] + b[1..];
    }
  }

  ghost predicate StrictlySorted(xs: seq<string>) {
    forall i, j | 0 <= i < j < |xs| :: Less(xs[i], xs[j])
  }

  ghost predicate Distinct<T(!new)>(xs: seq<T>) {
    forall i, j | 0 <= i < j < |xs| :: xs[i] != xs[j]
  }

  lemma SortedDistinct(xs: seq<string>)
    requires StrictlySorted(xs)
    ensures Distinct(xs)
  {
    forall i, j | 0 <= i < j < |xs| ensures xs[i] != xs[j] {
      LessIrreflexive(xs[i]);
    }
  }

  /** Puts `x` in its place in a sorted sequence, unless it is there already. */
  function Insert(xs: seq<string>, x: string): seq<string> {
    if xs == [] then [x]
    else if x == xs[0] then xs
    else if Less(x, xs[0]) then [x] + xs
    else [xs[0]] + Insert(xs[1..], x)
  }

  lemma {:induction false} InsertSorted(xs: seq<string>, x: string)
    requires StrictlySorted(xs)
    ensures StrictlySorted(Insert(xs, x))
    ensures Elements(Insert(xs, x)) == Elements(xs) + {x}
  {
    if xs == [] {
    } else if x == xs[0] {
      assert x in xs;
    } else if Less(x, xs[0]) {
      forall j | 0 <= j < |xs| ensures Less(x, xs[j]) {
        if j > 0 { LessTransitive(x, xs[0], xs[j]); }
      }
      assert Elements([x] + xs) == Elements(xs) + {x};
    } else {
      LessTotal(x, xs[0]);
      InsertSorted(xs[1..], x);
      var tail := Insert(xs[1..], x);
      forall y | y in tail ensures Less(xs[0], y) {
        assert y in Elements(tail);
      }
      assert xs == [xs[0]] + xs[1..];
      assert Elements(xs) == {xs[0]} + Elements(xs[1..]);
      assert Elements([xs[0]] + tail) == {xs[0]} + Elements(tail);
    }
  }

  /** A set of strings has exactly one strictly sorted listing. */
  lemma {:induction false} SortedUnique(xs: seq<string>, ys: seq<string>)
    requires StrictlySorted(xs) && StrictlySorted(ys)
    requires Elements(xs) == Elements(ys)
    ensures xs == ys
  {
    assert xs == [] <==> ys == [] by {
      assert xs != [] ==> xs[0] in Elements(xs);
      assert ys != [] ==> ys[0] in Elements(ys);
    }
    if xs != [] {
      HeadIsLeast(xs, ys);
      HeadIsLeast(ys, xs);
      LessIrreflexive(xs[0]);
      if xs[0] != ys[0] { LessTransitive(xs[0], ys[0], xs[0]); }
      TailElements(xs);
      TailElements(ys);
      SortedUnique(xs[1..], ys[1..]);
      assert xs == [xs[0]] + xs[1..] && ys == [ys[0]] + ys[1..];
    }
  }

  lemma HeadIsLeast(xs: seq<string>, ys: seq<string>)
    requires StrictlySorted(xs) && xs != [] && ys != []
    requires Elements(xs) == Elements(ys)
    ensures xs[0] == ys[0] || Less(xs[0], ys[0])
  {
    assert ys[0] in Elements(xs);
  }

  lemma TailElements(xs: seq<string>)
    requires StrictlySorted(xs) && xs != []
    ensures StrictlySorted(xs[1..])
    ensures Elements(xs[1..]) == Elements(xs) - {xs[0]}
  {
    SortedDistinct(xs);
    forall x | x in Elements(xs) - {xs[0]} ensures x in xs[1..] {
      var i :| 0 <= i < |xs| && xs[i] == x;
      assert xs[1..][i - 1] == x;
    }
  }

  /** The strictly sorted listing of a set: `ORDER BY` under a bytewise collation. */
  ghost function Ordered(s: set<string>): (xs: seq<string>)
    ensures StrictlySorted(xs) && Elements(xs) == s
  {
    if s == {} then []
    else
      var x :| x in s;
      InsertSorted(Ordered(s - {x}), x);
      Insert(Ordered(s - {x}), x)
  }

  // ---- decimal numbers ----

  function Digit(n: nat): char
    requires n < 10
  {
    "0123456789"[n]
  }

  predicate IsDigit(c: char) {
    '0' <= c <= '9'
  }

  function Decimal(n: nat): string {
    if n < 10 then [Digit(n)] else Decimal(n / 10) + [Digit(n % 10)]
  }

  function DigitValue(c: char): nat
    requires IsDigit(c)
  {
    c as int - '0' as int
  }

  /** The number a string of digits denotes. */
  function Parse(s: string): nat
    requires forall c | c in s :: IsDigit(c)
  {
    if s == "" then 0 else 10 * Parse(s[..|s| - 1]) + DigitValue(s[|s| - 1])
  }

  /** Printing then parsing gives the number back, so printing is injective. */
  lemma {:induction false} ParseDecimal(n: nat)
    ensures Decimal(n) != ""
    ensures forall c | c in Decimal(n) :: IsDigit(c)
    ensures Parse(Decimal(n)) == n
  {
    if n < 10 {
      assert Decimal(n)[..0] == "";
    } else {
      ParseDecimal(n / 10);
      var s := Decimal(n);
      assert s[..|s| - 1] == Decimal(n / 10);
    }
  }
}

/**
 Scope strings: parsing, printing and the set operations every OAuth flow relies on
 (RFC 6749, section 3.3). A string is a sequence of characters ordered by code; `null` and
 `undefined` take the same branch as the empty string wherever the source tests truthiness.
 */
module Scopes {
  import opened Wrappers

  // ---------------------------------------------------------------------------------------
  // Characters, splitting and trimming, as JavaScript does them
  // ---------------------------------------------------------------------------------------

  /** The class `\s` of JavaScript regular expressions, which `trim` also removes. */
  predicate IsSpace(c: char) {
    || c == ' ' || '\t' <= c <= '\r' || c == '\U{00A0}' || c == '\U{1680}'
    || '\U{2000}' <= c <= '\U{200A}' || c == '\U{2028}' || c == '\U{2029}'
    || c == '\U{202F}' || c == '\U{205F}' || c == '\U{3000}' || c == '\U{FEFF}'
  }

  predicate IsSeparator(c: char) {
    IsSpace(c) || c == ','
  }

  predicate IsBlank(c: char) {
    c == ' '
  }

  /** `s.split(sep)` for a one-character separator: adjacent separators yield empty pieces. */
  function SplitEach(s: string, sep: char -> bool): (r: seq<string>)
    ensures |r| >= 1
  {
    if s == "" then [""] else PrependChar(s[0], SplitEach(s[1..], sep), sep)
  }

  /** A separator opens a new piece; any other character extends the first one. */
  function PrependChar(c: char, pieces: seq<string>, sep: char -> bool): seq<string>
    requires |pieces| >= 1
  {
    if sep(c) then [""] + pieces else [[c] + pieces[0]] + pieces[1..]
  }

  /** `s.split(/[sep]+/)`: a whole run of separators is one cut. */
  function SplitRuns(s: string, sep: char -> bool): (r: seq<string>)
    ensures |r| >= 1
  {
    if s == "" then [""]
    else
      var rest := SplitRuns(s[1..], sep);
      if sep(s[0]) then
        if |s| > 1 && sep(s[1]) then rest else [""] + rest
      else [[s[0]] + rest[0]] + rest[1..]
  }

  function TrimStart(s: string): string {
    if s != "" && IsSpace(s[0]) then TrimStart(s[1..]) else s
  }

  function TrimEnd(s: string): string {
    if s != "" && IsSpace(s[|s| - 1]) then TrimEnd(s[..|s| - 1]) else s
  }

  /** `filter(s => s.length > 0)` */
  function NonEmpty(pieces: seq<string>): seq<string> {
    if pieces == [] then []
    else if pieces[0] == "" then NonEmpty(pieces[1..])
    else [pieces[0]] + NonEmpty(pieces[1..])
  }

  // ---------------------------------------------------------------------------------------
  // Sorting and removal of duplicates
  // ---------------------------------------------------------------------------------------

  /** The order of JavaScript's default `sort` on strings. */
  predicate Before(a: string, b: string) {
    if b == "" then false
    else if a == "" then true
    else a[0] < b[0] || (a[0] == b[0] && Before(a[1..], b[1..]))
  }

  function Insert(x: string, xs: seq<string>): seq<string> {
    if xs != [] && Before(xs[0], x) then [xs[0]] + Insert(x, xs[1..]) else [x] + xs
  }

  function Sort(xs: seq<string>): seq<string> {
    if xs == [] then [] else Insert(xs[0], Sort(xs[1..]))
  }

  /** `Array.from(new Set(xs))` keeps first occurrences, in order. */
  function Distinct(xs: seq<string>): seq<string> {
    if xs == [] then []
    else
      var init := Distinct(xs[..|xs| - 1]);
      var last := xs[|xs| - 1];
      if last in init then init else init + [last]
  }

  function Elements(xs: seq<string>): set<string> {
    set x | x in xs
  }

  predicate NoDuplicates(xs: seq<string>) {
    forall i, j :: 0 <= i < j < |xs| ==> xs[i] != xs[j]
  }

  /** Strictly ascending: sorted and free of duplicates. */
  predicate Ascending(xs: seq<string>) {
    forall i, j :: 0 <= i < j < |xs| ==> Before(xs[i], xs[j])
  }

  // ---------------------------------------------------------------------------------------
  // The scope normalizer
  // ---------------------------------------------------------------------------------------

  function Parse(s: string): seq<string> {
    if s == "" then []
    else Sort(NonEmpty(Distinct(SplitRuns(TrimEnd(TrimStart(s)), IsSeparator))))
  }

  function Join(xs: seq<string>): string {
    if xs == [] then "" else if |xs| == 1 then xs[0] else xs[0] + " " + Join(xs[1..])
  }

  function Format(xs: seq<string>): string {
    Join(Sort(NonEmpty(Distinct(xs))))
  }

  function Normalize(s: string): string {
    Format(Parse(s))
  }

  function KeepIn(xs: seq<string>, allowed: set<string>): seq<string> {
    if xs == [] then []
    else if xs[0] in allowed then [xs[0]] + KeepIn(xs[1..], allowed)
    else KeepIn(xs[1..], allowed)
  }

  function Intersect(a: seq<string>, b: seq<string>): seq<string> {
    Sort(Distinct(KeepIn(a, Elements(b))))
  }

  function Union(a: seq<string>, b: seq<string>): seq<string> {
    Sort(NonEmpty(Distinct(a + b)))
  }

  datatype ScopeError = InvalidScope

  /** Requested scopes cut down to the client's; `None` asks for all of the client's. */
  function ResolveScopes(requested: Option<string>, clientAllowed: string): Result<seq<string>, ScopeError> {
    var allowed := Parse(clientAllowed);
    var wanted := if requested.Some? then Parse(requested.value) else allowed;
    var granted := Intersect(wanted, allowed);
    if |granted| == 0 then Err(InvalidScope) else Ok(granted)
  }

  /** `scope.split(" ").filter(Boolean)`: how the refresh-token service reads a scope string. */
  function PlainWords(s: string): seq<string> {
    NonEmpty(SplitEach(s, IsBlank))
  }

  /** Down-scoping at refresh: the granted string, or an error when the request asks for more. */
  function ValidateScopeSubset(requested: string, record: string): Result<string, ScopeError> {
    var wanted := Distinct(PlainWords(requested));
    if Elements(wanted) <= Elements(PlainWords(record)) then Ok(Join(wanted)) else Err(InvalidScope)
  }

  // ---------------------------------------------------------------------------------------
  // The string order is a strict total order
  // ---------------------------------------------------------------------------------------

  lemma {:induction false} BeforeTransitive(a: string, b: string, c: string)
    requires Before(a, b) && Before(b, c)
    ensures Before(a, c)
  {
    if a != "" && a[0] == b[0] && b[0] == c[0] {
      BeforeTransitive(a[1..], b[1..], c[1..]);
    }
  }

  lemma {:induction false} BeforeTotal(a: string, b: string)
    ensures a == b || Before(a, b) || Before(b, a)
  {
    if a != "" && b != "" && a[0] == b[0] {
      BeforeTotal(a[1..], b[1..]);
      assert a == [a[0]] + a[1..] && b == [b[0]] + b[1..];
    }
  }

  lemma {:induction false} BeforeIrreflexive(a: string)
    ensures !Before(a, a)
  {
    if a != "" { BeforeIrreflexive(a[1..]); }
  }

  /** Up to `i` the strings agree; there `a` ends, or has the character of lower code. */
  predicate LessAt(a: string, b: string, i: int) {
    && 0 <= i <= |a| && i < |b| && a[..i] == b[..i]
    && (i == |a| || a[i] < b[i])
  }

  /** The order is the lexicographic one. */
  lemma {:induction false} BeforeIff(a: string, b: string)
    ensures Before(a, b) <==> exists i :: LessAt(a, b, i)
  {
    if b != "" && a == "" {
      assert LessAt(a, b, 0);
    } else if b != "" {
      BeforeIff(a[1..], b[1..]);
      if a[0] < b[0] { assert LessAt(a, b, 0); }
      if a[0] == b[0] && Before(a[1..], b[1..]) {
        var i :| LessAt(a[1..], b[1..], i);
        assert a[..i + 1] == [a[0]] + a[1..][..i] && b[..i + 1] == [b[0]] + b[1..][..i];
        assert LessAt(a, b, i + 1);
      }
      if i :| LessAt(a, b, i) {
        if i > 0 {
          assert a[..i][0] == b[..i][0] && a[1..][..i - 1] == a[..i][1..] && b[1..][..i - 1] == b[..i][1..];
          assert LessAt(a[1..], b[1..], i - 1);
        }
      }
    }
  }

  /** A set of strings has only one strictly ascending listing. */
  lemma {:induction false} AscendingUnique(a: seq<string>, b: seq<string>)
    requires Ascending(a) && Ascending(b) && Elements(a) == Elements(b)
    ensures a == b
  {
    assert a != [] ==> a[0] in Elements(a);
    assert b != [] ==> b[0] in Elements(b);
    if a != [] && b != [] {
      var i :| 0 <= i < |b| && b[i] == a[0];
      var j :| 0 <= j < |a| && a[j] == b[0];
      if i > 0 && j > 0 {
        BeforeTransitive(a[0], b[0], a[0]);
        BeforeIrreflexive(a[0]);
      }
      assert a[0] == b[0];
      TailElements(a);
      TailElements(b);
      AscendingUnique(a[1..], b[1..]);
      assert a == [a[0]] + a[1..] && b == [b[0]] + b[1..];
    }
  }

  lemma TailElements(xs: seq<string>)
    requires xs != [] && Ascending(xs)
    ensures Ascending(xs[1..]) && Elements(xs[1..]) == Elements(xs) - {xs[0]}
  {
    BeforeIrreflexive(xs[0]);
    assert xs == [xs[0]] + xs[1..];
  }

  // ---------------------------------------------------------------------------------------
  // What sorting, filtering and removing duplicates do
  // ---------------------------------------------------------------------------------------

  lemma ConsElements(xs: seq<string>)
    requires xs != []
    ensures Elements(xs) == {xs[0]} + Elements(xs[1..])
  {}

  lemma {:induction false} InsertSorted(x: string, xs: seq<string>)
    requires Ascending(xs) && x !in xs
    ensures Ascending(Insert(x, xs)) && Elements(Insert(x, xs)) == Elements(xs) + {x}
  {
    if xs != [] && Before(xs[0], x) {
      TailElements(xs);
      InsertSorted(x, xs[1..]);
      var rest := Insert(x, xs[1..]);
      assert forall y :: y in rest ==> y in Elements(rest);
      forall y | y in rest ensures Before(xs[0], y) { assert y in Elements(rest); }
    } else if xs != [] {
      BeforeTotal(xs[0], x);
      forall i | 0 < i < |xs| ensures Before(x, xs[i]) { BeforeTransitive(x, xs[0], xs[i]); }
    }
  }

  lemma {:induction false} SortSorted(xs: seq<string>)
    requires NoDuplicates(xs)
    ensures Ascending(Sort(xs)) && Elements(Sort(xs)) == Elements(xs)
  {
    if xs != [] {
      SortSorted(xs[1..]);
      assert xs[0] !in Elements(xs[1..]);
      InsertSorted(xs[0], Sort(xs[1..]));
      assert xs == [xs[0]] + xs[1..];
    }
  }

  lemma {:induction false} DistinctElements(xs: seq<string>)
    ensures NoDuplicates(Distinct(xs)) && Elements(Distinct(xs)) == Elements(xs)
  {
    if xs != [] {
      var init := xs[..|xs| - 1];
      DistinctElements(init);
      assert xs == init + [xs[|xs| - 1]];
      assert forall y :: y in Distinct(init) <==> y in Elements(Distinct(init));
    }
  }

  lemma {:induction false} DistinctOfDistinct(xs: seq<string>)
    requires NoDuplicates(xs)
    ensures Distinct(xs) == xs
  {
    if xs != [] {
      DistinctOfDistinct(xs[..|xs| - 1]);
      assert xs == xs[..|xs| - 1] + [xs[|xs| - 1]];
    }
  }

  lemma {:induction false} NonEmptyElements(xs: seq<string>)
    ensures Elements(NonEmpty(xs)) == Elements(xs) - {""}
    ensures NoDuplicates(xs) ==> NoDuplicates(NonEmpty(xs))
  {
    if xs != [] {
      var rest := NonEmpty(xs[1..]);
      NonEmptyElements(xs[1..]);
      ConsElements(xs);
      if xs[0] != "" {
        ConsElements([xs[0]] + rest);
        assert NoDuplicates(xs) ==> xs[0] !in Elements(rest);
        assert forall y :: y in rest ==> y in Elements(rest);
      }
    }
  }

  lemma {:induction false} KeepInElements(xs: seq<string>, allowed: set<string>)
    ensures Elements(KeepIn(xs, allowed)) == Elements(xs) * allowed
  {
    if xs != [] {
      KeepInElements(xs[1..], allowed);
      ConsElements(xs);
      ConsElements([xs[0]] + KeepIn(xs[1..], allowed));
    }
  }

  /** The common pipeline: distinct, non-empty, sorted. */
  lemma CanonicalForm(xs: seq<string>)
    ensures var r := Sort(NonEmpty(Distinct(xs)));
      Ascending(r) && Elements(r) == Elements(xs) - {""}
  {
    DistinctElements(xs);
    NonEmptyElements(Distinct(xs));
    SortSorted(NonEmpty(Distinct(xs)));
  }

  lemma IntersectMeaning(a: seq<string>, b: seq<string>)
    ensures Ascending(Intersect(a, b)) && Elements(Intersect(a, b)) == Elements(a) * Elements(b)
  {
    KeepInElements(a, Elements(b));
    DistinctElements(KeepIn(a, Elements(b)));
    SortSorted(Distinct(KeepIn(a, Elements(b))));
  }

  lemma UnionMeaning(a: seq<string>, b: seq<string>)
    ensures Ascending(Union(a, b)) && Elements(Union(a, b)) == Elements(a) + Elements(b) - {""}
  {
    CanonicalForm(a + b);
    assert Elements(a + b) == Elements(a) + Elements(b);
  }

  // ---------------------------------------------------------------------------------------
  // Words of a string: the two splits and trimming agree once empty pieces are dropped
  // ---------------------------------------------------------------------------------------

  predicate Clean(w: string, sep: char -> bool) {
    w != "" && forall c :: c in w ==> !sep(c)
  }

  predicate AllClean(ws: seq<string>, sep: char -> bool) {
    forall w :: w in ws ==> Clean(w, sep)
  }

  function Words(s: string, sep: char -> bool): seq<string> {
    NonEmpty(SplitEach(s, sep))
  }

  lemma {:induction false} SplitsAgree(s: string, sep: char -> bool)
    ensures NonEmpty(SplitRuns(s, sep)) == NonEmpty(SplitEach(s, sep))
    ensures s != "" && !sep(s[0]) ==> SplitRuns(s, sep)[0] == SplitEach(s, sep)[0]
    ensures s != "" && !sep(s[0]) ==> NonEmpty(SplitRuns(s, sep)[1..]) == NonEmpty(SplitEach(s, sep)[1..])
    ensures s != "" && sep(s[0]) ==> SplitRuns(s, sep)[0] == ""
  {
    if s != "" {
      SplitsAgree(s[1..], sep);
      var runs, each := SplitRuns(s[1..], sep), SplitEach(s[1..], sep);
      if !sep(s[0]) {
        if s[1..] != "" && sep(s[1]) {
          assert runs == [""] + runs[1..] && each == [""] + each[1..];
        }
      }
    }
  }

  /** Dropping empty pieces of a concatenation. */
  lemma {:induction false} NonEmptyConcat(a: seq<string>, b: seq<string>)
    ensures NonEmpty(a + b) == NonEmpty(a) + NonEmpty(b)
  {
    if a == [] {
      assert a + b == b;
    } else {
      NonEmptyConcat(a[1..], b);
      var front, back := NonEmpty(a[1..]), NonEmpty(b);
      assert (a + b)[0] == a[0] && (a + b)[1..] == a[1..] + b;
      assert [a[0]] + (front + back) == [a[0]] + front + back;
    }
  }

  lemma PrependConcat(c: char, front: seq<string>, back: seq<string>, sep: char -> bool)
    requires |front| >= 1
    ensures PrependChar(c, front + back, sep) == PrependChar(c, front, sep) + back
  {}

  lemma {:induction false} SplitAtSeparator(a: string, c: char, b: string, sep: char -> bool)
    requires sep(c)
    ensures SplitEach(a + [c] + b, sep) == SplitEach(a, sep) + SplitEach(b, sep)
  {
    var s := a + [c] + b;
    if a == "" {
      assert s[1..] == b;
    } else {
      SplitAtSeparator(a[1..], c, b, sep);
      PrependConcat(a[0], SplitEach(a[1..], sep), SplitEach(b, sep), sep);
      assert s[1..] == a[1..] + [c] + b;
    }
  }

  lemma NonEmptySingle(w: string)
    ensures NonEmpty([w]) == if w == "" then [] else [w]
  {}

  lemma {:induction false} TrimKeepsWords(s: string)
    ensures Words(TrimStart(s), IsSeparator) == Words(s, IsSeparator)
    ensures Words(TrimEnd(s), IsSeparator) == Words(s, IsSeparator)
    decreases |s|
  {
    if s != "" && IsSpace(s[0]) {
      TrimKeepsWords(s[1..]);
    }
    if s != "" && IsSpace(s[|s| - 1]) {
      var init := s[..|s| - 1];
      TrimKeepsWords(init);
      SplitAtSeparator(init, s[|s| - 1], "", IsSeparator);
      assert init + [s[|s| - 1]] + "" == s;
      NonEmptyConcat(SplitEach(init, IsSeparator), [""]);
      NonEmptySingle("");
    }
  }

  lemma {:induction false} PiecesHaveNoSeparator(s: string, sep: char -> bool)
    ensures forall p, c :: p in SplitEach(s, sep) && c in p ==> !sep(c)
  {
    if s != "" {
      PiecesHaveNoSeparator(s[1..], sep);
      var rest := SplitEach(s[1..], sep);
      assert rest == [rest[0]] + rest[1..];
    }
  }

  lemma WordsClean(s: string, sep: char -> bool)
    ensures AllClean(Words(s, sep), sep)
  {
    PiecesHaveNoSeparator(s, sep);
    NonEmptyElements(SplitEach(s, sep));
    forall w | w in Words(s, sep) ensures Clean(w, sep) {
      assert w in Elements(Words(s, sep));
    }
  }

  lemma {:induction false} SplitClean(w: string, sep: char -> bool)
    requires forall c :: c in w ==> !sep(c)
    ensures SplitEach(w, sep) == [w]
  {
    if w != "" {
      SplitClean(w[1..], sep);
      assert [w[0]] + w[1..] == w;
    }
  }

  /** Printing words and splitting again gives the same words. */
  lemma {:induction false} WordsOfJoin(ws: seq<string>, sep: char -> bool)
    requires sep(' ') && AllClean(ws, sep)
    ensures Words(Join(ws), sep) == ws
  {
    if ws == [] {
      NonEmptySingle("");
    } else if |ws| == 1 {
      assert Clean(ws[0], sep);
      SplitClean(ws[0], sep);
      NonEmptySingle(ws[0]);
      assert ws == [ws[0]];
    } else {
      assert Clean(ws[0], sep);
      WordsOfJoin(ws[1..], sep);
      assert ws[0] + " " + Join(ws[1..]) == ws[0] + [' '] + Join(ws[1..]);
      SplitAtSeparator(ws[0], ' ', Join(ws[1..]), sep);
      SplitClean(ws[0], sep);
      NonEmptyConcat([ws[0]], SplitEach(Join(ws[1..]), sep));
      NonEmptySingle(ws[0]);
      assert [ws[0]] + ws[1..] == ws;
    }
  }

  // ---------------------------------------------------------------------------------------
  // Main results on the normalizer
  // ---------------------------------------------------------------------------------------

  /** Parsing yields the words between separators, sorted and without duplicates. */
  lemma ParseMeaning(s: string)
    ensures Ascending(Parse(s))
    ensures Elements(Parse(s)) == Elements(Words(s, IsSeparator))
    ensures AllClean(Parse(s), IsSeparator)
  {
    var trimmed := TrimEnd(TrimStart(s));
    TrimKeepsWords(s);
    TrimKeepsWords(TrimStart(s));
    SplitsAgree(trimmed, IsSeparator);
    CanonicalForm(SplitRuns(trimmed, IsSeparator));
    NonEmptyElements(SplitRuns(trimmed, IsSeparator));
    NonEmptyElements(SplitEach(trimmed, IsSeparator));
    WordsClean(s, IsSeparator);
    assert forall w :: w in Words(s, IsSeparator) <==> w in Elements(Words(s, IsSeparator));
    assert forall w :: w in Parse(s) <==> w in Elements(Parse(s));
  }

  predicate SeparatorFree(xs: seq<string>) {
    forall x, c :: x in xs && c in x ==> !IsSeparator(c)
  }

  /** Round trip: what was printed from separator-free scopes parses to their sorted set. */
  lemma ParseOfFormat(xs: seq<string>)
    requires SeparatorFree(xs)
    ensures Ascending(Parse(Format(xs)))
    ensures Elements(Parse(Format(xs))) == Elements(xs) - {""}
    ensures Elements(PlainWords(Format(xs))) == Elements(xs) - {""}
  {
    var canon := Sort(NonEmpty(Distinct(xs)));
    CanonicalForm(xs);
    forall w | w in canon ensures Clean(w, IsSeparator) && Clean(w, IsBlank) {
      assert w in Elements(canon);
    }
    WordsOfJoin(canon, IsSeparator);
    WordsOfJoin(canon, IsBlank);
    ParseMeaning(Format(xs));
  }

  lemma NormalizeIdempotent(s: string)
    ensures Normalize(Normalize(s)) == Normalize(s)
    ensures Parse(Normalize(s)) == Parse(s)
  {
    ParseMeaning(s);
    ParseOfFormat(Parse(s));
    assert forall w :: w in Parse(s) ==> Clean(w, IsSeparator);
    assert Elements(Parse(s)) - {""} == Elements(Parse(s));
    AscendingUnique(Parse(Normalize(s)), Parse(s));
  }

  /** The codes of the characters that separate scopes: white space, line ends and the comma. */
  const SEPARATORS: set<int> :=
    {9, 10, 11, 12, 13, 32, 44, 0xA0, 0x1680, 0x2000, 0x2001, 0x2002, 0x2003, 0x2004, 0x2005, 0x2006, 0x2007, 0x2008,
     0x2009, 0x200A, 0x2028, 0x2029, 0x202F, 0x205F, 0x3000, 0xFEFF}

  lemma SeparatorCodes(c: char)
    ensures IsSeparator(c) <==> c as int in SEPARATORS
  {}

  lemma ElementsConcat(a: seq<string>, b: seq<string>)
    ensures Elements(a + b) == Elements(a) + Elements(b)
  {}

  /** The character cuts every string it stands in: the scopes are those on its two sides. */
  ghost predicate Cuts(c: char) {
    forall a, b :: Elements(Parse(a + [c] + b)) == Elements(Parse(a)) + Elements(Parse(b))
  }

  /** Exactly the separators cut. */
  lemma CutsIff(c: char)
    ensures Cuts(c) <==> c as int in SEPARATORS
  {
    SeparatorCodes(c);
    if IsSeparator(c) {
      hide Parse;
      forall a, b ensures Elements(Parse(a + [c] + b)) == Elements(Parse(a)) + Elements(Parse(b)) {
        ParseMeaning(a + [c] + b);
        ParseMeaning(a);
        ParseMeaning(b);
        SplitAtSeparator(a, c, b, IsSeparator);
        NonEmptyConcat(SplitEach(a, IsSeparator), SplitEach(b, IsSeparator));
        ElementsConcat(Words(a, IsSeparator), Words(b, IsSeparator));
      }
    } else {
      SeparatorCodes('x');
      SeparatorCodes('y');
      hide Parse, IsSeparator;
      OneScope("x" + [c] + "y");
      OneScope("x");
      OneScope("y");
      assert |"x" + [c] + "y"| == 3;
      assert "x" + [c] + "y" in Elements(Parse("x" + [c] + "y"));
      assert "x" + [c] + "y" !in Elements(Parse("x")) + Elements(Parse("y"));
    }
  }

  /** A string without separators is one scope, unless it is empty. */
  lemma OneScope(w: string)
    requires forall c :: c in w ==> !IsSeparator(c)
    ensures Parse(w) == if w == "" then [] else [w]
  {
    if w != "" {
      ParseMeaning(w);
      SplitClean(w, IsSeparator);
      NonEmptySingle(w);
      AscendingUnique(Parse(w), [w]);
    }
  }

  /** Only the blank cuts what the refresh-token service reads, and it always does. */
  lemma PlainCutsIff(c: char)
    ensures (forall a, b :: PlainWords(a + [c] + b) == PlainWords(a) + PlainWords(b)) <==> c == ' '
  {
    if c == ' ' {
      forall a, b ensures PlainWords(a + [c] + b) == PlainWords(a) + PlainWords(b) {
        SplitAtSeparator(a, c, b, IsBlank);
        NonEmptyConcat(SplitEach(a, IsBlank), SplitEach(b, IsBlank));
      }
    } else {
      PlainWord("x" + [c] + "y");
      PlainWord("x");
      PlainWord("y");
      assert |PlainWords("x" + [c] + "y")| == 1 && |PlainWords("x") + PlainWords("y")| == 2;
    }
  }

  lemma PlainWord(w: string)
    requires forall c :: c in w ==> c != ' '
    ensures PlainWords(w) == if w == "" then [] else [w]
  {
    SplitClean(w, IsBlank);
    NonEmptySingle(w);
  }

  /** Printing puts one blank between scopes. */
  lemma {:induction false} JoinConcat(a: seq<string>, b: seq<string>)
    requires a != [] && b != []
    ensures Join(a + b) == Join(a) + " " + Join(b)
    decreases |a|
  {
    assert (a + b)[0] == a[0] && (a + b)[1..] == a[1..] + b;
    if |a| > 1 {
      JoinConcat(a[1..], b);
      assert a[0] + " " + (Join(a[1..]) + " " + Join(b)) == a[0] + " " + Join(a[1..]) + " " + Join(b);
    }
  }

  /** Whatever the input order and its repetitions, its scopes are printed in ascending order. */
  lemma FormatMeaning(xs: seq<string>, ws: seq<string>)
    requires Ascending(ws) && Elements(ws) == Elements(xs) - {""}
    ensures Format(xs) == Join(ws)
  {
    CanonicalForm(xs);
    AscendingUnique(Sort(NonEmpty(Distinct(xs))), ws);
  }

  /** The granted scopes are exactly requested ∩ allowed; the call fails iff nothing is left. */
  lemma ResolveExact(requested: Option<string>, allowed: string)
    ensures var wanted := Elements(Parse(if requested.Some? then requested.value else allowed));
      var common := wanted * Elements(Parse(allowed));
      match ResolveScopes(requested, allowed)
      case Err(_) => common == {}
      case Ok(granted) => common != {} && Ascending(granted) && Elements(granted) == common
                          && AllClean(granted, IsSeparator)
  {
    var wanted := Parse(if requested.Some? then requested.value else allowed);
    var granted := Intersect(wanted, Parse(allowed));
    IntersectMeaning(wanted, Parse(allowed));
    ParseMeaning(allowed);
    if granted != [] { assert granted[0] in Elements(granted); }
    forall w | w in granted ensures Clean(w, IsSeparator) {
      assert w in Elements(granted);
      assert w in Elements(Parse(allowed));
    }
  }

  /** Resolving the printed result again changes nothing: the authorize endpoint does so. */
  lemma ResolveIdempotent(requested: Option<string>, allowed: string)
    requires ResolveScopes(requested, allowed).Ok?
    ensures ResolveScopes(Some(Join(ResolveScopes(requested, allowed).value)), allowed)
         == ResolveScopes(requested, allowed)
  {
    var granted := ResolveScopes(requested, allowed).value;
    ResolveExact(requested, allowed);
    WordsOfJoin(granted, IsSeparator);
    ParseMeaning(Join(granted));
    ResolveExact(Some(Join(granted)), allowed);
    assert granted[0] in Elements(granted);
    var again := ResolveScopes(Some(Join(granted)), allowed);
    assert Elements(granted) * Elements(Parse(allowed)) == Elements(granted);
    AscendingUnique(again.value, granted);
  }

  // ---------------------------------------------------------------------------------------
  // Stored scope strings read the same way everywhere
  // ---------------------------------------------------------------------------------------

  /** The normalizer and the plain space split see the same scopes in `s`. */
  predicate ReadsBack(s: string) {
    Elements(Parse(s)) == Elements(PlainWords(s))
  }

  lemma JoinReadsBack(ws: seq<string>)
    requires AllClean(ws, IsSeparator)
    ensures ReadsBack(Join(ws)) && Elements(PlainWords(Join(ws))) == Elements(ws)
  {
    forall w | w in ws ensures Clean(w, IsBlank) { assert Clean(w, IsSeparator); }
    WordsOfJoin(ws, IsSeparator);
    WordsOfJoin(ws, IsBlank);
    ParseMeaning(Join(ws));
  }

  /** Down-scoping grants exactly the requested set, never more than the record, and the
      stored result reads back whenever the record did; it fails iff more was requested. */
  lemma ValidateScopeSubsetExact(requested: string, record: string)
    ensures match ValidateScopeSubset(requested, record)
      case Err(_) => !(Elements(PlainWords(requested)) <= Elements(PlainWords(record)))
      case Ok(granted) =>
        && Elements(PlainWords(granted)) == Elements(PlainWords(requested))
        && Elements(PlainWords(granted)) <= Elements(PlainWords(record))
        && NoDuplicates(PlainWords(granted))
        && (NoDuplicates(PlainWords(requested)) ==> PlainWords(granted) == PlainWords(requested))
        && (ReadsBack(record) ==> ReadsBack(granted))
  {
    var wanted := Distinct(PlainWords(requested));
    DistinctElements(PlainWords(requested));
    WordsClean(requested, IsBlank);
    forall w | w in wanted ensures Clean(w, IsBlank) {
      assert w in Elements(wanted);
      assert w in PlainWords(requested);
    }
    WordsOfJoin(wanted, IsBlank);
    if NoDuplicates(PlainWords(requested)) { DistinctOfDistinct(PlainWords(requested)); }
    if Elements(wanted) <= Elements(PlainWords(record)) && ReadsBack(record) {
      ParseMeaning(record);
      forall w | w in wanted ensures Clean(w, IsSeparator) {
        assert w in Elements(wanted);
        assert w in Elements(Parse(record));
      }
      JoinReadsBack(wanted);
    }
  }
}

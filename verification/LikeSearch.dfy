/**
 * app/services/media_service.py: `_escape_like` and `search`. LIKE is taken from
 * section 8.5 of ISO/IEC 9075-2: `%` matches any string, `_` one character, and
 * the escape character makes a following `%`, `_` or escape character literal.
 */
module LikeSearch {
  import opened Wrappers

  const ESCAPE := '\\'

  /** `s.replace(old, new)` for a one-character `old`. */
  function Replace(s: string, old_: char, new_: string): string {
    if s == "" then ""
    else (if s[0] == old_ then new_ else [s[0]]) + Replace(s[1..], old_, new_)
  }

  /** The three replaces, in the order of the source. */
  function EscapeLike(term: string): string {
    Replace(Replace(Replace(term, ESCAPE, [ESCAPE, ESCAPE]), '%', [ESCAPE, '%']), '_', [ESCAPE, '_'])
  }

  /** Escaping character by character. */
  function EscapeEach(term: string): string {
    if term == "" then ""
    else (if term[0] in {ESCAPE, '%', '_'} then [ESCAPE, term[0]] else [term[0]]) + EscapeEach(term[1..])
  }

  lemma {:induction false} ReplaceConcat(s: string, t: string, o: char, n: string)
    ensures Replace(s + t, o, n) == Replace(s, o, n) + Replace(t, o, n)
  {
    if s == "" {
      assert s + t == t;
    } else {
      ReplaceConcat(s[1..], t, o, n);
      assert (s + t)[1..] == s[1..] + t && (s + t)[0] == s[0];
      var first := if s[0] == o then n else [s[0]];
      assert Replace(s + t, o, n) == first + Replace(s[1..] + t, o, n);
      assert first + (Replace(s[1..], o, n) + Replace(t, o, n)) == first + Replace(s[1..], o, n) + Replace(t, o, n);
    }
  }

  lemma ReplaceUpTo2(s: string, o: char, n: string)
    requires |s| <= 2
    ensures |s| == 1 ==> Replace(s, o, n) == if s[0] == o then n else s
    ensures |s| == 2 ==> Replace(s, o, n) == (if s[0] == o then n else [s[0]]) + (if s[1] == o then n else [s[1]])
  {
    if |s| == 2 {
      ReplaceUpTo2(s[1..], o, n);
    }
  }

  /** The order of the replaces is right: together they escape each character once. */
  lemma {:induction false} ReplacesEscapeEach(term: string)
    ensures EscapeLike(term) == EscapeEach(term)
  {
    if term != "" {
      var c, rest := term[0], term[1..];
      var c1 := if c == ESCAPE then [ESCAPE, ESCAPE] else [c];
      var c2 := if c == '%' then [ESCAPE, '%'] else c1;
      var c3 := if c == '_' then [ESCAPE, '_'] else c2;
      var r1 := Replace(rest, ESCAPE, [ESCAPE, ESCAPE]);
      var r2 := Replace(r1, '%', [ESCAPE, '%']);
      ReplaceConcat(c1, r1, '%', [ESCAPE, '%']);
      ReplaceUpTo2(c1, '%', [ESCAPE, '%']);
      assert Replace(c1, '%', [ESCAPE, '%']) == c2;
      ReplaceConcat(c2, r2, '_', [ESCAPE, '_']);
      ReplaceUpTo2(c2, '_', [ESCAPE, '_']);
      assert Replace(c2, '_', [ESCAPE, '_']) == c3;
      assert Replace(term, ESCAPE, [ESCAPE, ESCAPE]) == c1 + r1;
      assert EscapeLike(term) == c3 + EscapeLike(rest);
      ReplacesEscapeEach(rest);
    }
  }

  // ---- LIKE -------------------------------------------------------------------

  datatype Token = AnyString | AnyChar | Literal(c: char)

  /** The pattern's tokens, or None when an escape is not followed by a character it may escape. */
  function Tokens(pattern: string): Option<seq<Token>> {
    if pattern == "" then Some([])
    else if pattern[0] == ESCAPE then
      if |pattern| >= 2 && pattern[1] in {ESCAPE, '%', '_'} then
        match Tokens(pattern[2..])
        case None => None
        case Some(ts) => Some([Literal(pattern[1])] + ts)
      else None
    else
      match Tokens(pattern[1..])
      case None => None
      case Some(ts) =>
        Some([if pattern[0] == '%' then AnyString else if pattern[0] == '_' then AnyChar else Literal(pattern[0])] + ts)
  }

  /** Characters are compared after case folding, which is the identity for a plain LIKE. */
  predicate Matches(ts: seq<Token>, text: string, fold: char -> char)
    decreases |ts| + |text|
  {
    if ts == [] then text == ""
    else match ts[0]
      case AnyString => Matches(ts[1..], text, fold) || (text != "" && Matches(ts, text[1..], fold))
      case AnyChar => text != "" && Matches(ts[1..], text[1..], fold)
      case Literal(c) => text != "" && fold(text[0]) == fold(c) && Matches(ts[1..], text[1..], fold)
  }

  datatype Answer = NoMatch | Match | InvalidEscape

  function Like(text: string, pattern: string, fold: char -> char): Answer {
    match Tokens(pattern)
    case None => InvalidEscape
    case Some(ts) => if Matches(ts, text, fold) then Match else NoMatch
  }

  /** `%` matches any string: it stands for some suffix of the text. */
  lemma {:induction false} AnyStringMatches(ts: seq<Token>, text: string, fold: char -> char)
    requires ts != [] && ts[0] == AnyString
    ensures Matches(ts, text, fold) <==> exists i :: 0 <= i <= |text| && Matches(ts[1..], text[i..], fold)
    decreases |text|
  {
    assert text[0..] == text;
    if text != "" {
      AnyStringMatches(ts, text[1..], fold);
      if Matches(ts, text[1..], fold) {
        var i :| 0 <= i <= |text[1..]| && Matches(ts[1..], text[1..][i..], fold);
        assert text[1..][i..] == text[i + 1..];
      }
      if exists i :: 1 <= i <= |text| && Matches(ts[1..], text[i..], fold) {
        var i :| 1 <= i <= |text| && Matches(ts[1..], text[i..], fold);
        assert text[1..][i - 1..] == text[i..];
      }
    }
  }

  function Literals(q: string): seq<Token> {
    seq(|q|, i requires 0 <= i < |q| => Literal(q[i]))
  }

  lemma {:induction false} TokensConcat(p: string, r: string)
    requires Tokens(p).Some? && Tokens(r).Some?
    ensures Tokens(p + r) == Some(Tokens(p).value + Tokens(r).value)
    decreases |p|
  {
    if p == "" {
      assert p + r == r && Tokens(p).value + Tokens(r).value == Tokens(r).value;
    } else if p[0] == ESCAPE {
      assert (p + r)[2..] == p[2..] + r && (p + r)[0] == p[0] && (p + r)[1] == p[1];
      TokensConcat(p[2..], r);
      assert Tokens(p).value == [Literal(p[1])] + Tokens(p[2..]).value;
      assert Tokens(p).value + Tokens(r).value == [Literal(p[1])] + (Tokens(p[2..]).value + Tokens(r).value);
    } else {
      assert (p + r)[1..] == p[1..] + r && (p + r)[0] == p[0];
      TokensConcat(p[1..], r);
      var t := Tokens(p).value[0];
      assert Tokens(p).value == [t] + Tokens(p[1..]).value;
      assert Tokens(p).value + Tokens(r).value == [t] + (Tokens(p[1..]).value + Tokens(r).value);
    }
  }

  lemma OneToken(c: char)
    ensures c !in {ESCAPE, '%', '_'} ==> Tokens([c]) == Some([Literal(c)])
    ensures c in {ESCAPE, '%', '_'} ==> Tokens([ESCAPE, c]) == Some([Literal(c)])
    ensures Tokens("%") == Some([AnyString])
  {
    assert [c][1..] == "" && [ESCAPE, c][2..] == "" && "%"[1..] == "";
    assert forall t: Token :: [t] + [] == [t];
  }

  /** An escaped term is always a well-formed pattern of literal characters. */
  lemma {:induction false} EscapedTokens(q: string)
    ensures Tokens(EscapeEach(q)) == Some(Literals(q))
  {
    if q == "" {
      assert Literals(q) == [];
    } else {
      var head := if q[0] in {ESCAPE, '%', '_'} then [ESCAPE, q[0]] else [q[0]];
      EscapedTokens(q[1..]);
      OneToken(q[0]);
      TokensConcat(head, EscapeEach(q[1..]));
      assert Literals(q) == [Literal(q[0])] + Literals(q[1..]);
    }
  }

  function Fold(s: string, fold: char -> char): string {
    seq(|s|, i requires 0 <= i < |s| => fold(s[i]))
  }

  /** `q` occurs in `text`, up to case folding. */
  ghost predicate Contains(text: string, q: string, fold: char -> char) {
    exists i :: OccursAt(text, q, i, fold)
  }

  predicate OccursAt(text: string, q: string, i: int, fold: char -> char) {
    0 <= i <= |text| - |q| && Fold(text[i..i + |q|], fold) == Fold(q, fold)
  }

  lemma OccursStep(text: string, q: string, fold: char -> char)
    requires q != "" && text != ""
    ensures OccursAt(text, q, 0, fold) <==> fold(text[0]) == fold(q[0]) && OccursAt(text[1..], q[1..], 0, fold)
  {
    if |q| <= |text| {
      var head := text[0..|q|];
      assert head[1..] == text[1..][0..|q[1..]|];
      assert Fold(head, fold) == [fold(text[0])] + Fold(head[1..], fold);
      assert Fold(q, fold) == [fold(q[0])] + Fold(q[1..], fold);
      ConsEqual(fold(text[0]), Fold(head[1..], fold), fold(q[0]), Fold(q[1..], fold));
    }
  }

  lemma ConsEqual(a: char, s: string, b: char, t: string)
    ensures [a] + s == [b] + t <==> a == b && s == t
  {
    assert ([a] + s)[1..] == s && ([b] + t)[1..] == t;
    assert ([a] + s)[0] == a && ([b] + t)[0] == b;
  }

  lemma {:induction false} LiteralsThenAny(q: string, text: string, fold: char -> char)
    ensures Matches(Literals(q) + [AnyString], text, fold) <==> OccursAt(text, q, 0, fold)
    decreases |q|
  {
    var ts := Literals(q) + [AnyString];
    if q == "" {
      assert ts == [AnyString] && ts[1..] == [];
      AnyStringMatches(ts, text, fold);
      assert text[|text|..] == "" && Matches(ts[1..], text[|text|..], fold);
      assert Fold(text[0..0], fold) == Fold(q, fold);
    } else {
      assert ts[0] == Literal(q[0]) && ts[1..] == Literals(q[1..]) + [AnyString];
      if text != "" {
        LiteralsThenAny(q[1..], text[1..], fold);
        OccursStep(text, q, fold);
      }
    }
  }

  lemma OccursInSuffix(text: string, q: string, i: int, fold: char -> char)
    requires 0 <= i <= |text|
    ensures OccursAt(text[i..], q, 0, fold) <==> OccursAt(text, q, i, fold)
  {
    if i + |q| <= |text| {
      assert text[i..][0..|q|] == text[i..i + |q|];
    }
  }

  /** The pattern the search builds from a term. */
  function SearchPattern(q: string): string {
    "%" + EscapeLike(q) + "%"
  }

  /** The search pattern finds exactly the texts that contain the term literally. */
  lemma SearchIsSubstring(q: string, text: string, fold: char -> char)
    ensures Like(text, SearchPattern(q), fold) == if Contains(text, q, fold) then Match else NoMatch
  {
    ReplacesEscapeEach(q);
    EscapedTokens(q);
    OneToken('%');
    TokensConcat("%", EscapeEach(q));
    TokensConcat("%" + EscapeEach(q), "%");
    var tail := Literals(q) + [AnyString];
    var ts := [AnyString] + Literals(q) + [AnyString];
    assert Tokens(SearchPattern(q)) == Some(ts) && ts[1..] == tail;
    AnyStringMatches(ts, text, fold);
    forall i | 0 <= i <= |text|
      ensures Matches(tail, text[i..], fold) <==> OccursAt(text, q, i, fold)
    {
      LiteralsThenAny(q, text[i..], fold);
      OccursInSuffix(text, q, i, fold);
    }
  }

  // ---- the search ---------------------------------------------------------------

  const MAX_SEARCH_LIMIT := 50

  datatype MediaRow = MediaRow(
    code: string, title: Option<string>, caption: Option<string>, fileNames: seq<string>,
    owner: Option<int>, approved: bool, active: bool)

  predicate Hit(text: string, pattern: string, fold: char -> char) {
    Like(text, pattern, fold) == Match
  }

  /** The WHERE clause of the search. */
  predicate Selected(m: MediaRow, pattern: string, fold: char -> char, owner: Option<int>, approvedOnly: bool) {
    && (|| Hit(m.code, pattern, fold)
        || (m.title.Some? && Hit(m.title.value, pattern, fold))
        || (m.caption.Some? && Hit(m.caption.value, pattern, fold))
        || (exists i :: 0 <= i < |m.fileNames| && Hit(m.fileNames[i], pattern, fold)))
    && (owner.Some? ==> m.owner == owner)
    && (approvedOnly ==> m.approved && m.active)
  }

  /** What Python's `str.strip` takes off. */
  predicate IsSpace(c: char) {
    || '\t' <= c <= '\r'
    || '\U{1c}' <= c <= ' '
    || '\U{2000}' <= c <= '\U{200a}'
    || c in {'\U{85}', '\U{a0}', '\U{1680}', '\U{2028}', '\U{2029}', '\U{202f}', '\U{205f}', '\U{3000}'}
  }

  function Strip(s: string): string
    decreases |s|
  {
    if s != "" && IsSpace(s[0]) then Strip(s[1..])
    else if s != "" && IsSpace(s[|s| - 1]) then Strip(s[..|s| - 1])
    else s
  }

  /** The selected rows, newest (last) first. */
  function Newest(rows: seq<MediaRow>, pattern: string, fold: char -> char, owner: Option<int>,
                  approvedOnly: bool): seq<MediaRow> {
    if rows == [] then []
    else
      var last := rows[|rows| - 1];
      (if Selected(last, pattern, fold, owner, approvedOnly) then [last] else [])
      + Newest(rows[..|rows| - 1], pattern, fold, owner, approvedOnly)
  }

  /** One page of the search and the number of all hits. `rows` are in id order. */
  function Search(rows: seq<MediaRow>, query: string, fold: char -> char, owner: Option<int>, approvedOnly: bool,
                  limit: int, offset: nat): (seq<MediaRow>, nat)
  {
    var q := Strip(query);
    if q == "" then ([], 0)
    else
      var hits := Newest(rows, SearchPattern(q), fold, owner, approvedOnly);
      (Take(Drop(hits, offset), Max(1, Min(limit, MAX_SEARCH_LIMIT))), |hits|)
  }

  ghost predicate Wanted(m: MediaRow, q: string, fold: char -> char, owner: Option<int>, approvedOnly: bool) {
    && (|| Contains(m.code, q, fold)
        || (m.title.Some? && Contains(m.title.value, q, fold))
        || (m.caption.Some? && Contains(m.caption.value, q, fold))
        || (exists i :: 0 <= i < |m.fileNames| && Contains(m.fileNames[i], q, fold)))
    && (owner.Some? ==> m.owner == owner)
    && (approvedOnly ==> m.approved && m.active)
  }

  lemma SelectedIsWanted(m: MediaRow, q: string, fold: char -> char, owner: Option<int>, approvedOnly: bool)
    ensures Selected(m, SearchPattern(q), fold, owner, approvedOnly) <==> Wanted(m, q, fold, owner, approvedOnly)
  {
    SearchIsSubstring(q, m.code, fold);
    if m.title.Some? { SearchIsSubstring(q, m.title.value, fold); }
    if m.caption.Some? { SearchIsSubstring(q, m.caption.value, fold); }
    forall i | 0 <= i < |m.fileNames|
      ensures Hit(m.fileNames[i], SearchPattern(q), fold) <==> Contains(m.fileNames[i], q, fold)
    {
      SearchIsSubstring(q, m.fileNames[i], fold);
    }
  }

  ghost function WantedRows(rows: seq<MediaRow>, q: string, fold: char -> char, owner: Option<int>,
                            approvedOnly: bool): multiset<MediaRow> {
    if rows == [] then multiset{}
    else
      var last := rows[|rows| - 1];
      WantedRows(rows[..|rows| - 1], q, fold, owner, approvedOnly)
      + if Wanted(last, q, fold, owner, approvedOnly) then multiset{last} else multiset{}
  }

  lemma {:induction false} NewestIsWanted(rows: seq<MediaRow>, q: string, fold: char -> char, owner: Option<int>,
                                          approvedOnly: bool)
    ensures multiset(Newest(rows, SearchPattern(q), fold, owner, approvedOnly)) ==
              WantedRows(rows, q, fold, owner, approvedOnly)
  {
    if rows != [] {
      NewestIsWanted(rows[..|rows| - 1], q, fold, owner, approvedOnly);
      SelectedIsWanted(rows[|rows| - 1], q, fold, owner, approvedOnly);
    }
  }

  lemma NoneNewest(pattern: string, fold: char -> char, owner: Option<int>, approvedOnly: bool)
    ensures Newest([], pattern, fold, owner, approvedOnly) == []
  {
  }

  lemma NewestSnoc(rows: seq<MediaRow>, m: MediaRow, pattern: string, fold: char -> char, owner: Option<int>,
                   approvedOnly: bool)
    ensures Newest(rows + [m], pattern, fold, owner, approvedOnly) ==
            (if Selected(m, pattern, fold, owner, approvedOnly) then [m] else [])
            + Newest(rows, pattern, fold, owner, approvedOnly)
  {
    hide Selected;
    assert (rows + [m])[..|rows|] == rows;
  }

  lemma {:induction false} NewestConcat(a: seq<MediaRow>, b: seq<MediaRow>, pattern: string, fold: char -> char,
                                        owner: Option<int>, approvedOnly: bool)
    ensures Newest(a + b, pattern, fold, owner, approvedOnly) ==
            Newest(b, pattern, fold, owner, approvedOnly) + Newest(a, pattern, fold, owner, approvedOnly)
    decreases |b|
  {
    hide Selected, Newest;
    if b == [] {
      assert a + b == a;
      NoneNewest(pattern, fold, owner, approvedOnly);
    } else {
      var front, m := b[..|b| - 1], b[|b| - 1];
      assert a + b == a + front + [m] && b == front + [m];
      NewestConcat(a, front, pattern, fold, owner, approvedOnly);
      NewestSnoc(a + front, m, pattern, fold, owner, approvedOnly);
      NewestSnoc(front, m, pattern, fold, owner, approvedOnly);
    }
  }

  /** The hits come newest first: before a hit stand exactly the hits that were stored after it. */
  lemma NewestFirst(rows: seq<MediaRow>, k: nat, pattern: string, fold: char -> char, owner: Option<int>,
                    approvedOnly: bool)
    requires k < |rows| && Selected(rows[k], pattern, fold, owner, approvedOnly)
    ensures var later := Newest(rows[k + 1..], pattern, fold, owner, approvedOnly);
            later + [rows[k]] + Newest(rows[..k], pattern, fold, owner, approvedOnly) ==
            Newest(rows, pattern, fold, owner, approvedOnly)
  {
    hide Selected, Newest;
    var upTo := rows[..k + 1];
    assert rows == upTo + rows[k + 1..] && upTo == rows[..k] + [rows[k]];
    NewestConcat(upTo, rows[k + 1..], pattern, fold, owner, approvedOnly);
    NewestSnoc(rows[..k], rows[k], pattern, fold, owner, approvedOnly);
  }

  /** `t` is `s` from `i` to `j`, and everything outside is space. */
  ghost predicate Trims(s: string, i: nat, j: nat, t: string) {
    && i <= j <= |s| && t == s[i..j]
    && (forall k :: 0 <= k < i ==> IsSpace(s[k])) && (forall k :: j <= k < |s| ==> IsSpace(s[k]))
  }

  lemma TrimsMore(s: string, i: nat, j: nat, t: string)
    requires s != ""
    ensures IsSpace(s[0]) && Trims(s[1..], i, j, t) ==> Trims(s, i + 1, j + 1, t)
    ensures IsSpace(s[|s| - 1]) && Trims(s[..|s| - 1], i, j, t) ==> Trims(s, i, j, t)
  {
    hide IsSpace;
    var rest, front := s[1..], s[..|s| - 1];
    assert forall k :: 1 <= k < |s| ==> s[k] == rest[k - 1];
    assert forall k :: 0 <= k < |front| ==> s[k] == front[k];
    if Trims(rest, i, j, t) {
      assert s[i + 1..j + 1] == rest[i..j];
    }
    if Trims(front, i, j, t) {
      assert s[i..j] == front[i..j];
    }
  }

  /** What is stripped off is space, and what is left neither starts nor ends with it. */
  lemma {:induction false} StripIs(s: string)
    ensures exists i: nat, j: nat :: Trims(s, i, j, Strip(s))
    ensures Strip(s) != "" ==> !IsSpace(Strip(s)[0]) && !IsSpace(Strip(s)[|Strip(s)| - 1])
    decreases |s|
  {
    hide IsSpace;
    if s != "" && IsSpace(s[0]) {
      StripIs(s[1..]);
      var i: nat, j: nat :| Trims(s[1..], i, j, Strip(s[1..]));
      TrimsMore(s, i, j, Strip(s[1..]));
      assert Trims(s, i + 1, j + 1, Strip(s));
    } else if s != "" && IsSpace(s[|s| - 1]) {
      StripIs(s[..|s| - 1]);
      var i: nat, j: nat :| Trims(s[..|s| - 1], i, j, Strip(s[..|s| - 1]));
      TrimsMore(s, i, j, Strip(s[..|s| - 1]));
      assert Trims(s, i, j, Strip(s));
    } else {
      assert s[0..|s|] == s && Strip(s) == s;
      assert Trims(s, 0, |s|, Strip(s));
    }
  }

  /**
   * One page: the hits from `offset` on, in their order, as many as asked for but at
   * least 1 and at most 50; and always the number of all the hits. A blank query finds nothing.
   */
  lemma PageMeans(rows: seq<MediaRow>, query: string, fold: char -> char, owner: Option<int>, approvedOnly: bool,
                  limit: int, offset: nat)
    ensures var (page, count) := Search(rows, query, fold, owner, approvedOnly, limit, offset);
            var hits := Newest(rows, SearchPattern(Strip(query)), fold, owner, approvedOnly);
            var size := if limit < 1 then 1 else if limit > 50 then 50 else limit;
            if Strip(query) == "" then page == [] && count == 0
            else
              && count == |hits|
              && |page| == (if |hits| <= offset then 0 else if |hits| - offset < size then |hits| - offset else size)
              && forall k :: 0 <= k < |page| ==> page[k] == hits[offset + k]
  {
    hide Newest, Strip, SearchPattern;
  }

  /** All the pages of one size, in order. */
  function Pages(rows: seq<MediaRow>, query: string, fold: char -> char, owner: Option<int>, approvedOnly: bool,
                 limit: int, offset: nat, n: nat): seq<MediaRow>
    decreases n
  {
    if n == 0 then []
    else Search(rows, query, fold, owner, approvedOnly, limit, offset).0
         + Pages(rows, query, fold, owner, approvedOnly, limit, offset + Max(1, Min(limit, MAX_SEARCH_LIMIT)), n - 1)
  }

  lemma {:induction false} PagesAreHits(rows: seq<MediaRow>, query: string, fold: char -> char, owner: Option<int>,
                                        approvedOnly: bool,
                                        limit: int, offset: nat, n: nat)
    requires Strip(query) != ""
    ensures var size := Max(1, Min(limit, MAX_SEARCH_LIMIT));
            Pages(rows, query, fold, owner, approvedOnly, limit, offset, n) ==
            Take(Drop(Newest(rows, SearchPattern(Strip(query)), fold, owner, approvedOnly), offset), n * size)
    decreases n
  {
    hide Newest, Strip, SearchPattern, Take, Drop;
    var size := Max(1, Min(limit, MAX_SEARCH_LIMIT));
    var hits := Newest(rows, SearchPattern(Strip(query)), fold, owner, approvedOnly);
    if n > 0 {
      PagesAreHits(rows, query, fold, owner, approvedOnly, limit, offset + size, n - 1);
      TakeMore(hits, offset, size, (n - 1) * size);
      assert size + (n - 1) * size == n * size;
    } else {
      TakeNone(Drop(hits, offset));
    }
  }

  lemma TakeNone(hits: seq<MediaRow>)
    ensures Take(hits, 0) == []
  {
  }

  lemma TakeMore(hits: seq<MediaRow>, offset: nat, a: nat, b: nat)
    ensures Take(Drop(hits, offset), a) + Take(Drop(hits, offset + a), b) == Take(Drop(hits, offset), a + b)
  {
  }

  /**
   * Turning the pages of a search shows every row that contains the stripped
   * term literally, each as often as it is stored, and no other row.
   */
  lemma SearchFindsExactlyTheWanted(rows: seq<MediaRow>, query: string, fold: char -> char, owner: Option<int>,
                                    approvedOnly: bool,
                                    limit: int, n: nat)
    requires Strip(query) != ""
    requires n * Max(1, Min(limit, MAX_SEARCH_LIMIT)) >= Search(rows, query, fold, owner, approvedOnly, limit, 0).1
    ensures multiset(Pages(rows, query, fold, owner, approvedOnly, limit, 0, n)) ==
              WantedRows(rows, Strip(query), fold, owner, approvedOnly)
    ensures Search(rows, query, fold, owner, approvedOnly, limit, 0).1 ==
              |WantedRows(rows, Strip(query), fold, owner, approvedOnly)|
  {
    PagesAreHits(rows, query, fold, owner, approvedOnly, limit, 0, n);
    NewestIsWanted(rows, Strip(query), fold, owner, approvedOnly);
    var hits := Newest(rows, SearchPattern(Strip(query)), fold, owner, approvedOnly);
    assert Take(Drop(hits, 0), n * Max(1, Min(limit, MAX_SEARCH_LIMIT))) == hits;
  }
}

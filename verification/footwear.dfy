/** The footwear category page: the colour shown on a product card, and the
    paging state of the infinite list. */
module Footwear {
  import opened Js

  const NotAvailable := "N/A"

  predicate IsAsciiLetter(c: char) {
    'a' <= c <= 'z' || 'A' <= c <= 'Z'
  }

  /** The characters `\s` matches. */
  predicate IsSpace(c: char) {
    || c == ' ' || c == '\t' || c == '\n' || c == '\r' || c == '\U{000B}' || c == '\U{000C}'
    || c == '\U{00A0}' || c == '\U{1680}' || ('\U{2000}' <= c <= '\U{200A}')
    || c == '\U{2028}' || c == '\U{2029}' || c == '\U{202F}' || c == '\U{205F}'
    || c == '\U{3000}' || c == '\U{FEFF}'
  }


  /** Case folding as a case-insensitive, non-Unicode pattern applies it to
      the ASCII text it compares with. */
  function LowerAscii(c: char): char {
    if 'A' <= c <= 'Z' then (c as int + 32) as char else c
  }

  const ColorTag := "color:"

  /** `color:` in any letter case starts at position `i`. */
  predicate TagAt(s: string, i: nat) {
    && i + |ColorTag| <= |s|
    && LowerAscii(s[i]) == 'c' && LowerAscii(s[i + 1]) == 'o' && LowerAscii(s[i + 2]) == 'l'
    && LowerAscii(s[i + 3]) == 'o' && LowerAscii(s[i + 4]) == 'r' && s[i + 5] == ':'
  }

  /** The first position at or after `j` that is not whitespace. */
  function SkipSpaces(s: string, j: nat): (r: nat)
    requires j <= |s|
    ensures j <= r <= |s|
    ensures forall k :: j <= k < r ==> IsSpace(s[k])
    ensures r < |s| ==> !IsSpace(s[r])
    decreases |s| - j
  {
    if j < |s| && IsSpace(s[j]) then SkipSpaces(s, j + 1) else j
  }

  /** The longest run of ASCII letters starting at `j`. */
  function LetterRun(s: string, j: nat): (r: string)
    requires j <= |s|
    ensures j + |r| <= |s| && r == s[j..j + |r|]
    ensures forall k :: 0 <= k < |r| ==> IsAsciiLetter(r[k])
    ensures j + |r| < |s| ==> !IsAsciiLetter(s[j + |r|])
    decreases |s| - j
  {
    if j < |s| && IsAsciiLetter(s[j]) then [s[j]] + LetterRun(s, j + 1) else []
  }

  /** The capture of `/color:\s*([a-zA-Z]+)/i` for a match starting at `i`. */
  function MatchAt(s: string, i: nat): Option<string> {
    if !TagAt(s, i) then None
    else
      var j := SkipSpaces(s, i + |ColorTag|);
      if j < |s| && IsAsciiLetter(s[j]) then Some(LetterRun(s, j)) else None
  }

  /** A capture is a non-empty word of ASCII letters right after a tag. */
  lemma MatchAtShape(s: string, i: nat)
    requires MatchAt(s, i).Some?
    ensures TagAt(s, i) && |MatchAt(s, i).value| > 0
    ensures forall k :: 0 <= k < |MatchAt(s, i).value| ==> IsAsciiLetter(MatchAt(s, i).value[k])
  {
  }

  /** No match starts anywhere from `i` on. */
  predicate NoMatchFrom(s: string, i: nat) {
    forall k :: i <= k <= |s| ==> MatchAt(s, k).None?
  }

  /** The leftmost match at or after `i`, as `String.prototype.match` finds it. */
  function FirstMatch(s: string, i: nat): (r: Option<string>)
    requires i <= |s|
    ensures r.None? <==> NoMatchFrom(s, i)
    ensures r.Some? ==> exists k :: i <= k <= |s| && MatchAt(s, k) == r && NoMatchBetween(s, i, k)
    decreases |s| - i
  {
    if MatchAt(s, i).Some? then
      assert NoMatchBetween(s, i, i);
      MatchAt(s, i)
    else if i == |s| then None
    else
      var r := FirstMatch(s, i + 1);
      NoMatchFromStep(s, i);
      FirstMatchWitnessStep(s, i, r);
      r
  }

  /** Past a position with no match, "no match from here" is the same
      statement one position later. */
  lemma NoMatchFromStep(s: string, i: nat)
    requires i < |s| && MatchAt(s, i).None?
    ensures NoMatchFrom(s, i) <==> NoMatchFrom(s, i + 1)
  {
    if NoMatchFrom(s, i + 1) {
      forall m | i <= m <= |s| ensures MatchAt(s, m).None? {
        if m > i {
          assert i + 1 <= m <= |s|;
        }
      }
    }
  }

  /** A leftmost match found from `i + 1` is also leftmost from `i` when
      nothing matches at `i`. */
  lemma FirstMatchWitnessStep(s: string, i: nat, r: Option<string>)
    requires i < |s| && MatchAt(s, i).None?
    requires r.Some? ==> exists k :: i + 1 <= k <= |s| && MatchAt(s, k) == r && NoMatchBetween(s, i + 1, k)
    ensures r.Some? ==> exists k :: i <= k <= |s| && MatchAt(s, k) == r && NoMatchBetween(s, i, k)
  {
    if r.Some? {
      var k :| i + 1 <= k <= |s| && MatchAt(s, k) == r && NoMatchBetween(s, i + 1, k);
      NoMatchBetweenStep(s, i, k);
      assert i <= k <= |s| && MatchAt(s, k) == r && NoMatchBetween(s, i, k);
    }
  }

  lemma NoMatchBetweenStep(s: string, i: nat, k: nat)
    requires i < k && MatchAt(s, i).None? && NoMatchBetween(s, i + 1, k)
    ensures NoMatchBetween(s, i, k)
  {
    forall m | i <= m < k ensures MatchAt(s, m).None? {
      if m > i {
        assert i + 1 <= m < k;
      }
    }
  }

  predicate NoMatchBetween(s: string, i: nat, k: nat) {
    forall m :: i <= m < k ==> MatchAt(s, m).None?
  }

  /** `extractColorFromDescription`; `None` stands for a missing or
      non-string description. */
  function ExtractColor(description: Option<string>): (r: string)
    ensures !Truthy(description) ==> r == NotAvailable
    ensures Truthy(description) && FirstMatch(description.value, 0).Some? ==> r == FirstMatch(description.value, 0).value
    ensures Truthy(description) && FirstMatch(description.value, 0).None? ==> r == NotAvailable
  {
    if !Truthy(description) then NotAvailable
    else FirstMatch(description.value, 0).GetOr(NotAvailable)
  }

  /** The extracted colour is either "N/A" or a non-empty word of ASCII
      letters, so the two outcomes never clash. */
  lemma ExtractColorShape(description: Option<string>)
    ensures var r := ExtractColor(description);
            r == NotAvailable || (|r| > 0 && forall k :: 0 <= k < |r| ==> IsAsciiLetter(r[k]))
    ensures !IsAsciiLetter(NotAvailable[1])
  {
    if Truthy(description) && FirstMatch(description.value, 0).Some? {
      var s := description.value;
      var k :| 0 <= k <= |s| && MatchAt(s, k) == FirstMatch(s, 0);
      MatchAtShape(s, k);
    }
  }

  /** A tag in any letter case, spaces after it, and the word stops at the
      first non-letter. */
  lemma ExtractColorExample()
    ensures ExtractColor(Some("COLOR:  Navy-blue")) == "Navy"
    ensures ExtractColor(Some("colour: red")) == NotAvailable
  {
    NavyExample();
    ColourExample();
  }

  lemma NavyExample()
    ensures ExtractColor(Some("COLOR:  Navy-blue")) == "Navy"
  {
    var s := "COLOR:  Navy-blue";
    assert TagAt(s, 0);
    assert SkipSpaces(s, 6) == 8;
    NavyRun(s);
  }

  lemma NavyRun(s: string)
    requires s == "COLOR:  Navy-blue"
    ensures LetterRun(s, 8) == "Navy"
  {
    assert !IsAsciiLetter(s[12]);
    assert LetterRun(s, 12) == [];
    assert LetterRun(s, 11) == ['y'];
    assert LetterRun(s, 10) == ['v', 'y'];
    assert LetterRun(s, 9) == ['a', 'v', 'y'];
  }

  lemma ColourExample()
    ensures ExtractColor(Some("colour: red")) == NotAvailable
  {
    var t := "colour: red";
    ColonOnlyAtSix(t);
    assert LowerAscii(t[1]) != 'c';
    forall k | 0 <= k <= |t| ensures MatchAt(t, k).None? {
      assert !TagAt(t, k);
    }
    assert NoMatchFrom(t, 0);
  }

  lemma ColonOnlyAtSix(t: string)
    requires t == "colour: red"
    ensures forall m :: 0 <= m < |t| && t[m] == ':' ==> m == 6
  {
  }

  /** The card's colour: the product's own `color` when set, else the one
      found in the description. */
  function ProductColor(color: Option<string>, description: Option<string>): (r: string)
    ensures Truthy(color) ==> r == color.value
    ensures !Truthy(color) ==> r == ExtractColor(description)
  {
    OrElse([color], ExtractColor(description))
  }

  // ---------------------------------------------------------------- paging

  const PageSize := 8

  /** The list's state: loaded product ids, the cursor (the last loaded
      document), and the flags. */
  datatype Pager = Pager(products: seq<string>, cursor: Option<string>, loading: bool, loadingMore: bool, hasMore: bool)

  const Start := Pager([], None, true, false, true)

  /** The cursor is the last loaded product, and there is one exactly when
      something is loaded. */
  predicate CursorIsLast(p: Pager) {
    && (p.cursor.None? <==> |p.products| == 0)
    && (p.cursor.Some? ==> p.cursor.value == p.products[|p.products| - 1])
  }

  /** `fetchInitialProducts`: `fetched` is the first page, `None` when the
      query fails (which only ends the loading state). */
  function InitialLoad(p: Pager, fetched: Option<seq<string>>): (r: Pager)
    ensures !r.loading
    ensures fetched.Some? ==> r.products == fetched.value
    ensures fetched.Some? && |fetched.value| < PageSize ==> !r.hasMore
    ensures fetched.Some? && |fetched.value| >= PageSize ==> r.hasMore == p.hasMore
    ensures fetched.None? ==> r == p.(loading := false)
  {
    match fetched
    case None => p.(loading := false)
    case Some(docs) =>
      Pager(docs, if |docs| == 0 then None else Some(docs[|docs| - 1]), false, p.loadingMore,
            if |docs| < PageSize then false else p.hasMore)
  }

  /** `loadMore`: nothing without a cursor, while a load is running, or once
      the list is exhausted; an empty page marks it exhausted; a failed query
      changes nothing. */
  function LoadMore(p: Pager, fetched: Option<seq<string>>): (r: Pager)
    ensures p.cursor.None? || p.loadingMore || !p.hasMore ==> r == p
    ensures fetched.None? ==> r == p
    ensures p.products <= r.products
    ensures !p.hasMore ==> !r.hasMore
  {
    if p.cursor.None? || p.loadingMore || !p.hasMore then p
    else match fetched
      case None => p
      case Some(docs) =>
        if |docs| == 0 then p.(hasMore := false)
        else p.(products := p.products + docs, cursor := Some(docs[|docs| - 1]))
  }

  lemma LoadMoreAppends(p: Pager, docs: seq<string>)
    requires p.cursor.Some? && !p.loadingMore && p.hasMore
    ensures |docs| == 0 ==> LoadMore(p, Some(docs)) == p.(hasMore := false)
    ensures |docs| > 0 ==> LoadMore(p, Some(docs)).products == p.products + docs && LoadMore(p, Some(docs)).hasMore
  {
  }

  function LoadPages(p: Pager, pages: seq<Option<seq<string>>>): Pager
    decreases |pages|
  {
    if |pages| == 0 then p else LoadPages(LoadMore(p, pages[0]), pages[1..])
  }

  /** Over any run of loads, the loaded list only grows, `hasMore` never
      comes back once cleared, and the cursor stays on the last product. */
  lemma {:induction false} LoadPagesInvariant(p: Pager, pages: seq<Option<seq<string>>>)
    requires CursorIsLast(p)
    ensures CursorIsLast(LoadPages(p, pages))
    ensures p.products <= LoadPages(p, pages).products
    ensures !p.hasMore ==> !LoadPages(p, pages).hasMore
    decreases |pages|
  {
    if |pages| > 0 {
      var q := LoadMore(p, pages[0]);
      assert CursorIsLast(q);
      LoadPagesInvariant(q, pages[1..]);
    }
  }

  lemma InitialLoadKeepsCursor(fetched: Option<seq<string>>)
    ensures CursorIsLast(InitialLoad(Start, fetched))
  {
  }
}

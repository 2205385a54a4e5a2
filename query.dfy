/** The "Artist - Title" query of the search box. The search form
    (src/components/search-form.tsx) and the search handler
    (src/components/search-handler.tsx) parse it with the same code; both use
    `Parse` below. */
module Query {
  import opened Common
  import opened Text

  /** Each piece trimmed: `pieces.map((p) => p.trim())`. */
  function TrimAll(pieces: seq<string>): (parts: seq<string>)
    ensures |parts| == |pieces|
    ensures forall k :: 0 <= k < |parts| ==> parts[k] == Trim(pieces[k])
  {
    seq(|pieces|, k requires 0 <= k < |pieces| => Trim(pieces[k]))
  }

  /** The pieces of the query between hyphens, each trimmed:
      `query.split("-").map((p) => p.trim())`. */
  function Parts(query: string): (parts: seq<string>)
    ensures |parts| >= 1
  {
    TrimAll(Split(query, '-'))
  }

  /** The artist is the first piece; the title is the other pieces joined with
      single spaces, or empty when there is only one piece. */
  function FromParts(parts: seq<string>): SongQuery
    requires |parts| >= 1
  {
    SongQuery(parts[0], if |parts| > 1 then Join(parts[1..], " ") else "")
  }

  /** `query.split("-").map((p) => p.trim())`, then the artist is the first
      piece and the title the others joined with single spaces. */
  function Parse(query: string): SongQuery {
    FromParts(Parts(query))
  }

  /** The artist is the trimmed text before the first hyphen; without a
      hyphen the title is empty. */
  lemma ParseArtistBeforeFirstHyphen(query: string)
    ensures Parse(query).artist == Trim(query[..IndexOf(query, '-')])
    ensures '-' !in query ==> Parse(query).title == ""
  {
    SplitHead(query, '-');
  }

  /** Every hyphen of the query is lost: neither the artist nor the title
      contains one, and the artist has no surrounding whitespace. */
  lemma ParseDropsHyphens(query: string)
    ensures '-' !in Parse(query).artist && '-' !in Parse(query).title
    ensures IsTrimmed(Parse(query).artist)
  {
    var raw := Split(query, '-');
    var parts := Parts(query);
    SplitPiecesLackSeparator(query, '-');
    forall k | 0 <= k < |parts|
      ensures '-' !in parts[k]
    {
      TrimOmits(raw[k], '-');
    }
    JoinExcludes(parts[1..], " ", '-');
  }

  lemma SplitWithoutSeparator(s: string, sep: char)
    requires sep !in s
    ensures Split(s, sep) == [s]
  {
    SplitHead(s, sep);
    assert IndexOf(s, sep) == |s|;
    assert s[..|s|] == s;
  }

  /** The form's format check: `!artist || !title` rejects the query. */
  predicate Accepted(q: SongQuery) {
    q.artist != "" && q.title != ""
  }

  lemma SplitThree(p0: string, p1: string, p2: string)
    requires '-' !in p0 && '-' !in p1 && '-' !in p2
    ensures Split(p0 + ['-'] + (p1 + ['-'] + p2), '-') == [p0, p1, p2]
  {
    SplitWithoutSeparator(p2, '-');
    SplitAfterFirst(p1, '-', p2);
    SplitAfterFirst(p0, '-', p1 + ['-'] + p2);
  }

  lemma TrimEach2(p0: string, p1: string, t0: string, t1: string)
    requires Trim(p0) == t0 && Trim(p1) == t1
    ensures TrimAll([p0, p1]) == [t0, t1]
  {
  }

  lemma TrimEach3(p0: string, p1: string, p2: string, t0: string, t1: string, t2: string)
    requires Trim(p0) == t0 && Trim(p1) == t1 && Trim(p2) == t2
    ensures TrimAll([p0, p1, p2]) == [t0, t1, t2]
  {
  }

  lemma SpacedWord(w: string)
    requires IsTrimmed(w)
    ensures Trim(w + " ") == w && Trim(" " + w) == w && Trim(" " + w + " ") == w
  {
    SpaceAfter(w);
    SpaceBefore(w);
    assert AllWhitespace(" ");
    TrimOfPadded(" ", w, " ");
  }

  lemma SpaceAfter(w: string)
    requires IsTrimmed(w)
    ensures Trim(w + " ") == w
  {
    assert AllWhitespace(" ") && AllWhitespace([]);
    assert w + " " == [] + w + " ";
    TrimOfPadded([], w, " ");
  }

  lemma SpaceBefore(w: string)
    requires IsTrimmed(w)
    ensures Trim(" " + w) == w
  {
    assert AllWhitespace(" ") && AllWhitespace([]);
    assert " " + w == " " + w + [];
    TrimOfPadded(" ", w, []);
  }

  /** A query written as "<artist> - <title>", with both parts trimmed,
      non-empty and free of hyphens, parses back to exactly that pair. */
  lemma ParseFormatted(artist: string, title: string)
    requires artist != [] && title != []
    requires IsTrimmed(artist) && IsTrimmed(title)
    requires '-' !in artist && '-' !in title
    ensures Parse(artist + " - " + title) == SongQuery(artist, title)
    ensures Accepted(Parse(artist + " - " + title))
  {
    var left, right := artist + " ", " " + title;
    var query := artist + " - " + title;
    assert query == left + ['-'] + right;
    SplitAfterFirst(left, '-', right);
    SplitWithoutSeparator(right, '-');
    assert Split(query, '-') == [left, right];
    SpacedWord(artist);
    SpacedWord(title);
    TrimEach2(left, right, artist, title);
    assert [artist, title][1..] == [title];
  }

  lemma ParseOfThreePieces(query: string, p0: string, p1: string, p2: string, t0: string, t1: string, t2: string)
    requires Split(query, '-') == [p0, p1, p2]
    requires Trim(p0) == t0 && Trim(p1) == t1 && Trim(p2) == t2
    ensures Parse(query) == SongQuery(t0, t1 + " " + t2)
  {
    TrimEach3(p0, p1, p2, t0, t1, t2);
    FromThreeParts(t0, t1, t2);
  }

  lemma FromThreeParts(a: string, b: string, c: string)
    ensures FromParts([a, b, c]) == SongQuery(a, b + " " + c)
  {
    assert [a, b, c][1..] == [b, c];
    assert [b, c][1..] == [c];
    assert Join([b, c], " ") == b + " " + Join([c], " ");
  }

  lemma SplitSpacedThree(a: string, b: string, c: string, query: string)
    requires '-' !in a && '-' !in b && '-' !in c
    requires query == a + " - " + b + " - " + c
    ensures Split(query, '-') == [a + " ", " " + b + " ", " " + c]
  {
    var p0, p1, p2 := a + " ", " " + b + " ", " " + c;
    assert query == p0 + ['-'] + (p1 + ['-'] + p2);
    SplitThree(p0, p1, p2);
  }

  lemma SplitEmptyMiddle(a: string, b: string, query: string)
    requires '-' !in a && '-' !in b
    requires query == a + " - - " + b
    ensures Split(query, '-') == [a + " ", " ", " " + b]
  {
    var p0, p1, p2 := a + " ", " ", " " + b;
    assert query == p0 + ['-'] + (p1 + ['-'] + p2);
    SplitThree(p0, p1, p2);
  }

  /** Hyphens inside a title are lost: "<a> - <b> - <c>" gives the title
      "<b> <c>" (so "a - b - c" gives "b c"). */
  lemma HyphenatedTitle(a: string, b: string, c: string)
    requires IsTrimmed(a) && IsTrimmed(b) && IsTrimmed(c)
    requires '-' !in a && '-' !in b && '-' !in c
    ensures Parse(a + " - " + b + " - " + c) == SongQuery(a, b + " " + c)
  {
    var query := a + " - " + b + " - " + c;
    SplitSpacedThree(a, b, c, query);
    SpacedWord(a);
    SpacedWord(b);
    SpacedWord(c);
    ParseOfThreePieces(query, a + " ", " " + b + " ", " " + c, a, b, c);
  }

  /** An empty middle piece survives as an empty word: "<a> - - <b>" gives the
      title " <b>", with a leading space (so "a - - b" gives " b"). */
  lemma EmptyMiddlePiece(a: string, b: string)
    requires IsTrimmed(a) && IsTrimmed(b)
    requires '-' !in a && '-' !in b
    ensures Parse(a + " - - " + b) == SongQuery(a, " " + b)
  {
    var query := a + " - - " + b;
    var p0, p1, p2 := a + " ", " ", " " + b;
    SplitEmptyMiddle(a, b, query);
    SpacedWord(a);
    SpacedWord(b);
    assert AllWhitespace(" ") && " " == [] + [] + " ";
    TrimOfPadded([], [], " ");
    ParseOfThreePieces(query, p0, p1, p2, a, [], b);
    assert [] + " " + b == " " + b;
  }
}

/** The home page's trending list (src/app/page.tsx): one card per trending
    song, in order, with an ad banner after every third card, each pair held
    in a fragment keyed by the song's title and its index. */
module Page {
  import opened Text

  datatype Item<T> = Card(index: nat, song: T) | Ad

  /** The fragment for the song at `index`: its card, then an ad when
      `(index + 1) % 3 === 0`. */
  function Fragment<T>(index: nat, song: T): seq<Item<T>> {
    [Card(index, song)] + (if (index + 1) % 3 == 0 then [Ad] else [])
  }

  /** `trendingSongs.map((result, index) => <Fragment>…</Fragment>)`,
      flattened. */
  function Interleave<T>(songs: seq<T>): seq<Item<T>>
    decreases |songs|
  {
    if songs == [] then []
    else Interleave(songs[..|songs| - 1]) + Fragment(|songs| - 1, songs[|songs| - 1])
  }

  /** The songs on the cards, in order. */
  function CardSongs<T>(items: seq<Item<T>>): seq<T> {
    if items == [] then []
    else
      var last := match items[|items| - 1] case Card(_, s) => [s] case Ad => [];
      CardSongs(items[..|items| - 1]) + last
  }

  function AdCount<T>(items: seq<Item<T>>): nat {
    if items == [] then 0
    else AdCount(items[..|items| - 1]) + (if items[|items| - 1].Ad? then 1 else 0)
  }

  lemma {:induction false} CardSongsAppend<T>(a: seq<Item<T>>, b: seq<Item<T>>)
    ensures CardSongs(a + b) == CardSongs(a) + CardSongs(b)
    ensures AdCount(a + b) == AdCount(a) + AdCount(b)
    decreases |b|
  {
    if b == [] {
      assert a + b == a;
    } else {
      var c := b[..|b| - 1];
      assert (a + b)[..|a + b| - 1] == a + c;
      assert b[..|b| - 1] == c;
      CardSongsAppend(a, c);
    }
  }

  /** The cards show the trending songs in list order, none dropped or added. */
  lemma {:induction false} CardsInOrder<T>(songs: seq<T>)
    ensures CardSongs(Interleave(songs)) == songs
    decreases |songs|
  {
    if songs != [] {
      var n := |songs| - 1;
      CardsInOrder(songs[..n]);
      CardSongsAppend(Interleave(songs[..n]), Fragment(n, songs[n]));
      var f := Fragment(n, songs[n]);
      assert CardSongs(f) == [songs[n]] by {
        CardSongsAppend([Card(n, songs[n])], f[1..]);
        assert [Card(n, songs[n])] + f[1..] == f;
        assert CardSongs([Card(n, songs[n])]) == [songs[n]] by {
          assert [Card(n, songs[n])][..0] == [];
        }
      }
      assert songs[..n] + [songs[n]] == songs;
    }
  }

  /** For n songs there are exactly n div 3 ads. */
  lemma {:induction false} AdsCount<T>(songs: seq<T>)
    ensures AdCount(Interleave(songs)) == |songs| / 3
    decreases |songs|
  {
    if songs != [] {
      var n := |songs| - 1;
      AdsCount(songs[..n]);
      var f := Fragment(n, songs[n]);
      CardSongsAppend(Interleave(songs[..n]), f);
      CardSongsAppend([Card(n, songs[n])], f[1..]);
      assert [Card(n, songs[n])] + f[1..] == f;
      assert AdCount([Card(n, songs[n])]) == 0 by {
        assert [Card(n, songs[n])][..0] == [];
      }
      if (n + 1) % 3 == 0 {
        assert f[1..] == [Ad];
        var ad: seq<Item<T>> := [Ad];
        assert AdCount(ad) == 1 by {
          assert ad[..0] == [];
        }
      } else {
        assert f[1..] == [];
      }
    }
  }

  /** The items in order: the card of song `i` sits at `pos`. */
  predicate CardAt<T>(items: seq<Item<T>>, pos: int, i: nat) {
    0 <= pos < |items| && items[pos].Card? && items[pos].index == i
  }

  /** Where the card of song `i` stands in the interleaved list. */
  function CardPosition(i: nat): nat {
    i + i / 3
  }

  /** The shape of the interleaved list: card `i` at `CardPosition(i)`, and an
      ad right after each card whose index `i` has `(i + 1) % 3 == 0`. */
  predicate Layout<T(==)>(songs: seq<T>, items: seq<Item<T>>) {
    && |items| == |songs| + |songs| / 3
    && (forall i :: 0 <= i < |songs| ==> items[CardPosition(i)] == Card(i, songs[i]))
    && (forall i :: 0 <= i < |songs| && (i + 1) % 3 == 0 ==> items[CardPosition(i) + 1] == Ad)
  }

  lemma {:induction false} InterleaveLayout<T>(songs: seq<T>)
    ensures Layout(songs, Interleave(songs))
    decreases |songs|
  {
    if songs != [] {
      var n := |songs| - 1;
      InterleaveLayout(songs[..n]);
      ExtendLayout(songs, Interleave(songs[..n]));
    }
  }

  lemma ExtendLayout<T>(songs: seq<T>, before: seq<Item<T>>)
    requires songs != [] && Layout(songs[..|songs| - 1], before)
    ensures Layout(songs, before + Fragment(|songs| - 1, songs[|songs| - 1]))
  {
    var n := |songs| - 1;
    var prefix := songs[..n];
    var items := before + Fragment(n, songs[n]);
    assert |before| == CardPosition(n);
    forall i | 0 <= i < n
      ensures items[CardPosition(i)] == Card(i, songs[i])
    {
      CardPositionOrder(i, n);
      assert prefix[i] == songs[i];
    }
    forall i | 0 <= i < n && (i + 1) % 3 == 0
      ensures items[CardPosition(i) + 1] == Ad
    {
      CardPositionOrder(i + 1, n);
      assert CardPosition(i) + 1 == CardPosition(i + 1) - 1;
    }
  }

  /** An ad follows the card of song `i` exactly when `(i + 1) % 3 == 0`. */
  lemma AdFollowsEveryThirdCard<T>(songs: seq<T>, i: nat)
    requires i < |songs|
    ensures var items := Interleave(songs);
      CardAt(items, CardPosition(i), i)
      && (CardPosition(i) + 1 < |items| && items[CardPosition(i) + 1] == Ad <==> (i + 1) % 3 == 0)
  {
    InterleaveLayout(songs);
    var items := Interleave(songs);
    if (i + 1) % 3 != 0 {
      assert CardPosition(i) + 1 == CardPosition(i + 1);
      CardPositionOrder(i + 1, |songs|);
      if i + 1 < |songs| {
        assert items[CardPosition(i + 1)] == Card(i + 1, songs[i + 1]);
      }
    }
  }

  /** The list never opens with an ad, and no two ads are adjacent. */
  lemma NoLeadingOrAdjacentAds<T>(songs: seq<T>)
    ensures Interleave(songs) != [] ==> Interleave(songs)[0].Card?
    ensures forall p :: 0 <= p < |Interleave(songs)| - 1 ==>
      !(Interleave(songs)[p].Ad? && Interleave(songs)[p + 1].Ad?)
  {
    InterleaveLayout(songs);
    var items := Interleave(songs);
    if items != [] {
      assert items[CardPosition(0)] == Card(0, songs[0]);
    }
    forall p | 0 <= p < |items| - 1
      ensures !(items[p].Ad? && items[p + 1].Ad?)
    {
      EveryPositionNearACard(p);
      if p % 4 < 3 {
        var c := p / 4 * 3 + p % 4;
        CardPositionOrder(c, |songs|);
        assert items[p] == Card(c, songs[c]);
      } else {
        var c := p / 4 * 3 + 3;
        CardPositionOrder(c, |songs|);
        assert items[p + 1] == Card(c, songs[c]);
      }
    }
  }

  lemma CardPositionOrder(c: nat, n: nat)
    ensures c < n <==> CardPosition(c) < CardPosition(n)
  {
    if c < n {
      assert c / 3 <= n / 3;
    } else {
      assert n / 3 <= c / 3;
    }
  }

  /** Position `p` is card `3q + r` when `p = 4q + r` with `r < 3`, and
      position `4q + 3` is the ad before card `3q + 3`. */
  lemma EveryPositionNearACard(p: nat)
    ensures p % 4 < 3 ==> CardPosition(p / 4 * 3 + p % 4) == p
    ensures p % 4 == 3 ==> CardPosition(p / 4 * 3 + 3) == p + 1
  {
    var q, r := p / 4, p % 4;
    assert p == 4 * q + r;
    if r < 3 {
      assert (3 * q + r) / 3 == q;
    } else {
      assert (3 * q + 3) / 3 == q + 1;
    }
  }

  // ------------------------------------------------ fragment keys

  /** `` `trending-${result.title}-${index}` `` */
  function FragmentKey(title: string, index: nat): string {
    "trending-" + title + "-" + DecimalString(index)
  }

  lemma DigitsLackHyphen(n: nat)
    ensures '-' !in DecimalString(n)
  {
    var d := DecimalString(n);
    forall k | 0 <= k < |d|
      ensures d[k] != '-'
    {
      assert IsDigit(d[k]);
    }
  }

  /** The number of characters after the last hyphen (all of them when
      there is none). */
  function AfterLastHyphen(s: string): nat {
    if s == [] || s[|s| - 1] == '-' then 0 else 1 + AfterLastHyphen(s[..|s| - 1])
  }

  lemma {:induction false} AfterLastHyphenOf(a: string, d: string)
    requires '-' !in d
    ensures AfterLastHyphen(a + "-" + d) == |d|
    decreases |d|
  {
    var s := a + "-" + d;
    if d != [] {
      var e := d[..|d| - 1];
      assert s[..|s| - 1] == a + "-" + e;
      AfterLastHyphenOf(a, e);
    }
  }

  /** Two texts that end in a hyphen followed by hyphen-free tails agree on
      those tails. */
  lemma SameTailAfterLastHyphen(a: string, d1: string, b: string, d2: string)
    requires '-' !in d1 && '-' !in d2
    requires a + "-" + d1 == b + "-" + d2
    ensures d1 == d2
  {
    var s := a + "-" + d1;
    AfterLastHyphenOf(a, d1);
    AfterLastHyphenOf(b, d2);
    assert d1 == s[|s| - |d1|..];
    assert d2 == (b + "-" + d2)[|s| - |d2|..];
  }

  /** Fragment keys of different indexes differ, whatever the titles. */
  lemma FragmentKeysDistinct(title1: string, i: nat, title2: string, j: nat)
    requires i != j
    ensures FragmentKey(title1, i) != FragmentKey(title2, j)
  {
    if FragmentKey(title1, i) == FragmentKey(title2, j) {
      DigitsLackHyphen(i);
      DigitsLackHyphen(j);
      SameTailAfterLastHyphen("trending-" + title1, DecimalString(i), "trending-" + title2, DecimalString(j));
      DecimalStringInjective(i, j);
    }
  }
}

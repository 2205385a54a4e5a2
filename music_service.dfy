/** The placeholder music-data service (src/services/music-service.ts): a
    fixed table of ten songs looked up by lower-cased artist and title, with a
    random fallback record for every other song. */
module MusicService {
  import opened Common
  import opened Text

  /** `SongDetails`: tempo in beats per minute, musical key, and duration. */
  datatype SongDetails = SongDetails(bpm: int, key: string, duration: string)

  /** The mock database, keyed by lower-case artist and then lower-case title. */
  const MockSongDatabase: map<string, map<string, SongDetails>> := map[
    "sabrina carpenter" := map["espresso" := SongDetails(120, "G# minor", "2:55")],
    "post malone" := map["i had some help" := SongDetails(128, "C major", "2:58")],
    "kendrick lamar" := map["not like us" := SongDetails(101, "B major", "4:34")],
    "tommy richman" := map["million dollar baby" := SongDetails(138, "F# minor", "2:35")],
    "shaboozey" := map["a bar song (tipsy)" := SongDetails(81, "D major", "2:51")],
    "billie eilish" := map["birds of a feather" := SongDetails(105, "C# major", "3:30")],
    "hozier" := map["too sweet" := SongDetails(117, "E minor", "4:11")],
    "taylor swift" := map["fortnight" := SongDetails(96, "C major", "3:48")],
    "benson boone" := map["beautiful things" := SongDetails(105, "Db major", "3:00")],
    "david bowie" := map["space oddity" := SongDetails(81, "C major", "5:15")]
  ]

  predicate Stored(artist: string, title: string) {
    artist in MockSongDatabase && title in MockSongDatabase[artist]
  }

  /** The table lookup of `getSongDetails`: the stored record under the
      lower-cased artist and title, if there is one (own keys only; see
      `LookupAsWritten` for what the plain-object lookup does). */
  function Lookup(artist: string, title: string): (r: Option<SongDetails>)
    ensures r.Some? <==> Stored(ToLower(artist), ToLower(title))
    ensures r.Some? ==> r.value == MockSongDatabase[ToLower(artist)][ToLower(title)]
  {
    var a, t := ToLower(artist), ToLower(title);
    if a in MockSongDatabase && t in MockSongDatabase[a] then Some(MockSongDatabase[a][t]) else None
  }

  /** The three `Math.floor(Math.random() * k)` values the fallback draws:
      a tempo offset below 81, a key index below 4, seconds below 59. */
  datatype Draw = Draw(bpmOffset: int, keyIndex: int, seconds: int)

  predicate ValidDraw(d: Draw) {
    0 <= d.bpmOffset < 81 && 0 <= d.keyIndex < 4 && 0 <= d.seconds < 59
  }

  const FallbackKeys: seq<string> := ["C major", "G major", "A minor", "F major"]

  /** `String(n).padStart(2, '0')` */
  function TwoDigitString(n: nat): string {
    PadStart(DecimalString(n), 2, '0')
  }

  /** The fallback record built from one draw. */
  function Fallback(d: Draw): SongDetails
    requires ValidDraw(d)
  {
    SongDetails(d.bpmOffset + 80, FallbackKeys[d.keyIndex], "3:" + TwoDigitString(d.seconds))
  }

  /** The shape of every fallback record, stated without reference to a draw:
      tempo 80 to 160, one of the four keys, and a duration "3:SS" whose two
      seconds digits read at most 58. */
  predicate FallbackShaped(r: SongDetails) {
    80 <= r.bpm <= 160 && r.key in FallbackKeys && FallbackDuration(r.duration)
  }

  predicate FallbackDuration(duration: string) {
    && |duration| == 4 && duration[0] == '3' && duration[1] == ':'
    && IsDigit(duration[2]) && IsDigit(duration[3])
    && 10 * DigitValue(duration[2]) + DigitValue(duration[3]) <= 58
  }

  /** Every draw gives a record of the fallback shape. */
  lemma FallbackIsShaped(d: Draw)
    requires ValidDraw(d)
    ensures FallbackShaped(Fallback(d))
  {
    DurationOfSeconds(d.seconds);
  }

  lemma DurationOfSeconds(s: nat)
    requires s < 59
    ensures FallbackDuration("3:" + TwoDigitString(s))
  {
    var tens, units := SecondsDigits(s);
    var duration := "3:" + TwoDigitString(s);
    assert |duration| == 4;
    assert duration[0] == '3' && duration[1] == ':' && duration[2] == tens && duration[3] == units;
  }

  /** The two digits `String(s).padStart(2, '0')` gives for seconds below 59,
      which read back as `s`. */
  lemma SecondsDigits(s: nat) returns (tens: char, units: char)
    requires s < 59
    ensures TwoDigitString(s) == [tens, units]
    ensures IsDigit(tens) && IsDigit(units) && 10 * DigitValue(tens) + DigitValue(units) == s
  {
    TwoDigits(s);
    tens, units := DigitChar(s / 10), DigitChar(s % 10);
    assert DigitValue(tens) == s / 10 && DigitValue(units) == s % 10;
  }

  /** Every record of the fallback shape comes from some draw. */
  lemma ShapedIsFallback(r: SongDetails)
    requires FallbackShaped(r)
    ensures exists d :: ValidDraw(d) && Fallback(d) == r
  {
    var k :| 0 <= k < 4 && FallbackKeys[k] == r.key;
    var s := ShapedSeconds(r.duration);
    var d := Draw(r.bpm - 80, k, s);
    assert Fallback(d) == r;
  }

  /** The seconds a fallback-shaped duration shows, and that they print back
      to it. */
  lemma ShapedSeconds(duration: string) returns (s: nat)
    requires FallbackDuration(duration)
    ensures s < 59 && "3:" + TwoDigitString(s) == duration
  {
    var tens, units := DigitValue(duration[2]), DigitValue(duration[3]);
    s := 10 * tens + units;
    TwoDigits(s);
    assert s / 10 == tens && s % 10 == units;
    DigitRoundTrip(duration[2]);
    DigitRoundTrip(duration[3]);
    assert TwoDigitString(s) == duration[2..];
  }

  /** `getSongDetails`: the stored record when the lower-cased artist and
      title are in the table, otherwise a fallback record from a random draw
      (the `console.warn` is not modelled). */
  method GetSongDetails(artist: string, title: string) returns (r: SongDetails)
    ensures Lookup(artist, title).Some? ==> r == Lookup(artist, title).value
    ensures Lookup(artist, title).None? ==> FallbackShaped(r)
  {
    var hit := Lookup(artist, title);
    if hit.Some? {
      return hit.value;
    }
    var bpmOffset :| 0 <= bpmOffset < 81;
    var keyIndex :| 0 <= keyIndex < 4;
    var seconds :| 0 <= seconds < 59;
    var d := Draw(bpmOffset, keyIndex, seconds);
    FallbackIsShaped(d);
    r := Fallback(d);
  }

  /** Lookup ignores the letter case of artist and title. */
  lemma LookupIgnoresCase(artist1: string, title1: string, artist2: string, title2: string)
    requires EqualIgnoringCase(artist1, artist2) && EqualIgnoringCase(title1, title2)
    ensures Lookup(artist1, title1) == Lookup(artist2, title2)
  {
    LowerCaseAgrees(artist1, artist2);
    LowerCaseAgrees(title1, title2);
  }

  /** Every key of the table is lower-case, so every stored song is found. */
  lemma StoredSongFound(artist: string, title: string)
    requires Stored(artist, title)
    ensures Lookup(artist, title) == Some(MockSongDatabase[artist][title])
  {
    DatabaseLowerKeyed();
    ToLowerKeepsLower(artist);
    ToLowerKeepsLower(title);
  }

  /** The lookup is a case-insensitive match against the table: it hits
      exactly when some stored artist and title equal the inputs up to letter
      case, and then returns that stored record. */
  lemma LookupMatchesIgnoringCase(artist: string, title: string)
    ensures Lookup(artist, title).Some? <==>
      exists a, t :: Stored(a, t) && EqualIgnoringCase(artist, a) && EqualIgnoringCase(title, t)
    ensures forall a, t :: Stored(a, t) && EqualIgnoringCase(artist, a) && EqualIgnoringCase(title, t) ==>
      Lookup(artist, title) == Some(MockSongDatabase[a][t])
  {
    forall a, t | Stored(a, t) && EqualIgnoringCase(artist, a) && EqualIgnoringCase(title, t)
      ensures Lookup(artist, title) == Some(MockSongDatabase[a][t])
    {
      StoredSongFound(a, t);
      LookupIgnoresCase(artist, title, a, t);
    }
    if Lookup(artist, title).Some? {
      var a, t := ToLower(artist), ToLower(title);
      assert Stored(a, t) && EqualIgnoringCase(artist, a) && EqualIgnoringCase(title, t);
    }
  }

  /** Every artist key and every title key of the table is lower-case. */
  predicate LowerKeyed(db: map<string, map<string, SongDetails>>) {
    forall a :: a in db ==> NoUpper(a) && forall t :: t in db[a] ==> NoUpper(t)
  }

  lemma AddLowerEntry(db: map<string, map<string, SongDetails>>, a: string, t: string, d: SongDetails)
    requires LowerKeyed(db) && NoUpper(a) && NoUpper(t)
    ensures LowerKeyed(db[a := map[t := d]])
  {
  }

  lemma LowerKeys1()
    ensures NoUpper("sabrina carpenter") && NoUpper("espresso")
    ensures NoUpper("post malone") && NoUpper("i had some help")
  {
  }

  lemma LowerKeys2()
    ensures NoUpper("kendrick lamar") && NoUpper("not like us")
    ensures NoUpper("tommy richman") && NoUpper("million dollar baby")
  {
  }

  lemma LowerKeys3()
    ensures NoUpper("shaboozey") && NoUpper("a bar song (tipsy)")
    ensures NoUpper("billie eilish") && NoUpper("birds of a feather")
  {
  }

  lemma LowerKeys4()
    ensures NoUpper("hozier") && NoUpper("too sweet")
    ensures NoUpper("taylor swift") && NoUpper("fortnight")
  {
  }

  lemma LowerKeys5()
    ensures NoUpper("benson boone") && NoUpper("beautiful things")
    ensures NoUpper("david bowie") && NoUpper("space oddity")
  {
  }

  /** The table is keyed by lower-case text only, which is what makes the
      lower-cased lookup able to reach every entry. */
  lemma DatabaseLowerKeyed()
    ensures LowerKeyed(MockSongDatabase)
  {
    LowerKeys1();
    LowerKeys2();
    LowerKeys3();
    LowerKeys4();
    LowerKeys5();
    var db: map<string, map<string, SongDetails>> := map[];
    AddLowerEntry(db, "sabrina carpenter", "espresso", SongDetails(120, "G# minor", "2:55"));
    db := db["sabrina carpenter" := map["espresso" := SongDetails(120, "G# minor", "2:55")]];
    AddLowerEntry(db, "post malone", "i had some help", SongDetails(128, "C major", "2:58"));
    db := db["post malone" := map["i had some help" := SongDetails(128, "C major", "2:58")]];
    AddLowerEntry(db, "kendrick lamar", "not like us", SongDetails(101, "B major", "4:34"));
    db := db["kendrick lamar" := map["not like us" := SongDetails(101, "B major", "4:34")]];
    AddLowerEntry(db, "tommy richman", "million dollar baby", SongDetails(138, "F# minor", "2:35"));
    db := db["tommy richman" := map["million dollar baby" := SongDetails(138, "F# minor", "2:35")]];
    AddLowerEntry(db, "shaboozey", "a bar song (tipsy)", SongDetails(81, "D major", "2:51"));
    db := db["shaboozey" := map["a bar song (tipsy)" := SongDetails(81, "D major", "2:51")]];
    AddLowerEntry(db, "billie eilish", "birds of a feather", SongDetails(105, "C# major", "3:30"));
    db := db["billie eilish" := map["birds of a feather" := SongDetails(105, "C# major", "3:30")]];
    AddLowerEntry(db, "hozier", "too sweet", SongDetails(117, "E minor", "4:11"));
    db := db["hozier" := map["too sweet" := SongDetails(117, "E minor", "4:11")]];
    AddLowerEntry(db, "taylor swift", "fortnight", SongDetails(96, "C major", "3:48"));
    db := db["taylor swift" := map["fortnight" := SongDetails(96, "C major", "3:48")]];
    AddLowerEntry(db, "benson boone", "beautiful things", SongDetails(105, "Db major", "3:00"));
    db := db["benson boone" := map["beautiful things" := SongDetails(105, "Db major", "3:00")]];
    AddLowerEntry(db, "david bowie", "space oddity", SongDetails(81, "C major", "5:15"));
    db := db["david bowie" := map["space oddity" := SongDetails(81, "C major", "5:15")]];
    assert db == MockSongDatabase;
  }

  /** No key of the table starts with a space. */
  lemma KeysStartWithoutSpace(artist: string)
    requires artist in MockSongDatabase
    ensures artist[0] != ' '
  {
  }

  /** Only letter case is folded, nothing is trimmed: an artist typed with a
      leading space is never found, so the fallback is used. */
  lemma LeadingSpaceMisses(artist: string, title: string)
    ensures Lookup(" " + artist, title) == None
  {
    var key := ToLower(" " + artist);
    assert key[0] == ' ';
    if key in MockSongDatabase {
      KeysStartWithoutSpace(key);
    }
  }

  /** A "M:SS" duration with a seconds value below 60. */
  predicate IsDuration(s: string) {
    && |s| == 4 && IsDigit(s[0]) && s[1] == ':' && IsDigit(s[2]) && IsDigit(s[3])
    && DigitValue(s[2]) < 6
  }

  /** Every stored record has a positive tempo and a well-formed duration. */
  lemma StoredRecordsWellFormed(artist: string, title: string)
    requires Stored(artist, title)
    ensures MockSongDatabase[artist][title].bpm > 0
    ensures IsDuration(MockSongDatabase[artist][title].duration)
  {
  }

  /** The fallback never lasts 3:59 or longer: its seconds stop at 58. */
  lemma FallbackBelowFourMinutes(d: Draw)
    requires ValidDraw(d)
    ensures IsDuration(Fallback(d).duration) && Fallback(d).duration != "3:59"
  {
    FallbackIsShaped(d);
  }

  // ------------------------------------------------ the lookup as written

  /** The own, lower-case property names every plain JavaScript object
      inherits from `Object.prototype` (the other inherited names contain
      capitals, which a lower-cased title never does). */
  const InheritedNames: set<string> := {"constructor", "__proto__"}

  /** What `artistSongs[title]` yields on a plain object: an own entry, an
      inherited member (a function or an object, both truthy), or nothing. */
  datatype Property = OwnEntry(details: SongDetails) | InheritedMember(name: string) | Missing

  function TitleProperty(songs: map<string, SongDetails>, title: string): (p: Property)
    ensures p.OwnEntry? <==> title in songs
    ensures p.InheritedMember? <==> title !in songs && title in InheritedNames
  {
    if title in songs then OwnEntry(songs[title])
    else if title in InheritedNames then InheritedMember(title)
    else Missing
  }

  /** `artistSongs && artistSongs[title]` as written: any truthy property is
      returned, whether or not it is a song record. Only known artists are
      considered (see the artist-level case under "Left out"). */
  function LookupAsWritten(artist: string, title: string): (r: Option<Property>)
    ensures r.Some? ==> ToLower(artist) in MockSongDatabase
  {
    var a, t := ToLower(artist), ToLower(title);
    if a in MockSongDatabase then
      var p := TitleProperty(MockSongDatabase[a], t);
      if p.Missing? then None else Some(p)
    else None
  }

  /** Away from the inherited names, the lookup as written and `Lookup`
      agree. */
  lemma LookupAsWrittenAgrees(artist: string, title: string)
    requires ToLower(title) !in InheritedNames
    ensures LookupAsWritten(artist, title).Some? <==> Lookup(artist, title).Some?
    ensures Lookup(artist, title).Some? ==>
      LookupAsWritten(artist, title) == Some(OwnEntry(Lookup(artist, title).value))
  {
  }

  /** For every known artist, the title "constructor" passes the lookup as
      written and returns `Object.prototype.constructor` instead of a song
      record, while `Lookup` reports no entry and the fallback is used. */
  lemma ConstructorTitleHit(artist: string)
    requires ToLower(artist) in MockSongDatabase
    ensures LookupAsWritten(artist, "constructor") == Some(InheritedMember("constructor"))
    ensures Lookup(artist, "constructor") == None
  {
    assert NoUpper("constructor");
    ToLowerKeepsLower("constructor");
  }
}

/** The `top_song` tool of server/song.py: a fixed genre table with a
    formatted answer for every other genre. */
module Song {

  /** The table, keyed by exact lower-case genre names. */
  const TopSongs: map<string, string> := map[
    "pop" := "Blinding Lights - The Weeknd",
    "rock" := "Bohemian Rhapsody - Queen",
    "jazz" := "So What - Miles Davis",
    "classical" := "Canon in D - Pachelbel",
    "hiphop" := "SICKO MODE - Travis Scott",
    "kpop" := "Dynamite - BTS"]

  const NotFound: string := "No top song found for genre: "

  /** `top_songs.get(genre, f"No top song found for genre: {genre}")`. */
  function TopSong(genre: string): (r: string)
    ensures genre in TopSongs ==> r == TopSongs[genre]
    ensures genre !in TopSongs ==> r == NotFound + genre
  {
    if genre in TopSongs then TopSongs[genre] else NotFound + genre
  }

  /** The six genres the table knows and nothing else. */
  lemma KnownGenres()
    ensures TopSongs.Keys == {"pop", "rock", "jazz", "classical", "hiphop", "kpop"}
  {
  }

  /** Only letters `a` to `z`. */
  predicate LowerAscii(s: string) {
    forall i :: 0 <= i < |s| ==> 'a' <= s[i] <= 'z'
  }

  /** Every genre the table knows is spelt in lower-case letters. */
  lemma GenresLowerCase()
    ensures forall g :: g in TopSongs ==> LowerAscii(g)
  {
    KnownGenres();
  }

  /** Lookup is exact, with no case folding: a genre holding an upper-case letter
      is unknown and gets the fallback answer. */
  lemma CapitalisedIsUnknown(genre: string, i: nat)
    requires i < |genre| && 'A' <= genre[i] <= 'Z'
    ensures genre !in TopSongs
    ensures TopSong(genre) == NotFound + genre
  {
    GenresLowerCase();
  }

  /** Every table song is shorter than the fallback prefix. */
  lemma SongsShort(genre: string)
    requires genre in TopSongs
    ensures |TopSongs[genre]| < |NotFound|
  {
  }

  /** The answer is a listed song exactly when the genre is known, and a fallback
      answer gives the genre back after its prefix. */
  lemma AnswerTellsGenre(genre: string)
    ensures TopSong(genre) in TopSongs.Values <==> genre in TopSongs
    ensures genre !in TopSongs ==> TopSong(genre)[|NotFound|..] == genre
  {
    if genre !in TopSongs {
      var r := TopSong(genre);
      if r in TopSongs.Values {
        var g :| g in TopSongs && TopSongs[g] == r;
        SongsShort(g);
        assert false;
      }
    }
  }

  /** Different known genres have different songs. */
  lemma SongsDistinct(g: string, h: string)
    requires g in TopSongs && h in TopSongs && g != h
    ensures TopSong(g) != TopSong(h)
  {
  }
}

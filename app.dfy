/**
  The song library screen: the search filter over the song list, the check on
  the YouTube video id taken from a link, and the admin-only add and delete
  actions. Lower-casing and the link pattern are library behaviour and are
  parameters: `lower` for `toLowerCase`, `capture` for the video-id group of
  the link pattern (None when the pattern does not match).
*/
module App {

  import opened Wrappers
  import opened Songs

  /** Whether `s` begins with `prefix`. */
  predicate StartsWith(s: string, prefix: string)
  {
    |prefix| <= |s| && s[..|prefix|] == prefix
  }

  /** `includes`: whether `sub` occurs in `s`, tried at each start in turn. */
  predicate Includes(s: string, sub: string)
    decreases |s|
  {
    StartsWith(s, sub) || (s != [] && Includes(s[1..], sub))
  }

  /** `sub` sits in `s` starting at position `i`. */
  predicate OccursAt(s: string, sub: string, i: int)
  {
    0 <= i && i + |sub| <= |s| && s[i..i + |sub|] == sub
  }

  /** `sub` occurs in `s` exactly when some slice of `s` equals it. */
  lemma {:induction false} IncludesSpec(s: string, sub: string)
    ensures Includes(s, sub) <==> exists i :: OccursAt(s, sub, i)
    decreases |s|
  {
    if Includes(s, sub) {
      if StartsWith(s, sub) {
        assert OccursAt(s, sub, 0);
      } else {
        IncludesSpec(s[1..], sub);
        var i :| OccursAt(s[1..], sub, i);
        assert s[1..][i..i + |sub|] == s[i + 1..i + 1 + |sub|];
        assert OccursAt(s, sub, i + 1);
      }
    }
    if exists i :: OccursAt(s, sub, i) {
      var i :| OccursAt(s, sub, i);
      if i == 0 {
        assert StartsWith(s, sub);
      } else {
        assert s[1..][i - 1..i - 1 + |sub|] == s[i..i + |sub|];
        assert OccursAt(s[1..], sub, i - 1);
        IncludesSpec(s[1..], sub);
      }
    }
  }

  /** The empty string occurs in every string. */
  lemma IncludesEmpty(s: string)
    ensures Includes(s, "")
  {
    assert s[..0] == "";
  }

  /** Whether a song matches the search term: its lower-cased title or artist
      contains the lower-cased term. */
  predicate Matches(song: Song, searchTerm: string, lower: string -> string)
  {
    Includes(lower(song.title), lower(searchTerm)) || Includes(lower(song.artist), lower(searchTerm))
  }

  /** The songs the library lists for a search term. */
  function FilteredSongs(songs: seq<Song>, searchTerm: string, lower: string -> string): (r: seq<Song>)
    ensures |r| <= |songs|
  {
    if songs == [] then []
    else (if Matches(songs[0], searchTerm, lower) then [songs[0]] else [])
         + FilteredSongs(songs[1..], searchTerm, lower)
  }

  /** `a` is `b` with some elements left out, the rest in their order. */
  predicate IsSubsequence(a: seq<Song>, b: seq<Song>)
    decreases |b|
  {
    a == [] || (b != [] && ((a[0] == b[0] && IsSubsequence(a[1..], b[1..])) || IsSubsequence(a, b[1..])))
  }

  /** The filter keeps the library order, and a song is listed exactly when it
      is in the library and matches. */
  lemma {:induction false} FilteredSongsSpec(songs: seq<Song>, searchTerm: string, lower: string -> string)
    ensures var r := FilteredSongs(songs, searchTerm, lower);
      && IsSubsequence(r, songs)
      && (forall s :: s in r <==> s in songs && Matches(s, searchTerm, lower))
  {
    if songs != [] {
      var rest := FilteredSongs(songs[1..], searchTerm, lower);
      FilteredSongsSpec(songs[1..], searchTerm, lower);
      var r := FilteredSongs(songs, searchTerm, lower);
      if Matches(songs[0], searchTerm, lower) {
        assert r == [songs[0]] + rest;
        assert r[1..] == rest;
      } else {
        assert r == rest;
      }
      assert songs == [songs[0]] + songs[1..];
    }
  }

  /** With an empty search term (and lower-casing that keeps it empty) every
      song is listed. */
  lemma {:induction false} EmptySearchKeepsAll(songs: seq<Song>, lower: string -> string)
    requires lower("") == ""
    ensures FilteredSongs(songs, "", lower) == songs
  {
    if songs != [] {
      IncludesEmpty(lower(songs[0].title));
      EmptySearchKeepsAll(songs[1..], lower);
    }
  }

  /** The video id of a link: nothing for an empty link, else the pattern's
      captured id when it has exactly 11 characters. */
  function GetYouTubeEmbedId(url: string, capture: string -> Option<string>): (r: Option<string>)
    ensures url == "" ==> r.None?
    ensures r.Some? ==> |r.value| == 11 && capture(url) == r
    ensures url != "" && capture(url).Some? && |capture(url).value| == 11 ==> r == capture(url)
  {
    if url == "" then None
    else
      var m := capture(url);
      if m.Some? && |m.value| == 11 then m else None
  }

  /** A write the library sends to the database. */
  datatype Write = AddSongWrite(record: SongRecord) | DeleteSongWrite(songId: string)

  const AdminRole: string := "admin"

  class Library {
    var userRole: string
    var currentSong: Option<Song>
    /** Every write sent to the database, in order. */
    var writes: seq<Write>

    constructor (role: string)
      ensures userRole == role && currentSong.None? && writes == []
    {
      userRole := role;
      currentSong := None;
      writes := [];
    }

    /** Adding a song: only an admin sends the write. */
    method HandleAddSong(newSong: SongRecord)
      modifies this`writes
      ensures userRole != AdminRole ==> writes == old(writes)
      ensures userRole == AdminRole ==> writes == old(writes) + [AddSongWrite(newSong)]
    {
      if userRole != AdminRole {
        return;
      }
      writes := writes + [AddSongWrite(newSong)];
    }

    /** Deleting a song: only an admin who confirms sends the write; when it
        succeeds and the song is the open one, nothing stays open. */
    method HandleDeleteSong(songId: string, confirmed: bool, succeeded: bool)
      modifies this`writes, this`currentSong
      ensures !(userRole == AdminRole && confirmed) ==>
        writes == old(writes) && currentSong == old(currentSong)
      ensures userRole == AdminRole && confirmed ==>
        && writes == old(writes) + [DeleteSongWrite(songId)]
        && currentSong == (if succeeded && old(currentSong).Some? && old(currentSong).value.id == songId
                           then None else old(currentSong))
    {
      if userRole != AdminRole {
        return;
      }
      if !confirmed {
        return;
      }
      writes := writes + [DeleteSongWrite(songId)];
      if succeeded && currentSong.Some? && currentSong.value.id == songId {
        currentSong := None;
      }
    }
  }
}

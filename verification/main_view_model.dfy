/** The main window's view model: the song and playlist collections, the
    selection, and the command handlers that drive the playback service. The
    database, the tag reader and the file system are collaborators whose
    answers come in as parameters. */
module ViewModel {
  import opened Prelude
  import opened Models
  import opened Playback

  /** Which collection object `DisplayedSongs` refers to: the very object
      `Songs` refers to (so songs added to `Songs` are displayed too), or a
      separate one whose contents are frozen until it is replaced. */
  datatype Shown = SameAsSongs | Separate(list: seq<Song>)

  function ShownList(shown: Shown, songs: seq<Song>): seq<Song> {
    match shown
    case SameAsSongs => songs
    case Separate(l) => l
  }

  /** The name of the favourites playlist. */
  const FavoritesName := "Любимое"

  /** The three collections `LoadInitialData` assigns. */
  datatype Lists = Lists(playlists: seq<Playlist>, songs: seq<Song>, shown: Shown)

  /** `LoadInitialData`: a null answer counts as an empty collection and the
      displayed list is `Songs` itself; an exception from either query
      replaces all three with new, separate, empty collections. */
  function InitialLists(playlists: Fetched<seq<Playlist>>, songs: Fetched<seq<Song>>): Lists {
    if playlists.Failed? || songs.Failed? then Lists([], [], Separate([]))
    else
      Lists(if playlists.Rows? then playlists.rows else [],
            if songs.Rows? then songs.rows else [],
            SameAsSongs)
  }

  /** After a successful load the displayed list is `Songs`, and songs added
      to `Songs` later are displayed too. */
  lemma LoadedListsShowLaterAdditions(p: Fetched<seq<Playlist>>, s: Fetched<seq<Song>>, extra: seq<Song>)
    requires !p.Failed? && !s.Failed?
    ensures InitialLists(p, s).songs == (if s.Rows? then s.rows else [])
    ensures ShownList(InitialLists(p, s).shown, InitialLists(p, s).songs + extra) == InitialLists(p, s).songs + extra
  {
  }

  /** After a failed load all three collections are empty, and the displayed
      list stays empty whatever is added to `Songs` afterwards. */
  lemma FailedLoadHidesLaterAdditions(p: Fetched<seq<Playlist>>, s: Fetched<seq<Song>>, extra: seq<Song>)
    requires p.Failed? || s.Failed?
    ensures InitialLists(p, s).playlists == [] && InitialLists(p, s).songs == []
    ensures ShownList(InitialLists(p, s).shown, InitialLists(p, s).songs + extra) == []
  {
  }

  /** What the "previous" button did. */
  datatype PreviousOutcome = SteppedBack(skip: SkipResult) | Restarted | Ignored

  /** `HandlePrevious`: within the first ten seconds and past the first
      index, step back; otherwise restart the current song from zero, if
      there is one. */
  function PreviousPressed(s: PlayerState): (PlayerState, PreviousOutcome) {
    if s.position < 10.0 && s.index > 0 then
      var (t, k) := Previous(s);
      (t, SteppedBack(k))
    else if CurrentSongOf(s).Some? then
      (Played(PositionSet(s, 0.0), CurrentSongOf(s).value, s.playlist.value, s.index), Restarted)
    else (s, Ignored)
  }

  /** The three cases of "previous", stated on the resulting state. */
  lemma PreviousPressedContract(s: PlayerState)
    ensures s.position < 10.0 && s.playlist.Some? && 0 < s.index < |s.playlist.value| ==>
              PreviousPressed(s).1 == SteppedBack(Moved) &&
              PreviousPressed(s).0.index == s.index - 1 &&
              CurrentSongOf(PreviousPressed(s).0) == Some(s.playlist.value[s.index - 1])
    ensures !(s.position < 10.0 && s.index > 0) && CurrentSongOf(s).Some? ==>
              PreviousPressed(s).1 == Restarted &&
              CurrentSongOf(PreviousPressed(s).0) == CurrentSongOf(s) &&
              PreviousPressed(s).0.index == s.index && PreviousPressed(s).0.playlist == s.playlist &&
              PreviousPressed(s).0.position == 0.0 && PreviousPressed(s).0.cue == 0.0 &&
              PreviousPressed(s).0.playing && !PreviousPressed(s).0.paused
    ensures PreviousPressed(s).1 == Ignored <==> !(s.position < 10.0 && s.index > 0) && CurrentSongOf(s).None?
    ensures PreviousPressed(s).1 == Ignored ==> PreviousPressed(s).0 == s
  {
  }

  /** On the first track "previous" always restarts it, however early. */
  lemma PreviousOnFirstTrackRestarts(s: PlayerState)
    requires s.index == 0 && CurrentSongOf(s).Some?
    ensures PreviousPressed(s).1 == Restarted
    ensures CurrentSongOf(PreviousPressed(s).0) == CurrentSongOf(s) && PreviousPressed(s).0.position == 0.0
  {
  }

  /** What the play/pause toggle did. `ReloadFailed` is the exception raised
      when the selected playlist's songs come back null. */
  datatype ToggleOutcome = PausedPlayback | ResumedPlayback | Started(index: int) | FileMissing | ReloadFailed | Idle

  /** Index of the first song with the given id (`FindIndex` by `SongId`). */
  function IndexBySongId(list: seq<Song>, id: int): (i: int)
    ensures -1 <= i < |list|
    ensures i >= 0 ==> list[i].songId == id
    ensures i >= 0 ==> forall k :: 0 <= k < i ==> list[k].songId != id
    ensures i < 0 <==> forall k :: 0 <= k < |list| ==> list[k].songId != id
  {
    FirstIndex(list, (x: Song) => x.songId == id)
  }

  /** `TogglePlayPause`: pause when playing; resume when paused with a
      current song; otherwise start the current (or else the selected) song
      from the list in use, provided its file exists. `list` is that list, or
      None when the selected playlist's songs came back null. */
  function Toggled(s: PlayerState, enginePosition: real, selected: Option<Song>,
                   list: Option<seq<Song>>, fileExists: string -> bool): (PlayerState, ToggleOutcome) {
    if s.playing then (Paused(s, enginePosition), PausedPlayback)
    else if CurrentSongOf(s).Some? && s.paused then (Resumed(s), ResumedPlayback)
    else if selected.Some? then
      var song := CurrentSongOf(s).GetOr(selected.value);
      if !fileExists(song.filePath) then (s, FileMissing)
      else if list.None? then (s, ReloadFailed)
      else
        var i := IndexBySongId(list.value, song.songId);
        (Played(s, song, list.value, i), Started(i))
    else (s, Idle)
  }

  /** The three-way toggle, and that a missing file, a failed reload or an
      empty selection leave the player as it was. */
  lemma ToggleContract(s: PlayerState, p: real, selected: Option<Song>, list: Option<seq<Song>>, fileExists: string -> bool)
    requires Consistent(s)
    ensures s.playing ==>
              Toggled(s, p, selected, list, fileExists) == (Paused(s, p), PausedPlayback) &&
              !Paused(s, p).playing && Paused(s, p).paused
    ensures !s.playing && s.paused && CurrentSongOf(s).Some? ==>
              Toggled(s, p, selected, list, fileExists).1 == ResumedPlayback &&
              Toggled(s, p, selected, list, fileExists).0.playing &&
              Toggled(s, p, selected, list, fileExists).0.cue == s.position
    ensures Toggled(s, p, selected, list, fileExists).1 in {FileMissing, ReloadFailed, Idle} ==>
              Toggled(s, p, selected, list, fileExists).0 == s
    ensures Toggled(s, p, selected, list, fileExists).1 == Idle <==>
              !s.playing && !(s.paused && CurrentSongOf(s).Some?) && selected.None?
    ensures Toggled(s, p, selected, list, fileExists).1.Started? ==>
              var song := CurrentSongOf(s).GetOr(selected.value);
              var i := Toggled(s, p, selected, list, fileExists).1.index;
              fileExists(song.filePath) && list.Some? &&
              Toggled(s, p, selected, list, fileExists).0 == Played(s, song, list.value, i) &&
              i == IndexBySongId(list.value, song.songId)
  {
  }

  /** A pause followed by a toggle resumes exactly where the pause left off. */
  lemma PauseThenToggleResumes(s: PlayerState, p: real, q: real, selected: Option<Song>,
                               list: Option<seq<Song>>, fileExists: string -> bool)
    requires Consistent(s) && s.playing && CurrentSongOf(s).Some?
    ensures Toggled(Paused(s, p), q, selected, list, fileExists) == (Resumed(Paused(s, p)), ResumedPlayback)
    ensures Resumed(Paused(s, p)).playing && Resumed(Paused(s, p)).cue == p
    ensures CurrentSongOf(Resumed(Paused(s, p))) == CurrentSongOf(s)
  {
  }

  /** Paused on an index outside the list, the toggle does not resume: it
      starts the selected song over from position zero. */
  lemma PausedWithoutCurrentSongStartsOver(s: PlayerState, p: real, song: Song, list: seq<Song>, fileExists: string -> bool)
    requires Consistent(s) && s.paused && CurrentSongOf(s).None? && fileExists(song.filePath)
    ensures Toggled(s, p, Some(song), Some(list), fileExists).1.Started?
    ensures Toggled(s, p, Some(song), Some(list), fileExists).0.position == 0.0
    ensures Toggled(s, p, Some(song), Some(list), fileExists).0.source == Some(song.filePath)
  {
  }

  /** Songs added by an import all keep id 0, so when the song to start has
      id 0 the lookup by id lands on the list's first song: the player opens
      the chosen file but reports that first song as current. */
  lemma ZeroIdsStartAtFirstSong(s: PlayerState, p: real, song: Song, list: seq<Song>, fileExists: string -> bool)
    requires Consistent(s) && !s.playing && CurrentSongOf(s).None? && fileExists(song.filePath)
    requires song.songId == 0 && list != [] && list[0].songId == 0
    ensures Toggled(s, p, Some(song), Some(list), fileExists).1 == Started(0)
    ensures CurrentSongOf(Toggled(s, p, Some(song), Some(list), fileExists).0) == Some(list[0])
    ensures Toggled(s, p, Some(song), Some(list), fileExists).0.source == Some(song.filePath)
  {
    assert IndexBySongId(list, 0) == 0;
  }

  /** Every toggle keeps the player's invariant. */
  lemma ToggleKeepsConsistent(s: PlayerState, p: real, selected: Option<Song>, list: Option<seq<Song>>, fileExists: string -> bool)
    requires Consistent(s)
    ensures Consistent(Toggled(s, p, selected, list, fileExists).0)
  {
  }

  /** Every press of "previous" keeps the player's invariant. */
  lemma PreviousKeepsConsistent(s: PlayerState)
    requires Consistent(s)
    ensures Consistent(PreviousPressed(s).0)
  {
  }

  /** The index `PlaySelectedSong` hands to the player: the song's position
      in the list, else 0 for a non-empty list, else -1. */
  function StartIndex(list: seq<Song>, song: Song): (i: int)
    ensures i == -1 <==> |list| == 0
    ensures 0 <= i + 1 <= |list|
    ensures song in list ==> list[i] == song && song !in list[..i]
    ensures song !in list && |list| > 0 ==> i == 0
  {
    var j := IndexOf(list, song);
    if j < 0 && |list| > 0 then 0 else j
  }

  /** When the selected song is not in a non-empty list, the player opens the
      selected song's file but reports the list's first song as current. */
  lemma StartFallbackReportsFirstSong(s: PlayerState, list: seq<Song>, song: Song)
    requires song !in list && |list| > 0
    ensures Played(s, song, list, StartIndex(list, song)).source == Some(song.filePath)
    ensures CurrentSongOf(Played(s, song, list, StartIndex(list, song))) == Some(list[0])
  {
  }

  /** With an empty list the player runs with no current song. */
  lemma StartOnEmptyListHasNoCurrentSong(s: PlayerState, song: Song)
    ensures CurrentSongOf(Played(s, song, [], StartIndex([], song))).None?
    ensures Played(s, song, [], StartIndex([], song)).playing
  {
  }

  /** The search matches a song when its title, its artist's name or its
      genre contains the text, ignoring case. */
  predicate SongMatches(t: CharTables, song: Song, q: string) {
    || ContainsIgnoreCase(t, song.title, q)
    || (song.artist.Some? && ContainsIgnoreCase(t, song.artist.value, q))
    || ContainsIgnoreCase(t, song.genre, q)
  }

  /** The search reads a song's artist only when its title did not match;
      that song must have one (the library query always attaches it). */
  predicate Searchable(t: CharTables, songs: seq<Song>, q: string) {
    forall k :: 0 <= k < |songs| ==> songs[k].artist.Some? || ContainsIgnoreCase(t, songs[k].title, q)
  }

  /** The `Where` filter of `SearchSongs`. */
  function SearchFilter(t: CharTables, songs: seq<Song>, q: string): (r: seq<Song>)
    requires Searchable(t, songs, q)
    ensures forall k :: 0 <= k < |r| ==> r[k] in songs && SongMatches(t, r[k], q)
    ensures forall k :: 0 <= k < |songs| ==> (songs[k] in r <==> SongMatches(t, songs[k], q))
    ensures SubsequenceOf(r, songs)
    ensures |r| <= |songs|
    decreases |songs|
  {
    if songs == [] then []
    else
      assert Searchable(t, songs[1..], q) by {
        forall k | 0 <= k < |songs| - 1
          ensures songs[1..][k].artist.Some? || ContainsIgnoreCase(t, songs[1..][k].title, q)
        {
          assert songs[1..][k] == songs[k + 1];
        }
      }
      var rest := SearchFilter(t, songs[1..], q);
      if SongMatches(t, songs[0], q) then [songs[0]] + rest
      else
        assert rest == [] || rest[0] != songs[0] by {
          if rest != [] {
            assert rest[0] in songs[1..] && SongMatches(t, rest[0], q);
          }
        }
        rest
  }

  /** The tags the tag reader reports for a file. */
  datatype Tags = Tags(title: Option<string>, performers: seq<string>, album: Option<string>,
                       genres: seq<string>, year: int, durationTicks: int)

  /** The song an imported file becomes, with the artist and album names
      passed to the library. */
  datatype ImportedTrack = ImportedTrack(filePath: string, title: string, artistName: string,
                                         albumTitle: string, releaseYear: int, genre: string,
                                         durationTicks: int)

  /** The characters `Path.GetFileName` splits on under Windows. */
  predicate IsSeparator(c: char) {
    c == '\\' || c == '/' || c == ':'
  }

  predicate IsDotChar(c: char) {
    c == '.'
  }

  /** `Path.GetFileName`. */
  function FileNameOf(path: string): string {
    path[LastIndex(path, IsSeparator) + 1..]
  }

  /** `Path.GetFileNameWithoutExtension`: the file name up to its last dot. */
  function FileStem(path: string): string {
    var name := FileNameOf(path);
    var d := LastIndex(name, IsDotChar);
    if d < 0 then name else name[..d]
  }

  /** The import filter: a case-sensitive ".mp3" or ".wav" suffix. */
  predicate IsAudioFile(path: string) {
    EndsWith(path, ".mp3") || EndsWith(path, ".wav")
  }

  /** The defaults of the import: first performer or "Unknown Artist", album
      or "Without Album", first genre or "Unknown", title or the file name
      without its extension; the year through C#'s unchecked `(int)` cast. */
  function TrackFor(file: string, tags: Tags): ImportedTrack
    requires 0 <= tags.year < 0x1_0000_0000
  {
    ImportedTrack(
      file,
      tags.title.GetOr(FileStem(file)),
      if tags.performers == [] then "Unknown Artist" else tags.performers[0],
      tags.album.GetOr("Without Album"),
      UIntToInt(if tags.year > 0 then tags.year else 0),
      if tags.genres == [] then "Unknown" else tags.genres[0],
      tags.durationTicks)
  }

  /** The last four characters of an audio file: a dot, then three
      characters that are neither dots nor separators. */
  lemma AudioSuffix(file: string)
    requires IsAudioFile(file)
    ensures |file| >= 4 && file[|file| - 4] == '.'
    ensures forall m :: |file| - 4 <= m < |file| ==> !IsSeparator(file[m])
    ensures forall m :: |file| - 4 < m < |file| ==> !IsDotChar(file[m])
  {
    var ext := file[|file| - 4..];
    assert ext == ".mp3" || ext == ".wav";
    forall m | |file| - 4 <= m < |file|
      ensures file[m] == ext[m - (|file| - 4)]
    {
    }
  }

  /** In a name whose last four characters are a dot and three non-dots,
      the last dot is the one four characters from the end. */
  lemma LastDotOfExtension(name: string)
    requires |name| >= 4 && IsDotChar(name[|name| - 4])
    requires forall m :: |name| - 4 < m < |name| ==> !IsDotChar(name[m])
    ensures LastIndex(name, IsDotChar) == |name| - 4
  {
  }

  /** The file name of an audio file ends in the file's own extension. */
  lemma AudioFileNameSuffix(file: string)
    requires IsAudioFile(file)
    ensures var name := FileNameOf(file);
            && |name| >= 4 && name[|name| - 4..] == file[|file| - 4..]
            && IsDotChar(name[|name| - 4])
            && forall m :: |name| - 4 < m < |name| ==> !IsDotChar(name[m])
  {
    AudioSuffix(file);
    var j := LastIndex(file, IsSeparator);
    assert j < |file| - 4;
  }

  /** For an audio file, the stem plus the four-character extension is the
      file name: the fallback title is the file name without ".mp3"/".wav". */
  lemma StemDropsAudioExtension(file: string)
    requires IsAudioFile(file)
    ensures FileStem(file) + file[|file| - 4..] == FileNameOf(file)
  {
    var name := FileNameOf(file);
    AudioFileNameSuffix(file);
    LastDotOfExtension(name);
    assert name == name[..|name| - 4] + name[|name| - 4..];
  }

  /** The import's fallbacks, and the year cast: a year at or above 2^31
      becomes a negative release year. */
  lemma TrackDefaults(file: string, tags: Tags)
    requires 0 <= tags.year < 0x1_0000_0000 && IsAudioFile(file)
    ensures tags.title.None? ==> TrackFor(file, tags).title + file[|file| - 4..] == FileNameOf(file)
    ensures tags.performers == [] ==> TrackFor(file, tags).artistName == "Unknown Artist"
    ensures tags.album.None? ==> TrackFor(file, tags).albumTitle == "Without Album"
    ensures tags.genres == [] ==> TrackFor(file, tags).genre == "Unknown"
    ensures tags.year < 0x8000_0000 ==> TrackFor(file, tags).releaseYear == tags.year
    ensures tags.year >= 0x8000_0000 ==> TrackFor(file, tags).releaseYear < 0
  {
    StemDropsAudioExtension(file);
  }

  /** Whether `file` becomes a new song: an audio file the library does not
      know, whose tags could be read and whose library writes succeeded. */
  predicate Imports(file: string, known: string -> bool, readTags: string -> Option<Tags>,
                    stored: ImportedTrack -> bool)
    requires forall f :: readTags(f).Some? ==> 0 <= readTags(f).value.year < 0x1_0000_0000
  {
    IsAudioFile(file) && !known(file) && readTags(file).Some? && stored(TrackFor(file, readTags(file).value))
  }

  /** The songs an import adds, in directory order. */
  function Imported(files: seq<string>, known: string -> bool, readTags: string -> Option<Tags>,
                    stored: ImportedTrack -> bool): (r: seq<ImportedTrack>)
    requires forall f :: readTags(f).Some? ==> 0 <= readTags(f).value.year < 0x1_0000_0000
    ensures |r| <= |files|
    ensures forall k :: 0 <= k < |r| ==> r[k].filePath in files && Imports(r[k].filePath, known, readTags, stored)
    decreases |files|
  {
    if files == [] then []
    else
      var rest := Imported(files[..|files| - 1], known, readTags, stored);
      var f := files[|files| - 1];
      if Imports(f, known, readTags, stored) then rest + [TrackFor(f, readTags(f).value)] else rest
  }

  /** Processing one more file appends its track when it imports. */
  lemma ImportedStep(files: seq<string>, i: int, known: string -> bool,
                     readTags: string -> Option<Tags>, stored: ImportedTrack -> bool)
    requires forall f :: readTags(f).Some? ==> 0 <= readTags(f).value.year < 0x1_0000_0000
    requires 0 <= i < |files|
    ensures Imported(files[..i + 1], known, readTags, stored) ==
              Imported(files[..i], known, readTags, stored) +
              (if Imports(files[i], known, readTags, stored) then [TrackFor(files[i], readTags(files[i]).value)] else [])
  {
    assert files[..i + 1][..i] == files[..i];
  }

  /** Every accepted file of the directory is imported. */
  lemma {:induction false} ImportedCoversAccepted(files: seq<string>, known: string -> bool,
                                                  readTags: string -> Option<Tags>, stored: ImportedTrack -> bool, f: string)
    requires forall g :: readTags(g).Some? ==> 0 <= readTags(g).value.year < 0x1_0000_0000
    requires f in files && Imports(f, known, readTags, stored)
    ensures TrackFor(f, readTags(f).value) in Imported(files, known, readTags, stored)
    decreases |files|
  {
    var last := files[|files| - 1];
    if f != last {
      assert f in files[..|files| - 1] by {
        var k :| 0 <= k < |files| && files[k] == f;
        assert files[..|files| - 1][k] == f;
      }
      ImportedCoversAccepted(files[..|files| - 1], known, readTags, stored, f);
    }
  }

  /** A song matches a planned track when it was built from it. Imported
      songs carry no artist object and keep the default id 0. */
  predicate SongIsTrack(song: Song, track: ImportedTrack) {
    && song.songId == 0 && song.artist.None?
    && song.title == track.title && song.filePath == track.filePath
    && song.genre == track.genre && song.durationTicks == track.durationTicks
  }

  /** The song object built for an imported track. */
  method NewSong(track: ImportedTrack) returns (song: Song)
    ensures fresh(song) && SongIsTrack(song, track) && song.Flags() == FreshFlags
  {
    song := new Song(0, track.title, None, track.genre, track.filePath, track.durationTicks);
  }

  /** The loop of `AddSongsFromDirectory`: one new song per imported file,
      in directory order. */
  method ImportFiles(files: seq<string>, known: string -> bool, readTags: string -> Option<Tags>,
                     stored: ImportedTrack -> bool) returns (added: seq<Song>)
    requires forall f :: readTags(f).Some? ==> 0 <= readTags(f).value.year < 0x1_0000_0000
    ensures |added| == |Imported(files, known, readTags, stored)|
    ensures forall k :: 0 <= k < |added| ==> SongIsTrack(added[k], Imported(files, known, readTags, stored)[k])
  {
    added := [];
    ghost var plan: seq<ImportedTrack> := [];
    var i := 0;
    while i < |files|
      invariant 0 <= i <= |files|
      invariant plan == Imported(files[..i], known, readTags, stored)
      invariant |added| == |plan|
      invariant forall k :: 0 <= k < |added| ==> SongIsTrack(added[k], plan[k])
    {
      var f := files[i];
      ImportedStep(files, i, known, readTags, stored);
      if Imports(f, known, readTags, stored) {
        var track := TrackFor(f, readTags(f).value);
        plan := plan + [track];
        var song := NewSong(track);
        added := added + [song];
      }
      i := i + 1;
    }
    assert files[..i] == files;
  }

  /** The view model object. `player` is the playback service it owns. */
  class MainViewModel {
    const player: MediaPlayerService
    var songs: seq<Song>
    var playlists: seq<Playlist>
    var shown: Shown
    var selectedSong: Song?
    var selectedPlaylist: Option<Playlist>
    var favoritePlaylist: Option<Playlist>
    var currentUserId: int

    /** `DisplayedSongs`. */
    function Displayed(): seq<Song>
      reads this
    {
      ShownList(shown, songs)
    }

    function Selected(): Option<Song>
      reads this
    {
      if selectedSong == null then None else Some(selectedSong)
    }

    /** The list a play command plays from: the selected playlist's songs as
        reloaded from the library, or `Songs`. */
    function PlaylistToUse(reloaded: Option<seq<Song>>): Option<seq<Song>>
      reads this
    {
      if selectedPlaylist.Some? then reloaded else Some(songs)
    }

    /** The constructor: a fresh player, the default user (id 1), and the
        initial load. */
    constructor (playlistsReply: Fetched<seq<Playlist>>, songsReply: Fetched<seq<Song>>)
      ensures fresh(player) && player.State() == Initial
      ensures Lists(playlists, songs, shown) == InitialLists(playlistsReply, songsReply)
      ensures selectedSong == null && selectedPlaylist.None? && favoritePlaylist.None? && currentUserId == 1
    {
      player := new MediaPlayerService();
      songs, playlists, shown := [], [], Separate([]);
      selectedSong := null;
      selectedPlaylist := None;
      favoritePlaylist := None;
      currentUserId := 1;
      new;
      LoadInitialData(playlistsReply, songsReply);
    }

    method LoadInitialData(playlistsReply: Fetched<seq<Playlist>>, songsReply: Fetched<seq<Song>>)
      modifies this
      ensures Lists(playlists, songs, shown) == InitialLists(playlistsReply, songsReply)
      ensures selectedSong == old(selectedSong) && selectedPlaylist == old(selectedPlaylist)
      ensures favoritePlaylist == old(favoritePlaylist) && currentUserId == old(currentUserId)
    {
      if playlistsReply.Failed? || songsReply.Failed? {
        playlists := [];
        songs := [];
        shown := Separate([]);
      } else {
        playlists := if playlistsReply.Rows? then playlistsReply.rows else [];
        songs := if songsReply.Rows? then songsReply.rows else [];
        shown := SameAsSongs;
      }
    }

    /** `ShowHome`: no playlist selected, and the displayed list is `Songs`
        itself again. */
    method ShowHome()
      modifies this
      ensures selectedPlaylist.None? && shown == SameAsSongs && Displayed() == songs
      ensures songs == old(songs) && playlists == old(playlists) && selectedSong == old(selectedSong)
      ensures favoritePlaylist == old(favoritePlaylist) && currentUserId == old(currentUserId)
    {
      selectedPlaylist := None;
      shown := SameAsSongs;
    }

    /** `AddToFavorite`. `created` is what the library's get-or-create call
        returns, `reloaded` its answer to reloading the favourites' songs,
        `favoritesReload` its answer to reloading the selected playlist. The
        result is the (playlist id, song id) pair written, if any. */
    method AddToFavorite(created: Playlist, reloaded: Option<seq<Song>>, favoritesReload: Option<seq<Song>>)
      returns (write: Option<(int, int)>)
      modifies this, selectedSong
      ensures selectedSong == old(selectedSong) && songs == old(songs) && playlists == old(playlists)
      ensures selectedPlaylist == old(selectedPlaylist) && currentUserId == old(currentUserId)
      ensures selectedSong == null ==> write.None? && favoritePlaylist == old(favoritePlaylist) && shown == old(shown)
      ensures selectedSong != null ==>
                var r := Favorited(old(favoritePlaylist), created, selectedSong.songId, reloaded);
                && favoritePlaylist == Some(r.playlist) && write == r.write
                && (write.Some? ==> selectedSong.Flags() == SetFavorite(old(selectedSong.Flags()), true) && selectedSong.isFavorite)
                && (write.None? ==> selectedSong.Flags() == old(selectedSong.Flags()))
                && shown == (if write.Some? && selectedPlaylist.Some? && selectedPlaylist.value.name == FavoritesName
                             then Separate(favoritesReload.GetOr([])) else old(shown))
    {
      write := None;
      if selectedSong != null {
        var fav := favoritePlaylist.GetOr(created);
        favoritePlaylist := Some(fav);
        if HasSongId(fav.songs, selectedSong.songId) {
          return;
        }
        write := Some((fav.playlistId, selectedSong.songId));
        favoritePlaylist := Some(fav.(songs := reloaded.GetOr([])));
        selectedSong.SetIsFavorite(true);
        SetFavoriteResult(old(selectedSong.Flags()), true);
        if selectedPlaylist.Some? && selectedPlaylist.value.name == FavoritesName {
          shown := Separate(favoritesReload.GetOr([]));
        }
      }
    }

    /** `PlaySelectedSong`; `reloaded` is the library's answer when a
        playlist is selected. */
    method PlaySelectedSong(reloaded: Option<seq<Song>>)
      modifies player
      ensures selectedSong == null ==> player.State() == old(player.State())
      ensures selectedSong != null ==>
                var list := if selectedPlaylist.Some? then reloaded.GetOr([]) else songs;
                player.State() == Played(old(player.State()), selectedSong, list, StartIndex(list, selectedSong))
    {
      if selectedSong != null {
        var list := if selectedPlaylist.Some? then reloaded.GetOr([]) else songs;
        var i := StartIndex(list, selectedSong);
        player.Play(selectedSong, list, i);
      }
    }

    /** `TogglePlayPause`; `enginePosition` is the engine's clock,
        `fileExists` the file system's answer, `reloaded` the library's
        answer when a playlist is selected. */
    method TogglePlayPause(enginePosition: real, fileExists: string -> bool, reloaded: Option<seq<Song>>)
      returns (r: ToggleOutcome)
      modifies player
      ensures (player.State(), r) == Toggled(old(player.State()), enginePosition, Selected(), PlaylistToUse(reloaded), fileExists)
    {
      if player.isPlaying {
        player.Pause(enginePosition);
        r := PausedPlayback;
      } else if player.CurrentSong().Some? && player.isPaused {
        player.Resume();
        r := ResumedPlayback;
      } else if selectedSong != null {
        var song := player.CurrentSong().GetOr(selectedSong);
        if !fileExists(song.filePath) {
          r := FileMissing;
        } else {
          var list := PlaylistToUse(reloaded);
          if list.None? {
            r := ReloadFailed;
          } else {
            var i := IndexBySongId(list.value, song.songId);
            player.Play(song, list.value, i);
            r := Started(i);
          }
        }
      } else {
        r := Idle;
      }
    }

    method HandlePrevious() returns (r: PreviousOutcome)
      modifies player
      ensures (player.State(), r) == PreviousPressed(old(player.State()))
    {
      if player.positionInSeconds < 10.0 && player.currentIndex > 0 {
        var k := player.PlayPrevious();
        r := SteppedBack(k);
      } else {
        var current := player.CurrentSong();
        if current.Some? {
          player.SetPositionInSeconds(0.0);
          player.Play(current.value, player.playlist.value, player.currentIndex);
          r := Restarted;
        } else {
          r := Ignored;
        }
      }
    }

    /** `SearchSongs`. Null or empty text reloads `Songs` from the library
        (`playlistSongs` when a playlist is selected, else `allSongs`);
        other text filters `allSongs`. Either way `Songs` is a new collection,
        so the displayed list keeps showing what it showed before. */
    method SearchSongs(t: CharTables, text: Option<string>, playlistSongs: seq<Song>, allSongs: seq<Song>)
      requires text.Some? && text.value != [] ==> Searchable(t, allSongs, text.value)
      modifies this
      ensures songs == (if text.None? || text.value == [] then
                          (if selectedPlaylist.Some? then playlistSongs else allSongs)
                        else SearchFilter(t, allSongs, text.value))
      ensures Displayed() == old(Displayed())
      ensures playlists == old(playlists) && selectedSong == old(selectedSong) && selectedPlaylist == old(selectedPlaylist)
      ensures favoritePlaylist == old(favoritePlaylist) && currentUserId == old(currentUserId)
    {
      shown := Separate(Displayed());
      if text.None? || text.value == [] {
        songs := if selectedPlaylist.Some? then playlistSongs else allSongs;
      } else {
        songs := SearchFilter(t, allSongs, text.value);
      }
    }

    /** `AddSongsFromDirectory`: `files` is the directory listing, `known`
        the library's `SongExists`, `readTags` the tag reader (None when it
        throws), `stored` whether the library writes for a track succeeded.
        Each imported file becomes a new song appended to `Songs`. */
    method AddSongsFromDirectory(dirExists: bool, files: seq<string>, known: string -> bool,
                                 readTags: string -> Option<Tags>, stored: ImportedTrack -> bool)
      requires forall f :: readTags(f).Some? ==> 0 <= readTags(f).value.year < 0x1_0000_0000
      modifies this
      ensures !dirExists ==> songs == old(songs)
      ensures dirExists ==>
                var plan := Imported(files, known, readTags, stored);
                && |songs| == |old(songs)| + |plan|
                && songs[..|old(songs)|] == old(songs)
                && forall k :: 0 <= k < |plan| ==> SongIsTrack(songs[|old(songs)| + k], plan[k])
      ensures shown == old(shown) && playlists == old(playlists) && selectedSong == old(selectedSong)
      ensures selectedPlaylist == old(selectedPlaylist) && favoritePlaylist == old(favoritePlaylist)
      ensures currentUserId == old(currentUserId)
    {
      if !dirExists {
        return;
      }
      var added := ImportFiles(files, known, readTags, stored);
      songs := songs + added;
    }
  }

  /** Whether a playlist already holds a song with the given id. */
  predicate HasSongId(songs: seq<Song>, id: int) {
    exists k :: 0 <= k < |songs| && songs[k].songId == id
  }

  /** What `AddToFavorite` leaves in `_favoritePlaylist`, and the library
      write it makes. */
  datatype FavoriteResult = FavoriteResult(playlist: Playlist, write: Option<(int, int)>)

  /** `AddToFavorite` for a selected song with id `songId`: fetch the
      favourites playlist if not yet known, stop when it already holds the
      id, else write (playlist id, song id) and reload the playlist's songs,
      a null reload counting as empty. */
  function Favorited(fav: Option<Playlist>, created: Playlist, songId: int, reloaded: Option<seq<Song>>): FavoriteResult {
    var p := fav.GetOr(created);
    if HasSongId(p.songs, songId) then FavoriteResult(p, None)
    else FavoriteResult(p.(songs := reloaded.GetOr([])), Some((p.playlistId, songId)))
  }

  /** A write happens exactly when the favourites lack the id, and it writes
      that id into the favourites playlist. */
  lemma FavoriteWritesOnlyMissing(fav: Option<Playlist>, created: Playlist, songId: int, reloaded: Option<seq<Song>>)
    ensures Favorited(fav, created, songId, reloaded).write.Some? <==> !HasSongId(fav.GetOr(created).songs, songId)
    ensures Favorited(fav, created, songId, reloaded).write.Some? ==>
              Favorited(fav, created, songId, reloaded).write.value == (fav.GetOr(created).playlistId, songId)
    ensures Favorited(fav, created, songId, reloaded).playlist.playlistId == fav.GetOr(created).playlistId
  {
  }

  /** Adding the same song twice: when the reload after a write reflects it,
      the second call writes nothing and changes nothing. */
  lemma FavoriteIdempotent(fav: Option<Playlist>, created: Playlist, songId: int, reloaded: Option<seq<Song>>,
                           created2: Playlist, reloaded2: Option<seq<Song>>)
    requires Favorited(fav, created, songId, reloaded).write.Some? ==> reloaded.Some? && HasSongId(reloaded.value, songId)
    ensures var first := Favorited(fav, created, songId, reloaded);
            Favorited(Some(first.playlist), created2, songId, reloaded2) == FavoriteResult(first.playlist, None)
  {
  }

  /** A null reload after the write empties the in-memory favourites, so the
      same song is written a second time on the next call. */
  lemma NullReloadWritesAgain(p: Playlist, songId: int, created2: Playlist, reloaded2: Option<seq<Song>>)
    requires !HasSongId(p.songs, songId)
    ensures var first := Favorited(Some(p), p, songId, None);
            first.write.Some? && first.playlist.songs == [] &&
            Favorited(Some(first.playlist), created2, songId, reloaded2).write == Some((p.playlistId, songId))
  {
  }
}

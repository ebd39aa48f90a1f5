/** The entities of the music library. A song is an object (the views look
    songs up by reference and its favourite flags change in place); users,
    playlists and submissions are plain records. */
module Models {
  import opened Prelude

  /** The two properties a song announces through `PropertyChanged`. */
  datatype SongProperty = IsFavoriteProperty | IsFavoriteLocalProperty

  /** The favourite state of one song: the flag mirrored from storage, the
      optimistic local flag, and the change notifications raised so far. */
  datatype FavoriteFlags = FavoriteFlags(favorite: bool, local: bool, raised: seq<SongProperty>)

  /** Both flags start false and nothing has been announced. */
  const FreshFlags := FavoriteFlags(false, false, [])

  /** The `IsFavorite` setter: a no-op for the current value; otherwise it
      stores the value, announces it, and pulls the local flag along,
      announcing that too, when the local flag differed. */
  function SetFavorite(f: FavoriteFlags, value: bool): FavoriteFlags {
    if f.favorite == value then f
    else
      var g := f.(favorite := value, raised := f.raised + [IsFavoriteProperty]);
      if g.local != g.favorite then g.(local := g.favorite, raised := g.raised + [IsFavoriteLocalProperty])
      else g
  }

  /** The `IsFavoriteLocal` setter: touches only the local flag. */
  function SetFavoriteLocal(f: FavoriteFlags, value: bool): FavoriteFlags {
    if f.local == value then f
    else f.(local := value, raised := f.raised + [IsFavoriteLocalProperty])
  }

  /** A real change of `IsFavorite` leaves both flags equal to the new value;
      the notifications are `IsFavorite`, then `IsFavoriteLocal` exactly when
      the local flag had to move. */
  lemma SetFavoriteSyncsLocal(f: FavoriteFlags, value: bool)
    requires f.favorite != value
    ensures SetFavorite(f, value).favorite == value && SetFavorite(f, value).local == value
    ensures SetFavorite(f, value).raised ==
              f.raised + (if f.local != value then [IsFavoriteProperty, IsFavoriteLocalProperty] else [IsFavoriteProperty])
  {
  }

  /** Setting `IsFavorite` to its current value changes nothing and raises
      nothing, even when the local flag has diverged: the local flag is only
      re-synchronised on an actual change. */
  lemma SetFavoriteSameValueIsSilent(f: FavoriteFlags)
    ensures SetFavorite(f, f.favorite) == f
  {
  }

  /** The stored flag always ends up equal to the value written; the local
      flag does too unless the write was a no-op on a diverged pair. */
  lemma SetFavoriteResult(f: FavoriteFlags, value: bool)
    ensures SetFavorite(f, value).favorite == value
    ensures SetFavorite(f, value).local == value <==> (f.favorite != value || f.local == value)
  {
  }

  /** A concrete pair that stays diverged: local true, stored false; writing
      false to `IsFavorite` leaves the local flag true. */
  lemma DivergedLocalSurvivesSameValueWrite()
    ensures SetFavorite(FreshFlags.(local := true), false).local
  {
  }

  /** `IsFavoriteLocal` never touches the stored flag, so the two may differ. */
  lemma SetLocalLeavesFavorite(f: FavoriteFlags, value: bool)
    ensures SetFavoriteLocal(f, value).favorite == f.favorite
    ensures SetFavoriteLocal(f, value).local == value
    ensures SetFavoriteLocal(f, value).raised ==
              f.raised + (if f.local != value then [IsFavoriteLocalProperty] else [])
  {
  }

  /** Toggling the stored flag twice, from a synchronised pair, restores both
      flags. */
  lemma ToggleTwiceRestores(f: FavoriteFlags)
    requires f.favorite == f.local
    ensures SetFavorite(SetFavorite(f, !f.favorite), f.favorite).favorite == f.favorite
    ensures SetFavorite(SetFavorite(f, !f.favorite), f.favorite).local == f.local
  {
  }

  /** A track. Metadata is fixed when the object is built (the source only
      assigns it in object initialisers); `artist` is the `Artist.Name` of an
      attached artist object, or None when no artist object is attached. */
  class Song {
    const songId: int
    const title: string
    const artist: Option<string>
    const genre: string
    const filePath: string
    const durationTicks: int

    var isFavorite: bool
    var isFavoriteLocal: bool
    /** The `PropertyChanged` notifications raised, oldest first. */
    var notifications: seq<SongProperty>

    function Flags(): FavoriteFlags
      reads this
    {
      FavoriteFlags(isFavorite, isFavoriteLocal, notifications)
    }

    constructor (songId: int, title: string, artist: Option<string>, genre: string, filePath: string, durationTicks: int)
      ensures this.songId == songId && this.title == title && this.artist == artist
      ensures this.genre == genre && this.filePath == filePath && this.durationTicks == durationTicks
      ensures Flags() == FreshFlags
    {
      this.songId := songId;
      this.title := title;
      this.artist := artist;
      this.genre := genre;
      this.filePath := filePath;
      this.durationTicks := durationTicks;
      isFavorite := false;
      isFavoriteLocal := false;
      notifications := [];
    }

    /** The `IsFavorite` property setter. */
    method SetIsFavorite(value: bool)
      modifies this
      ensures Flags() == SetFavorite(old(Flags()), value)
    {
      if isFavorite != value {
        isFavorite := value;
        notifications := notifications + [IsFavoriteProperty];
        if isFavoriteLocal != isFavorite {
          isFavoriteLocal := isFavorite;
          notifications := notifications + [IsFavoriteLocalProperty];
        }
      }
    }

    /** The `IsFavoriteLocal` property setter. */
    method SetIsFavoriteLocal(value: bool)
      modifies this
      ensures Flags() == SetFavoriteLocal(old(Flags()), value)
    {
      if isFavoriteLocal != value {
        isFavoriteLocal := value;
        notifications := notifications + [IsFavoriteLocalProperty];
      }
    }
  }

  /** A row of the Users table as the windows hold it. */
  datatype User = User(userId: int, username: string, email: string, role: string, profileImage: Option<seq<byte>>)

  /** A playlist with the songs currently loaded for it. */
  datatype Playlist = Playlist(playlistId: int, name: string, userId: int, songs: seq<Song>)

  datatype SubmissionStatus = Pending | Approved | Rejected

  /** A music submission as the admin panel reads it: the submission service
      supplies the artist's name alongside the stored columns. */
  datatype Submission = Submission(submissionId: int, title: string, artistName: string, status: SubmissionStatus)
}

/** The admin panel: the three submission lists, a temporary playlist built
    from the pending submissions, and a player that previews them. The
    submission service is a collaborator whose answers come in as
    parameters. */
module Admin {
  import opened Prelude
  import opened Models
  import opened Playback

  /** A temporary song plays a submission when its title and its artist's
      name are the submission's. */
  predicate PlaysSubmission(song: Song, sub: Submission) {
    song.title == sub.title && song.artist == Some(sub.artistName)
  }

  /** The `FirstOrDefault` lookup of `PlaySubmission`, as an index. */
  function SubmissionIndex(temp: seq<Song>, sub: Submission): (i: int)
    ensures -1 <= i < |temp|
    ensures i >= 0 ==> PlaysSubmission(temp[i], sub)
    ensures forall k :: 0 <= k < |temp| && (i < 0 || k < i) ==> !PlaysSubmission(temp[k], sub)
  {
    FirstIndex(temp, (s: Song) => PlaysSubmission(s, sub))
  }

  /** `IndexOf` of the song the lookup found is the lookup's own index: an
      earlier copy of the same object would have matched first. */
  lemma FoundSongIndexIsItsPosition(temp: seq<Song>, sub: Submission)
    requires SubmissionIndex(temp, sub) >= 0
    ensures IndexOf(temp, temp[SubmissionIndex(temp, sub)]) == SubmissionIndex(temp, sub)
  {
    var i := SubmissionIndex(temp, sub);
    var j := IndexOf(temp, temp[i]);
    assert temp[j] == temp[i];
  }

  /** The temporary files a list of submissions gets: the pairs of a
      submission and its non-empty temporary path, in list order.
      `saveTemp` is the service's `SaveTempFile` (None for null). */
  function Playable(subs: seq<Submission>, saveTemp: Submission -> Option<string>): (r: seq<(Submission, string)>)
    ensures |r| <= |subs|
    ensures forall k :: 0 <= k < |r| ==>
              r[k].0 in subs && saveTemp(r[k].0) == Some(r[k].1) && r[k].1 != []
    decreases |subs|
  {
    if subs == [] then []
    else
      var rest := Playable(subs[..|subs| - 1], saveTemp);
      var sub := subs[|subs| - 1];
      var path := saveTemp(sub);
      if path.Some? && path.value != [] then rest + [(sub, path.value)] else rest
  }

  /** One more submission appends its temporary file when it has one. */
  lemma PlayableStep(subs: seq<Submission>, i: int, saveTemp: Submission -> Option<string>)
    requires 0 <= i < |subs|
    ensures Playable(subs[..i + 1], saveTemp) ==
              Playable(subs[..i], saveTemp) +
              (if saveTemp(subs[i]).Some? && saveTemp(subs[i]).value != [] then [(subs[i], saveTemp(subs[i]).value)] else [])
  {
    assert subs[..i + 1][..i] == subs[..i];
  }

  /** Every submission with a usable temporary file is in the playlist. */
  lemma {:induction false} PlayableCoversSaved(subs: seq<Submission>, saveTemp: Submission -> Option<string>, sub: Submission)
    requires sub in subs && saveTemp(sub).Some? && saveTemp(sub).value != []
    ensures (sub, saveTemp(sub).value) in Playable(subs, saveTemp)
    decreases |subs|
  {
    if sub != subs[|subs| - 1] {
      assert sub in subs[..|subs| - 1] by {
        var k :| 0 <= k < |subs| && subs[k] == sub;
        assert subs[..|subs| - 1][k] == sub;
      }
      PlayableCoversSaved(subs[..|subs| - 1], saveTemp, sub);
    }
  }

  /** A temporary song: the submission's title and artist, the temporary
      file, no genre, zero duration. */
  predicate SongIsSubmission(song: Song, sub: Submission, path: string) {
    && song.title == sub.title && song.artist == Some(sub.artistName)
    && song.filePath == path && song.durationTicks == 0 && song.genre == [] && song.songId == 0
  }

  /** `songs` holds one temporary song per planned (submission, path) pair,
      in the same order. */
  predicate SongsFor(songs: seq<Song>, plan: seq<(Submission, string)>) {
    |songs| == |plan| && forall k :: 0 <= k < |songs| ==> SongIsSubmission(songs[k], plan[k].0, plan[k].1)
  }

  /** A temporary song plays exactly the submissions with its title and
      artist name, so every submission turned into a song finds one. */
  lemma SubmissionSongIsFound(song: Song, sub: Submission, path: string)
    requires SongIsSubmission(song, sub, path)
    ensures PlaysSubmission(song, sub)
  {
  }

  method NewTempSong(sub: Submission, path: string) returns (song: Song)
    ensures fresh(song) && SongIsSubmission(song, sub, path)
  {
    song := new Song(0, sub.title, Some(sub.artistName), [], path, 0);
  }

  /** The loop of `AddSubmissionsToPlaylist`: one new song per submission
      with a usable temporary file, in order. */
  method TempSongs(subs: seq<Submission>, saveTemp: Submission -> Option<string>) returns (added: seq<Song>)
    ensures SongsFor(added, Playable(subs, saveTemp))
  {
    added := [];
    ghost var plan: seq<(Submission, string)> := [];
    var i := 0;
    while i < |subs|
      invariant 0 <= i <= |subs|
      invariant plan == Playable(subs[..i], saveTemp)
      invariant SongsFor(added, plan)
    {
      var sub := subs[i];
      PlayableStep(subs, i, saveTemp);
      var path := saveTemp(sub);
      if path.Some? && path.value != [] {
        plan := plan + [(sub, path.value)];
        var song := NewTempSong(sub, path.value);
        added := added + [song];
      }
      i := i + 1;
    }
    assert subs[..i] == subs;
  }

  /** The panel's play/pause button: pause when playing, resume when paused,
      else replay the current song from the temporary playlist when it is in
      it, and otherwise do nothing. */
  function ButtonPressed(s: PlayerState, enginePosition: real, temp: seq<Song>): PlayerState {
    if s.playing then Paused(s, enginePosition)
    else if s.paused then Resumed(s)
    else if CurrentSongOf(s).Some? then
      var i := IndexOf(temp, CurrentSongOf(s).value);
      if i >= 0 then Played(s, CurrentSongOf(s).value, temp, i) else s
    else s
  }

  /** The three-way dispatch of the button, and that a current song outside
      the temporary playlist leaves the player untouched. */
  lemma ButtonContract(s: PlayerState, p: real, temp: seq<Song>)
    requires Consistent(s)
    ensures s.playing ==> ButtonPressed(s, p, temp) == Paused(s, p) && ButtonPressed(s, p, temp).paused
    ensures !s.playing && s.paused ==>
              ButtonPressed(s, p, temp) == Resumed(s) &&
              ButtonPressed(s, p, temp).playing && ButtonPressed(s, p, temp).cue == s.position
    ensures !s.playing && !s.paused && CurrentSongOf(s).Some? && CurrentSongOf(s).value in temp ==>
              ButtonPressed(s, p, temp).playing && ButtonPressed(s, p, temp).playlist == Some(temp) &&
              CurrentSongOf(ButtonPressed(s, p, temp)) == CurrentSongOf(s) &&
              ButtonPressed(s, p, temp).position == 0.0
    ensures !s.playing && !s.paused && (CurrentSongOf(s).None? || CurrentSongOf(s).value !in temp) ==>
              ButtonPressed(s, p, temp) == s
    ensures Consistent(ButtonPressed(s, p, temp))
  {
  }

  /** Unlike the main window's toggle, the panel resumes a pause even when
      the index has left the list. */
  lemma ButtonResumesWithoutCurrentSong(s: PlayerState, p: real, temp: seq<Song>)
    requires Consistent(s) && s.paused && CurrentSongOf(s).None?
    ensures ButtonPressed(s, p, temp).playing && ButtonPressed(s, p, temp).cue == s.position
    ensures ButtonPressed(s, p, temp).index == s.index
  {
  }

  /** The panel object. */
  class AdminPanel {
    const player: MediaPlayerService
    var temp: seq<Song>
    var pendingList: seq<Submission>
    var approvedList: seq<Submission>
    var rejectedList: seq<Submission>
    var isDragging: bool
    var sliderValue: real

    /** Every temporary song carries an artist, so the title-and-artist
        lookup never dereferences a missing one. */
    predicate Valid()
      reads this
    {
      forall k :: 0 <= k < |temp| ==> temp[k].artist.Some?
    }

    /** The constructor: load the submissions, then create the player. */
    constructor (replies: Option<(seq<Submission>, seq<Submission>, seq<Submission>)>,
                 saveTemp: Submission -> Option<string>)
      ensures Valid() && fresh(player) && player.State() == Initial && !isDragging
      ensures replies.None? ==> temp == [] && pendingList == [] && approvedList == [] && rejectedList == []
      ensures replies.Some? ==>
                && pendingList == replies.value.0 && approvedList == replies.value.1 && rejectedList == replies.value.2
                && SongsFor(temp, Playable(replies.value.0, saveTemp))
    {
      player := new MediaPlayerService();
      temp, pendingList, approvedList, rejectedList := [], [], [], [];
      isDragging := false;
      sliderValue := 0.0;
      new;
      LoadAllSubmissions(replies, saveTemp);
    }

    /** `LoadAllSubmissions`. `replies` is the service's answer for Pending,
        Approved and Rejected, or None when a query throws, in which case
        nothing changes. Otherwise the playlist is rebuilt from the pending
        submissions alone. */
    method LoadAllSubmissions(replies: Option<(seq<Submission>, seq<Submission>, seq<Submission>)>,
                              saveTemp: Submission -> Option<string>)
      requires Valid()
      modifies this
      ensures Valid()
      ensures isDragging == old(isDragging) && sliderValue == old(sliderValue)
      ensures replies.None? ==>
                temp == old(temp) && pendingList == old(pendingList) &&
                approvedList == old(approvedList) && rejectedList == old(rejectedList)
      ensures replies.Some? ==>
                && pendingList == replies.value.0 && approvedList == replies.value.1 && rejectedList == replies.value.2
                && SongsFor(temp, Playable(replies.value.0, saveTemp))
    {
      if replies.Some? {
        var (pending, approved, rejected) := replies.value;
        pendingList, approvedList, rejectedList := pending, approved, rejected;
        temp := [];
        AddSubmissionsToPlaylist(pending, saveTemp);
        assert temp[0..] == temp;
      }
    }

    /** `AddSubmissionsToPlaylist`: appends one song per submission with a
        usable temporary file. */
    method AddSubmissionsToPlaylist(subs: seq<Submission>, saveTemp: Submission -> Option<string>)
      requires Valid()
      modifies this
      ensures Valid()
      ensures |temp| >= |old(temp)| && temp[..|old(temp)|] == old(temp)
      ensures SongsFor(temp[|old(temp)|..], Playable(subs, saveTemp))
      ensures pendingList == old(pendingList) && approvedList == old(approvedList) && rejectedList == old(rejectedList)
      ensures isDragging == old(isDragging) && sliderValue == old(sliderValue)
    {
      var added := TempSongs(subs, saveTemp);
      temp := temp + added;
      assert temp[|old(temp)|..] == added;
    }

    /** `PlaySubmission`: play the first temporary song whose title and
        artist match, at its index; report when there is none. */
    method PlaySubmission(sub: Submission) returns (found: bool)
      requires Valid()
      modifies player
      ensures found <==> SubmissionIndex(temp, sub) >= 0
      ensures !found ==> player.State() == old(player.State())
      ensures found ==>
                var i := SubmissionIndex(temp, sub);
                player.State() == Played(old(player.State()), temp[i], temp, i)
    {
      var i := SubmissionIndex(temp, sub);
      if i < 0 {
        return false;
      }
      var song := temp[i];
      var index := IndexOf(temp, song);
      FoundSongIndexIsItsPosition(temp, sub);
      player.Play(song, temp, index);
      return true;
    }

    /** A double click on a list. Only the pending list plays, and only with
        a submission selected; the other two lists show a notice. */
    method DoubleClick(list: SubmissionStatus, selected: Option<Submission>) returns (played: bool)
      requires Valid()
      modifies player
      ensures list != Pending || selected.None? ==> !played && player.State() == old(player.State())
      ensures list == Pending && selected.Some? ==>
                (played <==> SubmissionIndex(temp, selected.value) >= 0)
      ensures played ==>
                var i := SubmissionIndex(temp, selected.value);
                player.State() == Played(old(player.State()), temp[i], temp, i)
      ensures !played ==> player.State() == old(player.State())
    {
      played := false;
      if list == Pending && selected.Some? {
        played := PlaySubmission(selected.value);
      }
    }

    /** `PlayPauseButton_Click`; `enginePosition` is the engine's clock. */
    method PlayPauseButtonClick(enginePosition: real)
      modifies player
      ensures player.State() == ButtonPressed(old(player.State()), enginePosition, temp)
    {
      if player.isPlaying {
        player.Pause(enginePosition);
      } else if player.isPaused {
        player.Resume();
      } else {
        var current := player.CurrentSong();
        if current.Some? {
          var index := IndexOf(temp, current.value);
          if index >= 0 {
            player.Play(current.value, temp, index);
          }
        }
      }
    }

    method DragStarted()
      modifies this
      ensures isDragging && sliderValue == old(sliderValue) && temp == old(temp)
    {
      isDragging := true;
    }

    /** `DragCompleted`: the flag is cleared first; the result is the slider
        value the handler asks the player to seek to. */
    method DragCompleted() returns (seekTo: real)
      modifies this
      ensures !isDragging && seekTo == sliderValue && sliderValue == old(sliderValue) && temp == old(temp)
    {
      isDragging := false;
      seekTo := sliderValue;
    }

    /** The player announced a new position: the slider follows it unless
        the user is dragging it. */
    method OnPositionChanged()
      modifies this
      ensures sliderValue == (if isDragging then old(sliderValue) else player.positionInSeconds)
      ensures isDragging == old(isDragging) && temp == old(temp)
    {
      if !isDragging {
        sliderValue := player.positionInSeconds;
      }
    }

    /** The user moves the slider's thumb (or clicks its track): the value
        follows the mouse, and the `ValueChanged` handler does nothing. */
    method SliderMoved(v: real)
      modifies this
      ensures sliderValue == v && isDragging == old(isDragging) && temp == old(temp)
    {
      sliderValue := v;
    }

    /** One drag of the seek slider: press, move the thumb to `v`, a
        position update from the player meanwhile, release. The seek target
        is where the thumb was released, not where playback had got to. */
    method DragTo(v: real) returns (seekTo: real)
      modifies this
      ensures seekTo == v && sliderValue == v && !isDragging && temp == old(temp)
    {
      DragStarted();
      SliderMoved(v);
      OnPositionChanged();
      seekTo := DragCompleted();
    }
  }
}

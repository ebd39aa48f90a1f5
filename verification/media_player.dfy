/** The playback service: one media engine, the list it plays from, the
    current index and the playing/paused flags. The engine itself (decoding,
    the clock, the render loop) is outside the model: what it reports comes in
    as parameters, and what the service tells it is recorded in the state
    (`source`, `cue`, `engineRunning`). Positions and volumes are `real`s the
    service only stores and compares; no floating-point claim is made. */
module Playback {
  import opened Prelude
  import opened Models

  /** Everything the service holds. `source` is the engine's open file
      (`MediaPlayer.Source`), `cue` the position the service last told the
      engine to play from, `engineRunning` whether the engine is producing
      sound. */
  datatype PlayerState = PlayerState(
    playlist: Option<seq<Song>>,
    index: int,
    playing: bool,
    paused: bool,
    position: real,
    volume: real,
    source: Option<string>,
    cue: real,
    engineRunning: bool)

  /** What a skip did: moved to a neighbour, stayed put, or moved the index
      and then failed to read the list there (`ArgumentOutOfRangeException`,
      possible only after `Play` was given an index far outside the list). */
  datatype SkipResult = Moved | Stayed | OutOfRange

  /** A fresh service: nothing loaded, volume one half. */
  const Initial := PlayerState(None, 0, false, false, 0.0, 0.5, None, 0.0, false)

  /** The invariant every transition keeps: never playing and paused at once,
      the engine runs only while the service believes it is playing, and a
      loaded list, playing or pausing imply an open source. */
  predicate Consistent(s: PlayerState) {
    && !(s.playing && s.paused)
    && (s.engineRunning ==> s.playing)
    && (s.playing || s.paused || s.playlist.Some? ==> s.source.Some?)
  }

  /** The `CurrentSong` getter: the song at the index when the list exists and
      the index is inside it, null otherwise. */
  function CurrentSongOf(s: PlayerState): (r: Option<Song>) {
    if s.playlist.None? || s.index < 0 || s.index >= |s.playlist.value| then None
    else Some(s.playlist.value[s.index])
  }

  /** `Play(song, list, i)`: adopt the list and the index as given (the index
      is not checked), open the song's file from position zero and play. */
  function Played(s: PlayerState, song: Song, list: seq<Song>, i: int): PlayerState {
    s.(playlist := Some(list), index := i, source := Some(song.filePath), cue := 0.0,
       engineRunning := true, playing := true, paused := false, position := 0.0)
  }

  /** `Pause()`: only while playing; captures the engine's position. */
  function Paused(s: PlayerState, enginePosition: real): PlayerState {
    if s.playing then
      s.(position := enginePosition, engineRunning := false, playing := false, paused := true)
    else s
  }

  /** `Resume()`: only when paused with a source open; plays on from the
      stored position. */
  function Resumed(s: PlayerState): PlayerState {
    if s.paused && s.source.Some? then
      s.(cue := s.position, engineRunning := true, playing := true, paused := false)
    else s
  }

  /** `PlayNext()`: step forward while not at the last index; never wraps. */
  function Next(s: PlayerState): (PlayerState, SkipResult) {
    if s.playlist.Some? && s.index < |s.playlist.value| - 1 then
      var list, j := s.playlist.value, s.index + 1;
      if j < 0 then (s.(index := j), OutOfRange)
      else (Played(s, list[j], list, j), Moved)
    else (s, Stayed)
  }

  /** `PlayPrevious()`: step back while the index is positive. */
  function Previous(s: PlayerState): (PlayerState, SkipResult) {
    if s.playlist.Some? && s.index > 0 then
      var list, j := s.playlist.value, s.index - 1;
      if j >= |list| then (s.(index := j), OutOfRange)
      else (Played(s, list[j], list, j), Moved)
    else (s, Stayed)
  }

  /** The `PositionInSeconds` setter: takes effect only with a source open. */
  function PositionSet(s: PlayerState, value: real): PlayerState {
    if s.source.Some? then s.(position := value, cue := value) else s
  }

  /** The `Volume` setter: stored as given, not clamped. */
  function VolumeSet(s: PlayerState, value: real): PlayerState {
    s.(volume := value)
  }

  /** One render tick: republish the engine position while playing. */
  function Rendered(s: PlayerState, enginePosition: real): PlayerState {
    if s.source.Some? && s.playing then s.(position := enginePosition) else s
  }

  /** The engine reached the end of the file: it stops, and the service's only
      reaction is `PlayNext()`. */
  function Ended(s: PlayerState): (PlayerState, SkipResult) {
    Next(s.(engineRunning := false))
  }

  /** Every way the service's state can change. */
  datatype Command =
    | PlayCmd(song: Song, list: seq<Song>, i: int)
    | PauseCmd(enginePosition: real)
    | ResumeCmd
    | NextCmd
    | PreviousCmd
    | PositionCmd(value: real)
    | VolumeCmd(value: real)
    | RenderCmd(enginePosition: real)
    | EndedCmd

  function Step(s: PlayerState, c: Command): PlayerState {
    match c
    case PlayCmd(song, list, i) => Played(s, song, list, i)
    case PauseCmd(p) => Paused(s, p)
    case ResumeCmd => Resumed(s)
    case NextCmd => Next(s).0
    case PreviousCmd => Previous(s).0
    case PositionCmd(v) => PositionSet(s, v)
    case VolumeCmd(v) => VolumeSet(s, v)
    case RenderCmd(p) => Rendered(s, p)
    case EndedCmd => Ended(s).0
  }

  function Run(s: PlayerState, cs: seq<Command>): PlayerState
    decreases |cs|
  {
    if cs == [] then s else Run(Step(s, cs[0]), cs[1..])
  }

  /** The fresh service is consistent. */
  lemma InitialConsistent()
    ensures Consistent(Initial) && CurrentSongOf(Initial).None?
  {
  }

  /** Each single transition keeps the invariant. */
  lemma StepKeepsConsistent(s: PlayerState, c: Command)
    requires Consistent(s)
    ensures Consistent(Step(s, c))
  {
  }

  /** Whatever the service is asked to do, in whatever order, it is never
      playing and paused at once. */
  lemma {:induction false} RunKeepsConsistent(s: PlayerState, cs: seq<Command>)
    requires Consistent(s)
    ensures Consistent(Run(s, cs))
    decreases |cs|
  {
    if cs != [] {
      StepKeepsConsistent(s, cs[0]);
      RunKeepsConsistent(Step(s, cs[0]), cs[1..]);
    }
  }

  /** `CurrentSong` is a bounds-checked lookup. */
  lemma CurrentSongIsLookup(s: PlayerState)
    ensures CurrentSongOf(s).Some? <==> s.playlist.Some? && 0 <= s.index < |s.playlist.value|
    ensures CurrentSongOf(s).Some? ==> CurrentSongOf(s).value == s.playlist.value[s.index]
  {
  }

  /** After `Play` with an index inside the list, the current song is the one
      at that index; with an index outside it there is no current song even
      though playback runs. */
  lemma PlayedCurrentSong(s: PlayerState, song: Song, list: seq<Song>, i: int)
    ensures 0 <= i < |list| ==> CurrentSongOf(Played(s, song, list, i)) == Some(list[i])
    ensures !(0 <= i < |list|) ==> CurrentSongOf(Played(s, song, list, i)).None? && Played(s, song, list, i).playing
  {
  }

  /** Pause and Resume: flags, captured position, and resumption point. */
  lemma PauseResumeContract(s: PlayerState, p: real)
    requires Consistent(s)
    ensures s.playing ==> Paused(s, p).paused && !Paused(s, p).playing && Paused(s, p).position == p
    ensures !s.playing ==> Paused(s, p) == s
    ensures s.paused ==> Resumed(s).playing && !Resumed(s).paused && Resumed(s).cue == s.position
    ensures !s.paused ==> Resumed(s) == s
    ensures s.playing ==> Resumed(Paused(s, p)).cue == p && Resumed(Paused(s, p)).playing
  {
  }

  /** While paused the render tick leaves the captured position alone, and a
      seek made while paused is where playback resumes. The volume setter
      touches nothing but the volume. */
  lemma SeekWhilePausedResumesThere(s: PlayerState, v: real, p: real)
    requires Consistent(s) && s.paused
    ensures Rendered(s, p) == s
    ensures Resumed(PositionSet(s, v)).playing && Resumed(PositionSet(s, v)).cue == v
    ensures VolumeSet(s, v).volume == v && VolumeSet(s, v).(volume := s.volume) == s
  {
  }

  /** From an index inside the list both skips stay inside it and never fail;
      a forward skip moves by exactly one unless already at the end, a backward
      skip by exactly one unless already at the start. */
  lemma SkipsStayInBounds(s: PlayerState)
    requires s.playlist.Some? && 0 <= s.index < |s.playlist.value|
    ensures Next(s).1 != OutOfRange && Previous(s).1 != OutOfRange
    ensures 0 <= Next(s).0.index < |s.playlist.value| && 0 <= Previous(s).0.index < |s.playlist.value|
    ensures Next(s).0.index == if s.index < |s.playlist.value| - 1 then s.index + 1 else s.index
    ensures Previous(s).0.index == if s.index > 0 then s.index - 1 else s.index
  {
  }

  /** At the last track the end-of-media event changes nothing but the engine:
      no wrap, and the service keeps reporting that it is playing. */
  lemma EndOfListKeepsPlayingFlag(s: PlayerState)
    requires s.playlist.Some? && s.index == |s.playlist.value| - 1 && s.playing
    ensures Ended(s).1 == Stayed
    ensures Ended(s).0 == s.(engineRunning := false)
    ensures Ended(s).0.playing && !Ended(s).0.engineRunning
  {
  }

  function NextN(s: PlayerState, n: nat): PlayerState
    decreases n
  {
    if n == 0 then s else NextN(Next(s).0, n - 1)
  }

  function PreviousN(s: PlayerState, n: nat): PlayerState
    decreases n
  {
    if n == 0 then s else PreviousN(Previous(s).0, n - 1)
  }

  function Min(a: int, b: int): int { if a <= b then a else b }
  function Max(a: int, b: int): int { if a >= b then a else b }

  /** Repeated `PlayNext` from a valid index climbs one track at a time and
      stops at the last one: it never wraps around to the start. */
  lemma {:induction false} NextNeverWraps(s: PlayerState, n: nat)
    requires s.playlist.Some? && 0 <= s.index < |s.playlist.value|
    ensures NextN(s, n).playlist == s.playlist
    ensures NextN(s, n).index == Min(s.index + n, |s.playlist.value| - 1)
    ensures CurrentSongOf(NextN(s, n)) == Some(s.playlist.value[NextN(s, n).index])
    decreases n
  {
    if n > 0 {
      NextNeverWraps(Next(s).0, n - 1);
    }
  }

  /** Repeated `PlayPrevious` from a valid index descends one track at a time
      and stops at the first one. */
  lemma {:induction false} PreviousStopsAtFirst(s: PlayerState, n: nat)
    requires s.playlist.Some? && 0 <= s.index < |s.playlist.value|
    ensures PreviousN(s, n).playlist == s.playlist
    ensures PreviousN(s, n).index == Max(s.index - n, 0)
    ensures CurrentSongOf(PreviousN(s, n)) == Some(s.playlist.value[PreviousN(s, n).index])
    decreases n
  {
    if n > 0 {
      PreviousStopsAtFirst(Previous(s).0, n - 1);
    }
  }

  /** The playback service object. */
  class MediaPlayerService {
    var playlist: Option<seq<Song>>
    var currentIndex: int
    var isPlaying: bool
    var isPaused: bool
    var positionInSeconds: real
    var volume: real
    var source: Option<string>
    var cue: real
    var engineRunning: bool

    function State(): PlayerState
      reads this
    {
      PlayerState(playlist, currentIndex, isPlaying, isPaused, positionInSeconds, volume, source, cue, engineRunning)
    }

    constructor ()
      ensures State() == Initial && Consistent(State())
    {
      playlist := None;
      currentIndex := 0;
      isPlaying, isPaused := false, false;
      positionInSeconds := 0.0;
      volume := 0.5;
      source := None;
      cue := 0.0;
      engineRunning := false;
    }

    function CurrentSong(): Option<Song>
      reads this
    {
      CurrentSongOf(State())
    }

    method Play(song: Song, list: seq<Song>, index: int)
      modifies this
      ensures State() == Played(old(State()), song, list, index)
    {
      playlist := Some(list);
      currentIndex := index;
      source := Some(song.filePath);
      cue := 0.0;
      engineRunning := true;
      isPlaying := true;
      isPaused := false;
      positionInSeconds := 0.0;
    }

    /** `enginePosition` is what the engine's clock reads at the moment. */
    method Pause(enginePosition: real)
      modifies this
      ensures State() == Paused(old(State()), enginePosition)
    {
      if isPlaying {
        positionInSeconds := enginePosition;
        engineRunning := false;
        isPlaying := false;
        isPaused := true;
      }
    }

    method Resume()
      modifies this
      ensures State() == Resumed(old(State()))
    {
      if isPaused && source.Some? {
        cue := positionInSeconds;
        engineRunning := true;
        isPlaying := true;
        isPaused := false;
      }
    }

    method PlayNext() returns (r: SkipResult)
      modifies this
      ensures (State(), r) == Next(old(State()))
    {
      if playlist.Some? && currentIndex < |playlist.value| - 1 {
        currentIndex := currentIndex + 1;
        if currentIndex < 0 {
          return OutOfRange;
        }
        var list := playlist.value;
        Play(list[currentIndex], list, currentIndex);
        return Moved;
      }
      return Stayed;
    }

    method PlayPrevious() returns (r: SkipResult)
      modifies this
      ensures (State(), r) == Previous(old(State()))
    {
      if playlist.Some? && currentIndex > 0 {
        currentIndex := currentIndex - 1;
        if currentIndex >= |playlist.value| {
          return OutOfRange;
        }
        var list := playlist.value;
        Play(list[currentIndex], list, currentIndex);
        return Moved;
      }
      return Stayed;
    }

    method SetPositionInSeconds(value: real)
      modifies this
      ensures State() == PositionSet(old(State()), value)
    {
      if source.Some? {
        positionInSeconds := value;
        cue := value;
      }
    }

    method SetVolume(value: real)
      modifies this
      ensures State() == VolumeSet(old(State()), value)
    {
      volume := value;
    }

    /** The per-frame render callback. */
    method OnRendering(enginePosition: real)
      modifies this
      ensures State() == Rendered(old(State()), enginePosition)
    {
      if source.Some? && isPlaying {
        positionInSeconds := enginePosition;
      }
    }

    /** The engine's `MediaEnded` event. */
    method OnMediaEnded() returns (r: SkipResult)
      modifies this
      ensures (State(), r) == Ended(old(State()))
    {
      engineRunning := false;
      r := PlayNext();
    }
  }
}

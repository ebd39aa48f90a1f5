/** The artist's "submit a track" form (SubmitMusicRequestWindow): two file
    pickers fill the form's state, and Submit checks it and hands a request
    to the submission service. File reads, TagLib, the image decoder, the
    clock and the service are parameters. */
module SubmitRequest {
  import opened Prelude
  import opened Models

  /** The state the pickers build up: the chosen MP3's path and bytes, the
      cover bytes, the cover preview and the detected release year. */
  datatype SubmitForm = SubmitForm(mp3Path: Option<string>, mp3Bytes: Option<seq<byte>>,
                                   coverBytes: Option<seq<byte>>, preview: Option<seq<byte>>,
                                   detectedYear: int)

  /** A fresh form: nothing chosen, and the year of the current date. */
  function NewForm(currentYear: int): SubmitForm {
    SubmitForm(None, None, None, None, currentYear)
  }

  /** What reading the chosen MP3 produced: `ReadAllBytes` may throw, and
      TagLib may throw after the bytes were read. `tagYear` is TagLib's
      unsigned `Tag.Year`. */
  datatype Mp3Read = Unreadable | TagsUnreadable(bytes: seq<byte>) | Read(bytes: seq<byte>, tagYear: nat)

  predicate WellFormedRead(read: Mp3Read) {
    read.Read? ==> read.tagYear < 0x1_0000_0000
  }

  /** Browse MP3: the path is taken first, so it changes even when the read
      then fails; the bytes change only when the read succeeds; the year
      changes only for a tag year above zero, through the unchecked
      `(int)` cast. */
  function Mp3Chosen(f: SubmitForm, path: string, read: Mp3Read): (g: SubmitForm)
    requires WellFormedRead(read)
    ensures g.mp3Path == Some(path)
    ensures g.coverBytes == f.coverBytes && g.preview == f.preview
    ensures read.Unreadable? ==> g.mp3Bytes == f.mp3Bytes
    ensures !read.Unreadable? ==> g.mp3Bytes == Some(read.bytes)
    ensures g.detectedYear != f.detectedYear ==> read.Read? && read.tagYear > 0
    ensures read.Read? && read.tagYear > 0 ==> g.detectedYear == UIntToInt(read.tagYear)
  {
    var g := f.(mp3Path := Some(path));
    match read
    case Unreadable => g
    case TagsUnreadable(bytes) => g.(mp3Bytes := Some(bytes))
    case Read(bytes, year) =>
      g.(mp3Bytes := Some(bytes), detectedYear := if year > 0 then UIntToInt(year) else f.detectedYear)
  }

  /** Picking a file whose tags carry no year keeps the year detected
      earlier (or the current year), not zero. */
  lemma YearSurvivesFileWithoutYear(currentYear: int, p1: string, r1: Mp3Read, p2: string, bytes: seq<byte>)
    requires WellFormedRead(r1)
    requires !(r1.Read? && r1.tagYear > 0)
    ensures Mp3Chosen(Mp3Chosen(NewForm(currentYear), p1, r1), p2, Read(bytes, 0)).detectedYear == currentYear
  {
  }

  /** A tag year of 2^31 or more becomes a negative year. */
  lemma HugeTagYearTurnsNegative(f: SubmitForm, path: string, bytes: seq<byte>, year: nat)
    requires 0x8000_0000 <= year < 0x1_0000_0000
    ensures Mp3Chosen(f, path, Read(bytes, year)).detectedYear < 0
  {
  }

  /** What reading a cover produced: `ReadAllBytes` may throw, and the bytes
      read may then fail to decode. */
  datatype CoverRead = CoverUnreadable | CoverBytes(bytes: seq<byte>, decodes: bool)

  /** Browse cover and Use default cover: the bytes are stored before the
      decoder runs, so they are kept even when the preview cannot show
      them. */
  function CoverChosen(f: SubmitForm, read: CoverRead): (g: SubmitForm)
    ensures g.mp3Path == f.mp3Path && g.mp3Bytes == f.mp3Bytes && g.detectedYear == f.detectedYear
    ensures read.CoverUnreadable? ==> g == f
    ensures read.CoverBytes? ==> g.coverBytes == Some(read.bytes)
    ensures g.preview != f.preview ==> read.CoverBytes? && read.decodes && g.preview == Some(read.bytes)
  {
    match read
    case CoverUnreadable => f
    case CoverBytes(bytes, decodes) =>
      f.(coverBytes := Some(bytes), preview := if decodes then Some(bytes) else f.preview)
  }

  /** After an undecodable cover the form submits bytes that differ from the
      picture shown, whenever an earlier cover is on display. */
  lemma SubmittedCoverMayDifferFromPreview(f: SubmitForm, bytes: seq<byte>)
    requires f.preview.Some? && f.preview.value != bytes
    ensures CoverChosen(f, CoverBytes(bytes, false)).coverBytes != CoverChosen(f, CoverBytes(bytes, false)).preview
  {
  }

  /** Why Submit refuses, in the order the checks run. */
  datatype SubmitError = NoMp3 | NoTitle | NoCover | NoGenre | NotAuthor

  /** The genre combo box: nothing selected, or an item whose content may be
      null. */
  datatype GenreChoice = NoSelection | Selected(content: Option<string>)

  /** The arguments of `SubmitMusicRequest`. */
  datatype Request = Request(artistId: int, title: string, genre: Option<string>, mp3: seq<byte>,
                             cover: seq<byte>, year: int, albumTitle: string)

  datatype SubmitOutcome = Invalid(reason: SubmitError) | SubmitFailed | Submitted(request: Request)

  /** A form Submit accepts: an MP3 was read, the title is not blank, a
      cover was read, a genre is selected and authorship was not denied. The
      check box's `!IsChecked == true` rejects only an explicit `false`: an
      indeterminate (null) box passes. */
  predicate SubmitAcceptable(t: CharTables, f: SubmitForm, title: string, genre: GenreChoice, authorship: Option<bool>) {
    f.mp3Bytes.Some? && !IsBlank(t, title) && f.coverBytes.Some? && genre.Selected? && authorship != Some(false)
  }

  function CheckSubmit(t: CharTables, f: SubmitForm, title: string, genre: GenreChoice, authorship: Option<bool>): (r: Option<SubmitError>)
    ensures r == None <==> SubmitAcceptable(t, f, title, genre, authorship)
    ensures r == Some(NoMp3) <==> f.mp3Bytes == None
    ensures r == Some(NoTitle) ==> f.mp3Bytes.Some? && IsBlank(t, title)
    ensures r == Some(NoCover) ==> f.mp3Bytes.Some? && !IsBlank(t, title) && f.coverBytes == None
    ensures r == Some(NoGenre) ==> f.mp3Bytes.Some? && f.coverBytes.Some? && genre == NoSelection
    ensures r == Some(NotAuthor) <==> f.mp3Bytes.Some? && !IsBlank(t, title) && f.coverBytes.Some? && genre.Selected? && authorship == Some(false)
  {
    if f.mp3Bytes.None? then Some(NoMp3)
    else if IsBlank(t, title) then Some(NoTitle)
    else if f.coverBytes.None? then Some(NoCover)
    else if genre.NoSelection? then Some(NoGenre)
    else if authorship == Some(false) then Some(NotAuthor)
    else None
  }

  /** The request an accepted form produces: trimmed title and album title,
      the stored bytes and the detected year. */
  function RequestFor(t: CharTables, f: SubmitForm, artist: User, title: string, album: string, genre: GenreChoice): Request
    requires f.mp3Bytes.Some? && f.coverBytes.Some? && genre.Selected?
  {
    Request(artist.userId, Trim(t, title), genre.content, f.mp3Bytes.value, f.coverBytes.value, f.detectedYear, Trim(t, album))
  }

  /** One press of Submit. `artist` is the window's user, which may be null
      (then reading its id throws inside the try block); `submit` stands for
      the service call, false when it throws. */
  function SubmitPressed(t: CharTables, f: SubmitForm, artist: Option<User>, title: string, album: string,
                         genre: GenreChoice, authorship: Option<bool>, submit: Request -> bool): (r: SubmitOutcome)
    ensures r.Invalid? <==> !SubmitAcceptable(t, f, title, genre, authorship)
    ensures r.Invalid? ==> CheckSubmit(t, f, title, genre, authorship) == Some(r.reason)
    ensures r.Submitted? <==>
              SubmitAcceptable(t, f, title, genre, authorship) && artist.Some?
              && submit(RequestFor(t, f, artist.value, title, album, genre))
    ensures r.Submitted? ==> r.request.title == Trim(t, title) && r.request.albumTitle == Trim(t, album)
    ensures r.Submitted? ==> Some(r.request.mp3) == f.mp3Bytes && Some(r.request.cover) == f.coverBytes
    ensures r.Submitted? ==> r.request.year == f.detectedYear && r.request.artistId == artist.value.userId
  {
    match CheckSubmit(t, f, title, genre, authorship)
    case Some(e) => Invalid(e)
    case None =>
      if artist.None? then SubmitFailed
      else
        var req := RequestFor(t, f, artist.value, title, album, genre);
        if submit(req) then Submitted(req) else SubmitFailed
  }

  /** An unticked (indeterminate) authorship box is treated as a tick. */
  lemma IndeterminateAuthorshipPasses(t: CharTables, f: SubmitForm, title: string, genre: GenreChoice)
    ensures CheckSubmit(t, f, title, genre, None) == CheckSubmit(t, f, title, genre, Some(true))
  {
  }

  /** A submitted title is never empty and carries no surrounding white
      space. */
  lemma SubmittedTitleIsTrimmedAndNonEmpty(t: CharTables, f: SubmitForm, artist: Option<User>, title: string, album: string,
                                           genre: GenreChoice, authorship: Option<bool>, submit: Request -> bool)
    requires SubmitPressed(t, f, artist, title, album, genre, authorship, submit).Submitted?
    ensures SubmitPressed(t, f, artist, title, album, genre, authorship, submit).request.title != []
    ensures SubmitPressed(t, f, artist, title, album, genre, authorship, submit).request.title
         == Trim(t, SubmitPressed(t, f, artist, title, album, genre, authorship, submit).request.title)
  {
    TrimEmptyIffBlank(t, title);
    TrimIdempotent(t, title);
  }

  class SubmitMusicRequestWindow {
    const artist: Option<User>
    var form: SubmitForm
    var dialogResult: Option<bool>
    var closed: bool

    /** `currentYear` is `DateTime.Now.Year`. */
    constructor(artist: Option<User>, currentYear: int)
      ensures this.artist == artist && form == NewForm(currentYear)
      ensures dialogResult == None && !closed
    {
      this.artist := artist;
      form := NewForm(currentYear);
      dialogResult := None;
      closed := false;
    }

    /** Browse MP3; `pick` is None when the dialog is cancelled. */
    method BrowseMp3(pick: Option<(string, Mp3Read)>)
      requires pick.Some? ==> WellFormedRead(pick.value.1)
      modifies this
      ensures pick.None? ==> form == old(form)
      ensures pick.Some? ==> form == Mp3Chosen(old(form), pick.value.0, pick.value.1)
      ensures dialogResult == old(dialogResult) && closed == old(closed)
    {
      if pick.Some? {
        form := Mp3Chosen(form, pick.value.0, pick.value.1);
      }
    }

    /** Browse cover; `pick` is None when the dialog is cancelled. */
    method BrowseCover(pick: Option<CoverRead>)
      modifies this
      ensures pick.None? ==> form == old(form)
      ensures pick.Some? ==> form == CoverChosen(old(form), pick.value)
      ensures dialogResult == old(dialogResult) && closed == old(closed)
    {
      if pick.Some? {
        form := CoverChosen(form, pick.value);
      }
    }

    /** Use default cover: reads the bundled picture, no dialog. */
    method UseDefaultCover(read: CoverRead)
      modifies this
      ensures form == CoverChosen(old(form), read)
      ensures dialogResult == old(dialogResult) && closed == old(closed)
    {
      form := CoverChosen(form, read);
    }

    /** Submit: the dialog result is set, and the window closed, only after
        the service accepted the request. */
    method SubmitClick(t: CharTables, title: string, album: string, genre: GenreChoice,
                       authorship: Option<bool>, submit: Request -> bool) returns (r: SubmitOutcome)
      requires !closed
      modifies this
      ensures r == SubmitPressed(t, old(form), artist, title, album, genre, authorship, submit)
      ensures r.Submitted? ==> dialogResult == Some(true) && closed
      ensures !r.Submitted? ==> dialogResult == old(dialogResult) && !closed
      ensures form == old(form)
    {
      r := SubmitPressed(t, form, artist, title, album, genre, authorship, submit);
      Finish(r.Submitted?);
    }

    /** The end of Submit: on success the dialog result, then `Close()`. */
    method Finish(submitted: bool)
      modifies this
      ensures submitted ==> dialogResult == Some(true) && closed
      ensures !submitted ==> dialogResult == old(dialogResult) && closed == old(closed)
      ensures form == old(form)
    {
      if submitted {
        dialogResult := Some(true);
        closed := true;
      }
    }

    /** Cancel: the closing animation ends in `Close()`. */
    method Cancel()
      modifies this
      ensures closed && form == old(form) && dialogResult == old(dialogResult)
    {
      closed := true;
    }
  }
}

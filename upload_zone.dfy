/** The upload zone on the home page: it accepts one image by drag and drop
    or through the file picker, checks its MIME type and size, and uploads
    it, moving on to the dashboard of the new blueprint. */
module UploadZone {
  import opened Common
  import opened ClientTypes

  /** A browser `File` as the zone reads it. */
  datatype File = File(name: string, mimeType: string, size: nat)

  const ValidTypes: seq<string> := ["image/jpeg", "image/jpg", "image/png"]
  const MaxSize: nat := 10 * 1024 * 1024
  const TypeMessage := "Please upload a JPG or PNG image"
  const SizeMessage := "File size must be less than 10MB"
  const UploadFallback := "Upload failed. Please try again."

  /** `validateFile` as a value: `None` for an acceptable file, else the
      message it shows. The type is checked first. */
  function Rejection(f: File): (r: Option<string>)
    ensures r.None? <==> f.mimeType in ValidTypes && f.size <= MaxSize
    ensures f.mimeType !in ValidTypes ==> r == Some(TypeMessage)
    ensures f.mimeType in ValidTypes && f.size > MaxSize ==> r == Some(SizeMessage)
  {
    if f.mimeType !in ValidTypes then Some(TypeMessage)
    else if f.size > MaxSize then Some(SizeMessage)
    else None
  }

  predicate Acceptable(f: File)
  {
    Rejection(f).None?
  }

  /** The limit is inclusive: 10 MiB exactly passes, one byte more fails. */
  lemma SizeLimitInclusive(name: string, mimeType: string)
    requires mimeType in ValidTypes
    ensures Acceptable(File(name, mimeType, 10485760))
    ensures Rejection(File(name, mimeType, 10485761)) == Some(SizeMessage)
  {
  }

  /** A file of the wrong type is reported as such whatever its size. */
  lemma TypeReportedFirst(f: File)
    requires f.mimeType !in ValidTypes
    ensures forall size: nat :: Rejection(f.(size := size)) == Some(TypeMessage)
  {
  }

  /** The zone's state variables, and where the router was sent. */
  datatype ZoneState = ZoneState(
    isDragging: bool,
    file: Option<File>,
    uploading: bool,
    error: Option<string>,
    location: Option<string>)

  const InitialZone := ZoneState(false, None, false, None, None)

  /** The file the zone holds, if any, passed the check. */
  predicate HoldsValidFile(s: ZoneState)
  {
    s.file.Some? ==> Acceptable(s.file.value)
  }

  /** `validateFile` followed by `setFile` when it passes, on the first of
      the files offered (none when the list is empty). */
  function Offered(s: ZoneState, files: seq<File>): ZoneState
  {
    if files == [] then s
    else
      var f := files[0];
      if Acceptable(f) then s.(file := Some(f), error := None)
      else s.(error := Rejection(f))
  }

  function AfterDragEnter(s: ZoneState): ZoneState
  {
    s.(isDragging := true)
  }

  function AfterDragLeave(s: ZoneState): ZoneState
  {
    s.(isDragging := false)
  }

  function AfterDrop(s: ZoneState, files: seq<File>): ZoneState
  {
    Offered(s.(isDragging := false), files)
  }

  /** How the upload request ended: the new blueprint's id, or a rejection. */
  datatype UploadOutcome = Uploaded(id: string) | Refused(err: ApiError)

  /** `handleUpload`: nothing without a file; otherwise the request, then
      navigation or an error, and `uploading` back to false. */
  function AfterUpload(s: ZoneState, outcome: UploadOutcome): ZoneState
  {
    if s.file.None? then s
    else
      var s1 := s.(uploading := true, error := None);
      var s2 := match outcome
        case Uploaded(id) => s1.(location := Some("/dashboard/" + id))
        case Refused(e) => s1.(error := Some(ErrorText(e, UploadFallback)));
      s2.(uploading := false)
  }

  /** An offered file replaces the held one exactly when it passes the
      check; a rejected file leaves the held one in place and reports why. */
  lemma OfferedReplacesOnlyValid(s: ZoneState, files: seq<File>)
    requires files != []
    ensures var t := Offered(s, files);
      && (Acceptable(files[0]) ==> t.file == Some(files[0]) && t.error.None?)
      && (!Acceptable(files[0]) ==> t.file == s.file && t.error == Rejection(files[0]) && t.error.Some?)
  {
  }

  /** Only the first file of a multiple drop or selection is looked at. */
  lemma OnlyFirstFileCounts(s: ZoneState, files: seq<File>, more: seq<File>)
    requires files != []
    ensures Offered(s, files + more) == Offered(s, files[..1])
  {
    assert (files + more)[0] == files[..1][0];
  }

  /** Every handler keeps the held file a valid one. */
  lemma HandlersKeepValidFile(s: ZoneState, files: seq<File>, outcome: UploadOutcome)
    requires HoldsValidFile(s)
    ensures HoldsValidFile(AfterDragEnter(s)) && HoldsValidFile(AfterDragLeave(s))
    ensures HoldsValidFile(Offered(s, files)) && HoldsValidFile(AfterDrop(s, files))
    ensures HoldsValidFile(AfterUpload(s, outcome))
  {
  }

  /** Entering sets the drag flag; leaving and dropping clear it. */
  lemma DragFlag(s: ZoneState, files: seq<File>)
    ensures AfterDragEnter(s).isDragging
    ensures !AfterDragLeave(s).isDragging && !AfterDrop(s, files).isDragging
    ensures AfterDrop(s, files).file == Offered(s, files).file
  {
  }

  /** Upload without a file changes nothing. */
  lemma UploadNeedsFile(s: ZoneState, outcome: UploadOutcome)
    requires s.file.None?
    ensures AfterUpload(s, outcome) == s
  {
  }

  /** With a file, the upload always ends with `uploading` false, and either
      moves to the new blueprint's dashboard without an error or stays put
      with a non-empty error. */
  lemma UploadEnds(s: ZoneState, outcome: UploadOutcome)
    requires s.file.Some? && !s.uploading
    ensures var t := AfterUpload(s, outcome);
      && !t.uploading
      && t.file == s.file
      && (outcome.Uploaded? ==> t.location == Some("/dashboard/" + outcome.id) && t.error.None?)
      && (outcome.Refused? ==> t.location == s.location && t.error.Some? && t.error.value != "")
  {
  }

  /** The backend's error replies carry `detail`, not `message`, so every
      refused upload shows the fallback text. */
  lemma RefusalShowsFallback(s: ZoneState, status: int, detail: string)
    requires s.file.Some?
    ensures AfterUpload(s, Refused(FromHttpError(status, detail))).error == Some(UploadFallback)
  {
  }

  /** The navigation target names the new id after the dashboard prefix. */
  lemma LocationCarriesId(s: ZoneState, id: string)
    requires s.file.Some?
    ensures var loc := AfterUpload(s, Uploaded(id)).location.value;
      StartsWith(loc, "/dashboard/") && loc[11..] == id
  {
  }

  /** The component: its handlers update the state variables in place. */
  class Zone {
    var isDragging: bool
    var file: Option<File>
    var uploading: bool
    var error: Option<string>
    var location: Option<string>

    function State(): ZoneState
      reads this
    {
      ZoneState(isDragging, file, uploading, error, location)
    }

    constructor ()
      ensures State() == InitialZone
    {
      isDragging, file, uploading, error, location := false, None, false, None, None;
    }

    method DragEnter()
      modifies this
      ensures State() == AfterDragEnter(old(State()))
    {
      isDragging := true;
    }

    method DragLeave()
      modifies this
      ensures State() == AfterDragLeave(old(State()))
    {
      isDragging := false;
    }

    /** Only cancels the browser's default handling. */
    method DragOver()
      ensures State() == old(State())
    {
    }

    /** `validateFile`: sets or clears the error and reports the verdict. */
    method ValidateFile(f: File) returns (ok: bool)
      modifies this
      ensures ok <==> Acceptable(f)
      ensures State() == old(State()).(error := Rejection(f))
    {
      var validTypes := ValidTypes;
      if f.mimeType !in validTypes {
        error := Some(TypeMessage);
        return false;
      }
      if f.size > MaxSize {
        error := Some(SizeMessage);
        return false;
      }
      error := None;
      return true;
    }

    method FileSelect(files: seq<File>)
      modifies this
      ensures State() == Offered(old(State()), files)
    {
      if files != [] {
        var selected := files[0];
        var ok := ValidateFile(selected);
        if ok {
          file := Some(selected);
        }
      }
    }

    method Drop(files: seq<File>)
      modifies this
      ensures State() == AfterDrop(old(State()), files)
    {
      isDragging := false;
      FileSelect(files);
    }

    /** `handleUpload`, with the reply of the upload request as a parameter
      and the router's `navigate` recorded in `location`. */
    method Upload(outcome: UploadOutcome)
      modifies this
      ensures State() == AfterUpload(old(State()), outcome)
    {
      if file.None? {
        return;
      }
      uploading := true;
      error := None;
      match outcome {
        case Uploaded(id) =>
          location := Some("/dashboard/" + id);
        case Refused(e) =>
          error := Some(ErrorText(e, UploadFallback));
      }
      uploading := false;
    }
  }
}

/** The photo upload test page (app/upload-test/page.tsx): uploading one
    photo for a visit, loading a visit's photos, and the two helpers that
    label a photo (its file name and its size). */
module UploadTest {
  import opened Common

  /** A visit photo as the backend describes it. */
  datatype VisitPhoto = VisitPhoto(
    id: string, visitId: string, filePath: string,
    originalName: Option<string>, sizeBytes: Option<int>)

  // ---------------------------------------------------------------------
  // File names

  /** The characters the path is split on: `/` and `\`. */
  predicate IsSeparator(c: char) {
    c == '/' || c == '\\'
  }

  /** `getFileNameFromPath`: the text after the last separator. */
  function FileName(p: string): (r: string)
    ensures |r| <= |p| && r == p[|p| - |r|..]
    ensures forall i :: 0 <= i < |r| ==> !IsSeparator(r[i])
    // the name starts at the beginning or just after a separator
    ensures |r| < |p| ==> IsSeparator(p[|p| - |r| - 1])
    decreases |p|
  {
    if p == [] || IsSeparator(p[|p| - 1]) then []
    else
      var q := p[..|p| - 1];
      var r := FileName(q);
      assert q[|q| - |r|..] + [p[|p| - 1]] == p[|p| - |r| - 1..];
      r + [p[|p| - 1]]
  }

  /** The separators of a path, in order. */
  function Separators(p: string): (seps: string)
    ensures forall i :: 0 <= i < |seps| ==> IsSeparator(seps[i])
    decreases |p|
  {
    if p == [] then []
    else if IsSeparator(p[|p| - 1]) then Separators(p[..|p| - 1]) + [p[|p| - 1]]
    else Separators(p[..|p| - 1])
  }

  /** The pieces with the separators put back between them. */
  function Join(parts: seq<string>, seps: string): string
    requires |parts| == |seps| + 1
    decreases |seps|
  {
    if seps == [] then parts[0]
    else Join(parts[..|parts| - 1], seps[..|seps| - 1]) + [seps[|seps| - 1]] + parts[|parts| - 1]
  }

  /** `p.split(/[/\\]/)`: the pieces between separators, in order. */
  function SplitOnSeparators(p: string): (parts: seq<string>)
    ensures forall k, i :: 0 <= k < |parts| && 0 <= i < |parts[k]| ==> !IsSeparator(parts[k][i])
    // one piece more than there are separators, and the separators put back give the path
    ensures |parts| == |Separators(p)| + 1
    ensures Join(parts, Separators(p)) == p
    decreases |p|
  {
    if p == [] then [""]
    else
      var q := p[..|p| - 1];
      var parts := SplitOnSeparators(q);
      var c := p[|p| - 1];
      assert q + [c] == p;
      if IsSeparator(c) then
        var r := parts + [""];
        assert r[..|r| - 1] == parts;
        r
      else
        var r := parts[..|parts| - 1] + [parts[|parts| - 1] + [c]];
        assert forall k :: 0 <= k < |parts| - 1 ==> r[k] == parts[k];
        JoinExtendLast(parts, Separators(q), c);
        r
  }

  /** Extending the last piece extends the joined text by the same character. */
  lemma JoinExtendLast(parts: seq<string>, seps: string, c: char)
    requires |parts| == |seps| + 1
    ensures Join(parts[..|parts| - 1] + [parts[|parts| - 1] + [c]], seps) == Join(parts, seps) + [c]
  {
    var r := parts[..|parts| - 1] + [parts[|parts| - 1] + [c]];
    if seps != [] {
      assert r[..|r| - 1] == parts[..|parts| - 1];
    }
  }

  /** The file name is the last piece of the split, as the page takes it. */
  lemma {:induction false} FileNameIsLastPiece(p: string)
    ensures var parts := SplitOnSeparators(p); FileName(p) == parts[|parts| - 1]
    decreases |p|
  {
    if p != [] {
      FileNameIsLastPiece(p[..|p| - 1]);
    }
  }

  /** A path without separators is its own name; one ending in a separator has
      the empty name. */
  lemma FileNameCases(p: string)
    ensures (forall i :: 0 <= i < |p| ==> !IsSeparator(p[i])) ==> FileName(p) == p
    ensures |p| > 0 && IsSeparator(p[|p| - 1]) ==> FileName(p) == ""
  {
  }

  // ---------------------------------------------------------------------
  // File sizes

  /** What `humanFileSize` shows: the unknown-size text, a byte count, or an
      amount in KB or MB (whose `toFixed` rendering is not modelled). */
  datatype SizeText = UnknownSize | Bytes(text: string) | Kilobytes(kb: real) | Megabytes(mb: real)

  const UnknownSizeText: string := "unknown size"

  function HumanFileSize(bytes: Option<int>): (t: SizeText)
    ensures t == UnknownSize <==> bytes.None?
    ensures t.Bytes? <==> bytes.Some? && bytes.value < 1024
    ensures t.Bytes? ==> t.text == IntToString(bytes.value) + " B"
    ensures t.Kilobytes? <==> bytes.Some? && 1024 <= bytes.value < 1024 * 1024
    ensures t.Kilobytes? ==> t.kb * 1024.0 == bytes.value as real && 1.0 <= t.kb < 1024.0
    ensures t.Megabytes? <==> bytes.Some? && bytes.value >= 1024 * 1024
    ensures t.Megabytes? ==> t.mb * 1048576.0 == bytes.value as real && t.mb >= 1.0
  {
    match bytes
    case None => UnknownSize
    case Some(b) =>
      if b < 1024 then Bytes(IntToString(b) + " B")
      else
        var kb := b as real / 1024.0;
        if kb < 1024.0 then Kilobytes(kb)
        else Megabytes(kb / 1024.0)
  }

  // ---------------------------------------------------------------------
  // Uploading and loading

  const VisitIdRequiredMessage: string := "Visit ID is required."
  const ChooseFileMessage: string := "Please choose a file to upload."
  const UploadedMessage: string := "Photo uploaded successfully."
  const UploadFallbackMessage: string := "Upload failed."
  const NoPhotosMessage: string := "No photos found for this visit yet."
  const LoadFallbackMessage: string := "Failed to load photos."
  const BackendErrorMessage: string := "Backend reported an error loading photos."

  function NotJsonMessage(status: nat): string {
    "Upload failed (status " + NatToString(status) + ") and response was not JSON"
  }

  function UploadStatusMessage(status: nat): string {
    "Upload failed with status " + NatToString(status)
  }

  function LoadStatusMessage(status: nat): string {
    "Failed to load photos (status " + NatToString(status) + ")"
  }

  function LoadedMessage(n: nat): (m: string)
    ensures n == 0 ==> m == NoPhotosMessage
    ensures n > 0 ==> m == "Loaded " + NatToString(n) + " photo(s)."
  {
    if n == 0 then NoPhotosMessage else "Loaded " + NatToString(n) + " photo(s)."
  }

  /** The checks `handleUpload` makes before sending: the visit ID first,
      then the file (given by its name). */
  function UploadValidation(visitId: string, file: Option<string>): (e: Option<string>)
    ensures e.None? <==> visitId != "" && file.Some?
    ensures visitId == "" ==> e == Some(VisitIdRequiredMessage)
    ensures visitId != "" && file.None? ==> e == Some(ChooseFileMessage)
  {
    if visitId == "" then Some(VisitIdRequiredMessage)
    else if file.None? then Some(ChooseFileMessage)
    else None
  }

  /** The body of the upload reply: not JSON, or the declared response shape. */
  datatype UploadBody = UploadNotJson | UploadBody(ok: bool, photo: Option<VisitPhoto>, error: Option<string>)

  /** How the POST ends: it throws (with the exception's message), or a response. */
  datatype UploadReply = UploadThrows(message: string) | UploadResponse(status: nat, body: UploadBody)

  /** The error, the message and the photo list an upload leaves. */
  datatype Outcome = Outcome(error: Option<string>, message: Option<string>, photos: seq<VisitPhoto>)

  /** The part of `handleUpload` after the request is sent. */
  function UploadOutcome(reply: UploadReply, visitId: string, photos: seq<VisitPhoto>): (o: Outcome)
    ensures reply.UploadThrows? ==>
      o == Outcome(Some(OrElse(Some(reply.message), UploadFallbackMessage)), None, photos)
    ensures reply.UploadResponse? && reply.body.UploadNotJson? ==>
      o == Outcome(Some(NotJsonMessage(reply.status)), None, photos)
    // a failed upload reports the server's error, else the status
    ensures reply.UploadResponse? && reply.body.UploadBody? && !(OkStatus(reply.status) && reply.body.ok) ==>
      o == Outcome(Some(OrElse(reply.body.error, UploadStatusMessage(reply.status))), None, photos)
    // success: the photo goes in front exactly when it belongs to the visit shown
    ensures o.error.None? <==>
      reply.UploadResponse? && reply.body.UploadBody? && OkStatus(reply.status) && reply.body.ok
    ensures o.error.None? ==> o.message == Some(UploadedMessage)
    ensures o.photos != photos <==>
      o.error.None? && reply.body.photo.Some? && reply.body.photo.value.visitId == visitId
    ensures o.photos != photos ==> o.photos == [reply.body.photo.value] + photos
  {
    match reply
    case UploadThrows(m) => Outcome(Some(OrElse(Some(m), UploadFallbackMessage)), None, photos)
    case UploadResponse(status, body) =>
      match body
      case UploadNotJson => Outcome(Some(NotJsonMessage(status)), None, photos)
      case UploadBody(ok, photo, error) =>
        if !OkStatus(status) || !ok then
          Outcome(Some(OrElse(error, UploadStatusMessage(status))), None, photos)
        else if photo.Some? && photo.value.visitId == visitId then
          assert |[photo.value] + photos| != |photos|;
          Outcome(None, Some(UploadedMessage), [photo.value] + photos)
        else Outcome(None, Some(UploadedMessage), photos)
  }

  /** Every photo of the list belongs to the visit. */
  predicate AllOfVisit(photos: seq<VisitPhoto>, visitId: string) {
    forall i :: 0 <= i < |photos| ==> photos[i].visitId == visitId
  }

  /** An upload keeps a list that shows one visit's photos a list of that
      visit's photos, and grows it by at most one. */
  lemma UploadKeepsVisitList(reply: UploadReply, visitId: string, photos: seq<VisitPhoto>)
    requires AllOfVisit(photos, visitId)
    ensures AllOfVisit(UploadOutcome(reply, visitId, photos).photos, visitId)
    ensures |photos| <= |UploadOutcome(reply, visitId, photos).photos| <= |photos| + 1
  {
  }

  /** The body of the photo-list reply: not JSON (with the parser's message),
      or the declared response shape. */
  datatype PhotosBody = PhotosNotJson(message: string) | PhotosBody(ok: bool, photos: seq<VisitPhoto>)

  /** How the GET ends: it throws (with the exception's message), or a response. */
  datatype LoadReply = LoadThrows(message: string) | LoadResponse(status: nat, body: PhotosBody)

  /** The error and message of a load, and the list and visit it records
      when it succeeds. */
  datatype LoadResult = LoadResult(error: Option<string>, message: Option<string>,
                                   photos: Option<seq<VisitPhoto>>, loadedVisitId: Option<string>)

  /** The part of `handleLoadPhotos` after the request is sent. */
  function LoadOutcome(reply: LoadReply, visitId: string): (o: LoadResult)
    ensures reply.LoadThrows? ==>
      o == LoadResult(Some(OrElse(Some(reply.message), LoadFallbackMessage)), None, None, None)
    // the status is looked at before the body
    ensures reply.LoadResponse? && !OkStatus(reply.status) ==>
      o == LoadResult(Some(LoadStatusMessage(reply.status)), None, None, None)
    ensures reply.LoadResponse? && OkStatus(reply.status) && reply.body.PhotosNotJson? ==>
      o == LoadResult(Some(OrElse(Some(reply.body.message), LoadFallbackMessage)), None, None, None)
    ensures reply.LoadResponse? && OkStatus(reply.status) && reply.body.PhotosBody? && !reply.body.ok ==>
      o == LoadResult(Some(BackendErrorMessage), None, None, None)
    // a success replaces the list, records the visit and counts the photos
    ensures o.photos.Some? <==>
      reply.LoadResponse? && OkStatus(reply.status) && reply.body.PhotosBody? && reply.body.ok
    ensures o.photos.Some? ==>
      o == LoadResult(None, Some(LoadedMessage(|reply.body.photos|)), Some(reply.body.photos), Some(visitId))
  {
    match reply
    case LoadThrows(m) => LoadResult(Some(OrElse(Some(m), LoadFallbackMessage)), None, None, None)
    case LoadResponse(status, body) =>
      if !OkStatus(status) then LoadResult(Some(LoadStatusMessage(status)), None, None, None)
      else match body
        case PhotosNotJson(m) => LoadResult(Some(OrElse(Some(m), LoadFallbackMessage)), None, None, None)
        case PhotosBody(ok, ps) =>
          if !ok then LoadResult(Some(BackendErrorMessage), None, None, None)
          else LoadResult(None, Some(LoadedMessage(|ps|)), Some(ps), Some(visitId))
  }

  /** The state cells of the page. */
  class UploadPage {
    var visitId: string
    /** The chosen file, by name. */
    var file: Option<string>
    var uploading: bool
    var loadingPhotos: bool
    var photos: seq<VisitPhoto>
    var error: Option<string>
    var message: Option<string>
    var lastLoadedVisitId: Option<string>

    /** The page as mounted, with the `visitId` query parameter. */
    constructor (initialVisitId: Option<string>)
      ensures visitId == OrElse(initialVisitId, "")
      ensures file == None && !uploading && !loadingPhotos && photos == []
      ensures error == None && message == None && lastLoadedVisitId == None
    {
      visitId := if Present(initialVisitId) then initialVisitId.value else "";
      file, uploading, loadingPhotos, photos := None, false, false, [];
      error, message, lastLoadedVisitId := None, None, None;
    }

    /** `handleUpload`, with `reply` the answer the POST would get; `sent`
        says whether it was made. */
    method HandleUpload(reply: UploadReply) returns (sent: bool)
      modifies this
      ensures sent <==> UploadValidation(old(visitId), old(file)).None?
      ensures !sent ==>
        error == UploadValidation(old(visitId), old(file)) && message == None && photos == old(photos)
      ensures sent ==>
        var o := UploadOutcome(reply, old(visitId), old(photos));
        error == o.error && message == o.message && photos == o.photos
      ensures uploading == (if sent then false else old(uploading))
      ensures visitId == old(visitId) && file == old(file)
      ensures loadingPhotos == old(loadingPhotos) && lastLoadedVisitId == old(lastLoadedVisitId)
    {
      error, message := None, None;
      var e := UploadValidation(visitId, file);
      if e.Some? {
        error := e;
        return false;
      }
      sent := true;
      uploading := true;
      var o := UploadOutcome(reply, visitId, photos);
      error, message, photos := o.error, o.message, o.photos;
      uploading := false;
    }

    /** `handleLoadPhotos`, with `reply` the answer the GET would get; `sent`
        says whether it was made. */
    method HandleLoadPhotos(reply: LoadReply) returns (sent: bool)
      modifies this
      ensures sent <==> old(visitId) != ""
      ensures !sent ==>
        error == Some(VisitIdRequiredMessage) && message == None
        && photos == old(photos) && lastLoadedVisitId == old(lastLoadedVisitId)
      ensures sent ==>
        var o := LoadOutcome(reply, old(visitId));
        error == o.error && message == o.message
        && photos == (if o.photos.Some? then o.photos.value else old(photos))
        && lastLoadedVisitId == (if o.loadedVisitId.Some? then o.loadedVisitId else old(lastLoadedVisitId))
      ensures loadingPhotos == (if sent then false else old(loadingPhotos))
      ensures visitId == old(visitId) && file == old(file) && uploading == old(uploading)
    {
      error, message := None, None;
      if visitId == "" {
        error := Some(VisitIdRequiredMessage);
        return false;
      }
      sent := true;
      loadingPhotos := true;
      var o := LoadOutcome(reply, visitId);
      error, message := o.error, o.message;
      if o.photos.Some? {
        photos := o.photos.value;
      }
      if o.loadedVisitId.Some? {
        lastLoadedVisitId := o.loadedVisitId;
      }
      loadingPhotos := false;
    }
  }
}

/** The asset coordinator (`ImageService`): it keeps the blob store (Drive)
    and the metadata store consistent. Upload writes the blob, then the
    row; delete reads the row, deletes the blob, then the row. Every store
    failure except `GetImageCount`'s is folded into a `Success=false`
    response with no Go error. */
module ImageService {
  import opened Wrappers
  import opened Records
  import opened GoStrings
  import opened Store
  import opened DriveOAuth

  /** The record id: the request's own when it is non-empty, otherwise
      "img_" and the clock's nanoseconds. */
  function ChooseId(requested: string, clockNanos: int): (id: string)
    ensures requested != "" ==> id == requested
    ensures requested == "" ==> id == "img_" + FormatInt(clockNanos)
  {
    if requested == "" then "img_" + FormatInt(clockNanos) else requested
  }

  /** Generated ids from distinct clock readings are distinct. */
  lemma GeneratedIdsDistinct(a: int, b: int)
    requires a != b
    ensures ChooseId("", a) != ChooseId("", b)
  {
    if ChooseId("", a) == ChooseId("", b) {
      assert FormatInt(a) == ChooseId("", a)[4..];
      FormatIntInjective(a, b);
    }
  }

  /** The blob's file name. The source's fallback for a name equal to "_"
      never applies, because the name always ends in ".jpg". */
  function BlobName(id: string, title: string): (filename: string)
    ensures filename == id + "_" + title + ".jpg"
  {
    var filename := id + "_" + title + ".jpg";
    if filename == "_" then id + ".jpg" else filename
  }

  class ImageService {
    const drive: DriveUtilOAuth
    const db: Database

    constructor (drive: DriveUtilOAuth, db: Database)
      ensures this.drive == drive && this.db == db
    {
      this.drive := drive;
      this.db := db;
    }

    /** `GetCurrentImage`: the newest row, or "No images found" for any store
        error. */
    function GetCurrentImage(rows: seq<string>, query: Outcome): (resp: GetCurrentImageResponse)
      reads db
      requires NewestFirst(rows, db.images)
      ensures resp.success <==> query.None? && |db.images| > 0
      ensures !resp.success ==> resp == GetCurrentImageResponse(false, "No images found", None)
      ensures resp.success ==> resp.metadata.Some? && ReadsBack(db.images, db.locations, resp.metadata.value.id, resp.metadata.value)
      ensures resp.success ==> forall k :: k in db.images ==> db.images[k].createdAt <= db.images[resp.metadata.value.id].createdAt
    {
      var image := db.GetCurrentImage(rows, query);
      if image.Err? then GetCurrentImageResponse(false, "No images found", None)
      else GetCurrentImageResponse(true, "Current image retrieved successfully", Some(image.value))
    }

    /** `UploadImage`: uploads the blob, then writes the metadata row. A failed
        upload leaves both stores as they were; a failed metadata write
        leaves the uploaded blob in place (no compensating delete). */
    method UploadImage(req: UploadImageRequest, clockNanos: int, now: Timestamp, created: Result<string>, faults: CreateImageFaults)
      returns (resp: UploadImageResponse, err: Option<string>)
      modifies drive, db
      ensures err.None?
      ensures created.Err? ==> resp == UploadImageResponse(false, "Failed to upload to Google Drive: " + ("upload failed: " + created.error), None)
      ensures created.Err? ==> drive.files == old(drive.files)
      ensures created.Err? || CreateImageError(UploadedRecord(req, clockNanos, created.value), faults).Some? ==>
                db.images == old(db.images) && db.locations == old(db.locations)
      ensures created.Ok? ==> drive.files == old(drive.files)[created.value := DriveFile(BlobName(ChooseId(req.id, clockNanos), req.title), [drive.folderID], req.imageData)]
      ensures created.Ok? && CreateImageError(UploadedRecord(req, clockNanos, created.value), faults).Some? ==>
                resp == UploadImageResponse(false, "Failed to save metadata: " + CreateImageError(UploadedRecord(req, clockNanos, created.value), faults).value, None)
      ensures resp.success <==> created.Ok? && CreateImageError(UploadedRecord(req, clockNanos, created.value), faults).None?
      ensures resp.success ==> resp == UploadImageResponse(true, "Image uploaded successfully", Some(UploadedRecord(req, clockNanos, created.value)))
      ensures resp.success ==> db.images == UpsertImage(old(db.images), resp.metadata.value, now)
      ensures resp.success ==> db.locations == if req.location.Some? then old(db.locations)[resp.metadata.value.id := req.location.value] else old(db.locations)
    {
      var imageID := ChooseId(req.id, clockNanos);
      var filename := BlobName(imageID, req.title);
      var driveFileID := drive.UploadFile(filename, req.imageData, created);
      if driveFileID.Err? {
        return UploadImageResponse(false, "Failed to upload to Google Drive: " + driveFileID.error, None), None;
      }
      var metadata := ImageMetadata(imageID, req.title, req.description, req.location, driveFileID.value);
      var dbErr := db.CreateImage(metadata, now, faults);
      if dbErr.Some? {
        return UploadImageResponse(false, "Failed to save metadata: " + dbErr.value, None), None;
      }
      return UploadImageResponse(true, "Image uploaded successfully", Some(metadata)), None;
    }

    /** `GetImageCount`: the only operation that hands a store error back as
        a Go error, with a zero count. */
    function GetImageCount(query: Outcome, column: string): (r: (GetImageCountResponse, Option<string>))
      reads db
      ensures r.1.None? <==> query.None? && |db.images| <= Int32Max
      ensures r.1.None? ==> r.0.count == |db.images|
      ensures r.1.Some? ==> r.0.count == 0 && r.1 == Some(db.GetImageCount(query, column).error)
    {
      var count := db.GetImageCount(query, column);
      if count.Err? then (GetImageCountResponse(0), Some(count.error))
      else (GetImageCountResponse(count.value), None)
    }

    /** `ListImages`: the rows the store lists, newest first, or a failure
        response. A listing the store cut short is a success too. */
    method ListImages(rows: seq<string>, query: Outcome, scanFailure: Option<(nat, string)>, stop: Option<nat>)
      returns (resp: ListImagesResponse, err: Option<string>)
      requires NewestFirst(rows, db.images)
      ensures err.None?
      ensures resp.success <==> query.None? && (scanFailure.None? || scanFailure.value.0 >= Delivered(rows, stop))
      ensures query.Some? ==> resp == ListImagesResponse(false, "Failed to list images: " + ("failed to list images: " + query.value), [])
      ensures query.None? && scanFailure.Some? && scanFailure.value.0 < Delivered(rows, stop) ==>
                resp == ListImagesResponse(false, "Failed to list images: " + ("failed to scan image: " + scanFailure.value.1), [])
      ensures resp.success ==> resp.message == "Found " + FormatInt(|resp.images|) + " images"
      ensures resp.success ==> |resp.images| == Delivered(rows, stop) <= |db.images|
      ensures resp.success && !Interrupted(rows, stop) ==> |resp.images| == |db.images|
      ensures resp.success ==> forall i :: 0 <= i < |resp.images| ==> ReadsBack(db.images, db.locations, rows[i], resp.images[i])
      ensures resp.success && !Interrupted(rows, stop) ==>
                forall id :: id in db.images ==> exists i :: 0 <= i < |resp.images| && resp.images[i].id == id
      ensures resp.success ==> forall i, j :: 0 <= i < j < |resp.images| ==>
                && resp.images[i].id != resp.images[j].id
                && resp.images[i].id in db.images && resp.images[j].id in db.images
                && db.images[resp.images[i].id].createdAt >= db.images[resp.images[j].id].createdAt
      ensures resp.success ==> forall id :: id in db.images && Unlisted(resp.images, id) ==>
                forall i :: 0 <= i < |resp.images| ==> resp.images[i].id in db.images && db.images[id].createdAt <= db.images[resp.images[i].id].createdAt
    {
      var images := db.ListImages(rows, query, scanFailure, stop);
      if images.Err? {
        return ListImagesResponse(false, "Failed to list images: " + images.error, []), None;
      }
      return ListImagesResponse(true, "Found " + FormatInt(|images.value|) + " images", images.value), None;
    }

    /** `GetImageById`: the joined row, or "Image not found" for any store
        error. */
    function GetImageById(imageId: string, query: Outcome): (resp: GetImageByIdResponse)
      reads db
      ensures resp.success <==> query.None? && imageId in db.images
      ensures !resp.success ==> resp == GetImageByIdResponse(false, "Image not found", None)
      ensures resp.success ==> resp.metadata.Some? && ReadsBack(db.images, db.locations, imageId, resp.metadata.value)
    {
      var image := db.GetImage(imageId, query);
      if image.Err? then GetImageByIdResponse(false, "Image not found", None)
      else GetImageByIdResponse(true, "Image retrieved successfully", Some(image.value))
    }

    /** `DeleteImage`: look the row up, delete its blob when it names one,
        then delete the row. A failed lookup touches neither store; a failed
        blob delete keeps the row; a failed row delete after the blob is gone
        is reported as a failure. */
    method DeleteImage(imageId: string, lookup: Outcome, blobDelete: Option<string>, exec: Outcome, rowsAffected: Outcome)
      returns (resp: DeleteImageResponse, err: Option<string>)
      modifies drive, db
      ensures err.None?
      ensures resp == DeleteResponse(lookup.None? && imageId in old(db.images), BlobOf(old(db.images), imageId), blobDelete, exec, rowsAffected)
      ensures !DeleteReachesRow(lookup.None? && imageId in old(db.images), BlobOf(old(db.images), imageId), blobDelete) ==>
                drive.files == old(drive.files) && db.images == old(db.images) && db.locations == old(db.locations)
      ensures DeleteReachesRow(lookup.None? && imageId in old(db.images), BlobOf(old(db.images), imageId), blobDelete) ==>
                && drive.files == (if BlobOf(old(db.images), imageId) != "" then old(drive.files) - {BlobOf(old(db.images), imageId)} else old(drive.files))
                && db.images == (if exec.None? then old(db.images) - {imageId} else old(db.images))
                && db.locations == (if exec.None? && db.cascade then old(db.locations) - {imageId} else old(db.locations))
    {
      var image := db.GetImage(imageId, lookup);
      if image.Err? {
        return DeleteImageResponse(false, "Image not found"), None;
      }
      if image.value.driveFileId != "" {
        var blobErr := drive.DeleteFile(image.value.driveFileId, blobDelete);
        if blobErr.Some? {
          return DeleteImageResponse(false, "Failed to delete from Google Drive: " + blobErr.value), None;
        }
      }
      var dbErr := db.DeleteImage(imageId, exec, rowsAffected);
      if dbErr.Some? {
        return DeleteImageResponse(false, "Failed to delete from database: " + dbErr.value), None;
      }
      return DeleteImageResponse(true, "Image deleted successfully"), None;
    }
  }

  /** The Drive file id the row for `id` names, or "" when there is none. */
  function BlobOf(images: map<string, ImageRow>, id: string): (blob: string)
    ensures id in images ==> blob == images[id].driveFileId
  {
    if id in images then images[id].driveFileId else ""
  }

  /** Whether a delete gets as far as the row: the lookup found the record
      and its blob, if it names one, was deleted. */
  predicate DeleteReachesRow(found: bool, blob: string, blobDelete: Option<string>) {
    found && (blob == "" || blobDelete.None?)
  }

  /** The response of `DeleteImage` given how far it got and what each store
      step answered. */
  function DeleteResponse(found: bool, blob: string, blobDelete: Option<string>, exec: Outcome, rowsAffected: Outcome): (resp: DeleteImageResponse)
    ensures resp.success <==> DeleteReachesRow(found, blob, blobDelete) && exec.None? && rowsAffected.None?
    ensures !found ==> resp.message == "Image not found"
    ensures found && blob != "" && blobDelete.Some? ==>
              resp.message == "Failed to delete from Google Drive: " + ("delete failed: " + blobDelete.value)
    ensures DeleteReachesRow(found, blob, blobDelete) && exec.Some? ==>
              resp.message == "Failed to delete from database: " + ("failed to delete image: " + exec.value)
    ensures DeleteReachesRow(found, blob, blobDelete) && exec.None? && rowsAffected.Some? ==>
              resp.message == "Failed to delete from database: " + ("failed to get rows affected: " + rowsAffected.value)
    ensures resp.success ==> resp.message == "Image deleted successfully"
  {
    if !found then DeleteImageResponse(false, "Image not found")
    else if blob != "" && blobDelete.Some? then
      DeleteImageResponse(false, "Failed to delete from Google Drive: " + ("delete failed: " + blobDelete.value))
    else if exec.Some? then
      DeleteImageResponse(false, "Failed to delete from database: " + ("failed to delete image: " + exec.value))
    else if rowsAffected.Some? then
      DeleteImageResponse(false, "Failed to delete from database: " + ("failed to get rows affected: " + rowsAffected.value))
    else DeleteImageResponse(true, "Image deleted successfully")
  }

  /** The record an upload stores and returns. */
  function UploadedRecord(req: UploadImageRequest, clockNanos: int, driveFileId: string): (m: ImageMetadata)
    ensures m.id == ChooseId(req.id, clockNanos) && m.driveFileId == driveFileId
    ensures m.title == req.title && m.description == req.description && m.location == req.location
  {
    ImageMetadata(ChooseId(req.id, clockNanos), req.title, req.description, req.location, driveFileId)
  }

  /** Upload then get: in the state a successful `UploadImage` leaves, the
      chosen id is found with the request's title and description and the
      Drive file id. */
  lemma UploadedImageIsFound(s: ImageService, before: map<string, ImageRow>, beforeLocations: map<string, Location>,
                             req: UploadImageRequest, clockNanos: int, driveFileId: string, now: Timestamp)
    requires s.db.images == UpsertImage(before, UploadedRecord(req, clockNanos, driveFileId), now)
    requires s.db.locations == if req.location.Some? then beforeLocations[ChooseId(req.id, clockNanos) := req.location.value] else beforeLocations
    ensures s.GetImageById(ChooseId(req.id, clockNanos), None).success
    ensures s.GetImageById(ChooseId(req.id, clockNanos), None).metadata.value.title == req.title
    ensures s.GetImageById(ChooseId(req.id, clockNanos), None).metadata.value.description == req.description
    ensures s.GetImageById(ChooseId(req.id, clockNanos), None).metadata.value.driveFileId == driveFileId
  {
    CreatedImageReadsBack(s.db, before, beforeLocations, UploadedRecord(req, clockNanos, driveFileId), now);
  }

  /** Delete then get: once the row is deleted, `GetImageById` answers
      "Image not found". */
  lemma DeletedImageIsNotFound(s: ImageService, before: map<string, ImageRow>, id: string)
    requires s.db.images == before - {id}
    ensures s.GetImageById(id, None) == GetImageByIdResponse(false, "Image not found", None)
  {
    DeletedImageNotFound(s.db, before, id);
  }
}

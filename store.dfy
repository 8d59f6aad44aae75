/** The metadata store: the `images` and `locations` tables and the SQL the
    typed `DatabaseService` and the dynamically typed `BaseDatabaseService`
    run against them. Both services issue the same statements, so one class
    models both; the base service's type guards are the `...Dynamic` methods.

    Each SQL round trip is an oracle: an `Outcome` that is `None` when the
    engine succeeds and `Some(text)` with the driver's error text otherwise.
    The engine's clock (`CURRENT_TIMESTAMP`) is the `now` parameter, and the
    order in which it returns rows for `ORDER BY created_at DESC` is the
    `rows` parameter. */
module Store {
  import opened Wrappers
  import opened Records
  import GoStrings

  type Timestamp = int

  /** Result of one SQL round trip: `None` on success, else the error text. */
  type Outcome = Option<string>

  /** A row of `images`; `id` is the key of the table map (PRIMARY KEY). */
  datatype ImageRow = ImageRow(
    title: string,
    description: string,
    driveFileId: string,
    createdAt: Timestamp,
    updatedAt: Timestamp)

  /** The outcome of each statement of `CreateImage`'s transaction. */
  datatype CreateImageFaults = CreateImageFaults(
    begin: Outcome,
    insertImage: Outcome,
    insertLocation: Outcome,
    commit: Outcome)

  /** A payload of Go's `interface{}` type as the base service receives it. */
  datatype Dynamic = ImageValue(image: ImageMetadata) | LocationValue(location: Location) | OtherValue

  /** The read rule: a joined row carries a location only when latitude,
      longitude or name differ from their zero values. */
  predicate HasLocationData(l: Location) {
    l.latitude != 0.0 || l.longitude != 0.0 || l.name != ""
  }

  /** The location columns of the LEFT JOIN for `id`: the stored row, or the
      zero values when there is none. */
  function JoinedColumns(locations: map<string, Location>, id: string): Location {
    if id in locations then locations[id] else EmptyLocation
  }

  /** `m` is what a joined read of row `id` yields. */
  ghost predicate ReadsBack(images: map<string, ImageRow>, locations: map<string, Location>, id: string, m: ImageMetadata) {
    && id in images
    && m.id == id
    && m.title == images[id].title
    && m.description == images[id].description
    && m.driveFileId == images[id].driveFileId
    && (m.location.Some? <==> id in locations && HasLocationData(locations[id]))
    && (m.location.Some? ==> m.location.value == locations[id])
  }

  /** Scanning one joined row into a `pb.ImageMetadata`. */
  function ScanJoined(images: map<string, ImageRow>, locations: map<string, Location>, id: string): (m: ImageMetadata)
    requires id in images
    ensures ReadsBack(images, locations, id, m)
  {
    var row := images[id];
    var loc := JoinedColumns(locations, id);
    ImageMetadata(id, row.title, row.description, if HasLocationData(loc) then Some(loc) else None, row.driveFileId)
  }

  /** `INSERT ... ON CONFLICT (id) DO UPDATE`: a new id gets a row stamped
      `now` twice; an existing id keeps its `created_at` and row count and
      gets the new title, description, file id and `updated_at`. */
  function UpsertImage(images: map<string, ImageRow>, img: ImageMetadata, now: Timestamp): (r: map<string, ImageRow>)
    ensures r.Keys == images.Keys + {img.id}
    ensures img.id in images ==> |r| == |images|
    ensures img.id !in images ==> |r| == |images| + 1
    ensures r[img.id].title == img.title && r[img.id].description == img.description
    ensures r[img.id].driveFileId == img.driveFileId && r[img.id].updatedAt == now
    ensures r[img.id].createdAt == if img.id in images then images[img.id].createdAt else now
    ensures forall k :: k in images && k != img.id ==> r[k] == images[k]
  {
    var created := if img.id in images then images[img.id].createdAt else now;
    images[img.id := ImageRow(img.title, img.description, img.driveFileId, created, now)]
  }

  /** The error `CreateImage` reports: the first failing statement of the
      transaction, with its context prefix, or the commit's own error. The
      location statement runs only when a location is given. */
  function CreateImageError(img: ImageMetadata, faults: CreateImageFaults): (err: Option<string>)
    ensures faults.begin.Some? ==> err == Some("failed to begin transaction: " + faults.begin.value)
    ensures faults.begin.None? && faults.insertImage.Some? ==> err == Some("failed to insert image: " + faults.insertImage.value)
    ensures faults.begin.None? && faults.insertImage.None? && img.location.Some? && faults.insertLocation.Some? ==>
              err == Some("failed to insert location: " + faults.insertLocation.value)
    ensures faults.begin.None? && faults.insertImage.None? && (img.location.None? || faults.insertLocation.None?) ==>
              err == faults.commit
    ensures err.None? <==> faults.begin.None? && faults.insertImage.None? && (img.location.Some? ==> faults.insertLocation.None?) && faults.commit.None?
  {
    if faults.begin.Some? then Some("failed to begin transaction: " + faults.begin.value)
    else if faults.insertImage.Some? then Some("failed to insert image: " + faults.insertImage.value)
    else if img.location.Some? && faults.insertLocation.Some? then Some("failed to insert location: " + faults.insertLocation.value)
    else faults.commit
  }

  /** `rows` is an order the engine may return for `ORDER BY created_at DESC`:
      every row once, newest first; rows with equal timestamps in any order. */
  ghost predicate NewestFirst(rows: seq<string>, images: map<string, ImageRow>) {
    && (forall i :: 0 <= i < |rows| ==> rows[i] in images)
    && (forall id :: id in images ==> id in rows)
    && (forall i, j :: 0 <= i < j < |rows| ==> rows[i] != rows[j])
    && (forall i, j :: 0 <= i < j < |rows| ==> images[rows[i]].createdAt >= images[rows[j]].createdAt)
  }

  /** A sequence without repeats has as many elements as its set. */
  lemma {:induction false} DistinctCardinality(rows: seq<string>)
    requires forall i, j :: 0 <= i < j < |rows| ==> rows[i] != rows[j]
    ensures |set i | 0 <= i < |rows| :: rows[i]| == |rows|
  {
    if |rows| > 0 {
      var last := rows[|rows| - 1];
      var init := rows[..|rows| - 1];
      DistinctCardinality(init);
      var s := set i | 0 <= i < |rows| :: rows[i];
      var s' := set i | 0 <= i < |init| :: init[i];
      assert s == s' + {last};
      assert last !in s';
    }
  }

  /** An ordering of the whole table lists exactly as many rows as it has. */
  lemma NewestFirstLength(rows: seq<string>, images: map<string, ImageRow>)
    requires NewestFirst(rows, images)
    ensures |rows| == |images|
  {
    DistinctCardinality(rows);
    assert (set i | 0 <= i < |rows| :: rows[i]) == images.Keys;
  }

  /** Whether `rows.Next()` stops before the end of the result set. */
  predicate Interrupted(rows: seq<string>, stop: Option<nat>) {
    stop.Some? && stop.value < |rows|
  }

  /** How many rows `rows.Next()` hands out. */
  function Delivered(rows: seq<string>, stop: Option<nat>): nat {
    if Interrupted(rows, stop) then stop.value else |rows|
  }

  /** No record of `listed` is the image `id`. */
  predicate Unlisted(listed: seq<ImageMetadata>, id: string) {
    forall i :: 0 <= i < |listed| ==> listed[i].id != id
  }

  /** Reading back a prefix of a newest-first order lists distinct images,
      newest first; the whole order lists every image, and an image a
      shorter prefix misses is no newer than any image it lists. */
  lemma ListedPrefix(images: map<string, ImageRow>, locations: map<string, Location>, rows: seq<string>, listed: seq<ImageMetadata>)
    requires NewestFirst(rows, images)
    requires |listed| <= |rows|
    requires forall i :: 0 <= i < |listed| ==> ReadsBack(images, locations, rows[i], listed[i])
    ensures forall i, j :: 0 <= i < j < |listed| ==>
              && listed[i].id != listed[j].id
              && listed[i].id in images && listed[j].id in images
              && images[listed[i].id].createdAt >= images[listed[j].id].createdAt
    ensures |listed| == |rows| ==> forall id :: id in images ==> exists i :: 0 <= i < |listed| && listed[i].id == id
    ensures forall id :: id in images && Unlisted(listed, id) ==>
              forall i :: 0 <= i < |listed| ==> listed[i].id in images && images[id].createdAt <= images[listed[i].id].createdAt
  {
    forall id | id in images && Unlisted(listed, id)
      ensures forall i :: 0 <= i < |listed| ==> listed[i].id in images && images[id].createdAt <= images[listed[i].id].createdAt
    {
      var k :| 0 <= k < |rows| && rows[k] == id;
      forall i | 0 <= i < |listed| ensures listed[i].id in images && images[id].createdAt <= images[listed[i].id].createdAt {
        assert listed[i].id == rows[i] != id;
        assert i < k;
      }
    }
    if |listed| == |rows| {
      forall id | id in images ensures exists i :: 0 <= i < |listed| && listed[i].id == id {
        var i :| 0 <= i < |rows| && rows[i] == id;
        assert listed[i].id == id;
      }
    }
  }

  /** A listing cut short still misses an image: the row at which `rows.Next()`
      stopped is read by no record of the prefix, although it is in the
      table. */
  lemma InterruptedListMissesImage(images: map<string, ImageRow>, locations: map<string, Location>, rows: seq<string>,
                                   stop: Option<nat>, listed: seq<ImageMetadata>)
    requires NewestFirst(rows, images)
    requires Interrupted(rows, stop) && |listed| == Delivered(rows, stop)
    requires forall i :: 0 <= i < |listed| ==> ReadsBack(images, locations, rows[i], listed[i])
    ensures exists id :: id in images && Unlisted(listed, id)
  {
    var id := rows[stop.value];
    forall i | 0 <= i < |listed| ensures listed[i].id != id {
      assert listed[i].id == rows[i];
    }
    assert id in images && Unlisted(listed, id);
  }

  class Database {
    /** `images`, keyed by its primary key `id`. */
    var images: map<string, ImageRow>
    /** `locations`, keyed by its primary key `image_id`: at most one per image. */
    var locations: map<string, Location>
    /** Whether the engine enforces `ON DELETE CASCADE` on `locations.image_id`. */
    const cascade: bool

    constructor (cascade: bool)
      ensures images == map[] && locations == map[] && this.cascade == cascade
    {
      images, locations := map[], map[];
      this.cascade := cascade;
    }

    /** Every location row belongs to an image row. */
    predicate LocationsOwned()
      reads this
    {
      locations.Keys <= images.Keys
    }

    /** `CreateImage`: one transaction that upserts the image row and, when a
        location is given, its location row; a failing statement or commit
        rolls both back. */
    method CreateImage(img: ImageMetadata, now: Timestamp, faults: CreateImageFaults) returns (err: Option<string>)
      modifies this
      ensures err == CreateImageError(img, faults)
      ensures err.Some? ==> images == old(images) && locations == old(locations)
      ensures err.None? ==> images == UpsertImage(old(images), img, now)
      ensures err.None? ==> locations == if img.location.Some? then old(locations)[img.id := img.location.value] else old(locations)
      ensures LocationsOwned() ==> old(LocationsOwned()) || err.None?
      ensures old(LocationsOwned()) ==> LocationsOwned()
    {
      if faults.begin.Some? {
        return Some("failed to begin transaction: " + faults.begin.value);
      }
      // The transaction's view of the tables until it commits.
      var txImages := UpsertImage(images, img, now);
      if faults.insertImage.Some? {
        return Some("failed to insert image: " + faults.insertImage.value);
      }
      var txLocations := locations;
      if img.location.Some? {
        txLocations := txLocations[img.id := img.location.value];
        if faults.insertLocation.Some? {
          return Some("failed to insert location: " + faults.insertLocation.value);
        }
      }
      if faults.commit.Some? {
        return faults.commit;
      }
      images, locations := txImages, txLocations;
      return None;
    }

    /** `GetImage`: the joined row for `id`, or "image not found". */
    function GetImage(id: string, query: Outcome): (r: Result<ImageMetadata>)
      reads this
      ensures query.Some? ==> r == Err("failed to get image: " + query.value)
      ensures query.None? ==> (r.Err? <==> id !in images)
      ensures query.None? && r.Err? ==> r.error == "image not found"
      ensures r.Ok? ==> ReadsBack(images, locations, id, r.value)
    {
      if query.Some? then Err("failed to get image: " + query.value)
      else if id !in images then Err("image not found")
      else Ok(ScanJoined(images, locations, id))
    }

    /** `ListImages`: the image rows in the engine's newest-first order, each
        under the read rule. `scanFailure` is the position and text of a row
        whose scan fails. `stop` is where `rows.Next()` answers false early
        because the driver failed or the request's deadline expired; the
        code never consults `rows.Err()`, so the rows read so far are
        returned as a success. */
    method ListImages(rows: seq<string>, query: Outcome, scanFailure: Option<(nat, string)>, stop: Option<nat>)
      returns (r: Result<seq<ImageMetadata>>)
      requires NewestFirst(rows, images)
      ensures query.Some? ==> r == Err("failed to list images: " + query.value)
      ensures query.None? && scanFailure.Some? && scanFailure.value.0 < Delivered(rows, stop) ==>
                r == Err("failed to scan image: " + scanFailure.value.1)
      ensures r.Ok? <==> query.None? && (scanFailure.None? || scanFailure.value.0 >= Delivered(rows, stop))
      ensures r.Ok? ==> |r.value| == Delivered(rows, stop) <= |images|
      ensures r.Ok? && !Interrupted(rows, stop) ==> |r.value| == |rows| == |images|
      ensures r.Ok? ==> forall i :: 0 <= i < |r.value| ==> ReadsBack(images, locations, rows[i], r.value[i])
      ensures r.Ok? && !Interrupted(rows, stop) ==> forall id :: id in images ==> exists i :: 0 <= i < |r.value| && r.value[i].id == id
      ensures r.Ok? ==> forall i, j :: 0 <= i < j < |r.value| ==>
                && r.value[i].id != r.value[j].id
                && r.value[i].id in images && r.value[j].id in images
                && images[r.value[i].id].createdAt >= images[r.value[j].id].createdAt
      ensures r.Ok? ==> forall id :: id in images && Unlisted(r.value, id) ==>
                forall i :: 0 <= i < |r.value| ==> r.value[i].id in images && images[id].createdAt <= images[r.value[i].id].createdAt
    {
      NewestFirstLength(rows, images);
      if query.Some? {
        return Err("failed to list images: " + query.value);
      }
      var delivered := Delivered(rows, stop);
      var result: seq<ImageMetadata> := [];
      var n := 0;
      while n < delivered
        invariant 0 <= n <= delivered
        invariant |result| == n
        invariant scanFailure.Some? ==> scanFailure.value.0 >= n
        invariant forall i :: 0 <= i < n ==> ReadsBack(images, locations, rows[i], result[i])
      {
        if scanFailure.Some? && scanFailure.value.0 == n {
          return Err("failed to scan image: " + scanFailure.value.1);
        }
        result := result + [ScanJoined(images, locations, rows[n])];
        n := n + 1;
      }
      ListedPrefix(images, locations, rows, result);
      return Ok(result);
    }

    /** `GetImageCount`: `COUNT(*)` scanned into an int32. `column` is the
        name the engine gives the result column. */
    function GetImageCount(query: Outcome, column: string): (r: Result<int>)
      reads this
      ensures query.Some? ==> r == Err("failed to get image count: " + query.value)
      ensures r.Ok? <==> query.None? && |images| <= Int32Max
      ensures r.Ok? ==> r.value == |images|
      ensures query.None? && |images| > Int32Max ==> r == Err("failed to get image count: " + Int32ScanOverflow(column, |images|))
    {
      if query.Some? then Err("failed to get image count: " + query.value)
      else if |images| > Int32Max then Err("failed to get image count: " + Int32ScanOverflow(column, |images|))
      else Ok(|images|)
    }

    /** `DeleteImage`: `DELETE FROM images WHERE id = $1`; zero affected rows
        is "image not found". The delete has happened even when asking for
        the affected-row count fails. */
    method DeleteImage(id: string, exec: Outcome, rowsAffected: Outcome) returns (err: Option<string>)
      modifies this
      ensures exec.Some? ==> err == Some("failed to delete image: " + exec.value)
      ensures exec.Some? ==> images == old(images) && locations == old(locations)
      ensures exec.None? ==> images == old(images) - {id}
      ensures exec.None? ==> locations == if cascade && id in old(images) then old(locations) - {id} else old(locations)
      ensures exec.None? && rowsAffected.Some? ==> err == Some("failed to get rows affected: " + rowsAffected.value)
      ensures exec.None? && rowsAffected.None? ==> (err == Some("image not found") <==> id !in old(images))
      ensures exec.None? && rowsAffected.None? ==> (err.None? <==> id in old(images))
      ensures cascade && old(LocationsOwned()) ==> LocationsOwned()
    {
      if exec.Some? {
        return Some("failed to delete image: " + exec.value);
      }
      var affected := if id in images then 1 else 0;
      if cascade && id in images {
        locations := locations - {id};
      }
      images := images - {id};
      if rowsAffected.Some? {
        return Some("failed to get rows affected: " + rowsAffected.value);
      }
      if affected == 0 {
        return Some("image not found");
      }
      return None;
    }

    /** `GetCurrentImage`: the first row of `ORDER BY created_at DESC LIMIT 1`,
        so a row with the greatest `created_at`; "no images found" when the
        table is empty. */
    function GetCurrentImage(rows: seq<string>, query: Outcome): (r: Result<ImageMetadata>)
      reads this
      requires NewestFirst(rows, images)
      ensures query.Some? ==> r == Err("failed to get current image: " + query.value)
      ensures query.None? ==> (r == Err("no images found") <==> |images| == 0)
      ensures query.None? ==> (r.Ok? <==> |images| > 0)
      ensures r.Ok? ==> ReadsBack(images, locations, r.value.id, r.value)
      ensures r.Ok? ==> forall k :: k in images ==> images[k].createdAt <= images[r.value.id].createdAt
    {
      NewestFirstLength(rows, images);
      if query.Some? then Err("failed to get current image: " + query.value)
      else if |rows| == 0 then Err("no images found")
      else
        assert forall k :: k in images ==> images[k].createdAt <= images[rows[0]].createdAt by {
          forall k | k in images ensures images[k].createdAt <= images[rows[0]].createdAt {
            var j :| 0 <= j < |rows| && rows[j] == k;
            assert j == 0 || images[rows[0]].createdAt >= images[rows[j]].createdAt;
          }
        }
        Ok(ScanJoined(images, locations, rows[0]))
    }

    /** `CreateLocation`: upsert of the location row for `imageID`. */
    method CreateLocation(imageID: string, loc: Location, exec: Outcome) returns (err: Option<string>)
      modifies this
      ensures err == exec
      ensures images == old(images)
      ensures locations == if exec.None? then old(locations)[imageID := loc] else old(locations)
      ensures old(LocationsOwned()) && imageID in images ==> LocationsOwned()
    {
      if exec.None? {
        locations := locations[imageID := loc];
      }
      return exec;
    }

    /** `GetLocation`: the stored row as it is, without the read rule. */
    function GetLocation(imageID: string, query: Outcome): (r: Result<Location>)
      reads this
      ensures query.Some? ==> r == Err("failed to get location: " + query.value)
      ensures query.None? ==> (r == Err("location not found") <==> imageID !in locations)
      ensures query.None? && imageID in locations ==> r == Ok(locations[imageID])
    {
      if query.Some? then Err("failed to get location: " + query.value)
      else if imageID !in locations then Err("location not found")
      else Ok(locations[imageID])
    }

    /** `UpdateLocation`: overwrites an existing row; never creates one. */
    method UpdateLocation(imageID: string, loc: Location, exec: Outcome, rowsAffected: Outcome) returns (err: Option<string>)
      modifies this
      ensures images == old(images)
      ensures exec.Some? ==> err == exec && locations == old(locations)
      ensures exec.None? ==> locations == if imageID in old(locations) then old(locations)[imageID := loc] else old(locations)
      ensures exec.None? && rowsAffected.Some? ==> err == rowsAffected
      ensures exec.None? && rowsAffected.None? ==> (err == Some("location not found") <==> imageID !in old(locations))
      ensures exec.None? && rowsAffected.None? ==> (err.None? <==> imageID in old(locations))
      ensures locations.Keys == old(locations).Keys
    {
      if exec.Some? {
        return exec;
      }
      var affected := if imageID in locations then 1 else 0;
      if imageID in locations {
        locations := locations[imageID := loc];
      }
      if rowsAffected.Some? {
        return rowsAffected;
      }
      if affected == 0 {
        return Some("location not found");
      }
      return None;
    }

    /** `DeleteLocation`: succeeds whether or not a row existed. */
    method DeleteLocation(imageID: string, exec: Outcome) returns (err: Option<string>)
      modifies this
      ensures err == exec
      ensures images == old(images)
      ensures locations == if exec.None? then old(locations) - {imageID} else old(locations)
      ensures old(LocationsOwned()) ==> LocationsOwned()
    {
      if exec.None? {
        locations := locations - {imageID};
      }
      return exec;
    }

    /** The base service's `CreateImage`: rejects a payload that is not an
        image before touching the tables. */
    method CreateImageDynamic(payload: Dynamic, now: Timestamp, faults: CreateImageFaults) returns (err: Option<string>)
      modifies this
      ensures !payload.ImageValue? ==> err == Some("invalid image type") && images == old(images) && locations == old(locations)
      ensures payload.ImageValue? ==> err == CreateImageError(payload.image, faults)
      ensures payload.ImageValue? && err.Some? ==> images == old(images) && locations == old(locations)
      ensures payload.ImageValue? && err.None? ==> images == UpsertImage(old(images), payload.image, now)
      ensures payload.ImageValue? && err.None? ==>
                locations == if payload.image.location.Some? then old(locations)[payload.image.id := payload.image.location.value] else old(locations)
    {
      if !payload.ImageValue? {
        return Some("invalid image type");
      }
      err := CreateImage(payload.image, now, faults);
    }

    /** The base service's `CreateLocation` with its type guard. */
    method CreateLocationDynamic(imageID: string, payload: Dynamic, exec: Outcome) returns (err: Option<string>)
      modifies this
      ensures images == old(images)
      ensures !payload.LocationValue? ==> err == Some("invalid location type") && locations == old(locations)
      ensures payload.LocationValue? ==> err == exec
      ensures payload.LocationValue? ==> locations == if exec.None? then old(locations)[imageID := payload.location] else old(locations)
    {
      if !payload.LocationValue? {
        return Some("invalid location type");
      }
      err := CreateLocation(imageID, payload.location, exec);
    }

    /** The base service's `UpdateLocation` with its type guard. */
    method UpdateLocationDynamic(imageID: string, payload: Dynamic, exec: Outcome, rowsAffected: Outcome) returns (err: Option<string>)
      modifies this
      ensures images == old(images)
      ensures !payload.LocationValue? ==> err == Some("invalid location type") && locations == old(locations)
      ensures payload.LocationValue? && exec.None? ==>
                locations == if imageID in old(locations) then old(locations)[imageID := payload.location] else old(locations)
      ensures payload.LocationValue? && exec.Some? ==> err == exec && locations == old(locations)
      ensures payload.LocationValue? && exec.None? && rowsAffected.Some? ==> err == rowsAffected
      ensures payload.LocationValue? && exec.None? && rowsAffected.None? ==> (err == Some("location not found") <==> imageID !in old(locations))
      ensures payload.LocationValue? && exec.None? && rowsAffected.None? ==> (err.None? <==> imageID in old(locations))
      ensures locations.Keys == old(locations).Keys
    {
      if !payload.LocationValue? {
        return Some("invalid location type");
      }
      err := UpdateLocation(imageID, payload.location, exec, rowsAffected);
    }
  }

  /** The error `Row.Scan` reports when the value `n` of result column
      `column` does not fit an int32: the column's position and quoted name
      around the range error of the conversion. The name is assumed to need
      no escaping under `%q`. */
  function Int32ScanOverflow(column: string, n: int): string {
    "sql: Scan error on column index 0, name \"" + column + "\": converting driver.Value type int64 (\""
      + GoStrings.FormatInt(n) + "\") to a int32: value out of range"
  }

  /** A joined read is determined by the tables: two results that both read
      back row `id` are the same record. */
  lemma ReadsBackUnique(images: map<string, ImageRow>, locations: map<string, Location>, id: string, m1: ImageMetadata, m2: ImageMetadata)
    requires ReadsBack(images, locations, id, m1) && ReadsBack(images, locations, id, m2)
    ensures m1 == m2
  {
  }

  /** With the same engine order, the current image is the head of the list
      `ListImages` returns. */
  lemma CurrentIsHeadOfList(db: Database, rows: seq<string>, listed: seq<ImageMetadata>)
    requires NewestFirst(rows, db.images)
    requires |listed| == |rows| > 0
    requires forall i :: 0 <= i < |listed| ==> ReadsBack(db.images, db.locations, rows[i], listed[i])
    ensures db.GetCurrentImage(rows, None) == Ok(listed[0])
  {
    ReadsBackUnique(db.images, db.locations, rows[0], db.GetCurrentImage(rows, None).value, listed[0]);
  }

  /** A committed `CreateImage` is visible to `GetImage`: the new state that
      `Database.CreateImage` promises reads back the written fields, and the
      written location whenever it carries data. */
  lemma CreatedImageReadsBack(db: Database, before: map<string, ImageRow>, beforeLocations: map<string, Location>,
                              img: ImageMetadata, now: Timestamp)
    requires db.images == UpsertImage(before, img, now)
    requires db.locations == if img.location.Some? then beforeLocations[img.id := img.location.value] else beforeLocations
    ensures db.GetImage(img.id, None).Ok?
    ensures db.GetImage(img.id, None).value.id == img.id && db.GetImage(img.id, None).value.title == img.title
    ensures db.GetImage(img.id, None).value.description == img.description
    ensures db.GetImage(img.id, None).value.driveFileId == img.driveFileId
    ensures img.location.Some? && HasLocationData(img.location.value) ==> db.GetImage(img.id, None).value.location == img.location
  {
  }

  /** After a successful `DeleteImage` the row is gone for `GetImage`. */
  lemma DeletedImageNotFound(db: Database, before: map<string, ImageRow>, id: string)
    requires db.images == before - {id}
    ensures db.GetImage(id, None) == Err("image not found")
  {
  }
}

# Background Image Drive API — a Dafny model

The Background Image Drive API is a Go service. It stores background images in Google Drive and keeps their metadata in SQL:
- an `images` table and a `locations` table;
- SQLite, local PostgreSQL or Cloud SQL, chosen from the environment.

The service is reachable in three ways:
- a gRPC service;
- a "direct" HTTP front end that calls the service in-process;
- an HTTP gateway.

A CORS middleware wraps the HTTP front ends. Google Maps geocoding turns coordinates into a place name and back.

This project models the core of that service in Dafny 4.11 and proves properties of the model.

**External collaborators are parameters.**
- Everything outside the program is a parameter of the operation that uses it. That covers the SQL driver, Drive, the Maps client, Secret Manager, the clock, `strconv.ParseFloat` and the JSON encoder.
- A failing collaborator is an `Option<string>` error or a `Result`. In every case the model states what is stored and what is answered.

**Classes for state, functions for pure code.**
- State the Go code updates in place is a `class` with `modifies` clauses:
  - the SQL tables: `Store.Database`;
  - the Drive folder: `DriveOAuth.DriveUtilOAuth`;
  - the coordinator: `ImageService.ImageService`;
  - net/http's response writer and ServeMux: `Http.ResponseWriter` and `Handlers.ServeMux`.
- Pure code is a set of functions with lemmas: configuration, backend selection, CORS headers, geocoding result extraction and the secret resource name.

**Loops and modules.**
- Loops in the source are methods with loops, each proved equal to a specification function:
  - the schema statements;
  - trimming the CORS origins;
  - joining the CORS lists;
  - scanning address components;
  - listing Drive files and listing rows.
- There is one module per Go file:

| module | Go file |
|---|---|
| `Config` | `internal/config/config.go` |
| `Secrets` | `internal/config/secrets.go` |
| `Store` | `internal/database/base.go` and `internal/database/database.go` |
| `Backends` | the constructor of `internal/database/database.go` |
| `CloudSql` | `internal/database/cloudsql.go` |
| `Sqlite` | `internal/database/sqlite.go` |
| `Factory` | `internal/database/factory.go` |
| `DriveOAuth` | `internal/services/drive_util_oauth.go` |
| `ImageService` | `internal/services/image_service.go` |
| `LocationService` | `internal/services/location_service.go` |
| `Handlers`, `DirectHandlers` | `internal/handlers/direct-handlers.go` |
| `HttpHandlers` | `internal/handlers/http-handlers.go` |
| `Cors` | `internal/middleware/cors.go` |
| `CorsConfig` | `internal/middleware/cors_config.go` |

- Helper modules:
  - `Wrappers`: Option and Result.
  - `Records`: the protobuf messages.
  - `Environ`: `os.Getenv`.
  - `GoStrings`: the `strings` functions and `%d` formatting that the code calls.
  - `Http`: the parts of `net/http` the handlers rely on.

## Where the code and the design differ

In each of these cases the model follows the code.

- **Unknown image id.**
  - The design answers 404 when `GET` or `DELETE /api/v1/images/{id}` names an unknown id.
  - In the code, `ImageService.GetImageById` and `DeleteImage` return `success: false` with no error (`internal/services/image_service.go:126-130` and `144-148`).
  - The handlers then answer 200 with that JSON body.
- **Failed upload.**
  - The design answers 500 when an upload fails.
  - `ImageService.UploadImage` reports a Drive or database failure in the response body with no error (`internal/services/image_service.go:60-65` and `78-83`).
  - The upload handlers then answer 201 with `success: false`.
- **Ties in `createdAt`.**
  - The design breaks ties in insertion order.
  - The queries only sort by `created_at DESC`.
  - The model's row order is any newest-first order, so ties are in any order.
- **Listing cut short.**
  - The design lists every image.
  - The listing loops (`internal/database/base.go:153-183`, `internal/database/database.go:164-194`) end when `rows.Next()` answers false and never check `rows.Err()`. A driver error or an expired deadline in the middle of the stream therefore returns the rows read so far with no error, and the service answers "Found <k> images".
  - `Store.Database.ListImages` takes that position as its `stop` parameter. `Store.InterruptedListMissesImage` shows that such a success leaves an image out.
- **Delete cascade.**
  - The design says deleting an image deletes its location.
  - SQLite is opened without the pragma that enforces foreign keys, so whether the cascade happens depends on the engine. It is the `cascade` constant of `Store.Database`.

## Model

| member | source | states |
|---|---|---|
| Environ.Getenv | internal/config/config.go:47-52 | an unset variable reads as the empty string; a set one reads as its value (form fields and query parameters use the same lookup) |
| Config.GetEnv | internal/config/config.go:47-52 | a set, non-empty variable gives its value; an unset or empty one gives the default |
| Config.DefaultOf | internal/config/config.go:33-42 | only the gRPC port, the HTTP port and the credentials path have a non-empty default |
| Config.LoadConfigReadsVariable | internal/config/config.go:31-44 | each of the ten configuration fields is its own variable read with its own default |
| Config.EmptyEnvironmentDefaults | internal/config/config.go:33-35 | an empty environment gives ports 50051 and 8080, "credentials.json" and empty strings elsewhere |
| Config.FieldsIndependent | internal/config/config.go:36-42 | changing one variable leaves every field read from another variable unchanged |
| Config.OtherVariablesIgnored | internal/config/config.go:31-44 | a variable outside the ten read leaves the whole configuration unchanged |
| Secrets.ProjectId | internal/config/secrets.go:33-45 | the first non-empty of GOOGLE_CLOUD_PROJECT, GCP_PROJECT and GCLOUD_PROJECT wins, then the fixed project; never empty |
| Secrets.ResourceName | internal/config/secrets.go:48-50 | the secret path is exactly projects/<project>/secrets/<name>/versions/latest |
| Secrets.ResourceNameSegments | internal/config/secrets.go:48-50 | the secret path splits at '/' back into projects/<p>/secrets/<n>/versions/latest when neither part holds '/' |
| Secrets.ResourceNameInjective | internal/config/secrets.go:48-50 | distinct (project, name) pairs free of '/' give distinct secret paths |
| Secrets.GetSecret | internal/config/secrets.go:32-59 | the latest version of the named secret of the chosen project is read; a failure is reported as "failed to access secret <name>: <err>" |
| Secrets.GetSecretWithFallback | internal/config/secrets.go:62-71 | the secret's value when it can be read, otherwise the environment variable's value |
| Store.ScanJoined | internal/database/base.go:94-134 | a joined read gives the row's title, description and Drive id, and a location exactly when a location row with some data exists |
| Store.HasLocationData | internal/database/database.go:139-142 | a read carries a location only when latitude, longitude or name differs from its zero value |
| Store.UpsertImage | internal/database/base.go:34-91 | the written row replaces any earlier row with that id, keeps its creation time, stamps the update time and touches no other row |
| Store.CreateImageError | internal/database/base.go:34-91 | the first failing step among begin, insert image, insert location (only when a location is given) and commit is reported with its prefix; no error exactly when every step succeeds |
| Store.Database.constructor | internal/database/sqlite.go:45-74 | freshly created tables are empty; the engine decides the cascade |
| Store.Database.CreateImage | internal/database/base.go:34-91 | a failed transaction changes nothing; a committed one upserts the image and stores its location; locations stay owned by images |
| Store.Database.GetImage | internal/database/base.go:94-134 | a query error is prefixed; otherwise "image not found" exactly when the id is absent, else the joined row read back |
| Store.Database.ListImages | internal/database/base.go:137-184 | query and scan failures are prefixed; on success the delivered rows are read back in the engine's newest-first order, distinct; a stream that `rows.Next()` ends early is still a success with only that prefix (`rows.Err()` is never checked), every image appears only when it is not cut short, and an image left out is no newer than any listed one |
| Store.ListedPrefix | internal/database/base.go:153-183 | reading back a prefix of a newest-first order lists distinct images newest first; the full order lists every image; an image the prefix misses is no newer than any listed one |
| Store.InterruptedListMissesImage | internal/database/base.go:153-183 | a listing cut short by `rows.Next()` leaves some image of the table out, although it is reported as a success |
| Store.Database.GetImageCount | internal/database/database.go:198-208 | the number of image rows, or the prefixed query error; a count beyond the 32-bit range is the prefixed `Row.Scan` range error naming the column and the value |
| Store.Database.DeleteImage | internal/database/base.go:200-217 | a failed statement changes nothing; otherwise the row is gone, the location too when the engine cascades, and "image not found" exactly when no row matched |
| Store.Database.GetCurrentImage | internal/database/base.go:220-261 | "no images found" exactly when the table is empty; otherwise a row whose creation time is the latest |
| Store.Database.CreateLocation | internal/database/base.go:264-291 | the statement's error is returned; on success the location row for the image is replaced and images are untouched |
| Store.Database.GetLocation | internal/database/base.go:294-319 | "location not found" exactly when no row exists; otherwise the stored row |
| Store.Database.UpdateLocation | internal/database/base.go:322-362 | only an existing row is updated, and "location not found" exactly when none matched; which images have a location never changes |
| Store.Database.DeleteLocation | internal/database/base.go:365-369 | a successful statement removes the image's location and nothing else |
| Store.Database.CreateImageDynamic | internal/database/base.go:34-91 | a payload that is not an image is refused with "invalid image type" and changes nothing; an image gets CreateImage's error (`CreateImageError`) and its new tables |
| Store.Database.CreateLocationDynamic | internal/database/base.go:265-268 | a payload that is not a location is refused with "invalid location type" and changes nothing |
| Store.Database.UpdateLocationDynamic | internal/database/base.go:322-362 | a payload that is not a location is refused with "invalid location type"; a location gets UpdateLocation's contract: the exec and rows-affected errors, "location not found" exactly when no row exists, and only an existing row overwritten |
| Store.ReadsBackUnique | internal/database/base.go:94-134 | the joined read of a row is determined by the tables |
| Store.CurrentIsHeadOfList | internal/database/base.go:137-261 | the current image is the first entry of the listing whenever the table is non-empty |
| Store.CreatedImageReadsBack | internal/database/base.go:34-134 | after a committed CreateImage, GetImage finds the id with the written title, description and Drive id, and the written location when it carries data |
| Store.DeletedImageNotFound | internal/database/base.go:94-217 | after a successful DeleteImage, GetImage answers "image not found" |
| Backends.OpenPostgres | internal/database/database.go:19-39 | an open error and then a ping error are reported with their prefixes; otherwise a server-sized pool on the DSN |
| Backends.NewDatabaseService | internal/database/database.go:19-39 | the typed service fails exactly when opening or pinging fails, with that error |
| CloudSql.ConnectionStringFields | internal/database/cloudsql.go:26-32 | the Cloud SQL DSN consists of exactly the six key=value fields, so each value reaches the driver under its own key |
| CloudSql.NewPostgreSQLDatabase | internal/database/cloudsql.go:64-84 | ping before pool: it fails exactly when open or ping fails, else it returns the base service on the DSN |
| CloudSql.PostgresConstructorsAgree | internal/database/cloudsql.go:64-84 | the base and typed PostgreSQL constructors succeed and fail together, on the same handle |
| CloudSql.NewCloudSQLConnection | internal/database/cloudsql.go:23-35 | connects to the DSN built from the four settings |
| CloudSql.ConfigFromEnv | internal/database/cloudsql.go:38-61 | the four settings are the four CLOUD_SQL_* variables |
| CloudSql.NewCloudSQLFromEnv | internal/database/cloudsql.go:46-58 | the first missing variable in the order connection name, database, user, password is reported as required; otherwise it connects |
| CloudSql.MissingVariableNeedsNoDriver | internal/database/cloudsql.go:46-58 | with a variable missing, the outcome is an error that does not depend on the driver |
| CloudSql.LocalDsn | internal/database/cloudsql.go:88-92 | DATABASE_URL when set and non-empty, otherwise the local default DSN |
| CloudSql.NewLocalPostgres | internal/database/cloudsql.go:87-95 | connects to the local DSN |
| Sqlite.DbPath | internal/database/sqlite.go:15-18 | SQLITE_DB_PATH when set, otherwise ":memory:"; never empty |
| Sqlite.Schema | internal/database/sqlite.go:45-74 | the two table statements, then the index statements in order |
| Sqlite.FirstFailureIsFirst | internal/database/sqlite.go:77-90 | schema creation fails exactly when some statement fails, and reports the first failing statement with its own prefix |
| Sqlite.CreateSQLiteTables | internal/database/sqlite.go:43-93 | the statement loop reports exactly the first failure |
| Sqlite.SQLiteOutcome | internal/database/sqlite.go:13-40 | open, ping and schema errors in that order with their prefixes; otherwise the typed service on the path with the single-connection pool |
| Sqlite.NewSQLiteDatabase | internal/database/sqlite.go:13-40 | the constructor's result is that outcome |
| Factory.WithType | internal/database/factory.go:42-53 | each of the three type names selects its backend; any other name is "unsupported database type" |
| Factory.FromEnv | internal/database/factory.go:21-39 | an unset DATABASE_TYPE selects SQLite |
| Factory.FromEnvIsWithType | internal/database/factory.go:21-39 | reading the environment is choosing the type named by DATABASE_TYPE, SQLite by default |
| Factory.WithFallback | internal/database/factory.go:56-66 | the primary backend when it succeeds, otherwise the fallback's outcome |
| Factory.FallbackUnusedOnSuccess | internal/database/factory.go:56-66 | a working primary makes the fallback irrelevant |
| Factory.FallbackErrorIsFallbacks | internal/database/factory.go:56-66 | the combination fails exactly when both fail, with the fallback's error |
| DriveOAuth.TitleOf | internal/services/drive_util_oauth.go:191-194 | the title is the file name cut before its last '.', or the whole name when it has none |
| DriveOAuth.RecordOf | internal/services/drive_util_oauth.go:196-204 | a listed file becomes a record with its id as both ids, its title, the description "Image uploaded on <createdTime>" and the "Unknown Location" placeholder |
| DriveOAuth.DriveUtilOAuth.constructor | internal/services/drive_util_oauth.go:35-71 | the folder and its files as given |
| DriveOAuth.DriveUtilOAuth.UploadFile | internal/services/drive_util_oauth.go:121-134 | a failed create changes nothing and is prefixed "upload failed: "; a successful one adds the file, named and parented in the folder, under the new id |
| DriveOAuth.DriveUtilOAuth.DeleteFile | internal/services/drive_util_oauth.go:152-158 | a failed delete changes nothing and is prefixed "delete failed: "; a successful one removes exactly that file |
| DriveOAuth.DriveUtilOAuth.ListImageFilesInFolder | internal/services/drive_util_oauth.go:176-210 | a listing error is prefixed; otherwise one record per listed file, in order, with its ids, title, description and placeholder location |
| DriveOAuth.LoadOrGetToken | internal/services/drive_util_oauth.go:73-88 | a valid stored token is used as is; an expired one is refreshed and saved; the interactive flow runs exactly when neither works |
| DriveOAuth.NewDriveUtilOAuth | internal/services/drive_util_oauth.go:35-71 | read and parse errors are prefixed; on success the client uses the first redirect URI and the Drive file scope with the token LoadOrGetToken gives |
| ImageService.ChooseId | internal/services/image_service.go:47-50 | a given id is kept; an empty one becomes "img_" and the clock's nanoseconds in decimal |
| ImageService.GeneratedIdsDistinct | internal/services/image_service.go:47-50 | ids generated at different clock readings differ |
| ImageService.BlobName | internal/services/image_service.go:53-56 | the Drive file is always named <id>_<title>.jpg (the "_" fallback can never apply) |
| ImageService.UploadedRecord | internal/services/image_service.go:68-74 | the stored record has the chosen id, the request's fields and Drive's file id |
| ImageService.UploadedImageIsFound | internal/services/image_service.go:45-138 | upload then get: after a successful upload the chosen id is found with the request's title and description and the Drive file id |
| ImageService.DeletedImageIsNotFound | internal/services/image_service.go:124-175 | delete then get: once the row is deleted, the lookup answers "Image not found" |
| ImageService.ImageService.constructor | internal/services/image_service.go:20-25 | the service holds the given Drive client and store |
| ImageService.ImageService.GetCurrentImage | internal/services/image_service.go:28-42 | success exactly when the query works and there are images; the record is the newest one, read back; otherwise "No images found" |
| ImageService.ImageService.UploadImage | internal/services/image_service.go:45-90 | a Drive failure stores nothing anywhere; a store failure leaves the new Drive file in place; success stores the record and location and returns it |
| ImageService.ImageService.GetImageCount | internal/services/image_service.go:93-104 | the row count, or count 0 with the store's error |
| ImageService.ImageService.ListImages | internal/services/image_service.go:107-121 | "Found <n> images" with n the number listed, read back, distinct, newest first; every image when the row stream is not cut short, otherwise a prefix reported as success; a store failure is prefixed and lists nothing |
| ImageService.ImageService.GetImageById | internal/services/image_service.go:124-138 | success exactly when the query works and the id exists, with the row read back; otherwise "Image not found" |
| ImageService.ImageService.DeleteImage | internal/services/image_service.go:141-175 | the answer is DeleteResponse of what each step answered; the blob is deleted before the row, and a failure stops the later steps |
| ImageService.BlobOf | internal/services/image_service.go:152 | the Drive id recorded for the image |
| ImageService.DeleteResponse | internal/services/image_service.go:141-175 | not found, Drive failure, database failure (statement or rows affected) and success, each with its message; success exactly when every step works |
| LocationService.IsValidLatitude | internal/services/location_service.go:195-197 | a latitude is valid exactly when it lies in [-90, 90], bounds included (NaN is not modelled) |
| LocationService.IsValidLongitude | internal/services/location_service.go:200-202 | a longitude is valid exactly when it lies in [-180, 180], bounds included (NaN is not modelled) |
| LocationService.ExtractComponents | internal/services/location_service.go:113-126 | the component loop computes the city and country that Resolve defines |
| LocationService.LastWith | internal/services/location_service.go:113-126 | the last component carrying a given type |
| LocationService.FirstNamedAdminArea | internal/services/location_service.go:113-126 | the first first-level administrative area with a non-empty name |
| LocationService.ApplyTypesCountry | internal/services/location_service.go:113-126 | a component sets the country exactly when it carries the country type |
| LocationService.ApplyTypesLocality | internal/services/location_service.go:113-126 | a component carrying the locality type sets the city |
| LocationService.ApplyTypesNoLocality | internal/services/location_service.go:113-126 | without the locality type, a component sets the city only when it is an administrative area and the city is still empty |
| LocationService.CountryIsLastCountry | internal/services/location_service.go:113-126 | the country is the name of the last country component |
| LocationService.CityFromLastLocality | internal/services/location_service.go:113-126 | the city is the last locality's name when that name is non-empty |
| LocationService.CityWithoutLocality | internal/services/location_service.go:113-126 | with no locality, the city is the first named administrative area |
| LocationService.OrDefault | internal/services/location_service.go:129-134 | an empty value is replaced by the placeholder |
| LocationService.ReverseLocation | internal/services/location_service.go:129-137 | the given coordinates, the formatted address, the city (also the name) and the country, never empty |
| LocationService.ForwardLocation | internal/services/location_service.go:159-189 | the query as name, the result's coordinates and address, a non-empty city and country |
| LocationService.ReverseGeocode | internal/services/location_service.go:83-140 | a geocoder error and an empty answer are reported as such; otherwise the first result becomes the location |
| LocationService.Geocode | internal/services/location_service.go:143-192 | a geocoder error and an empty answer (naming the query) are reported; otherwise the first result becomes the location |
| LocationService.GetLocationFromCoords | internal/services/location_service.go:32-55 | out-of-range coordinates are refused before the geocoder; success exactly when they are valid and a result exists |
| LocationService.GetLocationFromName | internal/services/location_service.go:58-80 | a blank name is refused; success exactly when it is not blank and a result exists |
| GoStrings.TrimSpace | internal/middleware/cors_config.go:40-42 | the result is the infix of the input between a white-space prefix and a white-space suffix; it is empty exactly when the input is all white space, and otherwise starts and ends with a non-space |
| GoStrings.Split | internal/middleware/cors_config.go:37-44 | at least one piece, none containing the separator |
| GoStrings.SplitJoin | internal/middleware/cors_config.go:37-44 | splitting a joined list of separator-free pieces gives the list back |
| GoStrings.JoinSplit | internal/middleware/cors_config.go:37-44 | joining the pieces of a split gives the string back |
| GoStrings.FormatIntSign | internal/services/image_service.go:49 | only negative numbers print with a minus sign |
| GoStrings.FormatIntRoundTrip | internal/services/image_service.go:49 | reading a printed integer back gives the integer |
| GoStrings.FormatIntInjective | internal/services/image_service.go:49 | distinct integers print differently |
| Http.ErrorHeaders | internal/handlers/direct-handlers.go:71 | an error reply drops Content-Length, sets a plain-text type and nosniff, and keeps every other header |
| Http.ResponseWriter.constructor | internal/handlers/direct-handlers.go:49-61 | a fresh response: the given headers, no status and no body |
| Http.ResponseWriter.Code | internal/handlers/direct-handlers.go:49-61 | the status sent, or 200 when none was |
| Http.ResponseWriter.SetHeader | internal/handlers/direct-handlers.go:131 | one header set; nothing sent changes |
| Http.ResponseWriter.WriteHeader | internal/handlers/direct-handlers.go:132 | only the first status counts, and the headers it sends are fixed at that moment |
| Http.ResponseWriter.Write | internal/handlers/direct-handlers.go:133 | writing sends 200 with the current headers if nothing was sent, and appends the chunk |
| Http.Error | internal/handlers/direct-handlers.go:71 | the error headers, the status unless one was already sent, and the message with a newline |
| Http.Encode | internal/handlers/direct-handlers.go:133 | a failed encode writes nothing; otherwise the JSON is appended as a write |
| Handlers.ServeMux.constructor | internal/handlers/direct-handlers.go:31-46 | no routes |
| Handlers.ServeMux.HandleFunc | internal/handlers/direct-handlers.go:31-46 | a new pattern is added to the routes |
| Handlers.FormValue | internal/handlers/direct-handlers.go:91-114 | a form field or query parameter is read with the environment lookup, so a missing key reads as the empty string |
| Handlers.ParsedOrZero | internal/handlers/direct-handlers.go:98-108 | a coordinate that is empty or does not parse stays 0 |
| Handlers.UploadRequestOf | internal/handlers/direct-handlers.go:90-122 | the request carries the form's title and description, the image bytes, no id, and a location built from the form fields |
| Handlers.BuildUploadRequest | internal/handlers/direct-handlers.go:90-122 | the form reading yields exactly that request |
| Handlers.CoordsRequest | internal/handlers/direct-handlers.go:236-254 | a missing parameter, then a bad latitude, then a bad longitude is refused with its own message; otherwise both parsed values |
| Handlers.NameRequest | internal/handlers/direct-handlers.go:279-283 | an empty name is refused; otherwise the name as given |
| Handlers.JsonHeaders | internal/handlers/direct-handlers.go:131 | the headers with Content-Type application/json and nothing else changed |
| Handlers.Fail | internal/handlers/direct-handlers.go:71 | one error reply is sent |
| Handlers.Respond | internal/handlers/direct-handlers.go:125-136 | a service error gives a 500 with the handler's prefix; otherwise a JSON reply, 201 or 200, with the encoder's failure handled as the variant does |
| Handlers.HealthBody | internal/handlers/direct-handlers.go:304-308 | exactly the three fields status "healthy", the timestamp and the service name |
| DirectHandlers.Timeout | internal/handlers/direct-handlers.go:50-276 | every handler but the health check has a deadline of 5 to 30 seconds, and only the upload gets 30 |
| DirectHandlers.RegisterRoutes | internal/handlers/direct-handlers.go:31-46 | the nine patterns are added, each with its handler, and nothing else changes |
| DirectHandlers.GetCurrentImage | internal/handlers/direct-handlers.go:49-61 | a service error is a 500 "Failed to get current image: "; otherwise the JSON reply |
| DirectHandlers.UploadImage | internal/handlers/direct-handlers.go:64-137 | form, missing image and unreadable image are refused with 400, 400 and 500 before the service is called; otherwise the form's request is sent and the answer is 201 JSON, or a 500 |
| DirectHandlers.GetImageCount | internal/handlers/direct-handlers.go:140-155 | a service error is a 500 "Failed to get image count: "; otherwise the JSON reply with the encode check |
| DirectHandlers.ListImages | internal/handlers/direct-handlers.go:158-173 | a service error is a 500 "Failed to list images: "; otherwise the JSON reply with the encode check |
| DirectHandlers.GetImageById | internal/handlers/direct-handlers.go:176-201 | an empty id is a 400 and calls nothing; otherwise the id is sent and the answer is replied or its error is a 500 |
| DirectHandlers.DeleteImage | internal/handlers/direct-handlers.go:204-229 | an empty id is a 400 and calls nothing; otherwise the id is sent and the answer is replied or its error is a 500 |
| DirectHandlers.GetLocationFromCoords | internal/handlers/direct-handlers.go:232-272 | a bad query is a 400 with its message and calls nothing; otherwise the parsed pair is sent |
| DirectHandlers.GetLocationFromName | internal/handlers/direct-handlers.go:275-300 | an empty name is a 400 and calls nothing; otherwise the name is sent |
| DirectHandlers.HealthCheck | internal/handlers/direct-handlers.go:303-312 | the health JSON for "image-api-cloudrun", with no encode check |
| HttpHandlers.Timeout | internal/handlers/http-handlers.go:49-242 | every gateway handler but the health check has a deadline of 5 to 30 seconds, and only the upload gets 30 |
| HttpHandlers.RegisterRoutes | internal/handlers/http-handlers.go:31-45 | the eight patterns are added, each with its handler, and nothing else changes |
| HttpHandlers.GetCurrentImage | internal/handlers/http-handlers.go:48-60 | as the direct handler, without the encode check |
| HttpHandlers.UploadImage | internal/handlers/http-handlers.go:63-133 | as the direct handler; the 201 reply has no encode check |
| HttpHandlers.GetImageCount | internal/handlers/http-handlers.go:136-148 | as the direct handler, without the encode check |
| HttpHandlers.GetImageById | internal/handlers/http-handlers.go:151-173 | as the direct handler, without the encode check |
| HttpHandlers.DeleteImage | internal/handlers/http-handlers.go:176-198 | as the direct handler, without the encode check |
| HttpHandlers.GetLocationFromCoords | internal/handlers/http-handlers.go:201-238 | as the direct handler, without the encode check |
| HttpHandlers.GetLocationFromName | internal/handlers/http-handlers.go:241-263 | as the direct handler, without the encode check |
| HttpHandlers.HealthCheck | internal/handlers/http-handlers.go:266-275 | the health JSON for "image-api-http-gateway" |
| HttpHandlers.RoutesAreDirectWithoutList | internal/handlers/http-handlers.go:31-45 | the gateway serves the direct routes except the image listing |
| HttpHandlers.TimeoutsAgree | internal/handlers/http-handlers.go:49-242 | every route the two front ends share has the same timeout in both |
| Cors.DefaultCORSConfig | internal/middleware/cors.go:18-49 | the two development origins and the production site, with the fixed methods, headers, credentials and a max age of 86400 |
| Cors.DefaultConfigOrigins | internal/middleware/cors.go:18-80 | under the default configuration the production site is echoed, and any origin outside the three gets no Allow-Origin header |
| Cors.JoinStrings | internal/middleware/cors.go:83-93 | the loop joins the elements with the separator between neighbours; an empty list gives "" |
| Cors.CorsHeaders | internal/middleware/cors.go:52-80 | an allowed origin is echoed; otherwise the origin header is left as it was; the method, header, credentials and max-age headers are always set; others are kept |
| Cors.StarIsNotWildcard | internal/middleware/cors.go:57-63 | listing "*" does not allow any other origin: the comparison is exact |
| Cors.FixedHeadersIgnoreConfig | internal/middleware/cors.go:65-68 | the credentials and max-age headers do not depend on the configured values |
| Cors.TestConfigLists | internal/middleware/cors_test.go:27-54 | the test configuration's methods and headers join to the expected header values |
| Cors.TestConfigAllowed | internal/middleware/cors_test.go:27-54 | the preflight from localhost:3000 gets the four expected headers |
| Cors.TestConfigDisallowed | internal/middleware/cors_test.go:74-90 | a request from another origin gets no Allow-Origin header |
| Cors.CORS | internal/middleware/cors.go:52-80 | the headers are set before anything else; OPTIONS is answered 200 and stops; every other method goes on to the next handler |
| CorsConfig.TrimAll | internal/middleware/cors_config.go:40-42 | each piece trimmed, in place and in order |
| CorsConfig.OriginsFor | internal/middleware/cors_config.go:37-63 | development mode allows "*"; otherwise CORS_ALLOWED_ORIGINS split and trimmed, or the default origins when unset |
| CorsConfig.ConfigFor | internal/middleware/cors_config.go:9-66 | the origins for the environment with the fixed methods, headers, credentials and a max age of 86400 |
| CorsConfig.TrimInPlace | internal/middleware/cors_config.go:40-42 | the loop trims each array element in place |
| CorsConfig.GetCORSConfig | internal/middleware/cors_config.go:9-66 | the method's result is the configuration for the environment |
| CorsConfig.ConfigNeverEmpty | internal/middleware/cors_config.go:37-57 | every environment allows at least one origin and one method, with credentials |
| CorsConfig.OriginsKeepPieces | internal/middleware/cors_config.go:37-44 | one origin per comma-separated piece, and the pieces make up the variable |
| CorsConfig.OnlyOriginsVary | internal/middleware/cors_config.go:10-34 | everything but the origins is the same for every environment |
| CorsConfig.DefaultConfigIsNarrower | internal/middleware/cors.go:18-49 | the middleware's default configuration equals every environment's configuration except for origins, and its origins are among the defaults used when the variable is empty |

## Left out

- Timeouts: each handler's `context.WithTimeout` is a constant (`DirectHandlers.Timeout`, `HttpHandlers.Timeout`). The model has no time, so a deadline reaches it only as an SQL outcome, or as the `stop` position at which `rows.Next()` ends a listing early.
- Real I/O is not modelled: network, Drive, Maps, Secret Manager, SQL execution and files. Each call is a parameter that answers success or an error.
- JSON encoding, multipart parsing and `strconv.ParseFloat` are abstract. A failed encode writes nothing, and NaN and the float syntax are not modelled.
- Handler path ids: the `r.PathValue("id") == ""` branches are modelled, but Go's mux patterns never route an empty id there.
- Upload encode failure: in the direct upload, http.Error after the 201 status cannot change the status. The model keeps the 201 that Go sends.
- Typed and base services: one store models both the typed service (`database.go`) and the base service (`base.go`). Their SQL is the same, and the code passes one where the other is declared.
- SQL row order: within equal creation times, the order is whatever the engine returns.
- NULL scan: scanning the NULL columns of the LEFT JOIN belongs to the query oracle. A read that succeeds sees the zero values.
- Pool settings (open and idle connections, connection lifetime) are values, not behaviour.
- Drive: DownloadFile, ListFilesInFolder, GetFolderInfo, startOAuthFlow and saveToken are left out. They are not used by the modelled operations, and their effect reaches the model only as the token oracle's answer. `internal/services/drive_util.go` is not part of this model.
- DriveOAuth.NewDriveUtilOAuth: requires at least one redirect URI, because Go's `[0]` index would panic on an empty list.
- Handlers.ServeMux.HandleFunc: requires a new pattern. Go panics on a conflicting one, and the model checks only exact duplicates.
- Secrets.GetSecret: the secret payload is a string, not bytes.
- CloudSql.ConnectionString: it has no contract of its own. ConnectionStringFields states its format.
- Config.LoadConfig: it has no contract of its own. LoadConfigReadsVariable states what each field reads.
- The program's entry point (`cmd/`), the gRPC server wiring, reflection and logging are left out.

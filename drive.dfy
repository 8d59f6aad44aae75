/** The OAuth-authorised Google Drive client: the remote folder as a map
    from file id to file, the upload and delete calls over it, the mapping of
    a folder listing to image records, and the token decision tree that runs
    when the client is built. Every Drive and OAuth call is an oracle. */
module DriveOAuth {
  import opened Wrappers
  import opened Records
  import opened GoStrings

  /** A file as Drive stores it. */
  datatype DriveFile = DriveFile(name: string, parents: seq<string>, data: Bytes)

  /** A file as the folder listing reports it. */
  datatype ListedFile = ListedFile(id: string, name: string, createdTime: string)

  /** The title of a listed file: its name up to, not including, the last
      '.', or the whole name when it has no '.'. */
  function TitleOf(name: string): (title: string)
    ensures '.' !in name ==> title == name
    ensures '.' in name ==> |title| < |name| && name[..|title|] == title && name[|title|] == '.' && '.' !in name[|title| + 1..]
  {
    var lastDot := LastIndex(name, '.');
    if lastDot != -1 then name[..lastDot] else name
  }

  /** The record a listed file becomes. */
  function RecordOf(f: ListedFile): (m: ImageMetadata)
    ensures m.id == f.id && m.driveFileId == f.id && m.title == TitleOf(f.name)
    ensures m.description == "Image uploaded on " + f.createdTime
    ensures m.location == Some(Location(0.0, 0.0, "Unknown Location", "", "", ""))
  {
    ImageMetadata(
      f.id,
      TitleOf(f.name),
      "Image uploaded on " + f.createdTime,
      Some(EmptyLocation.(name := "Unknown Location")),
      f.id)
  }

  class DriveUtilOAuth {
    /** The folder every upload goes to. */
    const folderID: string
    /** The remote Drive's files, by file id. */
    var files: map<string, DriveFile>

    constructor (folderID: string, files: map<string, DriveFile>)
      ensures this.folderID == folderID && this.files == files
    {
      this.folderID := folderID;
      this.files := files;
    }

    /** `UploadFile`: creates the file with the folder as its only parent and
        returns the id Drive chose (`created`); failures are wrapped. */
    method UploadFile(filename: string, data: Bytes, created: Result<string>) returns (r: Result<string>)
      modifies this
      ensures created.Err? ==> r == Err("upload failed: " + created.error) && files == old(files)
      ensures created.Ok? ==> r == created && files == old(files)[created.value := DriveFile(filename, [folderID], data)]
    {
      if created.Err? {
        return Err("upload failed: " + created.error);
      }
      files := files[created.value := DriveFile(filename, [folderID], data)];
      return Ok(created.value);
    }

    /** `DeleteFile`: removes the file; failures are wrapped. */
    method DeleteFile(fileID: string, outcome: Option<string>) returns (err: Option<string>)
      modifies this
      ensures outcome.Some? ==> err == Some("delete failed: " + outcome.value) && files == old(files)
      ensures outcome.None? ==> err.None? && files == old(files) - {fileID}
    {
      if outcome.Some? {
        return Some("delete failed: " + outcome.value);
      }
      files := files - {fileID};
      return None;
    }

    /** `ListImageFilesInFolder`: one record per listed file, in listing
        order; a listing failure gives an error and no records. */
    method ListImageFilesInFolder(listing: Result<seq<ListedFile>>) returns (r: Result<seq<ImageMetadata>>)
      ensures listing.Err? ==> r == Err("failed to list image files: " + listing.error)
      ensures listing.Ok? ==> r.Ok? && |r.value| == |listing.value|
      ensures listing.Ok? ==> forall i :: 0 <= i < |r.value| ==>
                r.value[i].id == listing.value[i].id && r.value[i].driveFileId == listing.value[i].id
                && r.value[i].title == TitleOf(listing.value[i].name)
                && r.value[i].description == "Image uploaded on " + listing.value[i].createdTime
                && r.value[i].location == Some(Location(0.0, 0.0, "Unknown Location", "", "", ""))
    {
      if listing.Err? {
        return Err("failed to list image files: " + listing.error);
      }
      var imageMetadata: seq<ImageMetadata> := [];
      for i := 0 to |listing.value|
        invariant |imageMetadata| == i
        invariant forall k :: 0 <= k < i ==> imageMetadata[k] == RecordOf(listing.value[k])
      {
        imageMetadata := imageMetadata + [RecordOf(listing.value[i])];
      }
      return Ok(imageMetadata);
    }
  }

  /** An OAuth2 token. */
  datatype Token = Token(accessToken: string, refreshToken: string, expiry: int)

  /** What reading and decoding the token file gave; `valid` is what
      `token.Valid()` answers at the time of the check. */
  datatype StoredToken = Unreadable | Undecodable | Stored(token: Token, valid: bool)

  /** The outcome of `loadOrGetToken` and its side effects: which token was
      saved by it, and whether the interactive flow ran. */
  datatype TokenOutcome = TokenOutcome(token: Result<Token>, saved: Option<Token>, interactive: bool)

  /** `loadOrGetToken`: a valid stored token is used as it is; an invalid one
      that the token source refreshes is saved and used; anything else runs
      the interactive flow (`flow`, which saves its own token). */
  function LoadOrGetToken(stored: StoredToken, refresh: Result<Token>, flow: Result<Token>): (o: TokenOutcome)
    ensures stored.Stored? && stored.valid ==> o == TokenOutcome(Ok(stored.token), None, false)
    ensures stored.Stored? && !stored.valid && refresh.Ok? ==> o == TokenOutcome(refresh, Some(refresh.value), false)
    ensures o.interactive <==> !(stored.Stored? && (stored.valid || refresh.Ok?))
    ensures o.interactive ==> o.token == flow && o.saved.None?
  {
    if stored.Stored? && stored.valid then TokenOutcome(Ok(stored.token), None, false)
    else if stored.Stored? && refresh.Ok? then TokenOutcome(refresh, Some(refresh.value), false)
    else TokenOutcome(flow, None, true)
  }

  /** The `web` section of the OAuth client file. */
  datatype OAuthConfig = OAuthConfig(clientID: string, clientSecret: string, redirectURIs: seq<string>)

  /** The fields of `oauth2.Config` the client sets. */
  datatype OAuth2Config = OAuth2Config(clientID: string, clientSecret: string, redirectURL: string, scopes: seq<string>)

  const DriveFileScope := "https://www.googleapis.com/auth/drive.file"

  /** What reading and decoding the OAuth client file gave. */
  datatype ConfigFile = ReadFailed(readError: string) | ParseFailed(parseError: string) | Parsed(config: OAuthConfig)

  /** A connected client: the OAuth settings and the token it uses. */
  datatype Session = Session(config: OAuth2Config, token: Token)

  /** `NewDriveUtilOAuth`: read and decode the client file, take its first
      redirect URI (the file must list one: Go indexes it unguarded), get a
      token, then build the Drive service (`service` is that call's error). */
  function NewDriveUtilOAuth(file: ConfigFile, stored: StoredToken, refresh: Result<Token>, flow: Result<Token>, service: Option<string>): (r: Result<Session>)
    requires file.Parsed? ==> |file.config.redirectURIs| >= 1
    ensures file.ReadFailed? ==> r == Err("failed to read OAuth config: " + file.readError)
    ensures file.ParseFailed? ==> r == Err("failed to parse OAuth config: " + file.parseError)
    ensures r.Ok? ==> file.Parsed? && service.None?
    ensures r.Ok? ==> r.value.config == OAuth2Config(file.config.clientID, file.config.clientSecret, file.config.redirectURIs[0], [DriveFileScope])
    ensures r.Ok? ==> Ok(r.value.token) == LoadOrGetToken(stored, refresh, flow).token
    ensures file.Parsed? && LoadOrGetToken(stored, refresh, flow).token.Err? ==>
              r == Err("failed to get token: " + LoadOrGetToken(stored, refresh, flow).token.error)
  {
    match file
    case ReadFailed(e) => Err("failed to read OAuth config: " + e)
    case ParseFailed(e) => Err("failed to parse OAuth config: " + e)
    case Parsed(c) =>
      var config := OAuth2Config(c.clientID, c.clientSecret, c.redirectURIs[0], [DriveFileScope]);
      var token := LoadOrGetToken(stored, refresh, flow).token;
      if token.Err? then Err("failed to get token: " + token.error)
      else if service.Some? then Err("failed to create Drive service: " + service.value)
      else Ok(Session(config, token.value))
  }
}

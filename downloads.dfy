/** kidstunes/downloader.py: the filename sanitiser, the metadata resolver
    that refines a user's query (with the x.ai reply abstracted), the
    library path layout, and the search-and-download pipeline (with the
    yt-dlp search and fetch abstracted into given outcomes). */
module Downloads {
  import opened Wrappers
  import opened Text
  import opened Models
  import Configuration
  import opened Storage

  // ---------------------------------------------------------------------
  // sanitize_filename

  /** The characters the sanitiser's regex class matches. */
  const Forbidden: set<char> := {'<', '>', ':', '"', '/', '\\', '|', '?', '*', '+'}

  /** `re.sub(r'[<>:"/\\|?*+]', "_", name)`: each forbidden character
      becomes an underscore, every other character is kept in place. */
  function Replace(name: string): (r: string)
    ensures |r| == |name|
    ensures forall i :: 0 <= i < |name| ==> r[i] == if name[i] in Forbidden then '_' else name[i]
  {
    seq(|name|, i requires 0 <= i < |name| => if name[i] in Forbidden then '_' else name[i])
  }

  predicate Clean(s: string) {
    forall i :: 0 <= i < |s| ==> s[i] !in Forbidden
  }

  /** A slice of a clean string is clean. */
  lemma TrimOfClean(s: string, r: string)
    requires Clean(s) && IsTrimOf(r, s)
    ensures Clean(r)
  {
    var i: nat :| TrimAt(s, i, r);
    forall k | 0 <= k < |r| ensures r[k] !in Forbidden {
      assert r[k] == s[i + k];
    }
  }

  /** `sanitize_filename`: the replaced name with its whitespace margins
      stripped. The result holds no forbidden character, so in particular
      no `/` or `\`, and has no whitespace at either end. */
  function SanitizeFilename(name: string): (r: string)
    ensures Clean(r) && '/' !in r && '\\' !in r
    ensures Trimmed(r)
    ensures IsTrimOf(r, Replace(name))
  {
    var replaced := Replace(name);
    ReplaceClean(name, replaced);
    var r := Strip(replaced);
    TrimOfClean(replaced, r);
    r
  }

  /** The replaced name holds no forbidden character. */
  lemma ReplaceClean(name: string, replaced: string)
    requires replaced == Replace(name)
    ensures Clean(replaced)
  {
    forall i | 0 <= i < |replaced| ensures replaced[i] !in Forbidden {
      assert replaced[i] == if name[i] in Forbidden then '_' else name[i];
    }
  }

  /** Sanitising a sanitised name changes nothing. */
  lemma SanitizeIdempotent(name: string)
    ensures SanitizeFilename(SanitizeFilename(name)) == SanitizeFilename(name)
  {
    var s := SanitizeFilename(name);
    assert Replace(s) == s;
    StripTrimmed(s);
  }

  /** A name with no forbidden character and no whitespace margin is kept
      as it is. */
  lemma SanitizeKeeps(name: string)
    requires Clean(name) && Trimmed(name)
    ensures SanitizeFilename(name) == name
  {
    assert Replace(name) == name;
    StripTrimmed(name);
  }

  lemma SanitizePlain()
    ensures SanitizeFilename("test.mp3") == "test.mp3"
  {
    var s := "test.mp3";
    assert forall i :: 0 <= i < |s| ==> s[i] !in Forbidden;
    SanitizeKeeps(s);
  }

  lemma SanitizeAngles()
    ensures SanitizeFilename("test<file>.mp3") == "test_file_.mp3"
  {
    var s := "test<file>.mp3";
    var t := "test_file_.mp3";
    assert forall i :: 0 <= i < |s| ==> Replace(s)[i] == t[i];
    assert Replace(s) == t;
    StripTrimmed(t);
  }

  lemma SanitizePlus()
    ensures SanitizeFilename("for KING + COUNTRY") == "for KING _ COUNTRY"
  {
    var s := "for KING + COUNTRY";
    var t := "for KING _ COUNTRY";
    assert forall i :: 0 <= i < |s| ==> Replace(s)[i] == t[i];
    assert Replace(s) == t;
    StripTrimmed(t);
  }

  // ---------------------------------------------------------------------
  // refine_search_structured / refine_search

  /** What `json.loads` made of the reply's stripped content: an object
      (with the four keys looked up by `.get`), some other JSON value, or a
      parse error. */
  datatype Parsed =
    | ParsedObject(artist: Option<string>, song: Option<string>, album: Option<string>, refined: Option<string>)
    | ParsedOther
    | Unparsable

  /** The outcome of the chat-completions call: the request, the status
      check or reading `choices[0].message.content` raised, or it gave the
      content (before `.strip()`) and what parsing that yielded. */
  datatype Reply =
    | CallFailed
    | Answered(content: string, parsed: Parsed)

  /** The dict `refine_search_structured` returns. */
  datatype Resolution = Resolution(
    refinedSearchTerm: string,
    artist: Option<string>,
    song: Option<string>,
    album: Option<string>)

  const Singles: string := "Singles"

  /** The result without a usable reply: the query itself, no artist or
      song, the album "Singles". */
  function Fallback(query: string): Resolution {
    Resolution(query, None, None, Some(Singles))
  }

  /** `refine_search_structured(query)` given the configured `xai.api_key`
      and the reply the call would get. A falsy key, a failed call and a
      JSON value that is not an object (its `.get` raises AttributeError,
      which only the outer handler catches) all give the fallback. */
  function RefineSearchStructured(query: string, apiKey: Configuration.Yaml, reply: Reply): (res: Resolution)
    ensures !Configuration.Truthy(apiKey) ==> res == Fallback(query)
    ensures res.album.Some?
    ensures query != "" ==> res.refinedSearchTerm != ""
  {
    if !Configuration.Truthy(apiKey) then Fallback(query)
    else match reply
      case CallFailed => Fallback(query)
      case Answered(content, parsed) =>
        match parsed
        case ParsedObject(artist, song, album, refined) =>
          Resolution(OrElse(refined, query), artist, song, if album.None? then Some(Singles) else album)
        case ParsedOther => Fallback(query)
        case Unparsable =>
          var text := Strip(content);
          Resolution(if text != "" then text else query, None, None, Some(Singles))
  }

  /** Only a missing album is replaced: an empty album string is kept. */
  lemma EmptyAlbumKept(query: string, apiKey: Configuration.Yaml, content: string, artist: Option<string>, song: Option<string>, refined: Option<string>)
    requires Configuration.Truthy(apiKey)
    ensures RefineSearchStructured(query, apiKey, Answered(content, ParsedObject(artist, song, Some(""), refined))).album == Some("")
  {
  }

  /** `refine_search`: the refined term, or the query when that is falsy. */
  function RefineSearch(query: string, apiKey: Configuration.Yaml, reply: Reply): (r: string)
    ensures r == RefineSearchStructured(query, apiKey, reply).refinedSearchTerm
    ensures !Configuration.Truthy(apiKey) ==> r == query
  {
    var refined := RefineSearchStructured(query, apiKey, reply).refinedSearchTerm;
    OrElse(Some(refined), query)
  }

  // ---------------------------------------------------------------------
  // Library layout

  predicate IsDot(s: string) {
    |s| == 1 && s[0] == '.'
  }

  predicate IsRoot(s: string) {
    |s| == 1 && s[0] == '/'
  }

  /** `str(Path(dir) / name)` for a relative name and a directory already
      in pathlib's normal form: an empty or "." name adds nothing, "."
      as the directory is dropped, and "/" gets no second separator. */
  function JoinPath(dir: string, name: string): string {
    if name == [] || IsDot(name) then dir
    else if IsDot(dir) then name
    else if IsRoot(dir) then dir + name
    else dir + "/" + name
  }

  const UnknownArtist: string := "Unknown Artist"
  const UnknownSong: string := "Unknown Song"

  function ArtistDir(outputDir: string, artist: Option<string>): string {
    JoinPath(outputDir, SanitizeFilename(OrElse(artist, UnknownArtist)))
  }

  function AlbumDir(outputDir: string, artist: Option<string>, album: Option<string>): string {
    JoinPath(ArtistDir(outputDir, artist), SanitizeFilename(OrElse(album, Singles)))
  }

  /** `album_dir / f"{sanitize_filename(target_song)}.{audio_format}"`. */
  function ExpectedPath(outputDir: string, artist: Option<string>, album: Option<string>, song: Option<string>, ext: string): string {
    JoinPath(AlbumDir(outputDir, artist, album), FileName(SanitizeFilename(OrElse(song, UnknownSong)), ext))
  }

  function FileName(stem: string, ext: string): string {
    stem + "." + ext
  }

  /** Joining an ordinary directory and a real component puts one
      separator between them, and the result is ordinary again. */
  lemma JoinPlain(dir: string, name: string)
    requires dir != [] && !IsDot(dir) && !IsRoot(dir)
    requires name != [] && !IsDot(name)
    ensures JoinPath(dir, name) == dir + "/" + name
    ensures |JoinPath(dir, name)| >= 3
  {
  }

  /** The layout of three levels below an ordinary directory. */
  lemma JoinThree(dir: string, a: string, b: string, f: string)
    requires dir != [] && !IsDot(dir) && !IsRoot(dir)
    requires a != [] && !IsDot(a) && b != [] && !IsDot(b) && f != [] && !IsDot(f)
    ensures JoinPath(JoinPath(JoinPath(dir, a), b), f) == dir + "/" + a + "/" + b + "/" + f
  {
    JoinPlain(dir, a);
    JoinPlain(dir + "/" + a, b);
    JoinPlain(dir + "/" + a + "/" + b, f);
  }

  /** The library layout: for an ordinary output directory, a non-empty
      audio format and artist and album names that sanitise to neither ""
      nor ".", the file sits at `output_dir/artist/album/song.ext`, each
      level free of separators because the sanitiser removed them. Missing
      or falsy names fall back to "Unknown Artist", "Singles" and
      "Unknown Song". */
  lemma Layout(outputDir: string, artist: Option<string>, album: Option<string>, song: Option<string>, ext: string)
    requires outputDir != [] && !IsDot(outputDir) && !IsRoot(outputDir) && ext != []
    requires var a := SanitizeFilename(OrElse(artist, UnknownArtist)); a != [] && !IsDot(a)
    requires var b := SanitizeFilename(OrElse(album, Singles)); b != [] && !IsDot(b)
    ensures ExpectedPath(outputDir, artist, album, song, ext)
      == outputDir + "/" + SanitizeFilename(OrElse(artist, UnknownArtist))
         + "/" + SanitizeFilename(OrElse(album, Singles))
         + "/" + FileName(SanitizeFilename(OrElse(song, UnknownSong)), ext)
  {
    var stem := SanitizeFilename(OrElse(song, UnknownSong));
    JoinThree(outputDir, SanitizeFilename(OrElse(artist, UnknownArtist)), SanitizeFilename(OrElse(album, Singles)), FileName(stem, ext));
  }

  lemma UnknownArtistClean()
    ensures SanitizeFilename(UnknownArtist) == UnknownArtist
  {
    assert forall i :: 0 <= i < |UnknownArtist| ==> UnknownArtist[i] !in Forbidden;
    SanitizeKeeps(UnknownArtist);
  }

  lemma SinglesClean()
    ensures SanitizeFilename(Singles) == Singles
  {
    assert forall i :: 0 <= i < |Singles| ==> Singles[i] !in Forbidden;
    SanitizeKeeps(Singles);
  }

  lemma UnknownSongClean()
    ensures SanitizeFilename(UnknownSong) == UnknownSong
  {
    assert forall i :: 0 <= i < |UnknownSong| ==> UnknownSong[i] !in Forbidden;
    SanitizeKeeps(UnknownSong);
  }

  /** With no metadata at all the file is
      `output_dir/Unknown Artist/Singles/Unknown Song.ext`. */
  lemma DefaultLayout(outputDir: string, ext: string)
    requires outputDir != [] && !IsDot(outputDir) && !IsRoot(outputDir) && ext != []
    ensures ExpectedPath(outputDir, None, None, None, ext)
      == outputDir + "/" + UnknownArtist + "/" + Singles + "/" + FileName(UnknownSong, ext)
  {
    UnknownArtistClean();
    SinglesClean();
    UnknownSongClean();
    Layout(outputDir, None, None, None, ext);
  }

  lemma SanitizeBlank()
    ensures SanitizeFilename(" ") == ""
  {
    assert Replace(" ") == " ";
    assert StripLeft(" ") == "";
  }

  /** An artist made only of whitespace is truthy, so it is not replaced
      by "Unknown Artist", but it sanitises to "" and the artist level of
      the layout disappears: the album directory sits right in the output
      directory. */
  lemma BlankArtistCollapses(outputDir: string, album: Option<string>)
    ensures ArtistDir(outputDir, Some(" ")) == outputDir
    ensures AlbumDir(outputDir, Some(" "), album) == JoinPath(outputDir, SanitizeFilename(OrElse(album, Singles)))
  {
    SanitizeBlank();
    assert OrElse(Some(" "), UnknownArtist) == " ";
    assert ArtistDir(outputDir, Some(" ")) == JoinPath(outputDir, "");
  }

  // ---------------------------------------------------------------------
  // search_and_download

  /** The files and directories that exist. */
  class FileSystem {
    var files: set<string>
    var dirs: set<string>

    constructor (files: set<string>, dirs: set<string>)
      ensures this.files == files && this.dirs == dirs
    {
      this.files := files;
      this.dirs := dirs;
    }
  }

  /** A search hit: its `webpage_url` and `title`. */
  datatype Video = Video(url: string, title: string)

  /** The yt-dlp search: it raised, or returned a result whose `entries`
      is missing (`None`) or a list of hits. */
  datatype SearchOutcome =
    | SearchRaised(error: string)
    | SearchReturned(entries: Option<seq<Video>>)

  /** The yt-dlp download: it raised after writing some partial files, or
      returned an info dict whose `filepath` may be missing, having written
      some files. */
  datatype FetchOutcome =
    | FetchRaised(error: string, partial: set<string>)
    | FetchReturned(filepath: Option<string>, written: set<string>)

  const NoResults: string := "No search results found"

  /** The first hit, or the error the search step raises. */
  function FirstHit(search: SearchOutcome): (r: Result<Video>)
    ensures r.Ok? <==> search.SearchReturned? && search.entries.Some? && search.entries.value != []
    ensures r.Ok? ==> r.value == search.entries.value[0]
    ensures search.SearchReturned? && r.Err? ==> r.error == NoResults
  {
    match search
    case SearchRaised(e) => Err(e)
    case SearchReturned(entries) =>
      if entries.None? || entries.value == [] then Err(NoResults) else Ok(entries.value[0])
  }

  const FileExists: string := "[Errno 17] File exists: "
  const NotADirectory: string := "[Errno 20] Not a directory: "

  /** A path as `OSError` shows it. */
  function Quoted(path: string): string {
    "'" + path + "'"
  }

  /** The error `album_dir.mkdir(parents=True, exist_ok=True)` raises, if
      any, given the paths that exist as files. A directory that already
      exists is no error. The album directory existing as a file is: it
      exists but is not a directory. The output or artist directory
      existing as a file makes the album path unresolvable. In both cases
      `os.mkdir` of the album directory fails before anything is created. */
  function MkdirError(files: set<string>, outputDir: string, artist: Option<string>, album: Option<string>): (e: Option<string>)
    ensures e.Some? <==> outputDir in files || ArtistDir(outputDir, artist) in files || AlbumDir(outputDir, artist, album) in files
    ensures e.Some? ==> e.value == (if outputDir in files || ArtistDir(outputDir, artist) in files then NotADirectory else FileExists) + Quoted(AlbumDir(outputDir, artist, album))
  {
    var albumDir := AlbumDir(outputDir, artist, album);
    if outputDir in files || ArtistDir(outputDir, artist) in files then Some(NotADirectory + Quoted(albumDir))
    else if albumDir in files then Some(FileExists + Quoted(albumDir))
    else None
  }

  function DownloadingFields(v: Video): map<Column, string> {
    map[YoutubeUrl := v.url, YoutubeTitle := v.title, Status := Downloading]
  }

  function CompleteFields(path: string): map<Column, string> {
    map[FilePath := path, Status := Complete]
  }

  /** The path recorded on success: the fetch's own `filepath` if truthy,
      else the constructed one. */
  function FinalPath(fetched: Option<string>, expected: string): string {
    OrElse(fetched, expected)
  }

  /** What the pipeline returns, given the search, the error creating the
      directories raises (if any) and the fetch. */
  function PipelineResult(search: SearchOutcome, mkdir: Option<string>, fetch: FetchOutcome, expected: string): (r: Result<string>)
    ensures FirstHit(search).Err? ==> r == Err(FirstHit(search).error)
    ensures FirstHit(search).Ok? && mkdir.Some? ==> r == Err(mkdir.value)
    ensures FirstHit(search).Ok? && mkdir.None? && fetch.FetchRaised? ==> r == Err(fetch.error)
    ensures FirstHit(search).Ok? && mkdir.None? && fetch.FetchReturned? ==> r == Ok(FinalPath(fetch.filepath, expected))
  {
    match FirstHit(search)
    case Err(e) => Err(e)
    case Ok(_) =>
      if mkdir.Some? then Err(mkdir.value)
      else match fetch
        case FetchRaised(e, _) => Err(e)
        case FetchReturned(path, _) => Ok(FinalPath(path, expected))
  }

  /** The store after the pipeline: no write when the search fails; the
      `downloading` write once a hit is found; the `complete` write only
      after the directories are made and the fetch succeeds. */
  function PipelineRows(rows: map<int, Request>, id: int, search: SearchOutcome, mkdir: Option<string>, fetch: FetchOutcome, expected: string, now: Timestamp): map<int, Request> {
    match FirstHit(search)
    case Err(_) => rows
    case Ok(v) =>
      var started := Updated(rows, id, DownloadingFields(v), now);
      if mkdir.Some? then started
      else match fetch
        case FetchRaised(_, _) => started
        case FetchReturned(path, _) => Updated(started, id, CompleteFields(FinalPath(path, expected)), now)
  }

  /** The files after the pipeline: a failed fetch leaves its partial files
      except the one at the expected path, which is removed unless the
      removal itself fails; a failure to make the directories comes before
      the fetch and outside its cleanup, and changes no file. */
  function PipelineFiles(files: set<string>, search: SearchOutcome, mkdir: Option<string>, fetch: FetchOutcome, expected: string, cleanupFails: bool): set<string> {
    match FirstHit(search)
    case Err(_) => files
    case Ok(_) =>
      if mkdir.Some? then files
      else match fetch
        case FetchRaised(_, partial) =>
          if expected in files + partial && !cleanupFails then (files + partial) - {expected} else files + partial
        case FetchReturned(_, written) => files + written
  }

  /** The directories after the pipeline: the output, artist and album
      directories once a hit is found, unless making them fails. */
  function PipelineDirs(dirs: set<string>, search: SearchOutcome, mkdir: Option<string>, outputDir: string, artist: Option<string>, album: Option<string>): set<string> {
    if FirstHit(search).Err? || mkdir.Some? then dirs
    else dirs + {outputDir, ArtistDir(outputDir, artist), AlbumDir(outputDir, artist, album)}
  }

  /** What the pipeline does to the one record it writes. */
  function PipelineRecord(r: Request, search: SearchOutcome, mkdir: Option<string>, fetch: FetchOutcome, expected: string, now: Timestamp): Request {
    match FirstHit(search)
    case Err(_) => r
    case Ok(v) =>
      var started := Assign(r, DownloadingFields(v), now);
      if mkdir.Some? then started
      else match fetch
        case FetchRaised(_, _) => started
        case FetchReturned(path, _) => Assign(started, CompleteFields(FinalPath(path, expected)), now)
  }

  /** The pipeline writes the record of its own id and no other. */
  lemma PipelineRowsRecord(rows: map<int, Request>, id: int, search: SearchOutcome, mkdir: Option<string>, fetch: FetchOutcome, expected: string, now: Timestamp)
    ensures PipelineRows(rows, id, search, mkdir, fetch, expected, now)
      == if id in rows then rows[id := PipelineRecord(rows[id], search, mkdir, fetch, expected, now)] else rows
  {
    match FirstHit(search)
    case Err(_) =>
    case Ok(v) =>
      WritesAccepted(v, FinalPath(if fetch.FetchReturned? then fetch.filepath else None, expected));
  }

  /** The record after the pipeline, field by field. */
  lemma PipelineRecordFields(r: Request, search: SearchOutcome, mkdir: Option<string>, fetch: FetchOutcome, expected: string, now: Timestamp)
    ensures var u := PipelineRecord(r, search, mkdir, fetch, expected, now);
      && u.id == r.id && u.errorMessage == r.errorMessage
      && u.status == (if FirstHit(search).Err? then r.status else if mkdir.Some? || fetch.FetchRaised? then Downloading else Complete)
      && (FirstHit(search).Ok? && mkdir.None? && fetch.FetchReturned? ==> u.filePath == Some(FinalPath(fetch.filepath, expected)))
  {
    match FirstHit(search)
    case Err(_) =>
    case Ok(v) =>
      DownloadingWrite(r, v, now);
      if mkdir.None? {
        match fetch
        case FetchRaised(_, _) =>
        case FetchReturned(path, _) =>
          CompleteWrite(Assign(r, DownloadingFields(v), now), FinalPath(path, expected), now);
      }
  }

  /** On a failed search the store is untouched. */
  lemma SearchFailureWritesNothing(rows: map<int, Request>, id: int, search: SearchOutcome, mkdir: Option<string>, fetch: FetchOutcome, expected: string, now: Timestamp)
    requires FirstHit(search).Err?
    ensures PipelineRows(rows, id, search, mkdir, fetch, expected, now) == rows
  {
  }

  /** Both writes of the pipeline name real columns and admitted statuses. */
  lemma WritesAccepted(v: Video, path: string)
    ensures DownloadingFields(v) != map[] && !BreaksCheck(DownloadingFields(v))
    ensures CompleteFields(path) != map[] && !BreaksCheck(CompleteFields(path))
  {
    assert Status in DownloadingFields(v) && DownloadingFields(v)[Status] == Downloading;
    assert Status in CompleteFields(path) && CompleteFields(path)[Status] == Complete;
  }

  /** The `downloading` write sets the URL, the title and the status and
      nothing else a later step reads. */
  lemma DownloadingWrite(r: Request, v: Video, now: Timestamp)
    ensures var u := Assign(r, DownloadingFields(v), now);
      && u.status == Downloading && u.youtubeUrl == Some(v.url) && u.youtubeTitle == Some(v.title)
      && u.filePath == r.filePath && u.errorMessage == r.errorMessage && u.id == r.id
  {
    DownloadingValues(r, v, now);
  }

  lemma DownloadingValues(r: Request, v: Video, now: Timestamp)
    ensures var u := Assign(r, DownloadingFields(v), now);
      && ValueOf(u, Status) == Some(Downloading)
      && ValueOf(u, YoutubeUrl) == Some(v.url) && ValueOf(u, YoutubeTitle) == Some(v.title)
      && ValueOf(u, FilePath) == ValueOf(r, FilePath) && ValueOf(u, ErrorMessage) == ValueOf(r, ErrorMessage)
  {
    var f := DownloadingFields(v);
    assert Status in f && YoutubeUrl in f && YoutubeTitle in f && FilePath !in f && ErrorMessage !in f;
  }

  /** The `complete` write sets the path and the status only. */
  lemma CompleteWrite(r: Request, path: string, now: Timestamp)
    ensures var u := Assign(r, CompleteFields(path), now);
      && u.status == Complete && u.filePath == Some(path)
      && u.youtubeUrl == r.youtubeUrl && u.youtubeTitle == r.youtubeTitle
      && u.errorMessage == r.errorMessage && u.id == r.id
  {
    CompleteValues(r, path, now);
  }

  lemma CompleteValues(r: Request, path: string, now: Timestamp)
    ensures var u := Assign(r, CompleteFields(path), now);
      && ValueOf(u, Status) == Some(Complete) && ValueOf(u, FilePath) == Some(path)
      && ValueOf(u, YoutubeUrl) == ValueOf(r, YoutubeUrl) && ValueOf(u, YoutubeTitle) == ValueOf(r, YoutubeTitle)
      && ValueOf(u, ErrorMessage) == ValueOf(r, ErrorMessage)
  {
    var f := CompleteFields(path);
    assert Status in f && FilePath in f && YoutubeUrl !in f && YoutubeTitle !in f && ErrorMessage !in f;
  }

  /** A failure after the `downloading` write (making the directories or
      the fetch) leaves the record as that write made it: URL and title
      recorded, status `downloading`, no file path written. */
  lemma FetchFailureLeavesDownloading(rows: map<int, Request>, id: int, search: SearchOutcome, mkdir: Option<string>, fetch: FetchOutcome, expected: string, now: Timestamp)
    requires FirstHit(search).Ok? && (mkdir.Some? || fetch.FetchRaised?) && id in rows
    ensures var after := PipelineRows(rows, id, search, mkdir, fetch, expected, now);
      && after.Keys == rows.Keys
      && after[id].status == Downloading
      && after[id].youtubeUrl == Some(FirstHit(search).value.url)
      && after[id].youtubeTitle == Some(FirstHit(search).value.title)
      && after[id].filePath == rows[id].filePath
      && after[id].errorMessage == rows[id].errorMessage
      && (forall k :: k in rows && k != id ==> after[k] == rows[k])
  {
    var v := FirstHit(search).value;
    WritesAccepted(v, "");
    DownloadingWrite(rows[id], v, now);
    assert PipelineRows(rows, id, search, mkdir, fetch, expected, now) == rows[id := Assign(rows[id], DownloadingFields(v), now)];
  }

  /** A successful fetch completes the record with the chosen path, on top
      of the URL and title. */
  lemma FetchSuccessCompletes(rows: map<int, Request>, id: int, search: SearchOutcome, mkdir: Option<string>, fetch: FetchOutcome, expected: string, now: Timestamp)
    requires FirstHit(search).Ok? && mkdir.None? && fetch.FetchReturned? && id in rows
    ensures var after := PipelineRows(rows, id, search, mkdir, fetch, expected, now);
      && after.Keys == rows.Keys
      && after[id].status == Complete
      && after[id].filePath == Some(FinalPath(fetch.filepath, expected))
      && after[id].youtubeUrl == Some(FirstHit(search).value.url)
      && after[id].youtubeTitle == Some(FirstHit(search).value.title)
      && after[id].errorMessage == rows[id].errorMessage
      && (forall k :: k in rows && k != id ==> after[k] == rows[k])
  {
    var v := FirstHit(search).value;
    var path := FinalPath(fetch.filepath, expected);
    BothWrites(rows, id, v, path, now);
  }

  /** The two writes of a successful run, one after the other. */
  lemma BothWrites(rows: map<int, Request>, id: int, v: Video, path: string, now: Timestamp)
    requires id in rows
    ensures var after := Updated(Updated(rows, id, DownloadingFields(v), now), id, CompleteFields(path), now);
      && after.Keys == rows.Keys
      && after[id].status == Complete && after[id].filePath == Some(path)
      && after[id].youtubeUrl == Some(v.url) && after[id].youtubeTitle == Some(v.title)
      && after[id].errorMessage == rows[id].errorMessage
      && (forall k :: k in rows && k != id ==> after[k] == rows[k])
  {
    WritesAccepted(v, path);
    var started := Assign(rows[id], DownloadingFields(v), now);
    DownloadingWrite(rows[id], v, now);
    CompleteWrite(started, path, now);
  }

  /** The pipeline's writes keep every status one the table admits. */
  lemma PipelineKeepsStatuses(rows: map<int, Request>, id: int, search: SearchOutcome, mkdir: Option<string>, fetch: FetchOutcome, expected: string, now: Timestamp)
    requires forall k :: k in rows ==> rows[k].status in Statuses
    ensures var after := PipelineRows(rows, id, search, mkdir, fetch, expected, now);
      && after.Keys == rows.Keys
      && forall k :: k in after ==> after[k].status in Statuses
  {
    if FirstHit(search).Ok? && id in rows {
      if mkdir.Some? || fetch.FetchRaised? {
        FetchFailureLeavesDownloading(rows, id, search, mkdir, fetch, expected, now);
      } else {
        FetchSuccessCompletes(rows, id, search, mkdir, fetch, expected, now);
      }
    }
  }

  /** A failed fetch leaves no file at the expected path, unless removing
      it failed. */
  lemma FetchFailureCleansUp(files: set<string>, search: SearchOutcome, fetch: FetchOutcome, expected: string)
    requires FirstHit(search).Ok? && fetch.FetchRaised?
    ensures expected !in PipelineFiles(files, search, None, fetch, expected, false)
  {
  }

  /** A failure to make the directories is raised as it is, with the record
      left `downloading`, and no cleanup runs: a file already at the
      expected path stays, and no directory is created. */
  lemma MkdirFailureSkipsCleanup(files: set<string>, dirs: set<string>, search: SearchOutcome, mkdir: Option<string>, fetch: FetchOutcome,
                                 outputDir: string, artist: Option<string>, album: Option<string>, expected: string, cleanupFails: bool)
    requires FirstHit(search).Ok? && mkdir.Some?
    ensures PipelineResult(search, mkdir, fetch, expected) == Err(mkdir.value)
    ensures expected in files ==> expected in PipelineFiles(files, search, mkdir, fetch, expected, cleanupFails)
    ensures PipelineDirs(dirs, search, mkdir, outputDir, artist, album) == dirs
  {
  }

  /** A search without a hit leaves the store, the files and the
      directories alone. */
  lemma PipelineOnMiss(rows: map<int, Request>, files: set<string>, dirs: set<string>, id: int, search: SearchOutcome, mkdir: Option<string>,
                       fetch: FetchOutcome, outputDir: string, artist: Option<string>, album: Option<string>, expected: string, cleanupFails: bool, now: Timestamp)
    requires FirstHit(search).Err?
    ensures PipelineResult(search, mkdir, fetch, expected) == Err(FirstHit(search).error)
    ensures PipelineRows(rows, id, search, mkdir, fetch, expected, now) == rows
    ensures PipelineFiles(files, search, mkdir, fetch, expected, cleanupFails) == files
    ensures PipelineDirs(dirs, search, mkdir, outputDir, artist, album) == dirs
  {
  }

  /** Once the search has found `v` and the directories are made, the
      pipeline is the `downloading` write followed by the fetch and what
      follows it. */
  lemma PipelineOnHit(rows0: map<int, Request>, rows1: map<int, Request>, rows2: map<int, Request>,
                      files0: set<string>, files2: set<string>, id: int, search: SearchOutcome, v: Video,
                      fetch: FetchOutcome, expected: string, cleanupFails: bool, result: Result<string>, now: Timestamp)
    requires FirstHit(search) == Ok(v)
    requires rows1 == Updated(rows0, id, DownloadingFields(v), now)
    requires fetch.FetchRaised? ==> result == Err(fetch.error) && rows2 == rows1
    requires fetch.FetchReturned? ==> result == Ok(FinalPath(fetch.filepath, expected))
    requires fetch.FetchReturned? ==> rows2 == Updated(rows1, id, CompleteFields(FinalPath(fetch.filepath, expected)), now)
    requires fetch.FetchRaised? ==> files2 == if expected in files0 + fetch.partial && !cleanupFails then (files0 + fetch.partial) - {expected} else files0 + fetch.partial
    requires fetch.FetchReturned? ==> files2 == files0 + fetch.written
    ensures result == PipelineResult(search, None, fetch, expected)
    ensures rows2 == PipelineRows(rows0, id, search, None, fetch, expected, now)
    ensures files2 == PipelineFiles(files0, search, None, fetch, expected, cleanupFails)
  {
  }

  /** The `Downloader`, with the configuration values it reads: the output
      directory, the audio format and the search prefix
      (`paths.output_dir`, `ytdlp.audio_format`, `ytdlp.search_prefix`). */
  class Downloader {
    const db: Database
    const fs: FileSystem
    const outputDir: string
    const audioFormat: string
    const searchPrefix: string

    constructor (db: Database, fs: FileSystem, outputDir: string, audioFormat: string, searchPrefix: string)
      ensures this.db == db && this.fs == fs
      ensures this.outputDir == outputDir && this.audioFormat == audioFormat && this.searchPrefix == searchPrefix
    {
      this.db := db;
      this.fs := fs;
      this.outputDir := outputDir;
      this.audioFormat := audioFormat;
      this.searchPrefix := searchPrefix;
    }

    /** The error making the album directory for this metadata would raise
        now. */
    function Blocked(artist: Option<string>, album: Option<string>): Option<string>
      reads fs
    {
      MkdirError(fs.files, outputDir, artist, album)
    }

    /** `search_and_download(request_id, search_term, artist, song, album)`
        given what the search answers for each query and what the fetch
        does. The search runs on the prefixed term. It returns the file path, or
        the error it raises: "No search results found" (or the search's own
        error) before any write; after the `downloading` write, the error
        making the directories raises, or the fetch's error once the partial
        file is cleaned up. */
    method SearchAndDownload(requestId: int, searchTerm: string, artist: Option<string>, song: Option<string>, album: Option<string>,
                             search: string -> SearchOutcome, fetch: FetchOutcome, cleanupFails: bool, now: Timestamp)
      returns (result: Result<string>)
      requires db.Valid() && db.Ready()
      modifies db`rows, fs
      ensures db.Valid()
      ensures result == PipelineResult(search(searchPrefix + searchTerm), old(Blocked(artist, album)), fetch, ExpectedPath(outputDir, artist, album, song, audioFormat))
      ensures db.rows == PipelineRows(old(db.rows), requestId, search(searchPrefix + searchTerm), old(Blocked(artist, album)), fetch, ExpectedPath(outputDir, artist, album, song, audioFormat), now)
      ensures fs.files == PipelineFiles(old(fs.files), search(searchPrefix + searchTerm), old(Blocked(artist, album)), fetch, ExpectedPath(outputDir, artist, album, song, audioFormat), cleanupFails)
      ensures fs.dirs == PipelineDirs(old(fs.dirs), search(searchPrefix + searchTerm), old(Blocked(artist, album)), outputDir, artist, album)
    {
      ghost var rows0, files0, dirs0 := db.rows, fs.files, fs.dirs;
      ghost var blocked := Blocked(artist, album);
      var outcome := search(searchPrefix + searchTerm);
      var hit := FirstHit(outcome);
      if hit.Err? {
        PipelineOnMiss(db.rows, fs.files, fs.dirs, requestId, outcome, blocked, fetch, outputDir, artist, album,
                       ExpectedPath(outputDir, artist, album, song, audioFormat), cleanupFails, now);
        return Err(hit.error);
      }
      RecordDownloading(requestId, hit.value, now);
      ghost var rows1 := db.rows;
      var made := MakeDirectories(artist, song, album);
      if made.Err? {
        MkdirFailureSkipsCleanup(files0, dirs0, outcome, blocked, fetch, outputDir, artist, album,
                                 ExpectedPath(outputDir, artist, album, song, audioFormat), cleanupFails);
        return Err(made.error);
      }
      result := RunFetch(requestId, fetch, made.value, cleanupFails, now);
      PipelineOnHit(rows0, rows1, db.rows, files0, fs.files, requestId, outcome, hit.value, fetch, made.value, cleanupFails, result, now);
    }

    /** The target path from the metadata, with its fallbacks and sanitising,
        and `album_dir.mkdir(parents=True, exist_ok=True)`: the output,
        artist and album directories are created, or the error is raised
        and nothing is created. */
    method MakeDirectories(artist: Option<string>, song: Option<string>, album: Option<string>) returns (made: Result<string>)
      modifies fs
      ensures old(Blocked(artist, album)).Some? ==> made == Err(old(Blocked(artist, album)).value) && fs.dirs == old(fs.dirs)
      ensures old(Blocked(artist, album)).None? ==>
        && made == Ok(ExpectedPath(outputDir, artist, album, song, audioFormat))
        && fs.dirs == old(fs.dirs) + {outputDir, ArtistDir(outputDir, artist), AlbumDir(outputDir, artist, album)}
      ensures fs.files == old(fs.files)
    {
      var blocked := MkdirError(fs.files, outputDir, artist, album);
      if blocked.Some? {
        return Err(blocked.value);
      }
      var artistDir := ArtistDir(outputDir, artist);
      var albumDir := AlbumDir(outputDir, artist, album);
      fs.dirs := fs.dirs + {outputDir, artistDir, albumDir};
      made := Ok(ExpectedPath(outputDir, artist, album, song, audioFormat));
    }

    /** The fetch and what follows it: on an exception the partial files are
        cleaned up and the error re-raised; otherwise the final path is
        recorded with the status `complete` and returned. */
    method RunFetch(requestId: int, fetch: FetchOutcome, expectedPath: string, cleanupFails: bool, now: Timestamp)
      returns (result: Result<string>)
      requires db.Valid() && db.Ready()
      modifies db`rows, fs
      ensures db.Valid()
      ensures fetch.FetchRaised? ==> result == Err(fetch.error) && db.rows == old(db.rows)
      ensures fetch.FetchReturned? ==> result == Ok(FinalPath(fetch.filepath, expectedPath))
      ensures fetch.FetchReturned? ==> db.rows == Updated(old(db.rows), requestId, CompleteFields(FinalPath(fetch.filepath, expectedPath)), now)
      ensures fetch.FetchRaised? ==> fs.files == if expectedPath in old(fs.files) + fetch.partial && !cleanupFails then (old(fs.files) + fetch.partial) - {expectedPath} else old(fs.files) + fetch.partial
      ensures fetch.FetchReturned? ==> fs.files == old(fs.files) + fetch.written
      ensures fs.dirs == old(fs.dirs)
    {
      match fetch {
        case FetchRaised(error, partial) =>
          fs.files := fs.files + partial;
          RemovePartial(expectedPath, cleanupFails);
          return Err(error);
        case FetchReturned(filepath, written) =>
          fs.files := fs.files + written;
          var filePath := RecordComplete(requestId, filepath, expectedPath, now);
          return Ok(filePath);
      }
    }

    /** The write before the fetch: the hit's URL and title, and the status
        `downloading`. */
    method RecordDownloading(requestId: int, video: Video, now: Timestamp)
      requires db.Valid() && db.Ready()
      modifies db`rows
      ensures db.Valid()
      ensures db.rows == Updated(old(db.rows), requestId, DownloadingFields(video), now)
    {
      WritesAccepted(video, "");
      ReadyNamesAll(db.columns, DownloadingFields(video));
      var _ := db.UpdateRequest(requestId, DownloadingFields(video), now);
    }

    /** The failure handler's cleanup: the file at the expected path is
        removed if it exists, and a failing removal is swallowed. */
    method RemovePartial(expectedPath: string, cleanupFails: bool)
      modifies fs
      ensures fs.files == if expectedPath in old(fs.files) && !cleanupFails then old(fs.files) - {expectedPath} else old(fs.files)
      ensures fs.dirs == old(fs.dirs)
    {
      if expectedPath in fs.files {
        if !cleanupFails {
          fs.files := fs.files - {expectedPath};
        }
      }
    }

    /** After a successful fetch: the path is the fetch's `filepath`, or the
        constructed one when that is falsy, and it is written together with
        the status `complete`. */
    method RecordComplete(requestId: int, filepath: Option<string>, expectedPath: string, now: Timestamp) returns (path: string)
      requires db.Valid() && db.Ready()
      modifies db`rows
      ensures db.Valid()
      ensures path == FinalPath(filepath, expectedPath)
      ensures db.rows == Updated(old(db.rows), requestId, CompleteFields(path), now)
    {
      path := FinalPath(filepath, expectedPath);
      WritesAccepted(Video("", ""), path);
      ReadyNamesAll(db.columns, CompleteFields(path));
      var _ := db.UpdateRequest(requestId, CompleteFields(path), now);
    }
  }
}

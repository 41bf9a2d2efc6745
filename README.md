# kidstunes, modelled in Dafny

kidstunes is a Discord bot for music requests.

- A user types `!request <song>` in a request channel.
- The bot asks a language model to identify the artist, song and album.
- It stores the request in SQLite and posts an approval embed, with ✅ and ❌ reactions, to a moderation channel.
- An admin's ✅ makes the bot search YouTube, download the audio into `output_dir/artist/album/song.ext` and record the outcome. ❌ rejects the request.
- `!retry <id>` reruns a failed download.

This project models the logic under that transport and proves properties of it:

- the filename sanitiser and the library path layout;
- the metadata resolver's fallback chain;
- the search-and-download pipeline, over an abstract store, an abstract file system and given search and fetch outcomes;
- the request store: autoincrement inserts, partial updates, lookups, positional row decoding and the schema migration;
- the three moderation handlers, as transitions of the store;
- the approval embed's field list;
- the dotted-key configuration lookup.

Files, one module each:

| file | module | models |
|---|---|---|
| wrappers.dfy | Wrappers | `None`, and outcomes that may raise |
| text.dfy | Text | `str.strip`, truthiness of optional strings, `x or y`, `str(int)` |
| models.dfy | Models | the `Request` dataclass |
| configuration.dfy | Configuration | `Config.get` and its properties |
| storage.dfy | Storage | `Database` |
| downloads.dfy | Downloads | `Downloader` |
| moderation.dfy | Moderation | `RequestCog` and `_create_embed` |

How the model is built:

- State the source changes in place is a class with `modifies` clauses:
  - `Storage.Database`: columns, rows and the sequence counter;
  - `Downloads.FileSystem`;
  - `Downloads.Downloader` and `Moderation.RequestCog`.
  Their methods are proved against functions of the old state, such as `PipelineRows`, `ApproveRows`, `RejectRows` and `RetryRows`. Lemmas about those functions state what the source promises.
- `Config.get` is a loop method, proved against the recursive walk `Resolve`.
- The handlers return the messages they would send as a list of `Effect`s.

How the handlers behave:

- Approve and reject do not compare-and-set (kidstunes/bot.py:114, kidstunes/bot.py:166). A second ✅ reruns the pipeline whatever the status (`ApproveIgnoresStatus`, `SecondApproval`). ❌ on a completed request marks it `rejected` and keeps its file (`RejectOutcome`).
- A failing retry writes no `failed` status (kidstunes/bot.py:78-80). The record stays `approved` or `downloading` (`RetryOutcome`).
- Reaction handling is not atomic and not exactly-once: each event reads the record, then writes it.
- The lookups decode rows by position, as `_row_to_request` does. The handlers are stated for the table layout `create_tables` gives a new database (`Storage.Database.Fresh`, `Storage.MigratedFresh`). On that layout every stored record reads back as itself (`Storage.PositionalRoundTrip`).

## Model

| member | source | states |
|---|---|---|
| Text.Strip | kidstunes/downloader.py:21 | the result is the input less whitespace margins on both ends, and has no whitespace at either end |
| Text.StripTrimmed | kidstunes/downloader.py:21 | stripping a string without whitespace margins changes nothing |
| Text.OrElse | kidstunes/downloader.py:155-157 | `o or fallback`: the value when it is truthy (present and non-empty), the fallback otherwise |
| Text.DecimalString | kidstunes/bot.py:32 | `str(n)` of a Discord id is a non-empty string of digits, without a leading zero unless `n` is 0 |
| Text.IntString | kidstunes/bot.py:208 | `str(i)`: the decimal digits, with a leading minus for a negative id |
| Text.DecimalRoundTrip | kidstunes/bot.py:54 | `int(str(n)) == n` for the ids the bot stores as text |
| Text.DecimalInjective | kidstunes/bot.py:105 | distinct ids have distinct `str()` spellings, so a lookup by `str(message.id)` matches only records written with that id |
| Models.DefaultRequest | kidstunes/models.py:6-25 | a fresh `Request()` has no id, empty origin strings, status `pending` (one the table admits), and every other field `None` |
| Configuration.Split | kidstunes/config.py:17 | `key.split(".")` yields at least one segment, and no segment contains a dot |
| Configuration.SplitNoDot | kidstunes/config.py:17 | a key without a dot is one segment |
| Configuration.SplitDot | kidstunes/config.py:17 | splitting `a.b` with a dot-free `a` gives `a`, then the segments of `b` |
| Configuration.JoinSplit | kidstunes/config.py:17 | joining the segments with dots gives the key back |
| Configuration.SplitJoin | kidstunes/config.py:17 | splitting a dot-join of dot-free segments gives those segments back |
| Configuration.ResolveAppend | kidstunes/config.py:18-23 | the walk takes segments one at a time, left to right: walking `a + b` is walking `a`, then `b` |
| Configuration.ResolveStops | kidstunes/config.py:20-23 | once a segment is absent, or the value reached is not a mapping, the walk fails |
| Configuration.Config.Get | kidstunes/config.py:16-24 | the loop returns the value at the dotted path when every segment is present, and `default` (None unless given) otherwise |
| Configuration.TopLevelKey | kidstunes/config.py:17-24 | a key without a dot is a single top-level lookup |
| Configuration.SectionKey | kidstunes/config.py:17-24 | `section.name` reads two levels down, or gives the fallback |
| Configuration.PresentNullKept | kidstunes/config.py:20-21 | presence, not truthiness, decides: a key present with a null value gives that null, not the default |
| Configuration.NonDictSection | kidstunes/config.py:20-23 | a section that is present but not a mapping gives the default |
| Configuration.DiscordTokenKey | kidstunes/config.py:26-28 | `discord_token` reads `discord.token`, with no default |
| Configuration.RequestChannelIdKey | kidstunes/config.py:30-32 | `request_channel_id` reads `discord.request_channel_id`, with no default |
| Configuration.ApprovalChannelIdKey | kidstunes/config.py:34-36 | `approval_channel_id` reads `discord.approval_channel_id`, with no default |
| Configuration.AdminRoleIdKey | kidstunes/config.py:38-40 | `admin_role_id` reads `discord.admin_role_id`, with no default |
| Configuration.OutputDirKey | kidstunes/config.py:42-44 | `output_dir` reads `paths.output_dir`, with no default |
| Configuration.DatabasePathKey | kidstunes/config.py:46-48 | `database_path` reads `paths.database`, with no default |
| Configuration.TempDirKey | kidstunes/config.py:50-52 | `temp_dir` reads `paths.temp_dir`, with no default |
| Configuration.AudioFormatKey | kidstunes/config.py:54-56 | `audio_format` reads `ytdlp.audio_format`, with no default |
| Configuration.AudioQualityKey | kidstunes/config.py:58-60 | `audio_quality` reads `ytdlp.audio_quality`, with no default |
| Configuration.SearchPrefixKey | kidstunes/config.py:62-64 | `search_prefix` reads `ytdlp.search_prefix`, with no default |
| Configuration.XaiApiKeyKey | kidstunes/config.py:66-68 | `xai_api_key` reads `xai.api_key`, with no default |
| Configuration.XaiModelKey | kidstunes/config.py:70-72 | `xai_model` reads `xai.model`, with no default |
| Configuration.BeetsEnabledKey | kidstunes/config.py:74-76 | `beets_enabled` reads `beets.enabled`, with the default `False` |
| Configuration.BeetsLibraryPathKey | kidstunes/config.py:78-80 | `beets_library_path` reads `beets.library_path`, with the default `/tmp/beets_library.db` |
| Configuration.MusicDirectoryKey | kidstunes/config.py:82-84 | `beets.music_directory` is read two levels down, with any fallback |
| Configuration.BeetsMusicDirectoryKey | kidstunes/config.py:82-84 | `beets_music_directory` falls back to `output_dir` |
| Configuration.BeetsImportConfigKey | kidstunes/config.py:86-88 | `beets_import_config` reads `beets.import_config`, with the default `{}` |
| Configuration.BeetsDefaults | kidstunes/config.py:74-88 | with no `beets` section, the four beets settings are `False`, `/tmp/beets_library.db`, `output_dir` and `{}` |
| Storage.AddAllAbsentGrows | kidstunes/database.py:44-74 | the add-if-absent steps only append, and each tried column ends up present |
| Storage.AddAllAbsentPresent | kidstunes/database.py:44-74 | when every tried column exists, the migration changes nothing |
| Storage.AddAllAbsentFresh | kidstunes/database.py:44-74 | distinct missing columns are appended in the order tried |
| Storage.AddAllAbsentAppend | kidstunes/database.py:44-74 | columns are tried one by one, so trying `a + b` is trying `a`, then `b` |
| Storage.MigrationSteps | kidstunes/database.py:44-74 | the six `ALTER TABLE` attempts, done in turn, add the six columns |
| Storage.MigratedAdditive | kidstunes/database.py:44-74 | the migration keeps the existing columns in place and adds every one of the six |
| Storage.MigratedIdempotent | kidstunes/database.py:21-75 | running `create_tables` twice leaves the same schema as running it once |
| Storage.MigratedFresh | kidstunes/database.py:21-75 | on a new database the schema is the 16 CREATE TABLE columns, then the two original ids |
| Storage.FreshKeepsResolution | kidstunes/database.py:24-60 | on a new database the four resolution columns already exist, and their `ALTER`s fail and are ignored |
| Storage.FreshAddsOriginals | kidstunes/database.py:63-74 | on a new database the two original-id columns are appended |
| Storage.RowLayoutComplete | kidstunes/database.py:24-41 | the fresh layout holds every column |
| Storage.Position | kidstunes/database.py:145-166 | the position `_row_to_request` reads each field from is that column's place in the fresh layout |
| Storage.RowIn | kidstunes/database.py:118-121 | a `SELECT *` row has one cell per table column, in table order |
| Storage.FreshRow | kidstunes/database.py:118-121 | on a fresh table a `SELECT *` row lists the record's cells in layout order |
| Storage.ShortRowDefaults | kidstunes/database.py:143-167 | a row cut after `n` columns decodes with every field from position `n` on at its default (`None`, or `pending` for the status) |
| Storage.PositionalRoundTrip | kidstunes/database.py:143-167 | on the fresh layout, positional decoding gives back every stored record exactly |
| Storage.PreMigrationRow | kidstunes/database.py:143-167 | a 16-column row decodes with both original ids unset |
| Storage.IndexOf | kidstunes/database.py:143-167 | the first position of a column in the table, or none when the table lacks it |
| Storage.Reorder | kidstunes/database.py:143-167 | the cells rearranged by column name into the fresh layout's order |
| Storage.ByNameRoundTrip | kidstunes/database.py:143-167 | whatever the column order, decoding by name gives back every stored record once the table has all its columns |
| Storage.DecodingsAgreeOnFreshLayout | kidstunes/database.py:143-167 | on the fresh layout, decoding by position and decoding by name agree |
| Storage.LegacyMigrationLayout | kidstunes/database.py:44-62 | a table created without the four resolution columns gets them appended at the end |
| Storage.LegacyRowMisread | kidstunes/database.py:149-164 | on such a migrated table, for a request stored before the migration (no song or album), positional decoding reads the status as the refined term, the approval message id as the artist, the file path as the status and both timestamps as unset (the code as written; see Findings) |
| Storage.LegacyStampCells | kidstunes/database.py:159-164 | on such a migrated table, positional decoding reads `created_at` from the song cell and `updated_at` from the album cell |
| Storage.LegacyComplete | kidstunes/database.py:44-74 | the migrated legacy table has every column, in another order |
| Storage.LegacyRowByName | kidstunes/database.py:143-167 | decoding by name reads the migrated legacy table correctly (the corrected decoding; see Findings) |
| Storage.Inserted | kidstunes/database.py:77-98 | the inserted row is the request with the new id and `created_at == updated_at == now`: its origin, search terms, resolution, status and original ids are kept, and its message id, YouTube fields, file path and error start null |
| Storage.Assign | kidstunes/database.py:108-114 | an `UPDATE` sets exactly the named columns plus `updated_at`, and keeps the id and `created_at` |
| Storage.UpdatedFrame | kidstunes/database.py:105-115 | an update changes only the row with that id, and in it only the named fields and `updated_at` |
| Storage.Decode | kidstunes/database.py:143-167 | a stored record read back through `SELECT *`: its cells in the table's column order, decoded by position. On the fresh layout this is the record itself |
| Storage.DecodeAll | kidstunes/database.py:141 | the rows of the given ids, in that order, each decoded by position. On the fresh layout these are the stored records |
| Storage.Database.AddColumn | kidstunes/database.py:45-50 | `ALTER TABLE ADD COLUMN` adds the column only to an existing table that lacks it. Otherwise its error is ignored and nothing changes |
| Storage.Database.CreateTables | kidstunes/database.py:21-75 | creates the table if it is absent, then tries the six column additions; the result is `Migrated(old columns)` |
| Storage.Database.CreateRequest | kidstunes/database.py:77-103 | succeeds exactly when the table has every column, the status passes the CHECK and a rowid is left; a missing table or column raises SQLite's error naming it. The new id is one past the largest ever assigned, so it exceeds every existing id, and only that row is added. On failure nothing changes |
| Storage.Database.UpdateRequest | kidstunes/database.py:105-115 | no fields is a complete no-op; an unknown id changes nothing. It raises, changing nothing, on a missing column or a status the CHECK rejects. Otherwise the row is `Updated` |
| Storage.Database.Fetch | kidstunes/database.py:118-123 | `SELECT *` of a row, decoded by position. On the fresh layout it is the stored record |
| Storage.Database.GetRequestById | kidstunes/database.py:126-133 | a record exactly when the id is stored, namely that row decoded by position. On the fresh layout it is the stored record, and its id is the one asked for |
| Storage.Database.ScanMessageId | kidstunes/database.py:117-124 | the first id in table order whose row has this approval message id, or none |
| Storage.Database.GetRequestByMessageId | kidstunes/database.py:117-124 | `None` exactly when no row has this message id. Otherwise the decoded row of the first such id. On the fresh layout it is the stored record with the lowest such id, carrying that id and message id |
| Storage.Database.ScanFilePath | kidstunes/database.py:135-141 | every id whose row has this file path, once each, ascending |
| Storage.Database.GetRequestsByFilePath | kidstunes/database.py:135-141 | the decoded rows of every id with this file path, in id order |
| Storage.Database.FreshFilePathLookup | kidstunes/database.py:135-141 | on the fresh layout the lookup by file path returns the stored records of the matching ids |
| Storage.Database.FilePathRecords | kidstunes/database.py:135-141 | those records all have this file path and are stored under their own ids. Every record with the path is among them, in ascending id order |
| Downloads.Replace | kidstunes/downloader.py:21 | each character of `<>:"/\|?*+` becomes `_`, and every other character is kept in place |
| Downloads.TrimOfClean | kidstunes/downloader.py:21 | stripping keeps a name free of forbidden characters |
| Downloads.SanitizeFilename | kidstunes/downloader.py:18-21 | the result has no forbidden character (in particular no `/` or `\`) and no whitespace margin, and it is the replaced name less its whitespace margins |
| Downloads.SanitizeIdempotent | kidstunes/downloader.py:18-21 | sanitising twice equals sanitising once |
| Downloads.SanitizeKeeps | kidstunes/downloader.py:18-21 | a name with no forbidden character and no margin is kept as it is |
| Downloads.SanitizePlain | tests/test_downloader.py:45-51 | `"test.mp3"` stays `"test.mp3"` |
| Downloads.SanitizeAngles | tests/test_downloader.py:45-51 | `"test<file>.mp3"` becomes `"test_file_.mp3"` |
| Downloads.SanitizePlus | tests/test_downloader.py:45-51 | `"for KING + COUNTRY"` becomes `"for KING _ COUNTRY"` |
| Downloads.RefineSearchStructured | kidstunes/downloader.py:28-142 | with a falsy key, the result is exactly the query, no artist, no song and album `Singles`. The album is never `None`, and a non-empty query gives a non-empty refined term |
| Downloads.EmptyAlbumKept | kidstunes/downloader.py:115-117 | only a missing album is replaced; an empty album string passes through |
| Downloads.RefineSearch | kidstunes/downloader.py:23-26 | the refined term, which is the query itself when no key is configured |
| Downloads.JoinPlain | kidstunes/downloader.py:185-186 | joining an ordinary directory and a real component puts exactly one separator between them |
| Downloads.JoinThree | kidstunes/downloader.py:185-204 | three joins below an ordinary directory give `dir/a/b/f` |
| Downloads.Layout | kidstunes/downloader.py:155-161 | the file is at `output_dir/sanitize(artist)/sanitize(album)/sanitize(song).ext`, with missing or falsy names falling back to `Unknown Artist`, `Singles` and `Unknown Song` |
| Downloads.UnknownArtistClean | kidstunes/downloader.py:155 | the fallback artist sanitises to itself |
| Downloads.SinglesClean | kidstunes/downloader.py:156 | the fallback album sanitises to itself |
| Downloads.UnknownSongClean | kidstunes/downloader.py:157 | the fallback song sanitises to itself |
| Downloads.DefaultLayout | kidstunes/downloader.py:155-161 | with no metadata the file is `output_dir/Unknown Artist/Singles/Unknown Song.ext` |
| Downloads.SanitizeBlank | kidstunes/downloader.py:21 | a lone space sanitises to the empty string |
| Downloads.BlankArtistCollapses | kidstunes/downloader.py:155-186 | a whitespace-only artist is truthy, so it is not replaced, yet it sanitises to `""` and its directory level disappears |
| Downloads.FirstHit | kidstunes/downloader.py:168-176 | the first entry when the search returned a non-empty list of entries. Otherwise the search's own error, or "No search results found" when it returned none |
| Downloads.MkdirError | kidstunes/downloader.py:183-187 | `album_dir.mkdir(parents=True, exist_ok=True)` raises exactly when the output, artist or album directory exists as a file. The error names the album directory: "File exists" when it is that directory, "Not a directory" when it is an ancestor |
| Downloads.PipelineResult | kidstunes/downloader.py:144-257 | the pipeline raises the search error before any write. After the `downloading` write it raises the error making the directories, or the fetch error. Otherwise it returns the fetch's `filepath`, or the constructed path when that is falsy |
| Downloads.PipelineRowsRecord | kidstunes/downloader.py:179-247 | the pipeline writes only the record of its own id |
| Downloads.PipelineRecordFields | kidstunes/downloader.py:179-247 | the record is untouched after a failed search. It is `downloading` after a failure making the directories or a failed fetch, and `complete` with the final path after a successful one. Its error message is never written |
| Downloads.SearchFailureWritesNothing | kidstunes/downloader.py:168-181 | an empty or failed search raises before any store write |
| Downloads.WritesAccepted | kidstunes/downloader.py:179-181 | both pipeline writes name real columns and admitted statuses, so neither raises |
| Downloads.DownloadingWrite | kidstunes/downloader.py:179-181 | the first write sets the URL, the title and `downloading`, and nothing else |
| Downloads.CompleteWrite | kidstunes/downloader.py:247 | the second write sets the file path and `complete`, and nothing else |
| Downloads.FetchFailureLeavesDownloading | kidstunes/downloader.py:179-237 | after a failure making the directories or a failed fetch, the record stays `downloading` with the hit's URL and title. The runner writes no status of its own, and no other record changes |
| Downloads.FetchSuccessCompletes | kidstunes/downloader.py:240-247 | after a successful fetch the record is `complete` with the final path, URL and title, and no other record changes |
| Downloads.BothWrites | kidstunes/downloader.py:179-247 | the two writes applied in turn |
| Downloads.PipelineKeepsStatuses | kidstunes/database.py:33 | the pipeline's writes keep every status one the CHECK admits |
| Downloads.FetchFailureCleansUp | kidstunes/downloader.py:223-237 | after a failed fetch no file is left at the expected path, unless removing it failed |
| Downloads.MkdirFailureSkipsCleanup | kidstunes/downloader.py:183-237 | a failure making the directories is raised as it is, before the fetch and outside its cleanup: a file already at the expected path stays, and no directory is created |
| Downloads.Downloader.SearchAndDownload | kidstunes/downloader.py:144-257 | the result, the new rows, the new files and the new directories are those of the pipeline functions. They are taken for the prefixed search and for the error the current files make `mkdir` raise |
| Downloads.PipelineOnMiss | kidstunes/downloader.py:168-176 | a search without a hit raises its error, leaving the store, the files and the directories alone |
| Downloads.PipelineOnHit | kidstunes/downloader.py:178-257 | once the search has a hit and the directories are made, the pipeline is the `downloading` write, then the fetch with its cleanup or its `complete` write |
| Downloads.Downloader.MakeDirectories | kidstunes/downloader.py:155-187 | when a component of the album path exists as a file, it raises `MkdirError` and creates nothing. Otherwise it creates the three directories of the layout and returns the expected path. No file changes |
| Downloads.Downloader.RunFetch | kidstunes/downloader.py:221-257 | a raising fetch is re-raised after the cleanup, with no further store write. A returning fetch records its path with `complete` and returns it |
| Downloads.Downloader.RecordDownloading | kidstunes/downloader.py:179-181 | the `downloading` write, which cannot raise |
| Downloads.Downloader.RemovePartial | kidstunes/downloader.py:225-236 | the file at the expected path is removed if it exists, and a failing removal is swallowed |
| Downloads.Downloader.RecordComplete | kidstunes/downloader.py:239-247 | the path is the fetch's `filepath`, or the constructed one when that is falsy. It is written together with `complete` |
| Moderation.MusicLines | kidstunes/bot.py:213-220 | a line for each truthy field among artist, song and album, in that order |
| Moderation.AddField | kidstunes/bot.py:209-234 | each conditional `add_field` keeps the field list in rank order, with exactly the present kinds so far |
| Moderation.CreateEmbed | kidstunes/bot.py:201-239 | the title is `Music Request #id`, the colour blue and the footer the creation time. Fields appear in the fixed order Requester, Original Request, Identified Music, AI Refined Search, Status, YouTube Title, Error, each at most once. A kind is present exactly when its condition holds, and each shows its value |
| Moderation.EmbedBuilt | kidstunes/bot.py:208-234 | the six steps of `_create_embed` build exactly that list |
| Moderation.StatusWriteOnly | kidstunes/bot.py:114 | a status write changes the status and `updated_at` only |
| Moderation.FailureWriteOnly | kidstunes/bot.py:128-130 | the failure write changes the status to `failed`, the error message and `updated_at` only |
| Moderation.ApproveRowsRecord | kidstunes/bot.py:113-133 | an approval writes only the record of its own id |
| Moderation.ApprovedWrite | kidstunes/bot.py:114 | the `approved` write on the store |
| Moderation.FailedWrite | kidstunes/bot.py:128-130 | the `failed` write on the store |
| Moderation.SettleWrite | kidstunes/bot.py:126-130 | recording a raised error as `failed` changes only the record of its own id |
| Moderation.ApproveOutcome | kidstunes/bot.py:113-133 | after ✅ the record is `complete` with the returned path, or `failed` with `str(e)` as its message. No other record changes |
| Moderation.ApproveIgnoresStatus | kidstunes/bot.py:114 | there is no check of the current status: an approval does the same whatever status the record had |
| Moderation.SecondApproval | kidstunes/bot.py:113-133 | a second ✅ reruns the pipeline, and its own outcome alone decides the final status |
| Moderation.RejectOutcome | kidstunes/bot.py:165-166 | ❌ writes `rejected` and `updated_at` and nothing else; a file path already recorded is kept |
| Moderation.RetryOutcome | kidstunes/bot.py:72-80 | a retry never records `failed`. The record stays `approved` after a failed search, and `downloading` after a failure making the directories or a failed fetch. It is `complete` otherwise. Its error message is kept and other records are unchanged |
| Moderation.Notification | kidstunes/bot.py:138-164 | the original message is marked only when both original ids are truthy, as one effect with no store write |
| Moderation.OutcomeReport | kidstunes/bot.py:124-135 | the outcome embed is green with "Complete ✓" or red with "Failed ✗". The error field appears only for a non-empty `str(e)`. The YouTube title appears only if the record read before the approval had one |
| Moderation.Submission | kidstunes/bot.py:31-41 | the new request holds the `str()` of the author and channel ids, the resolver's refined term, artist, song and album, and the default status `pending` |
| Moderation.NoKeyEmbed | kidstunes/bot.py:28-44 | without an API key the posted embed has exactly Requester, Original Request, an "Identified Music" holding only the `Singles` line, and the pending status. It has no refined field and no footer |
| Moderation.WritesAdmitted | kidstunes/database.py:33 | the handlers' status writes pass the CHECK |
| Moderation.MessageIdWrite | kidstunes/bot.py:54 | writing the approval message id changes it and `updated_at` only |
| Moderation.RequestCog.OnReactionAdd | kidstunes/bot.py:82-199 | a reaction failing any guard (a bot user, another channel, no admin role, another emoji, no request for the message) changes nothing and sends nothing. ✅ leaves the store at `ApproveRows`, the files at `PipelineFiles` and the directories at `PipelineDirs` for the record's artist, song and album, and sends the approval messages. ❌ leaves the store at `RejectRows`, touches no file or directory and sends the rejection messages |
| Moderation.RequestCog.Approve | kidstunes/bot.py:113-164 | the ✅ branch: the `approved` write, the pipeline, then `failed` with the message when it raises. The store, files, directories and messages are `ApproveRows`, `PipelineFiles`, `PipelineDirs` and `ApprovalEffects` for the record's metadata |
| Moderation.RequestCog.Reject | kidstunes/bot.py:165-199 | the ❌ branch: the `rejected` write only |
| Moderation.RequestCog.RetryRequest | kidstunes/bot.py:59-80 | a non-admin gets no effect. An unknown id or a non-`failed` record gets the refusal and no write, file or directory change. A `failed` record goes through `RetryRows`, with files and directories at `PipelineFiles` and `PipelineDirs`, without artist, song or album. The reply names the outcome |
| Moderation.RequestCog.Rerun | kidstunes/bot.py:72-80 | the retry of a failed record: `approved`, then the pipeline into the Unknown Artist / Singles directory, with store, files and directories as `RetryRows`, `PipelineFiles` and `PipelineDirs` give them. An error is only reported |
| Moderation.RequestCog.RequestMusic | kidstunes/bot.py:20-57 | outside the request channel nothing is created. Otherwise the insert succeeds exactly when the store can take it; the new record is the submission under the next id with the approval message's id, and the embed is posted with ✅ and ❌ |
| Moderation.RequestCog.Store | kidstunes/bot.py:42-54 | the insert, then the message-id write on the new record |
| Moderation.RequestCog.Write | kidstunes/database.py:105-115 | an update of a complete table with an admitted status is `Updated` and does not raise |

## Left out

- Discord transport is not modelled:
  - sending and editing embeds, `add_reaction`, `get_channel` and `fetch_message` — the handlers return the effects instead;
  - the check for reactions already on a freshly posted message (kidstunes/bot.py:49-52) — ✅ and ❌ are always added;
  - the `approval_channel` assertion (kidstunes/bot.py:45);
  - logging, `on_ready`, `on_message`, `setup_hook` and the no-op `_cleanup_stuck_requests`.
- The handlers take the table as already created, since `setup_hook` runs `create_tables` before any event.
- Moderation.RequestCog.OnReactionAdd: stated only for the layout `create_tables` gives a new database (`Storage.Database.Fresh`). On an older table the migration extended, the lookup misreads a record stored before the migration (see Findings) and raises on one stored after it, whose album cell is read as `updated_at` (`Storage.StampOf`); what the handler then does is not stated.
- Moderation.RequestCog.RetryRequest: stated only for that fresh layout, for the same reason. On a migrated older table, for example, a failed record stored before the migration whose file path is NULL is read with a NULL status and refused, and a record stored after the migration makes the lookup raise.
- Storage.StatusOf and Storage.TextOf: a NULL cell decodes to `pending` or `""`, where `_row_to_request` yields `None`. On the fresh layout no stored row holds NULL there: the three origin columns are NOT NULL, and the bot only ever writes a status string.
- Storage.StampOf: any non-empty text counts as a timestamp. `datetime.fromisoformat` raises `ValueError` on text that is not an ISO date, and that raise is not modelled. On the fresh layout every stored timestamp is one the model wrote. On a migrated older table the timestamps are read from the song and album cells (`Storage.LegacyStampCells`), so the source raises for a request stored after the migration, where the model decodes a record.
- Storage.InsertError: a table that holds every column the INSERT names but lacks another one (`id`, `message_id`, the YouTube fields, `file_path` or `error_message`) makes `create_request` fail in the model, naming that column; SQLite would insert the row. No table `create_tables` produces from a new database is like that.
- Storage.Database.ScanMessageId: takes the lowest matching id. `fetchone()` after a `SELECT` without `ORDER BY` returns whichever matching row SQLite yields first; SQLite does not promise that this is the lowest rowid.
- Storage.Database.ScanFilePath: likewise lists matching ids in ascending order, where SQLite promises no order without `ORDER BY`.
- The x.ai HTTP call, its prompt (kidstunes/downloader.py:40-102) and JSON parsing are not modelled. The reply is a given `Reply` outcome.
- yt-dlp (kidstunes/downloader.py:168-176, 259-261) is not modelled. The search is a given function from query to outcome, and the fetch a given outcome with the files it wrote. The download options, the thumbnail and the metadata tags are not modelled.
- `_process_with_beets` and `_extract_metadata_from_file` are not modelled: one is a subprocess, the other is never called. A beets failure is swallowed and the path is still returned. Files that beets would move are not tracked.
- Downloads.MkdirError: only a component of the album path that exists as a file makes `mkdir` fail. Permission errors, a full disk and the creation of `output_dir`'s own parents are not modelled. The OS error text is given in its usual `[Errno n] message: 'path'` form.
- Downloads.JoinPath: covers an empty or `.` component, a `.` directory and the root. Other pathlib normalisation of `output_dir` (trailing slashes, `..`) is not modelled.
- Text.Strip: uses a fixed whitespace set (Latin-1 whitespace) instead of Unicode's.
- Concurrency is not modelled (`asyncio`, `to_thread`, reactions delivered concurrently). Events are sequential.
- SQL text, aiosqlite, commits and `PRAGMA` are not modelled. SQLite's rowid exhaustion is modelled as the insert failing.
- `datetime.now()` is a `now` parameter. The model uses one timestamp per handler call, where the source takes one per statement. Timestamps are opaque non-empty strings, and the footer's `strftime` format is not modelled.
- The `lastrowid is None` branch of `create_request` is not modelled, because it cannot occur after a successful INSERT.
- Reading the YAML file and the file-exists check in `Config.__init__` are not modelled. A `Config` is built from the loaded document, and floats and non-string keys are not modelled.
- The downloader's `output_dir`, `audio_format` and `search_prefix` are passed in as strings, not read through `Config`. The `cast`s of the properties change no value.
- Configured ids are compared as Python compares an `int` with a YAML value (`Moderation.SameId`). An id written as a quoted string matches nothing.
- The emoji literals in kidstunes/bot.py are read as U+2705 (✅), U+274C (❌), U+2713 (✓) and U+2717 (✗).

## Findings

| source | as written | input that shows it | evidently intended | confidence | as-written member | corrected member |
|---|---|---|---|---|---|---|
| kidstunes/database.py:44-62, kidstunes/database.py:143-167 | `_row_to_request` reads `SELECT *` cells by fixed position, but the migration appends the four resolution columns at the end of an older table | a database created without `refined_search_term`, `artist`, `song` and `album`, then migrated, holding a downloaded request stored before the migration (its song and album NULL): the status is read as the refined term, the message id as the artist and the file path as the status | each field is read from its own column, whatever order the migration left | not executed; depends on such an older schema having existed | Storage.LegacyRowMisread | Storage.LegacyRowByName |

The lookups keep the code's positional decoding (`Storage.Decode`). The handlers are stated for the fresh layout, where positional decoding agrees with the corrected decoding by name (`Storage.DecodingsAgreeOnFreshLayout`).

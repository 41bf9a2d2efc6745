/** kidstunes/bot.py: the approval embed and the three handlers of
    `RequestCog` (`request_music`, `retry_request`, `on_reaction_add`) as
    transitions of the store and the file system. What the handlers send to
    Discord is returned as a list of effects; delivering them is not
    modelled. */
module Moderation {
  import opened Wrappers
  import opened Text
  import opened Models
  import Configuration
  import opened Storage
  import opened Downloads

  // ---------------------------------------------------------------------
  // _create_embed

  /** The fields an approval embed can carry, in the order they are added. */
  datatype Kind = Requester | OriginalRequest | IdentifiedMusic | RefinedSearch | StatusLine | YouTubeTitle | ErrorLine

  /** The field's displayed name. */
  function Label(k: Kind): string {
    match k
    case Requester => "Requester"
    case OriginalRequest => "Original Request"
    case IdentifiedMusic => "\U{1F3BC} Identified Music"
    case RefinedSearch => "\U{1F50D} AI Refined Search"
    case StatusLine => "Status"
    case YouTubeTitle => "YouTube Title"
    case ErrorLine => "Error"
  }

  /** The position of a kind in the order fields are added. */
  function Rank(k: Kind): nat {
    match k
    case Requester => 0
    case OriginalRequest => 1
    case IdentifiedMusic => 2
    case RefinedSearch => 3
    case StatusLine => 4
    case YouTubeTitle => 5
    case ErrorLine => 6
  }

  /** One `add_field`; only the first two fields are inline. */
  datatype EmbedField = EmbedField(kind: Kind, value: string) {
    function Name(): string { Label(kind) }
    predicate Inline() { kind == Requester || kind == OriginalRequest }
  }

  /** A `discord.Embed`: title, colour, fields and the creation time the
      footer shows (its `strftime` formatting is not modelled). */
  datatype Embed = Embed(title: string, color: int, fields: seq<EmbedField>, footer: Option<Timestamp>)

  const Blue: int := 0x0000FF
  const Yellow: int := 0xFFFF00
  const Green: int := 0x00FF00
  const Red: int := 0xFF0000

  const PendingApproval: string := "Pending Approval"

  function ArtistLine(artist: string): string { "\U{1F3A4} **Artist:** " + artist }
  function SongLine(song: string): string { "\U{1F3B5} **Song:** " + song }
  function AlbumLine(album: string): string { "\U{1F4BF} **Album:** " + album }

  function Count(b: bool): nat { if b then 1 else 0 }

  /** `music_info`: a line for each truthy one of artist, song and album,
      in that order. */
  function MusicLines(req: Request): (lines: seq<string>)
    ensures |lines| == Count(Truthy(req.artist)) + Count(Truthy(req.song)) + Count(Truthy(req.album))
    ensures Truthy(req.artist) ==> lines[0] == ArtistLine(req.artist.value)
    ensures Truthy(req.song) ==> lines[Count(Truthy(req.artist))] == SongLine(req.song.value)
    ensures Truthy(req.album) ==> lines[|lines| - 1] == AlbumLine(req.album.value)
  {
    (if Truthy(req.artist) then [ArtistLine(req.artist.value)] else [])
    + (if Truthy(req.song) then [SongLine(req.song.value)] else [])
    + (if Truthy(req.album) then [AlbumLine(req.album.value)] else [])
  }

  /** The "Identified Music" field is added when any of the three is truthy. */
  predicate Identified(req: Request) {
    Truthy(req.artist) || Truthy(req.song) || Truthy(req.album)
  }

  /** The "AI Refined Search" field is added when the refined term is truthy
      and differs from what the user typed. */
  predicate ShowsRefined(req: Request) {
    Truthy(req.refinedSearchTerm) && req.refinedSearchTerm.value != req.searchTerm
  }

  /** Whether a field of each kind is present. */
  predicate Present(req: Request, error: Option<string>, k: Kind) {
    match k
    case Requester => true
    case OriginalRequest => true
    case IdentifiedMusic => Identified(req)
    case RefinedSearch => ShowsRefined(req)
    case StatusLine => true
    case YouTubeTitle => Truthy(req.youtubeTitle)
    case ErrorLine => Truthy(error)
  }

  /** The value a field of each kind shows. */
  function Shown(req: Request, status: string, error: Option<string>, k: Kind): string {
    match k
    case Requester => req.discordUsername
    case OriginalRequest => req.searchTerm
    case IdentifiedMusic => JoinLines(MusicLines(req))
    case RefinedSearch => OrElse(req.refinedSearchTerm, "")
    case StatusLine => status
    case YouTubeTitle => OrElse(req.youtubeTitle, "")
    case ErrorLine => OrElse(error, "")
  }

  /** `fields` holds, in `Rank` order, exactly the present fields of the
      kinds ranked below `n`, each with its shown value. */
  ghost predicate Built(req: Request, status: string, error: Option<string>, fields: seq<EmbedField>, n: nat) {
    && (forall i, j :: 0 <= i < j < |fields| ==> Rank(fields[i].kind) < Rank(fields[j].kind))
    && (forall i :: 0 <= i < |fields| ==>
          && Rank(fields[i].kind) < n
          && Present(req, error, fields[i].kind)
          && fields[i].value == Shown(req, status, error, fields[i].kind))
    && (forall k :: Rank(k) < n && Present(req, error, k) ==> exists i :: 0 <= i < |fields| && fields[i].kind == k)
  }

  lemma RankInjective(a: Kind, b: Kind)
    requires Rank(a) == Rank(b)
    ensures a == b
  {
  }

  /** One conditional `add_field` keeps the fields `Built`, one rank on. */
  lemma AddField(req: Request, status: string, error: Option<string>, fields: seq<EmbedField>, k: Kind)
    requires Built(req, status, error, fields, Rank(k))
    ensures Built(req, status, error, fields + (if Present(req, error, k) then [EmbedField(k, Shown(req, status, error, k))] else []), Rank(k) + 1)
  {
    var next := fields + (if Present(req, error, k) then [EmbedField(k, Shown(req, status, error, k))] else []);
    forall k' | Rank(k') < Rank(k) + 1 && Present(req, error, k') ensures exists i :: 0 <= i < |next| && next[i].kind == k' {
      if Rank(k') == Rank(k) {
        RankInjective(k', k);
        assert next[|fields|].kind == k';
      } else {
        var i :| 0 <= i < |fields| && fields[i].kind == k';
        assert next[i].kind == k';
      }
    }
  }

  /** `_create_embed(req, request_id, status, error)`. Its fields are in
      the fixed order of `Rank`, each kind at most once, a kind present
      exactly when `Present` says so, and each showing its `Shown` value. */
  function CreateEmbed(req: Request, requestId: int, status: string := PendingApproval, error: Option<string> := None): (e: Embed)
    ensures e.title == "Music Request #" + IntString(requestId) && e.color == Blue
    ensures e.footer == req.createdAt
    ensures forall i, j :: 0 <= i < j < |e.fields| ==> Rank(e.fields[i].kind) < Rank(e.fields[j].kind)
    ensures forall k :: Present(req, error, k) <==> exists i :: 0 <= i < |e.fields| && e.fields[i].kind == k
    ensures forall i :: 0 <= i < |e.fields| ==> e.fields[i].value == Shown(req, status, error, e.fields[i].kind)
  {
    var f0 := [EmbedField(Requester, req.discordUsername), EmbedField(OriginalRequest, req.searchTerm)];
    var f1 := f0 + if Identified(req) then [EmbedField(IdentifiedMusic, JoinLines(MusicLines(req)))] else [];
    var f2 := f1 + if ShowsRefined(req) then [EmbedField(RefinedSearch, req.refinedSearchTerm.value)] else [];
    var f3 := f2 + [EmbedField(StatusLine, status)];
    var f4 := f3 + if Truthy(req.youtubeTitle) then [EmbedField(YouTubeTitle, req.youtubeTitle.value)] else [];
    var f5 := f4 + if Truthy(error) then [EmbedField(ErrorLine, error.value)] else [];
    EmbedBuilt(req, status, error, f0, f1, f2, f3, f4, f5);
    Embed("Music Request #" + IntString(requestId), Blue, f5, req.createdAt)
  }

  lemma EmbedBuilt(req: Request, status: string, error: Option<string>, f0: seq<EmbedField>, f1: seq<EmbedField>,
                   f2: seq<EmbedField>, f3: seq<EmbedField>, f4: seq<EmbedField>, f5: seq<EmbedField>)
    requires f0 == [EmbedField(Requester, req.discordUsername), EmbedField(OriginalRequest, req.searchTerm)]
    requires f1 == f0 + if Identified(req) then [EmbedField(IdentifiedMusic, JoinLines(MusicLines(req)))] else []
    requires f2 == f1 + if ShowsRefined(req) then [EmbedField(RefinedSearch, OrElse(req.refinedSearchTerm, ""))] else []
    requires f3 == f2 + [EmbedField(StatusLine, status)]
    requires f4 == f3 + if Truthy(req.youtubeTitle) then [EmbedField(YouTubeTitle, OrElse(req.youtubeTitle, ""))] else []
    requires f5 == f4 + if Truthy(error) then [EmbedField(ErrorLine, OrElse(error, ""))] else []
    ensures Built(req, status, error, f5, 7)
  {
    assert Built(req, status, error, f0, 2) by {
      forall k | Rank(k) < 2 && Present(req, error, k) ensures exists i :: 0 <= i < |f0| && f0[i].kind == k {
        if k == Requester { assert f0[0].kind == k; } else { assert f0[1].kind == k; }
      }
    }
    AddField(req, status, error, f0, IdentifiedMusic);
    AddField(req, status, error, f1, RefinedSearch);
    AddField(req, status, error, f2, StatusLine);
    AddField(req, status, error, f3, YouTubeTitle);
    AddField(req, status, error, f4, ErrorLine);
  }

  // ---------------------------------------------------------------------
  // Store transitions of the handlers

  const ApproveMark: string := "\U{2705}"
  const RejectMark: string := "\U{274C}"

  function StatusWrite(status: string): map<Column, string> {
    map[Status := status]
  }

  function FailureWrite(error: string): map<Column, string> {
    map[Status := Failed, ErrorMessage := error]
  }

  /** `refined_search_term or search_term`. */
  function SearchQuery(req: Request): string {
    OrElse(req.refinedSearchTerm, req.searchTerm)
  }

  /** The store after an approval of record `id`: `approved` is written
      whatever the status was, the pipeline runs, and a raised error is
      recorded as `failed` with its message. */
  function ApproveRows(rows: map<int, Request>, id: int, search: SearchOutcome, mkdir: Option<string>, fetch: FetchOutcome, expected: string, now: Timestamp): map<int, Request> {
    var approved := Updated(rows, id, StatusWrite(Approved), now);
    Settle(PipelineRows(approved, id, search, mkdir, fetch, expected, now), id, PipelineResult(search, mkdir, fetch, expected), now)
  }

  /** The handler's `except`: a raised error is written as `failed` with
      its message. */
  function Settle(rows: map<int, Request>, id: int, result: Result<string>, now: Timestamp): map<int, Request> {
    match result
    case Ok(_) => rows
    case Err(e) => Updated(rows, id, FailureWrite(e), now)
  }

  /** `Settle` on the one record it writes. */
  function SettleRecord(r: Request, result: Result<string>, now: Timestamp): Request {
    match result
    case Ok(_) => r
    case Err(e) => r.(status := Failed, errorMessage := Some(e), updatedAt := Some(now))
  }

  /** The store after a rejection: `rejected` is written whatever the
      status was. */
  function RejectRows(rows: map<int, Request>, id: int, now: Timestamp): map<int, Request> {
    Updated(rows, id, StatusWrite(Rejected), now)
  }

  /** The store after a retry of a failed record: `approved`, then the
      pipeline; an error it raises is only reported. */
  function RetryRows(rows: map<int, Request>, id: int, search: SearchOutcome, mkdir: Option<string>, fetch: FetchOutcome, expected: string, now: Timestamp): map<int, Request> {
    PipelineRows(Updated(rows, id, StatusWrite(Approved), now), id, search, mkdir, fetch, expected, now)
  }

  /** A status write changes the status and `updated_at` only. */
  lemma StatusWriteOnly(r: Request, status: string, now: Timestamp)
    ensures Assign(r, StatusWrite(status), now) == r.(status := status, updatedAt := Some(now))
  {
  }

  /** The failure write changes the status, the error message and
      `updated_at` only. */
  lemma FailureWriteOnly(r: Request, error: string, now: Timestamp)
    ensures Assign(r, FailureWrite(error), now) == r.(status := Failed, errorMessage := Some(error), updatedAt := Some(now))
  {
  }

  /** What an approval does to the one record it writes. */
  function ApproveRecord(r: Request, search: SearchOutcome, mkdir: Option<string>, fetch: FetchOutcome, expected: string, now: Timestamp): Request {
    SettleRecord(PipelineRecord(r.(status := Approved, updatedAt := Some(now)), search, mkdir, fetch, expected, now), PipelineResult(search, mkdir, fetch, expected), now)
  }

  /** An approval writes the record of its own id and no other. */
  lemma ApproveRowsRecord(rows: map<int, Request>, id: int, search: SearchOutcome, mkdir: Option<string>, fetch: FetchOutcome, expected: string, now: Timestamp)
    ensures ApproveRows(rows, id, search, mkdir, fetch, expected, now)
      == if id in rows then rows[id := ApproveRecord(rows[id], search, mkdir, fetch, expected, now)] else rows
  {
    var approved := Updated(rows, id, StatusWrite(Approved), now);
    ApprovedWrite(rows, id, now);
    PipelineRowsRecord(approved, id, search, mkdir, fetch, expected, now);
    if id in rows {
      SettleWrite(rows, id, PipelineRecord(rows[id].(status := Approved, updatedAt := Some(now)), search, mkdir, fetch, expected, now),
                  PipelineResult(search, mkdir, fetch, expected), now);
    } else {
      SettleMissing(rows, id, PipelineResult(search, mkdir, fetch, expected), now);
    }
  }

  /** The failure write touches the record of its own id only. */
  lemma SettleWrite(rows: map<int, Request>, id: int, u: Request, result: Result<string>, now: Timestamp)
    ensures Settle(rows[id := u], id, result, now) == rows[id := SettleRecord(u, result, now)]
  {
    match result
    case Ok(_) =>
    case Err(e) => FailedWrite(rows[id := u], id, e, now);
  }

  lemma SettleMissing(rows: map<int, Request>, id: int, result: Result<string>, now: Timestamp)
    requires id !in rows
    ensures Settle(rows, id, result, now) == rows
  {
  }

  lemma ApprovedWrite(rows: map<int, Request>, id: int, now: Timestamp)
    ensures Updated(rows, id, StatusWrite(Approved), now)
      == if id in rows then rows[id := rows[id].(status := Approved, updatedAt := Some(now))] else rows
  {
    assert Status in StatusWrite(Approved);
    if id in rows {
      StatusWriteOnly(rows[id], Approved, now);
    }
  }

  lemma FailedWrite(rows: map<int, Request>, id: int, error: string, now: Timestamp)
    ensures Updated(rows, id, FailureWrite(error), now)
      == if id in rows then rows[id := rows[id].(status := Failed, errorMessage := Some(error), updatedAt := Some(now))] else rows
  {
    assert Status in FailureWrite(error);
    if id in rows {
      FailureWriteOnly(rows[id], error, now);
    }
  }

  /** After an approval the record is `complete` with the returned path, or
      `failed` with the pipeline's error message; no other record changes. */
  lemma ApproveOutcome(rows: map<int, Request>, id: int, search: SearchOutcome, mkdir: Option<string>, fetch: FetchOutcome, expected: string, now: Timestamp)
    requires id in rows
    ensures var after := ApproveRows(rows, id, search, mkdir, fetch, expected, now);
      var result := PipelineResult(search, mkdir, fetch, expected);
      && after.Keys == rows.Keys
      && (forall k :: k in rows && k != id ==> after[k] == rows[k])
      && (result.Ok? ==> after[id].status == Complete && after[id].filePath == Some(result.value))
      && (result.Err? ==> after[id].status == Failed && after[id].errorMessage == Some(result.error))
  {
    ApproveRowsRecord(rows, id, search, mkdir, fetch, expected, now);
    PipelineRecordFields(rows[id].(status := Approved, updatedAt := Some(now)), search, mkdir, fetch, expected, now);
  }

  /** There is no check of the current status: an approval does the same
      to a record whatever status it had, so a second ✅ on a completed or
      failed request runs the pipeline again (with `ApproveRowsRecord`,
      the same holds of the whole store). */
  lemma ApproveIgnoresStatus(r: Request, prior: string, search: SearchOutcome, mkdir: Option<string>, fetch: FetchOutcome, expected: string, now: Timestamp)
    ensures ApproveRecord(r.(status := prior), search, mkdir, fetch, expected, now) == ApproveRecord(r, search, mkdir, fetch, expected, now)
  {
    assert r.(status := prior).(status := Approved, updatedAt := Some(now)) == r.(status := Approved, updatedAt := Some(now));
  }

  /** A second approval's outcome depends only on its own pipeline run: a
      completed download whose re-run fails ends up `failed`. */
  lemma SecondApproval(rows: map<int, Request>, id: int, search1: SearchOutcome, mkdir1: Option<string>, fetch1: FetchOutcome,
                       search2: SearchOutcome, mkdir2: Option<string>, fetch2: FetchOutcome, expected: string, now1: Timestamp, now2: Timestamp)
    requires id in rows
    ensures var once := ApproveRows(rows, id, search1, mkdir1, fetch1, expected, now1);
      var twice := ApproveRows(once, id, search2, mkdir2, fetch2, expected, now2);
      && id in twice
      && twice[id].status == (if PipelineResult(search2, mkdir2, fetch2, expected).Ok? then Complete else Failed)
  {
    ApproveOutcome(rows, id, search1, mkdir1, fetch1, expected, now1);
    ApproveOutcome(ApproveRows(rows, id, search1, mkdir1, fetch1, expected, now1), id, search2, mkdir2, fetch2, expected, now2);
  }

  /** A rejection writes `rejected` and touches nothing else: a record that
      was already downloaded keeps its file path. */
  lemma RejectOutcome(rows: map<int, Request>, id: int, now: Timestamp)
    requires id in rows
    ensures var after := RejectRows(rows, id, now);
      && after == rows[id := rows[id].(status := Rejected, updatedAt := Some(now))]
      && after[id].filePath == rows[id].filePath
  {
    assert Status in StatusWrite(Rejected);
    StatusWriteOnly(rows[id], Rejected, now);
  }

  /** A retry never records `failed`: when the pipeline raises, the record
      stays `approved` (the search failed) or `downloading` (making the
      directories or the fetch failed), and it is `complete` otherwise. */
  lemma RetryOutcome(rows: map<int, Request>, id: int, search: SearchOutcome, mkdir: Option<string>, fetch: FetchOutcome, expected: string, now: Timestamp)
    requires id in rows
    ensures var after := RetryRows(rows, id, search, mkdir, fetch, expected, now);
      && after.Keys == rows.Keys
      && (forall k :: k in rows && k != id ==> after[k] == rows[k])
      && after[id].status == (if FirstHit(search).Err? then Approved else if mkdir.Some? || fetch.FetchRaised? then Downloading else Complete)
      && after[id].status != Failed
      && after[id].errorMessage == rows[id].errorMessage
  {
    ApprovedWrite(rows, id, now);
    var approved := rows[id := rows[id].(status := Approved, updatedAt := Some(now))];
    PipelineRowsRecord(approved, id, search, mkdir, fetch, expected, now);
    assert RetryRows(rows, id, search, mkdir, fetch, expected, now) == approved[id := PipelineRecord(approved[id], search, mkdir, fetch, expected, now)];
    PipelineRecordFields(approved[id], search, mkdir, fetch, expected, now);
  }

  // ---------------------------------------------------------------------
  // What the handlers send to Discord

  const DownloadingLabel: string := "Downloading..."
  const CompleteLabel: string := "Complete \U{2713}"
  const FailedLabel: string := "Failed \U{2717}"
  const RejectedLabel: string := "Rejected"
  const InvalidRetry: string := "Invalid request ID or request is not failed."

  /** A message the bot sends or changes. `NotifyOriginal` is the attempt
      to react on the user's own request message: `int()` of the stored
      ids, `get_channel`, `fetch_message` and `add_reaction`, any of which
      may fail without affecting anything else. */
  datatype Effect =
    | Posted(embed: Embed)
    | Reacted(emoji: string)
    | Edited(embed: Embed)
    | Replied(text: string)
    | NotifyOriginal(channelId: string, messageId: string, emoji: string)

  /** The attempt to mark the user's own message, made only when both of
      its stored ids are truthy. */
  function Notification(req: Request, emoji: string): (effects: seq<Effect>)
    ensures |effects| <= 1
    ensures effects != [] <==> Truthy(req.originalMessageId) && Truthy(req.originalChannelId)
    ensures effects != [] ==> effects[0] == NotifyOriginal(req.originalChannelId.value, req.originalMessageId.value, emoji)
  {
    if Truthy(req.originalMessageId) && Truthy(req.originalChannelId) then
      [NotifyOriginal(req.originalChannelId.value, req.originalMessageId.value, emoji)]
    else []
  }

  /** The embed shown once the pipeline has returned or raised. */
  function Outcome(req: Request, id: int, result: Result<string>): Embed {
    match result
    case Ok(_) => CreateEmbed(req, id, CompleteLabel).(color := Green)
    case Err(e) => CreateEmbed(req, id, FailedLabel, Some(e)).(color := Red)
  }

  /** The approval path's messages: the approval message is edited to a
      yellow "Downloading..." embed, then to the outcome, then the user's
      message is marked. Both embeds are built from the record as it was
      read before the approval. */
  function ApprovalEffects(req: Request, id: int, result: Result<string>): seq<Effect> {
    [Edited(CreateEmbed(req, id, DownloadingLabel).(color := Yellow)), Edited(Outcome(req, id, result))]
      + Notification(req, ApproveMark)
  }

  /** The rejection path's messages: a red "Rejected" embed, then the
      user's message is marked with ❌. */
  function RejectionEffects(req: Request, id: int): seq<Effect> {
    [Edited(CreateEmbed(req, id, RejectedLabel).(color := Red))] + Notification(req, RejectMark)
  }

  /** The embed has a field of this kind. */
  predicate HasField(e: Embed, k: Kind) {
    exists i :: 0 <= i < |e.fields| && e.fields[i].kind == k
  }

  /** The embed's field of this kind, if any, shows `value`. */
  predicate FieldShows(e: Embed, k: Kind, value: string) {
    forall i :: 0 <= i < |e.fields| && e.fields[i].kind == k ==> e.fields[i].value == value
  }

  /** The outcome embed is green with "Complete ✓" after a download, red
      with "Failed ✗" after an error; the error's text is shown only when it
      is non-empty (`if error:`), and the YouTube title only when the record
      read before the approval already had one, so a first approval never
      shows the title of the video it just downloaded. */
  lemma OutcomeReport(req: Request, id: int, result: Result<string>)
    ensures var e := Outcome(req, id, result);
      && e.color == (if result.Ok? then Green else Red)
      && HasField(e, StatusLine)
      && FieldShows(e, StatusLine, if result.Ok? then CompleteLabel else FailedLabel)
      && (HasField(e, ErrorLine) <==> result.Err? && result.error != "")
      && (result.Err? ==> FieldShows(e, ErrorLine, result.error))
      && (HasField(e, YouTubeTitle) <==> Truthy(req.youtubeTitle))
  {
    var e := Outcome(req, id, result);
    var status := if result.Ok? then CompleteLabel else FailedLabel;
    var error := if result.Ok? then None else Some(result.error);
    assert e.fields == CreateEmbed(req, id, status, error).fields;
    assert Present(req, error, StatusLine);
    assert Present(req, error, ErrorLine) <==> result.Err? && result.error != "";
    assert Present(req, error, YouTubeTitle) <==> Truthy(req.youtubeTitle);
  }

  /** Python's `n == y` for an integer id and a configured YAML value: an
      integer of that value matches, and so does a bool (`True == 1`); a
      string never does, so an id written in quotes matches nothing. */
  predicate SameId(n: int, y: Configuration.Yaml) {
    match y
    case Int(i) => i == n
    case Bool(b) => (if b then 1 else 0) == n
    case _ => false
  }

  /** `any(role.id == admin_role_id for role in member.roles)`. */
  predicate IsAdmin(roles: seq<int>, adminRole: Configuration.Yaml) {
    exists i :: 0 <= i < |roles| && SameId(roles[i], adminRole)
  }

  /** The request `request_music` builds: the author and channel ids as
      `str()`, the resolver's refined term (always a string), artist, song
      and album, and the default status. */
  function Submission(channelId: nat, authorId: nat, authorName: string, messageId: nat, searchTerm: string, res: Resolution): (req: Request)
    ensures req.id == None && req.status == Pending && req.createdAt == None
    ensures req.searchTerm == searchTerm && req.refinedSearchTerm == Some(res.refinedSearchTerm)
    ensures req.artist == res.artist && req.song == res.song && req.album == res.album
    ensures req.discordUserId == DecimalString(authorId) && req.discordUsername == authorName
    ensures req.originalMessageId == Some(DecimalString(messageId)) && req.originalChannelId == Some(DecimalString(channelId))
  {
    Request(
      discordUserId := DecimalString(authorId),
      discordUsername := authorName,
      searchTerm := searchTerm,
      refinedSearchTerm := Some(res.refinedSearchTerm),
      artist := res.artist,
      song := res.song,
      album := res.album,
      originalMessageId := Some(DecimalString(messageId)),
      originalChannelId := Some(DecimalString(channelId)))
  }

  /** The record a successful `request_music` leaves: the inserted row
      with the approval message's id written afterwards. */
  function Submitted(req: Request, id: int, approvalMessageId: nat, now: Timestamp): Request {
    Inserted(req, id, now).(messageId := Some(DecimalString(approvalMessageId)))
  }

  /** Without an API key the posted embed has exactly four fields: the
      requester, the query, an "Identified Music" field holding only the
      "Singles" album line, and the pending status; there is no refined
      search field (the refined term is the query itself) and no footer
      (the request has not been stored yet, so it has no creation time). */
  lemma NoKeyEmbed(channelId: nat, authorId: nat, authorName: string, messageId: nat, searchTerm: string,
                   apiKey: Configuration.Yaml, reply: Reply, id: int)
    requires !Configuration.Truthy(apiKey)
    ensures var req := Submission(channelId, authorId, authorName, messageId, searchTerm, RefineSearchStructured(searchTerm, apiKey, reply));
      var e := CreateEmbed(req, id);
      && e.footer == None
      && e.fields == [EmbedField(Requester, authorName), EmbedField(OriginalRequest, searchTerm),
                      EmbedField(IdentifiedMusic, AlbumLine(Singles)), EmbedField(StatusLine, PendingApproval)]
  {
    var req := Submission(channelId, authorId, authorName, messageId, searchTerm, RefineSearchStructured(searchTerm, apiKey, reply));
    assert MusicLines(req) == [AlbumLine(Singles)];
    assert !ShowsRefined(req);
  }

  /** A status from the CHECK's list, or the failure write, is admitted. */
  lemma WritesAdmitted(status: string, error: string)
    requires status in Statuses
    ensures !BreaksCheck(StatusWrite(status)) && !BreaksCheck(FailureWrite(error))
    ensures StatusWrite(status) != map[] && FailureWrite(error) != map[]
  {
    assert Status in StatusWrite(status) && StatusWrite(status)[Status] == status;
    assert Status in FailureWrite(error) && FailureWrite(error)[Status] == Failed;
  }

  /** Writing the approval message id changes it and `updated_at` only. */
  lemma MessageIdWrite(rows: map<int, Request>, id: int, req: Request, approvalMessageId: nat, now: Timestamp)
    ensures Updated(rows[id := Inserted(req, id, now)], id, map[MessageId := DecimalString(approvalMessageId)], now)
      == rows[id := Submitted(req, id, approvalMessageId, now)]
  {
    var fields := map[MessageId := DecimalString(approvalMessageId)];
    assert MessageId in fields;
  }

  /** `retry_request` acts on a stored record whose status is `failed`. */
  predicate Retryable(rows: map<int, Request>, id: int) {
    id in rows && rows[id].status == Failed
  }

  /** The retry's reply. */
  function RetryReport(id: int, result: Result<string>): string {
    match result
    case Ok(_) => "Retried request " + IntString(id) + " successfully."
    case Err(e) => "Retry failed: " + e
  }

  // ---------------------------------------------------------------------
  // The cog

  /** `RequestCog` with what it reaches through `self.bot`: the store, the
      downloader (which writes to the same store) and the configuration.
      The handlers assume the table exists, as `setup_hook` creates it
      before any event is delivered. */
  class RequestCog {
    const db: Database
    const downloader: Downloader
    const config: Configuration.Config

    constructor (db: Database, downloader: Downloader, config: Configuration.Config)
      requires downloader.db == db
      ensures this.db == db && this.downloader == downloader && this.config == config
    {
      this.db := db;
      this.downloader := downloader;
      this.config := config;
    }

    /** The reaction passes the bot, channel, role and emoji guards. */
    predicate Admitted(userIsBot: bool, channelId: nat, roles: seq<int>, emoji: string) {
      && !userIsBot
      && SameId(channelId, config.ApprovalChannelId())
      && IsAdmin(roles, config.AdminRoleId())
      && (emoji == ApproveMark || emoji == RejectMark)
    }

    /** Where the downloader puts a request's file. */
    function Target(artist: Option<string>, song: Option<string>, album: Option<string>): string
    {
      ExpectedPath(downloader.outputDir, artist, album, song, downloader.audioFormat)
    }

    /** What the downloader's search answers for a request's query. */
    function Searched(search: string -> SearchOutcome, req: Request): SearchOutcome
    {
      search(downloader.searchPrefix + SearchQuery(req))
    }

    /** `on_reaction_add`. A reaction that fails a guard (a bot user,
        another channel, no admin role, another emoji, no request with this
        approval message) changes nothing and sends nothing. ✅ makes the
        approval write whatever the status was, runs the download into the
        record's artist and album directories and records a failure; ❌
        writes `rejected` and downloads nothing. */
    method OnReactionAdd(userIsBot: bool, channelId: nat, roles: seq<int>, emoji: string, messageId: nat,
                         search: string -> SearchOutcome, fetch: FetchOutcome, cleanupFails: bool, now: Timestamp)
      returns (effects: seq<Effect>)
      requires db.Valid() && db.Ready() && db.Fresh() && downloader.db == db
      modifies db`rows, downloader.fs
      ensures db.Valid()
      ensures var found := old(db.GetRequestByMessageId(DecimalString(messageId)));
        !Admitted(userIsBot, channelId, roles, emoji) || found.None? ==>
          && effects == []
          && db.rows == old(db.rows)
          && downloader.fs.files == old(downloader.fs.files) && downloader.fs.dirs == old(downloader.fs.dirs)
      ensures var found := old(db.GetRequestByMessageId(DecimalString(messageId)));
        Admitted(userIsBot, channelId, roles, emoji) && found.Some? && emoji == ApproveMark ==>
          var req := found.value;
          var id := req.id.value;
          var blocked := old(downloader.Blocked(req.artist, req.album));
          var result := PipelineResult(Searched(search, req), blocked, fetch, Target(req.artist, req.song, req.album));
          && db.rows == ApproveRows(old(db.rows), id, Searched(search, req), blocked, fetch, Target(req.artist, req.song, req.album), now)
          && downloader.fs.files == PipelineFiles(old(downloader.fs.files), Searched(search, req), blocked, fetch, Target(req.artist, req.song, req.album), cleanupFails)
          && downloader.fs.dirs == PipelineDirs(old(downloader.fs.dirs), Searched(search, req), blocked, downloader.outputDir, req.artist, req.album)
          && effects == ApprovalEffects(req, id, result)
      ensures var found := old(db.GetRequestByMessageId(DecimalString(messageId)));
        Admitted(userIsBot, channelId, roles, emoji) && found.Some? && emoji == RejectMark ==>
          && db.rows == RejectRows(old(db.rows), found.value.id.value, now)
          && downloader.fs.files == old(downloader.fs.files) && downloader.fs.dirs == old(downloader.fs.dirs)
          && effects == RejectionEffects(found.value, found.value.id.value)
    {
      effects := [];
      if userIsBot {
        return;
      }
      if !SameId(channelId, config.ApprovalChannelId()) {
        return;
      }
      if !IsAdmin(roles, config.AdminRoleId()) {
        return;
      }
      if emoji != ApproveMark && emoji != RejectMark {
        return;
      }
      var found := db.GetRequestByMessageId(DecimalString(messageId));
      if found.None? {
        return;
      }
      var req := found.value;
      var id := req.id.value;
      if emoji == ApproveMark {
        effects := Approve(req, id, search, fetch, cleanupFails, now);
      } else {
        effects := Reject(req, id, now);
      }
    }

    /** The ✅ branch for the record `req` read under `id`. */
    method Approve(req: Request, id: int, search: string -> SearchOutcome, fetch: FetchOutcome, cleanupFails: bool, now: Timestamp)
      returns (effects: seq<Effect>)
      requires db.Valid() && db.Ready() && downloader.db == db
      modifies db`rows, downloader.fs
      ensures db.Valid()
      ensures var blocked := old(downloader.Blocked(req.artist, req.album));
        db.rows == ApproveRows(old(db.rows), id, Searched(search, req), blocked, fetch, Target(req.artist, req.song, req.album), now)
      ensures var blocked := old(downloader.Blocked(req.artist, req.album));
        downloader.fs.files == PipelineFiles(old(downloader.fs.files), Searched(search, req), blocked, fetch, Target(req.artist, req.song, req.album), cleanupFails)
      ensures var blocked := old(downloader.Blocked(req.artist, req.album));
        downloader.fs.dirs == PipelineDirs(old(downloader.fs.dirs), Searched(search, req), blocked, downloader.outputDir, req.artist, req.album)
      ensures var blocked := old(downloader.Blocked(req.artist, req.album));
        effects == ApprovalEffects(req, id, PipelineResult(Searched(search, req), blocked, fetch, Target(req.artist, req.song, req.album)))
    {
      WritesAdmitted(Approved, "");
      Write(id, StatusWrite(Approved), now);
      var result := downloader.SearchAndDownload(id, SearchQuery(req), req.artist, req.song, req.album, search, fetch, cleanupFails, now);
      if result.Err? {
        WritesAdmitted(Approved, result.error);
        Write(id, FailureWrite(result.error), now);
      }
      effects := ApprovalEffects(req, id, result);
    }

    /** The ❌ branch for the record `req` read under `id`. */
    method Reject(req: Request, id: int, now: Timestamp) returns (effects: seq<Effect>)
      requires db.Valid() && db.Ready()
      modifies db`rows
      ensures db.Valid()
      ensures db.rows == RejectRows(old(db.rows), id, now)
      ensures downloader.fs.files == old(downloader.fs.files) && downloader.fs.dirs == old(downloader.fs.dirs)
      ensures effects == RejectionEffects(req, id)
    {
      WritesAdmitted(Rejected, "");
      Write(id, StatusWrite(Rejected), now);
      effects := RejectionEffects(req, id);
    }

    /** `retry_request`. A caller without the admin role gets nothing; an
        unknown id or a record that is not `failed` gets the refusal and no
        write. Otherwise the record is set `approved` and downloaded again
        with its query but without artist, song or album (so into the
        Unknown Artist / Singles folder); a raised error is only reported. */
    method RetryRequest(roles: seq<int>, requestId: int, search: string -> SearchOutcome, fetch: FetchOutcome, cleanupFails: bool, now: Timestamp)
      returns (effects: seq<Effect>)
      requires db.Valid() && db.Ready() && db.Fresh() && downloader.db == db
      modifies db`rows, downloader.fs
      ensures db.Valid()
      ensures !IsAdmin(roles, config.AdminRoleId()) ==> effects == [] && db.rows == old(db.rows)
      ensures IsAdmin(roles, config.AdminRoleId()) && !Retryable(old(db.rows), requestId) ==>
        effects == [Replied(InvalidRetry)] && db.rows == old(db.rows)
      ensures IsAdmin(roles, config.AdminRoleId()) && Retryable(old(db.rows), requestId) ==>
        var req := old(db.rows)[requestId];
        var blocked := old(downloader.Blocked(None, None));
        && db.rows == RetryRows(old(db.rows), requestId, Searched(search, req), blocked, fetch, Target(None, None, None), now)
        && downloader.fs.files == PipelineFiles(old(downloader.fs.files), Searched(search, req), blocked, fetch, Target(None, None, None), cleanupFails)
        && downloader.fs.dirs == PipelineDirs(old(downloader.fs.dirs), Searched(search, req), blocked, downloader.outputDir, None, None)
        && effects == [Replied(RetryReport(requestId, PipelineResult(Searched(search, req), blocked, fetch, Target(None, None, None))))]
      ensures !IsAdmin(roles, config.AdminRoleId()) || !Retryable(old(db.rows), requestId) ==>
        downloader.fs.files == old(downloader.fs.files) && downloader.fs.dirs == old(downloader.fs.dirs)
    {
      if !IsAdmin(roles, config.AdminRoleId()) {
        return [];
      }
      var found := db.GetRequestById(requestId);
      if found.None? || found.value.status != Failed {
        return [Replied(InvalidRetry)];
      }
      effects := Rerun(found.value, requestId, search, fetch, cleanupFails, now);
    }

    /** The retry of the failed record `req` stored under `id`. */
    method Rerun(req: Request, id: int, search: string -> SearchOutcome, fetch: FetchOutcome, cleanupFails: bool, now: Timestamp)
      returns (effects: seq<Effect>)
      requires db.Valid() && db.Ready() && downloader.db == db
      modifies db`rows, downloader.fs
      ensures db.Valid()
      ensures var blocked := old(downloader.Blocked(None, None));
        db.rows == RetryRows(old(db.rows), id, Searched(search, req), blocked, fetch, Target(None, None, None), now)
      ensures var blocked := old(downloader.Blocked(None, None));
        downloader.fs.files == PipelineFiles(old(downloader.fs.files), Searched(search, req), blocked, fetch, Target(None, None, None), cleanupFails)
      ensures var blocked := old(downloader.Blocked(None, None));
        downloader.fs.dirs == PipelineDirs(old(downloader.fs.dirs), Searched(search, req), blocked, downloader.outputDir, None, None)
      ensures var blocked := old(downloader.Blocked(None, None));
        effects == [Replied(RetryReport(id, PipelineResult(Searched(search, req), blocked, fetch, Target(None, None, None))))]
    {
      WritesAdmitted(Approved, "");
      Write(id, StatusWrite(Approved), now);
      var result := downloader.SearchAndDownload(id, SearchQuery(req), None, None, None, search, fetch, cleanupFails, now);
      effects := [Replied(RetryReport(id, result))];
    }

    /** `request_music`. Outside the request channel nothing happens.
        Otherwise the resolved request is inserted, its embed posted to the
        approval channel with ✅ and ❌ added, and the approval message's id
        written to the new record; when the insert raises, nothing is
        posted. */
    method RequestMusic(channelId: nat, authorId: nat, authorName: string, messageId: nat, searchTerm: string,
                        reply: Reply, approvalMessageId: nat, now: Timestamp)
      returns (outcome: Result<seq<Effect>>)
      requires db.Valid()
      modifies db`rows, db`sequence
      ensures db.Valid()
      ensures !SameId(channelId, config.RequestChannelId()) ==>
        outcome == Ok([]) && db.rows == old(db.rows) && db.sequence == old(db.sequence)
      ensures SameId(channelId, config.RequestChannelId()) ==>
        var req := Submission(channelId, authorId, authorName, messageId, searchTerm, RefineSearchStructured(searchTerm, config.XaiApiKey(), reply));
        var id := old(db.sequence) + 1;
        && (outcome.Ok? <==> db.Ready() && old(db.sequence) < MaxRowId)
        && (outcome.Ok? ==>
              && db.sequence == id
              && db.rows == old(db.rows)[id := Submitted(req, id, approvalMessageId, now)]
              && outcome.value == [Posted(CreateEmbed(req, id)), Reacted(ApproveMark), Reacted(RejectMark)])
        && (outcome.Err? ==> db.rows == old(db.rows) && db.sequence == old(db.sequence))
    {
      if !SameId(channelId, config.RequestChannelId()) {
        return Ok([]);
      }
      var refined := RefineSearchStructured(searchTerm, config.XaiApiKey(), reply);
      var req := Submission(channelId, authorId, authorName, messageId, searchTerm, refined);
      var created := Store(req, approvalMessageId, now);
      if created.Err? {
        return Err(created.error);
      }
      outcome := Ok([Posted(CreateEmbed(req, created.value)), Reacted(ApproveMark), Reacted(RejectMark)]);
    }

    /** The two store calls of `request_music`: the insert, and once the
        approval message is posted, the write of its id. */
    method Store(req: Request, approvalMessageId: nat, now: Timestamp) returns (created: Result<int>)
      requires db.Valid() && req.status == Pending
      modifies db`rows, db`sequence
      ensures db.Valid()
      ensures created.Ok? <==> db.Ready() && old(db.sequence) < MaxRowId
      ensures created.Ok? ==>
        && created.value == old(db.sequence) + 1 == db.sequence
        && db.rows == old(db.rows)[created.value := Submitted(req, created.value, approvalMessageId, now)]
      ensures created.Err? ==> db.rows == old(db.rows) && db.sequence == old(db.sequence)
    {
      created := db.CreateRequest(req, now);
      if created.Err? {
        return;
      }
      var fields := map[MessageId := DecimalString(approvalMessageId)];
      assert MessageId in fields && !BreaksCheck(fields);
      Write(created.value, fields, now);
      MessageIdWrite(old(db.rows), created.value, req, approvalMessageId, now);
    }

    /** An `update_request` that cannot raise: the table has every column
        and the fields name an admitted status, if any. */
    method Write(id: int, fields: map<Column, string>, now: Timestamp)
      requires db.Valid() && db.Ready() && !BreaksCheck(fields)
      modifies db`rows
      ensures db.Valid()
      ensures db.rows == Updated(old(db.rows), id, fields, now)
    {
      ReadyNamesAll(db.columns, fields);
      var _ := db.UpdateRequest(id, fields, now);
    }
  }
}

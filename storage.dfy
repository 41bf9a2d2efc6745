/** kidstunes/database.py: the `requests` table as a map from row id to
    record, the schema migration run at startup, inserts with AUTOINCREMENT
    ids, partial updates, lookups, and the decoding of `SELECT *` rows. The
    SQL text, the aiosqlite connection and commits are not modelled; each
    statement is one step of the model. */
module Storage {
  import opened Wrappers
  import opened Models

  /** A value stored in an SQLite row. */
  datatype Cell = Null | Integer(n: int) | Text(s: string)

  /** The largest rowid SQLite assigns (a signed 64-bit integer); once an
      AUTOINCREMENT table has used it, inserts fail. */
  const MaxRowId: int := 0x7FFF_FFFF_FFFF_FFFF

  /** The columns of the `requests` table, by their SQL names. */
  datatype Field =
    | Id                 // id
    | DiscordUserId      // discord_user_id
    | DiscordUsername    // discord_username
    | SearchTerm         // search_term
    | RefinedSearchTerm  // refined_search_term
    | Artist             // artist
    | Song               // song
    | Album              // album
    | Status             // status
    | MessageId          // message_id
    | YoutubeUrl         // youtube_url
    | YoutubeTitle       // youtube_title
    | FilePath           // file_path
    | ErrorMessage       // error_message
    | CreatedAt          // created_at
    | UpdatedAt          // updated_at
    | OriginalMessageId  // original_message_id
    | OriginalChannelId  // original_channel_id

  /** The columns `update_request` is called with (every column but the id
      and the two timestamps). */
  type Column = f: Field | f != Id && f != CreatedAt && f != UpdatedAt witness Status

  /** The columns of the CREATE TABLE statement, in order. */
  const BaseColumns: seq<Field> := [
    Id, DiscordUserId, DiscordUsername, SearchTerm, RefinedSearchTerm,
    Artist, Song, Album, Status, MessageId, YoutubeUrl, YoutubeTitle,
    FilePath, ErrorMessage, CreatedAt, UpdatedAt]

  /** The columns the migration adds when absent, in the order it tries. */
  const MigrationColumns: seq<Field> := [
    RefinedSearchTerm, Artist, Song, Album, OriginalMessageId, OriginalChannelId]

  /** The row layout `_row_to_request` reads by position: the CREATE TABLE
      columns followed by the two columns only the migration adds. */
  const RowLayout: seq<Field> := [
    Id, DiscordUserId, DiscordUsername, SearchTerm, RefinedSearchTerm,
    Artist, Song, Album, Status, MessageId, YoutubeUrl, YoutubeTitle,
    FilePath, ErrorMessage, CreatedAt, UpdatedAt,
    OriginalMessageId, OriginalChannelId]

  // ---------------------------------------------------------------------
  // Schema migration (create_tables)

  /** `ALTER TABLE requests ADD COLUMN c`: fails, and is ignored, when the
      column already exists (or there is no table). */
  function AddIfAbsent(cols: seq<Field>, c: Field): seq<Field> {
    if cols == [] || c in cols then cols else cols + [c]
  }

  function AddAllAbsent(cols: seq<Field>, names: seq<Field>): seq<Field>
    decreases |names|
  {
    if names == [] then cols else AddAllAbsent(AddIfAbsent(cols, names[0]), names[1..])
  }

  /** The schema `create_tables` leaves: the table is created if missing,
      then each migration column is added if absent. */
  function Migrated(cols: seq<Field>): seq<Field> {
    AddAllAbsent(if cols == [] then BaseColumns else cols, MigrationColumns)
  }

  /** Adding columns keeps the existing ones in place and ends with every
      name present (given a table), and adds nothing else. */
  lemma {:induction false} AddAllAbsentGrows(cols: seq<Field>, names: seq<Field>)
    requires cols != []
    ensures |AddAllAbsent(cols, names)| >= |cols|
    ensures AddAllAbsent(cols, names)[..|cols|] == cols
    ensures forall n :: n in names ==> n in AddAllAbsent(cols, names)
    ensures forall n :: n in AddAllAbsent(cols, names) ==> n in cols || n in names
    decreases |names|
  {
    if names != [] {
      var next := AddIfAbsent(cols, names[0]);
      AddAllAbsentGrows(next, names[1..]);
      assert next[..|cols|] == cols;
      var r := AddAllAbsent(next, names[1..]);
      assert r[..|cols|] == r[..|next|][..|cols|];
      forall n | n in names ensures n in r {
        if n != names[0] {
          assert n in names[1..];
        } else {
          assert n in next;
          var i :| 0 <= i < |next| && next[i] == n;
          assert r[..|next|][i] == n;
        }
      }
    }
  }

  /** When every name is already present, adding changes nothing. */
  lemma {:induction false} AddAllAbsentPresent(cols: seq<Field>, names: seq<Field>)
    requires forall n :: n in names ==> n in cols
    ensures AddAllAbsent(cols, names) == cols
    decreases |names|
  {
    if names != [] {
      assert names[0] in cols;
      forall n | n in names[1..] ensures n in cols { assert n in names; }
      AddAllAbsentPresent(cols, names[1..]);
    }
  }

  /** Distinct names none of which is present are appended in order. */
  lemma {:induction false} AddAllAbsentFresh(cols: seq<Field>, names: seq<Field>)
    requires cols != []
    requires forall n :: n in names ==> n !in cols
    requires forall i, j :: 0 <= i < j < |names| ==> names[i] != names[j]
    ensures AddAllAbsent(cols, names) == cols + names
    decreases |names|
  {
    if names != [] {
      var next := cols + [names[0]];
      forall n | n in names[1..] ensures n !in next {
        assert n in names;
      }
      AddAllAbsentFresh(next, names[1..]);
      assert next + names[1..] == cols + names;
    }
  }

  /** Adding `a + b` is adding `a`, then `b`. */
  lemma {:induction false} AddAllAbsentAppend(cols: seq<Field>, a: seq<Field>, b: seq<Field>)
    ensures AddAllAbsent(cols, a + b) == AddAllAbsent(AddAllAbsent(cols, a), b)
    decreases |a|
  {
    if a == [] {
      assert a + b == b;
    } else {
      assert (a + b)[0] == a[0] && (a + b)[1..] == a[1..] + b;
      AddAllAbsentAppend(AddIfAbsent(cols, a[0]), a[1..], b);
    }
  }

  /** The migration, one ALTER at a time. */
  lemma MigrationSteps(cols: seq<Field>)
    ensures AddAllAbsent(cols, MigrationColumns)
      == AddIfAbsent(AddIfAbsent(AddIfAbsent(AddIfAbsent(AddIfAbsent(AddIfAbsent(
           cols, RefinedSearchTerm), Artist), Song), Album), OriginalMessageId), OriginalChannelId)
  {
    var m := MigrationColumns;
    assert m[1..] == [Artist, Song, Album, OriginalMessageId, OriginalChannelId];
    assert m[1..][1..] == [Song, Album, OriginalMessageId, OriginalChannelId];
    assert m[1..][1..][1..] == [Album, OriginalMessageId, OriginalChannelId];
    assert m[1..][1..][1..][1..] == [OriginalMessageId, OriginalChannelId];
    assert m[1..][1..][1..][1..][1..] == [OriginalChannelId];
  }

  /** Migrating keeps an existing table's columns, in place, and then holds
      every migration column. */
  lemma MigratedAdditive(cols: seq<Field>)
    requires cols != []
    ensures Migrated(cols)[..|cols|] == cols
    ensures forall n :: n in MigrationColumns ==> n in Migrated(cols)
  {
    AddAllAbsentGrows(cols, MigrationColumns);
  }

  /** Running `create_tables` twice leaves the schema running it once does. */
  lemma MigratedIdempotent(cols: seq<Field>)
    ensures Migrated(Migrated(cols)) == Migrated(cols)
  {
    var start := if cols == [] then BaseColumns else cols;
    AddAllAbsentGrows(start, MigrationColumns);
    var once := Migrated(cols);
    assert once != [] by { assert |once| >= |start|; }
    AddAllAbsentPresent(once, MigrationColumns);
  }

  /** On a database without the table, `create_tables` builds exactly the
      layout `_row_to_request` reads by position. */
  lemma MigratedFresh()
    ensures Migrated([]) == RowLayout
  {
    var present := [RefinedSearchTerm, Artist, Song, Album];
    var added := [OriginalMessageId, OriginalChannelId];
    LayoutPieces();
    AddAllAbsentAppend(BaseColumns, present, added);
    FreshKeepsResolution();
    FreshAddsOriginals();
  }

  lemma FreshKeepsResolution()
    ensures AddAllAbsent(BaseColumns, [RefinedSearchTerm, Artist, Song, Album]) == BaseColumns
  {
    BaseHasResolution();
    AddAllAbsentPresent(BaseColumns, [RefinedSearchTerm, Artist, Song, Album]);
  }

  lemma FreshAddsOriginals()
    ensures AddAllAbsent(BaseColumns, [OriginalMessageId, OriginalChannelId])
      == BaseColumns + [OriginalMessageId, OriginalChannelId]
  {
    BaseLacksOriginals();
    AddAllAbsentFresh(BaseColumns, [OriginalMessageId, OriginalChannelId]);
  }

  lemma LayoutPieces()
    ensures MigrationColumns == [RefinedSearchTerm, Artist, Song, Album] + [OriginalMessageId, OriginalChannelId]
    ensures BaseColumns + [OriginalMessageId, OriginalChannelId] == RowLayout
  {
  }

  lemma BaseHasResolution()
    ensures forall n :: n in [RefinedSearchTerm, Artist, Song, Album] ==> n in BaseColumns
  {
    assert BaseColumns[4] == RefinedSearchTerm && BaseColumns[5] == Artist;
    assert BaseColumns[6] == Song && BaseColumns[7] == Album;
  }

  lemma BaseLacksOriginals()
    ensures forall n :: n in [OriginalMessageId, OriginalChannelId] ==> n !in BaseColumns
  {
    forall i | 0 <= i < |BaseColumns|
      ensures BaseColumns[i] != OriginalMessageId && BaseColumns[i] != OriginalChannelId
    {
    }
  }

  /** The table holds every column the model reads and writes. */
  predicate HasAllColumns(cols: seq<Field>) {
    forall f: Field :: f in cols
  }

  lemma RowLayoutComplete()
    ensures HasAllColumns(RowLayout)
  {
    forall f: Field ensures f in RowLayout {
      match f
      case Id => assert RowLayout[0] == f;
      case DiscordUserId => assert RowLayout[1] == f;
      case DiscordUsername => assert RowLayout[2] == f;
      case SearchTerm => assert RowLayout[3] == f;
      case RefinedSearchTerm => assert RowLayout[4] == f;
      case Artist => assert RowLayout[5] == f;
      case Song => assert RowLayout[6] == f;
      case Album => assert RowLayout[7] == f;
      case Status => assert RowLayout[8] == f;
      case MessageId => assert RowLayout[9] == f;
      case YoutubeUrl => assert RowLayout[10] == f;
      case YoutubeTitle => assert RowLayout[11] == f;
      case FilePath => assert RowLayout[12] == f;
      case ErrorMessage => assert RowLayout[13] == f;
      case CreatedAt => assert RowLayout[14] == f;
      case UpdatedAt => assert RowLayout[15] == f;
      case OriginalMessageId => assert RowLayout[16] == f;
      case OriginalChannelId => assert RowLayout[17] == f;
    }
  }

  // ---------------------------------------------------------------------
  // Records and rows

  function OptCell(o: Option<string>): Cell {
    if o.Some? then Text(o.value) else Null
  }

  /** A record's cells in the fresh layout's column order. */
  function RowOf(r: Request): seq<Cell> {
    [if r.id.Some? then Integer(r.id.value) else Null,
     Text(r.discordUserId), Text(r.discordUsername), Text(r.searchTerm),
     OptCell(r.refinedSearchTerm), OptCell(r.artist), OptCell(r.song), OptCell(r.album),
     Text(r.status), OptCell(r.messageId), OptCell(r.youtubeUrl), OptCell(r.youtubeTitle),
     OptCell(r.filePath), OptCell(r.errorMessage),
     if r.createdAt.Some? then Text(r.createdAt.value) else Null,
     if r.updatedAt.Some? then Text(r.updatedAt.value) else Null,
     OptCell(r.originalMessageId), OptCell(r.originalChannelId)]
  }

  /** The position of a column in the fresh layout. */
  function Position(f: Field): (i: nat)
    ensures i < |RowLayout| && RowLayout[i] == f
  {
    match f
    case Id => 0
    case DiscordUserId => 1
    case DiscordUsername => 2
    case SearchTerm => 3
    case RefinedSearchTerm => 4
    case Artist => 5
    case Song => 6
    case Album => 7
    case Status => 8
    case MessageId => 9
    case YoutubeUrl => 10
    case YoutubeTitle => 11
    case FilePath => 12
    case ErrorMessage => 13
    case CreatedAt => 14
    case UpdatedAt => 15
    case OriginalMessageId => 16
    case OriginalChannelId => 17
  }

  /** The value a record holds in a column. */
  function CellOf(r: Request, f: Field): Cell {
    RowOf(r)[Position(f)]
  }

  /** The row `SELECT *` returns for a record, with the cells in the order
      of the table's columns. */
  function RowIn(r: Request, cols: seq<Field>): (row: seq<Cell>)
    ensures |row| == |cols|
    ensures forall i :: 0 <= i < |cols| ==> row[i] == CellOf(r, cols[i])
  {
    seq(|cols|, i requires 0 <= i < |cols| => CellOf(r, cols[i]))
  }

  function IdOf(c: Cell): Option<int> {
    if c.Integer? then Some(c.n) else None
  }

  /** A NOT NULL text column. */
  function TextOf(c: Cell): string {
    if c.Text? then c.s else ""
  }

  function OptTextOf(c: Cell): Option<string> {
    if c.Text? then Some(c.s) else None
  }

  function StatusOf(c: Cell): string {
    if c.Text? then c.s else Pending
  }

  /** `datetime.fromisoformat(cell) if cell else None`. */
  function StampOf(c: Cell): Option<Timestamp> {
    if c.Text? && c.s != "" then Some(c.s) else None
  }

  /** `_row_to_request`: cells are read by position; columns 4 and up are
      read only when the row is long enough, otherwise the field keeps the
      dataclass default. */
  function RowToRequest(row: seq<Cell>): Request
    requires |row| >= 4
  {
    Request(
      id := IdOf(row[0]),
      discordUserId := TextOf(row[1]),
      discordUsername := TextOf(row[2]),
      searchTerm := TextOf(row[3]),
      refinedSearchTerm := if |row| > 4 then OptTextOf(row[4]) else None,
      artist := if |row| > 5 then OptTextOf(row[5]) else None,
      song := if |row| > 6 then OptTextOf(row[6]) else None,
      album := if |row| > 7 then OptTextOf(row[7]) else None,
      status := if |row| > 8 then StatusOf(row[8]) else Pending,
      messageId := if |row| > 9 then OptTextOf(row[9]) else None,
      youtubeUrl := if |row| > 10 then OptTextOf(row[10]) else None,
      youtubeTitle := if |row| > 11 then OptTextOf(row[11]) else None,
      filePath := if |row| > 12 then OptTextOf(row[12]) else None,
      errorMessage := if |row| > 13 then OptTextOf(row[13]) else None,
      createdAt := if |row| > 14 then StampOf(row[14]) else None,
      updatedAt := if |row| > 15 then StampOf(row[15]) else None,
      originalMessageId := if |row| > 16 then OptTextOf(row[16]) else None,
      originalChannelId := if |row| > 17 then OptTextOf(row[17]) else None)
  }

  /** A record as the store keeps it: it has an id. */
  predicate Stored(r: Request) {
    r.id.Some?
  }

  /** Each column is at its own position of the fresh layout, so the
      `SELECT *` row of a fresh table is `RowOf`. */
  lemma FreshRow(r: Request)
    ensures RowIn(r, RowLayout) == RowOf(r)
  {
    forall i | 0 <= i < |RowLayout| ensures Position(RowLayout[i]) == i {
      LayoutPosition(i);
    }
  }

  lemma LayoutPosition(i: nat)
    requires i < |RowLayout|
    ensures Position(RowLayout[i]) == i
  {
    if i < 9 {
      if i == 0 {} else if i == 1 {} else if i == 2 {} else if i == 3 {}
      else if i == 4 {} else if i == 5 {} else if i == 6 {} else if i == 7 {} else {}
    } else {
      if i == 9 {} else if i == 10 {} else if i == 11 {} else if i == 12 {}
      else if i == 13 {} else if i == 14 {} else if i == 15 {} else if i == 16 {} else {}
    }
  }

  /** A row cut short after `n` columns of the fresh layout decodes to the
      record with every field from position `n` on at its dataclass default
      (None, or "pending" for the status). With `n == 18` it is the whole
      row and gives back the record exactly. */
  lemma ShortRowDefaults(r: Request, n: nat)
    requires Stored(r) && 4 <= n <= |RowLayout|
    ensures var d := RowToRequest(RowOf(r)[..n]);
      && d.id == r.id && d.discordUserId == r.discordUserId
      && d.discordUsername == r.discordUsername && d.searchTerm == r.searchTerm
      && d.refinedSearchTerm == (if n > 4 then r.refinedSearchTerm else None)
      && d.artist == (if n > 5 then r.artist else None)
      && d.song == (if n > 6 then r.song else None)
      && d.album == (if n > 7 then r.album else None)
      && d.status == (if n > 8 then r.status else Pending)
      && d.messageId == (if n > 9 then r.messageId else None)
      && d.youtubeUrl == (if n > 10 then r.youtubeUrl else None)
      && d.youtubeTitle == (if n > 11 then r.youtubeTitle else None)
      && d.filePath == (if n > 12 then r.filePath else None)
      && d.errorMessage == (if n > 13 then r.errorMessage else None)
      && d.createdAt == (if n > 14 then r.createdAt else None)
      && d.updatedAt == (if n > 15 then r.updatedAt else None)
      && d.originalMessageId == (if n > 16 then r.originalMessageId else None)
      && d.originalChannelId == (if n > 17 then r.originalChannelId else None)
  {
    var full := RowOf(r);
    var row := full[..n];
    forall i | 0 <= i < n ensures row[i] == full[i] {}
    if n <= 8 {
      if n == 4 {} else if n == 5 {} else if n == 6 {} else if n == 7 {} else {}
    } else if n <= 13 {
      if n == 9 {} else if n == 10 {} else if n == 11 {} else if n == 12 {} else {}
    } else {
      if n == 14 {} else if n == 15 {} else if n == 16 {} else if n == 17 {} else {}
    }
  }

  /** On the layout a fresh database gets, positional decoding gives back
      every stored record exactly. */
  lemma PositionalRoundTrip(r: Request)
    requires Stored(r)
    ensures RowToRequest(RowIn(r, RowLayout)) == r
  {
    FreshRow(r);
  }

  /** A row of the 16 CREATE TABLE columns, as a database that never ran
      the migration returns it, decodes with both originals unset. */
  lemma PreMigrationRow(r: Request)
    requires Stored(r)
    ensures RowToRequest(RowIn(r, BaseColumns)) == r.(originalMessageId := None, originalChannelId := None)
  {
    assert RowIn(r, BaseColumns) == RowOf(r)[..16] by {
      FreshRow(r);
      assert BaseColumns == RowLayout[..16];
    }
    ShortRowDefaults(r, 16);
  }

  /** The first position of column `f` in `cols`. */
  function IndexOf(cols: seq<Field>, f: Field): (i: Option<nat>)
    ensures i.Some? ==> i.value < |cols| && cols[i.value] == f
    ensures i.None? ==> f !in cols
  {
    if cols == [] then None
    else if cols[0] == f then Some(0)
    else match IndexOf(cols[1..], f)
      case Some(k) => Some(k + 1)
      case None => None
  }

  /** The cell under column `f`, or NULL if the table has no such column. */
  function CellUnder(row: seq<Cell>, cols: seq<Field>, f: Field): Cell
    requires |row| == |cols|
  {
    match IndexOf(cols, f)
    case Some(i) => row[i]
    case None => Null
  }

  /** The cells of a row rearranged, by column name, into the fresh
      layout's order. */
  function Reorder(row: seq<Cell>, cols: seq<Field>): (out: seq<Cell>)
    requires |row| == |cols|
    ensures |out| == |RowLayout|
    ensures forall i :: 0 <= i < |RowLayout| ==> out[i] == CellUnder(row, cols, RowLayout[i])
  {
    seq(|RowLayout|, i requires 0 <= i < |RowLayout| => CellUnder(row, cols, RowLayout[i]))
  }

  /** Decoding a row by column name rather than by position: correct for
      any column order the migration can leave. */
  function RowToRequestByName(row: seq<Cell>, cols: seq<Field>): Request
    requires |row| == |cols|
  {
    RowToRequest(Reorder(row, cols))
  }

  lemma CellUnderRow(r: Request, cols: seq<Field>, f: Field)
    requires f in cols
    ensures CellUnder(RowIn(r, cols), cols, f) == CellOf(r, f)
  {
  }

  /** Whatever the column order, decoding by name gives back every stored
      record exactly, once the table has all its columns. */
  lemma ByNameRoundTrip(r: Request, cols: seq<Field>)
    requires Stored(r) && HasAllColumns(cols)
    ensures RowToRequestByName(RowIn(r, cols), cols) == r
  {
    var row := Reorder(RowIn(r, cols), cols);
    forall i | 0 <= i < |RowLayout| ensures row[i] == RowOf(r)[i] {
      LayoutPosition(i);
      CellUnderRow(r, cols, RowLayout[i]);
    }
    assert row == RowOf(r);
    FreshRow(r);
    PositionalRoundTrip(r);
  }

  /** On the fresh layout the two decodings agree, so the source's
      positional decoding and the model's lookups return the same record. */
  lemma DecodingsAgreeOnFreshLayout(r: Request)
    requires Stored(r)
    ensures RowToRequest(RowIn(r, RowLayout)) == RowToRequestByName(RowIn(r, RowLayout), RowLayout)
  {
    PositionalRoundTrip(r);
    RowLayoutComplete();
    ByNameRoundTrip(r, RowLayout);
  }

  /** A table created before the four resolution columns existed: the
      base columns without `refined_search_term`, `artist`, `song` and
      `album`. */
  const LegacyColumns: seq<Field> := [
    Id, DiscordUserId, DiscordUsername, SearchTerm, Status, MessageId,
    YoutubeUrl, YoutubeTitle, FilePath, ErrorMessage, CreatedAt, UpdatedAt]

  /** The migration appends the missing columns at the end of such a table,
      so columns 4 to 8 no longer hold what `_row_to_request` reads there. */
  lemma LegacyMigrationLayout()
    ensures Migrated(LegacyColumns) == LegacyColumns + MigrationColumns
  {
    AddAllAbsentFresh(LegacyColumns, MigrationColumns);
  }

  /** After migrating a legacy table, `_row_to_request` reads the status
      cell as the refined search term, the approval message id as the
      artist and the file path as the status: any stored request with a
      file whose path is not a status word comes back with a status the
      table's CHECK would never admit. The request is one stored before
      the migration, so its `song` and `album` cells are NULL and the two
      timestamps read from them come back empty instead of raising (see
      LegacyStampCells). */
  lemma LegacyRowMisread(r: Request)
    requires Stored(r) && r.status in Statuses && r.filePath.Some?
    requires r.song == None && r.album == None
    ensures var d := RowToRequest(RowIn(r, Migrated(LegacyColumns)));
      && d.refinedSearchTerm == Some(r.status)
      && d.artist == r.messageId
      && d.status == r.filePath.value
      && d.createdAt == None && d.updatedAt == None
      && (r.filePath.value !in Statuses ==> d.status !in Statuses && d != r)
  {
    LegacyMigrationLayout();
    var row := RowIn(r, LegacyColumns + MigrationColumns);
    LegacyCells(r, row);
    DecodedMiddle(row);
  }

  /** After migrating a legacy table, `_row_to_request` reads `created_at`
      from the `song` cell and `updated_at` from the `album` cell. A
      request stored after the migration names its album, and
      `datetime.fromisoformat` raises on an album title; the model's
      StampOf takes any non-empty text as a timestamp instead. */
  lemma LegacyStampCells(r: Request)
    requires Stored(r)
    ensures var d := RowToRequest(RowIn(r, Migrated(LegacyColumns)));
      && d.createdAt == StampOf(OptCell(r.song))
      && d.updatedAt == StampOf(OptCell(r.album))
  {
    LegacyMigrationLayout();
    var row := RowIn(r, LegacyColumns + MigrationColumns);
    LegacyCells(r, row);
    DecodedMiddle(row);
  }

  /** What `_row_to_request` reads from positions 4, 5, 8, 14 and 15 of a
      full row. */
  lemma DecodedMiddle(row: seq<Cell>)
    requires |row| == 18
    ensures RowToRequest(row).refinedSearchTerm == OptTextOf(row[4])
    ensures RowToRequest(row).artist == OptTextOf(row[5])
    ensures RowToRequest(row).status == StatusOf(row[8])
    ensures RowToRequest(row).createdAt == StampOf(row[14])
    ensures RowToRequest(row).updatedAt == StampOf(row[15])
  {
  }

  lemma LegacyCells(r: Request, row: seq<Cell>)
    requires row == RowIn(r, LegacyColumns + MigrationColumns)
    ensures row[4] == Text(r.status) && row[5] == OptCell(r.messageId)
    ensures row[8] == OptCell(r.filePath)
    ensures row[14] == OptCell(r.song) && row[15] == OptCell(r.album)
  {
    var cols := LegacyColumns + MigrationColumns;
    assert cols[4] == Status && cols[5] == MessageId && cols[8] == FilePath;
    assert cols[14] == Song && cols[15] == Album;
    assert CellOf(r, Status) == RowOf(r)[8];
    assert CellOf(r, MessageId) == RowOf(r)[9];
    assert CellOf(r, FilePath) == RowOf(r)[12];
    assert CellOf(r, Song) == RowOf(r)[6];
    assert CellOf(r, Album) == RowOf(r)[7];
  }

  /** Every column is a legacy one or a migration one. */
  lemma LegacyOrMigration(f: Field)
    ensures f in LegacyColumns || f in MigrationColumns
  {
    match f
    case RefinedSearchTerm => assert MigrationColumns[0] == f;
    case Artist => assert MigrationColumns[1] == f;
    case Song => assert MigrationColumns[2] == f;
    case Album => assert MigrationColumns[3] == f;
    case OriginalMessageId => assert MigrationColumns[4] == f;
    case OriginalChannelId => assert MigrationColumns[5] == f;
    case Id => assert LegacyColumns[0] == f;
    case DiscordUserId => assert LegacyColumns[1] == f;
    case DiscordUsername => assert LegacyColumns[2] == f;
    case SearchTerm => assert LegacyColumns[3] == f;
    case Status => assert LegacyColumns[4] == f;
    case MessageId => assert LegacyColumns[5] == f;
    case YoutubeUrl => assert LegacyColumns[6] == f;
    case YoutubeTitle => assert LegacyColumns[7] == f;
    case FilePath => assert LegacyColumns[8] == f;
    case ErrorMessage => assert LegacyColumns[9] == f;
    case CreatedAt => assert LegacyColumns[10] == f;
    case UpdatedAt => assert LegacyColumns[11] == f;
  }

  /** The migrated legacy table has every column, only in another order. */
  lemma LegacyComplete()
    ensures HasAllColumns(Migrated(LegacyColumns))
  {
    var cols := Migrated(LegacyColumns);
    AddAllAbsentGrows(LegacyColumns, MigrationColumns);
    forall f: Field ensures f in cols {
      LegacyOrMigration(f);
      if f in LegacyColumns {
        var i :| 0 <= i < |LegacyColumns| && LegacyColumns[i] == f;
        assert cols[..|LegacyColumns|][i] == f;
      }
    }
  }

  /** Decoding by name reads the same legacy table correctly. */
  lemma LegacyRowByName(r: Request)
    requires Stored(r)
    ensures RowToRequestByName(RowIn(r, Migrated(LegacyColumns)), Migrated(LegacyColumns)) == r
  {
    LegacyComplete();
    ByNameRoundTrip(r, Migrated(LegacyColumns));
  }

  // ---------------------------------------------------------------------
  // Inserts and updates

  /** The row `create_request` inserts: the request's origin, resolution,
      status and original ids, a fresh id, both timestamps equal to `now`;
      the columns the INSERT does not list (message id, YouTube fields, file
      path, error message) start NULL whatever the request held. */
  function Inserted(req: Request, id: int, now: Timestamp): (r: Request)
    ensures r.id == Some(id) && r.createdAt == r.updatedAt == Some(now)
    ensures r.status == req.status && r.searchTerm == req.searchTerm
    ensures r.messageId == None && r.youtubeUrl == None && r.youtubeTitle == None
    ensures r.filePath == None && r.errorMessage == None
    ensures r == req.(id := Some(id), messageId := None, youtubeUrl := None,
      youtubeTitle := None, filePath := None, errorMessage := None,
      createdAt := Some(now), updatedAt := Some(now))
  {
    Request(
      id := Some(id),
      discordUserId := req.discordUserId,
      discordUsername := req.discordUsername,
      searchTerm := req.searchTerm,
      refinedSearchTerm := req.refinedSearchTerm,
      artist := req.artist,
      song := req.song,
      album := req.album,
      status := req.status,
      originalMessageId := req.originalMessageId,
      originalChannelId := req.originalChannelId,
      createdAt := Some(now),
      updatedAt := Some(now))
  }

  function Pick(fields: map<Column, string>, c: Field, current: string): string {
    if c in fields then fields[c] else current
  }

  function PickOpt(fields: map<Column, string>, c: Field, current: Option<string>): Option<string> {
    if c in fields then Some(fields[c]) else current
  }

  /** The value an updatable column holds (NOT NULL columns always hold
      one). */
  function ValueOf(r: Request, c: Column): Option<string> {
    match c
    case DiscordUserId => Some(r.discordUserId)
    case DiscordUsername => Some(r.discordUsername)
    case SearchTerm => Some(r.searchTerm)
    case RefinedSearchTerm => r.refinedSearchTerm
    case Artist => r.artist
    case Song => r.song
    case Album => r.album
    case Status => Some(r.status)
    case MessageId => r.messageId
    case YoutubeUrl => r.youtubeUrl
    case YoutubeTitle => r.youtubeTitle
    case FilePath => r.filePath
    case ErrorMessage => r.errorMessage
    case OriginalMessageId => r.originalMessageId
    case OriginalChannelId => r.originalChannelId
  }

  /** The record after `UPDATE requests SET <fields>, updated_at = now`:
      exactly the named columns and `updated_at` change. */
  function Assign(r: Request, fields: map<Column, string>, now: Timestamp): (u: Request)
    ensures forall c: Column :: ValueOf(u, c) == if c in fields then Some(fields[c]) else ValueOf(r, c)
    ensures u.id == r.id && u.createdAt == r.createdAt && u.updatedAt == Some(now)
  {
    var u := AssignAll(r, fields, now);
    assert forall c: Column :: ValueOf(u, c) == if c in fields then Some(fields[c]) else ValueOf(r, c) by {
      forall c: Column ensures ValueOf(u, c) == if c in fields then Some(fields[c]) else ValueOf(r, c) {
        AssignValue(r, fields, now, c);
      }
    }
    u
  }

  lemma AssignValue(r: Request, fields: map<Column, string>, now: Timestamp, c: Column)
    ensures ValueOf(AssignAll(r, fields, now), c) == if c in fields then Some(fields[c]) else ValueOf(r, c)
  {
    match c
    case DiscordUserId =>
    case DiscordUsername =>
    case SearchTerm =>
    case RefinedSearchTerm =>
    case Artist =>
    case Song =>
    case Album =>
    case Status =>
    case MessageId =>
    case YoutubeUrl =>
    case YoutubeTitle =>
    case FilePath =>
    case ErrorMessage =>
    case OriginalMessageId =>
    case OriginalChannelId =>
  }

  function AssignAll(r: Request, fields: map<Column, string>, now: Timestamp): Request {
    r.(
      discordUserId := Pick(fields, DiscordUserId, r.discordUserId),
      discordUsername := Pick(fields, DiscordUsername, r.discordUsername),
      searchTerm := Pick(fields, SearchTerm, r.searchTerm),
      refinedSearchTerm := PickOpt(fields, RefinedSearchTerm, r.refinedSearchTerm),
      artist := PickOpt(fields, Artist, r.artist),
      song := PickOpt(fields, Song, r.song),
      album := PickOpt(fields, Album, r.album),
      status := Pick(fields, Status, r.status),
      messageId := PickOpt(fields, MessageId, r.messageId),
      youtubeUrl := PickOpt(fields, YoutubeUrl, r.youtubeUrl),
      youtubeTitle := PickOpt(fields, YoutubeTitle, r.youtubeTitle),
      filePath := PickOpt(fields, FilePath, r.filePath),
      errorMessage := PickOpt(fields, ErrorMessage, r.errorMessage),
      originalMessageId := PickOpt(fields, OriginalMessageId, r.originalMessageId),
      originalChannelId := PickOpt(fields, OriginalChannelId, r.originalChannelId),
      updatedAt := Some(now))
  }

  /** The rows after a successful `update_request(id, **fields)`: nothing
      changes when no fields are given or no row has that id; otherwise
      that one row is assigned. */
  function Updated(rows: map<int, Request>, id: int, fields: map<Column, string>, now: Timestamp): map<int, Request> {
    if fields == map[] || id !in rows then rows else rows[id := Assign(rows[id], fields, now)]
  }

  /** A status the table's CHECK rejects, if the update writes one. */
  predicate BreaksCheck(fields: map<Column, string>) {
    Status in fields && fields[Status] !in Statuses
  }

  /** A column's name in SQL. */
  function SqlName(f: Field): string {
    match f
    case Id => "id"
    case DiscordUserId => "discord_user_id"
    case DiscordUsername => "discord_username"
    case SearchTerm => "search_term"
    case RefinedSearchTerm => "refined_search_term"
    case Artist => "artist"
    case Song => "song"
    case Album => "album"
    case Status => "status"
    case MessageId => "message_id"
    case YoutubeUrl => "youtube_url"
    case YoutubeTitle => "youtube_title"
    case FilePath => "file_path"
    case ErrorMessage => "error_message"
    case CreatedAt => "created_at"
    case UpdatedAt => "updated_at"
    case OriginalMessageId => "original_message_id"
    case OriginalChannelId => "original_channel_id"
  }

  /** The columns `create_request`'s INSERT names, in its order. */
  const InsertColumns: seq<Field> := [
    DiscordUserId, DiscordUsername, SearchTerm, RefinedSearchTerm, Artist,
    Song, Album, Status, OriginalMessageId, OriginalChannelId, CreatedAt, UpdatedAt]

  /** The first of `fs` that `cols` lacks, if any. */
  function FirstAbsent(cols: seq<Field>, fs: seq<Field>): (o: Option<Field>)
    ensures o.Some? ==> o.value in fs && o.value !in cols
    ensures o.None? ==> forall f :: f in fs ==> f in cols
  {
    if fs == [] then None
    else if fs[0] !in cols then Some(fs[0])
    else FirstAbsent(cols, fs[1..])
  }

  /** The OperationalError of `create_request`'s INSERT on a table that
      lacks a column: SQLite names a missing table, or else the first
      column of the INSERT the table lacks. A table holding the INSERT's
      columns but not some other one names that other column. */
  function InsertError(cols: seq<Field>): string {
    if cols == [] then "no such table: requests"
    else match FirstAbsent(cols, InsertColumns + RowLayout)
      case Some(f) => "table requests has no column named " + SqlName(f)
      case None => "table requests has no column named id"
  }

  /** The statement names a column the table lacks. */
  predicate NamesMissingColumn(cols: seq<Field>, fields: map<Column, string>) {
    UpdatedAt !in cols || exists c: Column :: c in fields && c !in cols
  }

  /** On a table with every column, no update names a missing one. */
  lemma ReadyNamesAll(cols: seq<Field>, fields: map<Column, string>)
    requires HasAllColumns(cols)
    ensures !NamesMissingColumn(cols, fields)
  {
  }

  /** The successful update of one row keeps every other row and every
      unnamed column of that row, and stamps `updated_at`. */
  lemma UpdatedFrame(rows: map<int, Request>, id: int, fields: map<Column, string>, now: Timestamp, k: int, c: Column)
    requires fields != map[] && id in rows && k in rows
    ensures k in Updated(rows, id, fields, now)
    ensures k != id ==> Updated(rows, id, fields, now)[k] == rows[k]
    ensures k == id && c !in fields ==> ValueOf(Updated(rows, id, fields, now)[k], c) == ValueOf(rows[k], c)
    ensures k == id && c in fields ==> ValueOf(Updated(rows, id, fields, now)[k], c) == Some(fields[c])
    ensures k == id ==> Updated(rows, id, fields, now)[k].updatedAt == Some(now)
  {
  }

  /** A table with every column has at least the four leading ones the
      decoding reads unconditionally. */
  lemma AllColumnsLength(cols: seq<Field>)
    requires HasAllColumns(cols)
    ensures |cols| >= 4
  {
    var leading := {Id, DiscordUserId, DiscordUsername, SearchTerm};
    assert |leading| == 4;
    DistinctElements(cols, leading);
  }

  /** A sequence holding every element of a set is at least as long as the
      set is large. */
  lemma {:induction false} DistinctElements(s: seq<Field>, xs: set<Field>)
    requires forall x :: x in xs ==> x in s
    ensures |xs| <= |s|
    decreases |s|
  {
    if s != [] {
      var rest := xs - {s[0]};
      forall x | x in rest ensures x in s[1..] {
        var i :| 0 <= i < |s| && s[i] == x;
        assert s[1..][i - 1] == x;
      }
      DistinctElements(s[1..], rest);
    } else {
      assert xs == {};
    }
  }

  /** A stored record read back through `SELECT *` and `_row_to_request`:
      the cells in the table's column order, decoded by position. On the
      layout a new database gets this is the record itself; on an older
      table the migration extended, it is misread (`LegacyRowMisread`). */
  function Decode(r: Request, cols: seq<Field>): (d: Request)
    requires Stored(r) && HasAllColumns(cols)
    ensures cols == RowLayout ==> d == r
  {
    AllColumnsLength(cols);
    PositionalRoundTrip(r);
    RowToRequest(RowIn(r, cols))
  }

  /** The stored records of the given ids read back, in that order. */
  function DecodeAll(rows: map<int, Request>, cols: seq<Field>, ks: seq<int>): (rs: seq<Request>)
    requires HasAllColumns(cols)
    requires forall i :: 0 <= i < |ks| ==> ks[i] in rows && Stored(rows[ks[i]])
    ensures |rs| == |ks|
    ensures forall i :: 0 <= i < |ks| ==> rs[i] == Decode(rows[ks[i]], cols)
    ensures cols == RowLayout ==> forall i :: 0 <= i < |ks| ==> rs[i] == rows[ks[i]]
  {
    seq(|ks|, i requires 0 <= i < |ks| => Decode(rows[ks[i]], cols))
  }

  /** The SQLite database file holding the `requests` table. */
  class Database {
    /** The table's columns, in order; empty while the table does not exist. */
    var columns: seq<Field>
    /** The rows, by id. */
    var rows: map<int, Request>
    /** The table's `sqlite_sequence` entry: the largest id ever assigned. */
    var sequence: int

    ghost predicate Valid()
      reads this
    {
      && 0 <= sequence <= MaxRowId
      && (columns == [] ==> rows == map[])
      && forall k :: k in rows ==> 1 <= k <= sequence && rows[k].id == Some(k) && rows[k].status in Statuses
    }

    /** The table exists with every column. */
    predicate Ready()
      reads this
    {
      HasAllColumns(columns)
    }

    /** A database file without the table. */
    constructor ()
      ensures Valid() && columns == [] && rows == map[] && sequence == 0
    {
      columns, rows, sequence := [], map[], 0;
    }

    /** `ALTER TABLE requests ADD COLUMN name`, with the OperationalError it
        raises for an existing column caught. */
    method AddColumn(c: Field) returns (added: bool)
      modifies this`columns
      ensures added == (old(columns) != [] && c !in old(columns))
      ensures columns == AddIfAbsent(old(columns), c)
    {
      added := columns != [] && c !in columns;
      if added {
        columns := columns + [c];
      }
    }

    /** `create_tables`. */
    method CreateTables()
      requires Valid()
      modifies this`columns
      ensures Valid()
      ensures columns == Migrated(old(columns))
    {
      if columns == [] {
        columns := BaseColumns;
      }
      ghost var start := columns;
      var _ := AddColumn(RefinedSearchTerm);
      var _ := AddColumn(Artist);
      var _ := AddColumn(Song);
      var _ := AddColumn(Album);
      var _ := AddColumn(OriginalMessageId);
      var _ := AddColumn(OriginalChannelId);
      MigrationSteps(start);
    }

    /** `create_request`: inserts the request under the next AUTOINCREMENT
        id and returns that id. It raises when the table lacks a column the
        INSERT names, when the status breaks the CHECK, or when no rowid is
        left. */
    method CreateRequest(req: Request, now: Timestamp) returns (result: Result<int>)
      requires Valid()
      modifies this`rows, this`sequence
      ensures Valid()
      ensures result.Ok? <==> Ready() && req.status in Statuses && old(sequence) < MaxRowId
      ensures result.Ok? ==>
        && result.value == old(sequence) + 1 == sequence
        && (forall k :: k in old(rows) ==> k < result.value)
        && rows == old(rows)[result.value := Inserted(req, result.value, now)]
      ensures result.Err? ==> rows == old(rows) && sequence == old(sequence)
    {
      if !Ready() {
        return Err(InsertError(columns));
      }
      assert Id in columns;
      if req.status !in Statuses {
        return Err("CHECK constraint failed: status");
      }
      if sequence >= MaxRowId {
        return Err("database or disk is full");
      }
      var id := sequence + 1;
      rows := rows[id := Inserted(req, id, now)];
      sequence := id;
      result := Ok(id);
    }

    /** `update_request(id, **fields)`: a no-op when no fields are given;
        otherwise sets the named columns and `updated_at` on the row with
        that id (none, for an unknown id). It raises, changing nothing, on
        a column the table lacks or a status the CHECK rejects. */
    method UpdateRequest(id: int, fields: map<Column, string>, now: Timestamp) returns (result: Result<()>)
      requires Valid()
      modifies this`rows
      ensures Valid()
      ensures result.Err? <==> fields != map[] && (NamesMissingColumn(columns, fields) || (id in old(rows) && BreaksCheck(fields)))
      ensures result.Ok? ==> rows == Updated(old(rows), id, fields, now)
      ensures result.Err? ==> rows == old(rows)
    {
      if fields == map[] {
        return Ok(());
      }
      if NamesMissingColumn(columns, fields) {
        return Err("no such column");
      }
      if id !in rows {
        return Ok(());
      }
      if BreaksCheck(fields) {
        return Err("CHECK constraint failed: status");
      }
      rows := rows[id := Assign(rows[id], fields, now)];
      result := Ok(());
    }

    /** The table has exactly the columns `create_tables` gives a new
        database, in that order (`MigratedFresh`). */
    predicate Fresh()
      reads this
    {
      columns == RowLayout
    }

    /** `SELECT *` of row `k`, decoded by position. */
    function Fetch(k: int): (r: Request)
      reads this
      requires Valid() && Ready() && k in rows
      ensures r == Decode(rows[k], columns)
      ensures Fresh() ==> r == rows[k]
    {
      Decode(rows[k], columns)
    }

    /** `get_request_by_id`. */
    function GetRequestById(id: int): (r: Option<Request>)
      reads this
      requires Valid() && Ready()
      ensures r.Some? <==> id in rows
      ensures r.Some? ==> r.value == Fetch(id)
      ensures Fresh() && r.Some? ==> r.value == rows[id] && r.value.id == Some(id)
    {
      if id in rows then Some(Fetch(id)) else None
    }

    /** The first id from `from` on, in table order, whose row has this
        approval message id. */
    function ScanMessageId(messageId: string, from: int): (k: Option<int>)
      reads this
      requires Valid()
      ensures k.Some? ==> from <= k.value && k.value in rows && rows[k.value].messageId == Some(messageId)
      ensures k.Some? ==> forall j :: from <= j < k.value && j in rows ==> rows[j].messageId != Some(messageId)
      ensures k.None? ==> forall j :: from <= j && j in rows ==> rows[j].messageId != Some(messageId)
      decreases sequence + 1 - from
    {
      if from > sequence then None
      else if from in rows && rows[from].messageId == Some(messageId) then Some(from)
      else ScanMessageId(messageId, from + 1)
    }

    /** `get_request_by_message_id`: the first row (lowest id) whose
        approval message id matches, decoded, or None when no row does. */
    function GetRequestByMessageId(messageId: string): (r: Option<Request>)
      reads this
      requires Valid() && Ready()
      ensures r.None? <==> forall k :: k in rows ==> rows[k].messageId != Some(messageId)
      ensures r.Some? ==> ScanMessageId(messageId, 1).Some? && r.value == Fetch(ScanMessageId(messageId, 1).value)
      ensures Fresh() && r.Some? ==>
        && r.value.id.Some? && r.value.id.value in rows && rows[r.value.id.value] == r.value
        && r.value.messageId == Some(messageId)
        && forall k :: k in rows && k < r.value.id.value ==> rows[k].messageId != Some(messageId)
    {
      match ScanMessageId(messageId, 1)
      case Some(k) => Some(Fetch(k))
      case None => None
    }

    /** Every id from `from` on whose row has this file path, ascending. */
    function ScanFilePath(filePath: string, from: int): (ks: seq<int>)
      reads this
      requires Valid()
      ensures forall i :: 0 <= i < |ks| ==> from <= ks[i] && ks[i] in rows && rows[ks[i]].filePath == Some(filePath)
      ensures forall k :: from <= k && k in rows && rows[k].filePath == Some(filePath) ==> k in ks
      ensures forall i, j :: 0 <= i < j < |ks| ==> ks[i] < ks[j]
      decreases sequence + 1 - from
    {
      if from > sequence then []
      else if from in rows && rows[from].filePath == Some(filePath) then [from] + ScanFilePath(filePath, from + 1)
      else ScanFilePath(filePath, from + 1)
    }

    /** `get_requests_by_file_path`: every row whose file path matches,
        each once, in id order, decoded. */
    function GetRequestsByFilePath(filePath: string): (rs: seq<Request>)
      reads this
      requires Valid() && Ready()
      ensures var ks := ScanFilePath(filePath, 1);
        |rs| == |ks| && forall i :: 0 <= i < |ks| ==> rs[i] == Fetch(ks[i])
    {
      DecodeAll(rows, columns, ScanFilePath(filePath, 1))
    }

    /** The stored records of the given ids, in that order. */
    function Records(ks: seq<int>): (rs: seq<Request>)
      reads this
      requires forall i :: 0 <= i < |ks| ==> ks[i] in rows
      ensures |rs| == |ks| && forall i :: 0 <= i < |ks| ==> rs[i] == rows[ks[i]]
    {
      var m := rows;
      seq(|ks|, i requires 0 <= i < |ks| => m[ks[i]])
    }

    /** On the fresh layout the lookup by file path returns the stored
        records of the matching ids. */
    lemma FreshFilePathLookup(filePath: string)
      requires Valid() && Ready() && Fresh()
      ensures GetRequestsByFilePath(filePath) == Records(ScanFilePath(filePath, 1))
    {
      var ks := ScanFilePath(filePath, 1);
      var rs, qs := GetRequestsByFilePath(filePath), Records(ks);
      forall i | 0 <= i < |ks| ensures rs[i] == qs[i] {
        assert rs[i] == Fetch(ks[i]);
      }
    }

    /** The stored records with a file path, from the scan: exactly those
        with that path, each once, in id order. */
    lemma FilePathRecords(filePath: string)
      requires Valid()
      ensures var rs := Records(ScanFilePath(filePath, 1));
        && (forall i :: 0 <= i < |rs| ==> rs[i].filePath == Some(filePath))
        && (forall i :: 0 <= i < |rs| ==> rs[i].id.Some? && rs[i].id.value in rows && rows[rs[i].id.value] == rs[i])
        && (forall k :: k in rows && rows[k].filePath == Some(filePath) ==> rows[k] in rs)
        && (forall i, j :: 0 <= i < j < |rs| ==> rs[i].id.value < rs[j].id.value)
    {
      var ks := ScanFilePath(filePath, 1);
      var rs := Records(ks);
      forall k | k in rows && rows[k].filePath == Some(filePath) ensures rows[k] in rs {
        assert k in ks;
        var i :| 0 <= i < |ks| && ks[i] == k;
        assert rs[i] == rows[k];
      }
    }

  }
}

/** The `Request` record of kidstunes/models.py: one music request and its
    whole lifecycle, with the dataclass's field defaults. */
module Models {
  import opened Wrappers

  /** An ISO-8601 timestamp as `datetime.isoformat()` writes it; its content
      is opaque here, only that it is never empty matters. */
  type Timestamp = s: string | s != "" witness "0"

  const Pending: string := "pending"
  const Approved: string := "approved"
  const Rejected: string := "rejected"
  const Downloading: string := "downloading"
  const Complete: string := "complete"
  const Failed: string := "failed"

  /** The statuses the table's CHECK constraint admits. */
  const Statuses: set<string> := {Pending, Approved, Rejected, Downloading, Complete, Failed}

  /** The dataclass `Request`. `messageId` is the approval message in the
      moderation channel; `originalMessageId`/`originalChannelId` locate
      the user's own request message. */
  datatype Request = Request(
    id: Option<int> := None,
    discordUserId: string := "",
    discordUsername: string := "",
    searchTerm: string := "",
    refinedSearchTerm: Option<string> := None,
    artist: Option<string> := None,
    song: Option<string> := None,
    album: Option<string> := None,
    status: string := Pending,
    messageId: Option<string> := None,
    originalMessageId: Option<string> := None,
    originalChannelId: Option<string> := None,
    youtubeUrl: Option<string> := None,
    youtubeTitle: Option<string> := None,
    filePath: Option<string> := None,
    errorMessage: Option<string> := None,
    createdAt: Option<Timestamp> := None,
    updatedAt: Option<Timestamp> := None)

  /** A `Request()` built with no arguments: no id until the store assigns
      one, empty origin strings, status "pending" (the table's own default
      and one the CHECK admits), every other field `None`. */
  lemma DefaultRequest()
    ensures var r := Request();
      && r.id == None
      && r.discordUserId == "" && r.discordUsername == "" && r.searchTerm == ""
      && r.status == Pending && r.status in Statuses
      && r.refinedSearchTerm == None && r.artist == None && r.song == None && r.album == None
      && r.messageId == None && r.originalMessageId == None && r.originalChannelId == None
      && r.youtubeUrl == None && r.youtubeTitle == None && r.filePath == None
      && r.errorMessage == None && r.createdAt == None && r.updatedAt == None
  {
  }
}

/** The records the chat server and both browser clients pass around, and the
    fixed limits of the room. Times are milliseconds since the epoch. */
module ChatTypes {

  /** A value that may be absent (JavaScript null or undefined). */
  datatype Option<T> = None | Some(value: T)

  /** The outcome of a step that may fail. */
  datatype Result<T, E> = Success(value: T) | Failure(error: E)

  /** MAX_USERS: at most four members in the room. */
  const MaxUsers: nat := 4

  /** FILE_SIZE_LIMIT: 100 MiB, the largest accepted upload. */
  const FileSizeLimit: nat := 100 * 1024 * 1024

  /** DATA_RETENTION_DAYS: messages older than a week are dropped. */
  const RetentionDays: nat := 7

  const DayMs: nat := 24 * 60 * 60 * 1000

  /** The retention window in milliseconds: the server drops messages older
      than this, and the offline client discards a stored snapshot older than
      this. */
  const WeekMs: nat := RetentionDays * DayMs

  /** A display name may have at most 20 characters once trimmed. */
  const MaxNameLength: nat := 20

  /** Distance in pixels from the end of the message list below which the
      view counts as scrolled to the bottom. */
  const ScrollThreshold: int := 50

  /** A room member: the connection (or generated) id, the trimmed display
      name and the join time. */
  datatype User = User(id: string, displayName: string, joinedAt: int)

  /** Metadata of an uploaded file; url is where it is served from (the
      server) or a data URL (the offline client). */
  datatype FileInfo = FileInfo(
    id: string,
    filename: string,
    originalName: string,
    size: nat,
    mimetype: string,
    uploadedAt: int,
    url: string)

  /** type 'text' with its content, or type 'file' with its metadata. */
  datatype Body = Text(content: string) | File(file: FileInfo)

  /** A chat message; displayName is copied from the sender when it is made. */
  datatype Message = Message(
    id: string,
    userId: string,
    displayName: string,
    timestamp: int,
    body: Body)
}

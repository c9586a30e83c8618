/** The records of internal/models/avatar.go and internal/queue/message.go. */
module Avatars {
  import opened Keys
  import opened Processor

  datatype Status = Pending | Processing | Ready | Failed

  /** A row of the avatars table, without its key and its timestamps. */
  datatype Row = Row(
    status: Status,
    stagingKey: Key,
    originalKey: Key,
    thumbKey: Key,
    info: Info,
    error: string,
    messageId: MsgId
  )

  /** The body of a queue message. */
  datatype Msg = Msg(id: MsgId, user: UserId, stagingKey: Key)

  /** The row `UploadAvatar` inserts (internal/handler/handler.go:172-177). */
  function Uploaded(m: Msg): Row {
    Row(Pending, m.stagingKey, NoKey, NoKey, NO_INFO, "", m.id)
  }

  /** `UpdateAvatarStatus` on a row. */
  function WithStatus(r: Row, status: Status, error: string): Row {
    r.(status := status, error := error)
  }

  /** `MarkAvatarReady` on a row. */
  function Finished(r: Row, original: Key, thumb: Key, info: Info): Row {
    Row(Ready, NoKey, original, thumb, info, "", r.messageId)
  }
}

/** The parts of an incoming Telegram update that the bot's handlers read. */
module Telegram {
  import opened Wrappers

  /** update.effective_user / query.from_user. */
  datatype User = User(id: int, username: Option<string>, firstName: string)

  /** One media object of a message: file_id, file_name (where the object has one), file_size. */
  datatype Attachment = Attachment(fileId: string, fileName: Option<string>, fileSize: Option<int>)

  /**
   * update.message: where it sits (chat_id, message_id) and its media slots.
   * photo is the list of sizes Telegram sends, smallest first; the other slots are None when absent.
   */
  datatype Message = Message(
    chatId: int,
    messageId: int,
    document: Option<Attachment>,
    photo: seq<Attachment>,
    video: Option<Attachment>,
    audio: Option<Attachment>,
    voice: Option<Attachment>,
    videoNote: Option<Attachment>,
    animation: Option<Attachment>,
    sticker: Option<Attachment>)
}

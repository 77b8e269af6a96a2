/** Identifiers shared by the conversation engine and the broadcast. */
module Ids {
  /** A Telegram user id, which is also the chat id of the user's private chat. */
  type UserId = int
}

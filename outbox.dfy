/**
 * The chat transport and the image generator, seen only through the calls the handlers
 * make on them. Every call is appended to an outbox in the order it is made.
 */
module Outbox {
  import opened Wrappers
  import Keyboard

  /**
   * A chat message the handlers refer to: one sent earlier in the outbox (by its position)
   * or one that existed before the outbox began (by its transport id).
   */
  datatype MessageRef = Sent(index: nat) | Earlier(id: int)

  datatype Effect =
    | SendMessage(chat: int, text: string, markup: Keyboard.Markup)        // `message.answer`
    | EditMessage(message: MessageRef, text: string, markup: Keyboard.Markup) // `message.edit_text`
    | DeleteMessage(message: MessageRef)                                    // `message.delete`
    | AnswerCallback(chat: int, alert: Option<string>)                      // `callback.answer`, an alert when given a text
    | GenerateImages(prompt: string, size: string, model: string, quantity: int) // `send_dalle`
    | SendPhoto(chat: int, url: string)                                     // `bot.send_photo`
    | SendMediaGroup(chat: int, urls: seq<string>)                          // `bot.send_media_group`
}

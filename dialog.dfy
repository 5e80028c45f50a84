/**
 * The pure parts of the generation dialog: the status message that shows the stored
 * settings, the confirm and decline keyboards, and the choice between a grouped and a
 * single image delivery.
 */
module Dialog {
  import opened Wrappers
  import opened Text
  import Keyboard
  import Models
  import Strings
  import opened Outbox

  /** The label of the reply-keyboard button that cancels prompt collection. */
  const DeclineText: string := "Отмена \U{274C}"

  /** The reply sent when prompt collection is cancelled. */
  const CancelledMsg: string := "<b>Команда отменена!</b>\n\nВоспользуйтесь командой <i>/help</i> для дальнейших действий"

  /** `get_decline_keyboard`: one reply button carrying the decline text. */
  const DeclineKeyboard: Keyboard.Markup := Keyboard.Reply([[DeclineText]])

  /** `get_generate_options_inline_keyboard`: the single "continue" button. */
  const AcceptButton: Keyboard.Button := Keyboard.Button("Продолжить \U{2705}", "generate_accept_btn")
  const GenerateOptionsKeyboard: Keyboard.Markup := Keyboard.Inline([[AcceptButton]])

  const ModelLabel: string := "<b>Модель:</b> "
  const SizeLabel: string := "\n<b>Размер изображения:</b> "
  const QuantityLabel: string := "\n<b>Количество:</b> "
  const StatusFooter: string := "\n\nИзменить настройки: <i>/settings</i>"

  /** `_make_up_user_status_msg`. */
  function StatusMsg(s: Models.Settings): string {
    ModelLabel + s.model + SizeLabel + s.size + QuantityLabel + DecimalString(s.quantity) + StatusFooter
  }

  /**
   * The status message shows the stored model, size and quantity, each right after its label,
   * and ends with the hint to open the settings.
   */
  lemma StatusShowsSettings(s: Models.Settings)
    requires s.quantity >= 0
    ensures var msg, a := StatusMsg(s), |ModelLabel|;
      var b := a + |s.model| + |SizeLabel|;
      var c := b + |s.size| + |QuantityLabel|;
      var q := Digits(s.quantity);
      && |msg| == c + |q| + |StatusFooter|
      && msg[..a] == ModelLabel && msg[a..a + |s.model|] == s.model
      && msg[b - |SizeLabel|..b] == SizeLabel && msg[b..b + |s.size|] == s.size
      && msg[c - |QuantityLabel|..c] == QuantityLabel && msg[c..c + |q|] == q
      && DecimalValue(msg[c..c + |q|]) == s.quantity
      && msg[c + |q|..] == StatusFooter
  {
    var msg, a := StatusMsg(s), |ModelLabel|;
    var b := a + |s.model| + |SizeLabel|;
    var c := b + |s.size| + |QuantityLabel|;
    var q := Digits(s.quantity);
    assert msg == ModelLabel + s.model + SizeLabel + s.size + QuantityLabel + q + StatusFooter;
    DigitsValue(s.quantity);
  }

  /** An image record of the generator's response; a record without a url reads as `''`. */
  datatype Image = Image(url: Option<string>)

  function UrlOf(image: Image): string {
    image.url.GetOr("")
  }

  /** The urls of all images, in order. */
  function Urls(images: seq<Image>): (urls: seq<string>)
    ensures |urls| == |images|
    ensures forall k :: 0 <= k < |images| ==> urls[k] == UrlOf(images[k])
  {
    if images == [] then [] else [UrlOf(images[0])] + Urls(images[1..])
  }

  /** How `send_generated_images` delivers a response. */
  datatype Delivery =
    | MediaGroup(urls: seq<string>)   // more than one image: one grouped message
    | Photo(url: string)              // exactly one image
    | NoImage                         // `data[0]` of an empty list raises before anything is sent

  function DeliveryPlan(images: seq<Image>): (d: Delivery)
    ensures d.MediaGroup? <==> |images| > 1
    ensures d.MediaGroup? ==> d.urls == Urls(images)
    ensures d.Photo? <==> |images| == 1
    ensures d.Photo? ==> d.url == UrlOf(images[0])
  {
    if |images| > 1 then MediaGroup(Urls(images))
    else if |images| == 1 then Photo(UrlOf(images[0]))
    else NoImage
  }

  /**
   * The calls `send_generated_images` makes: the delivery call, then the inner-error reply
   * when it raised; with no image at all, only the inner-error reply.
   */
  function DeliveryEffects(chat: int, images: seq<Image>, deliveryFails: bool): seq<Effect> {
    var error := [SendMessage(chat, Strings.InnerErrorMsg, Keyboard.NoMarkup)];
    match DeliveryPlan(images)
    case MediaGroup(urls) => [SendMediaGroup(chat, urls)] + (if deliveryFails then error else [])
    case Photo(url) => [SendPhoto(chat, url)] + (if deliveryFails then error else [])
    case NoImage => error
  }

  /**
   * More than one image: exactly one grouped send carrying every url in order, and no single
   * photo. One image: one photo with its url. The inner-error reply is sent exactly when there
   * was no image or the delivery call raised, and it is the last call.
   */
  lemma DeliveryOutcome(chat: int, images: seq<Image>, deliveryFails: bool)
    ensures var effects := DeliveryEffects(chat, images, deliveryFails);
      && 1 <= |effects| <= 2
      && (|images| > 1 ==> effects[0] == SendMediaGroup(chat, Urls(images)))
      && (|images| == 1 ==> effects[0] == SendPhoto(chat, UrlOf(images[0])))
      && (forall k :: 0 <= k < |effects| && effects[k].SendMediaGroup? ==> k == 0 && |images| > 1)
      && (forall k :: 0 <= k < |effects| && effects[k].SendPhoto? ==> k == 0 && |images| == 1)
      && ((exists k :: 0 <= k < |effects| && effects[k] == SendMessage(chat, Strings.InnerErrorMsg, Keyboard.NoMarkup))
          <==> images == [] || deliveryFails)
      && ((images == [] || deliveryFails) ==> effects[|effects| - 1] == SendMessage(chat, Strings.InnerErrorMsg, Keyboard.NoMarkup))
  {
    var effects := DeliveryEffects(chat, images, deliveryFails);
    if images != [] && !deliveryFails {
      assert |effects| == 1 && !effects[0].SendMessage?;
    } else {
      assert effects[|effects| - 1] == SendMessage(chat, Strings.InnerErrorMsg, Keyboard.NoMarkup);
    }
  }

  /** The outcome of the generator call: the response's image list, or an exception. */
  datatype GenOutcome = Generated(images: seq<Image>) | GenerationFailed

  /**
   * The calls `process_prompt_input` makes after the wait message `wait` was sent: the generator
   * gets the prompt and the stored size, model and quantity; on a response, the images are
   * delivered and the wait message deleted. When the generator raises, the exception leaves the
   * handler and nothing further happens.
   */
  function GenerationEffects(chat: int, wait: MessageRef, prompt: string, s: Models.Settings,
                             outcome: GenOutcome, deliveryFails: bool): seq<Effect> {
    [GenerateImages(prompt, s.size, s.model, s.quantity)]
    + match outcome
      case GenerationFailed => []
      case Generated(images) => DeliveryEffects(chat, images, deliveryFails) + [DeleteMessage(wait)]
  }

  /**
   * The generator is called first, once, with the prompt verbatim; on a response the wait message
   * is deleted last, after the delivery and any error reply.
   */
  lemma GenerationOrder(chat: int, wait: MessageRef, prompt: string, s: Models.Settings,
                        outcome: GenOutcome, deliveryFails: bool)
    ensures var effects := GenerationEffects(chat, wait, prompt, s, outcome, deliveryFails);
      && effects[0] == GenerateImages(prompt, s.size, s.model, s.quantity)
      && (forall k :: 0 < k < |effects| ==> !effects[k].GenerateImages?)
      && (outcome.Generated? ==>
            && effects[|effects| - 1] == DeleteMessage(wait)
            && effects[1..|effects| - 1] == DeliveryEffects(chat, outcome.images, deliveryFails))
      && (outcome.GenerationFailed? ==> |effects| == 1)
  {
    var effects := GenerationEffects(chat, wait, prompt, s, outcome, deliveryFails);
    if outcome.Generated? {
      var d := DeliveryEffects(chat, outcome.images, deliveryFails);
      DeliveryOutcome(chat, outcome.images, deliveryFails);
      assert effects == [effects[0]] + d + [DeleteMessage(wait)];
      forall k | 0 < k < |effects| ensures !effects[k].GenerateImages? {
        if k < |effects| - 1 {
          assert effects[k] == d[k - 1];
        }
      }
    }
  }
}

/**
 * The bot's handlers over its in-memory state: the user store (users with their settings,
 * keyed by chat id), the per-chat FSM state, and the outbox of calls made on the chat and
 * the generator. Each handler is a method; the dispatchers at the end pick the handler an
 * update reaches.
 */
module Handlers {
  import opened Wrappers
  import opened Text
  import Models
  import Strings
  import Keyboard
  import opened Outbox
  import Dialog
  import Routing

  /** `PromptState.get_prompt`, the only FSM state; a chat with no entry has no state. */
  datatype PromptState = GetPrompt

  /** The field a `choose_*` press writes with `setattr(user.settings, key, value)`. */
  datatype SettingsField = ModelField(model: string) | SizeField(size: string) | QuantityField(quantity: int)

  /** The settings with one field replaced; every other field is kept. */
  function SetField(s: Models.Settings, f: SettingsField): (r: Models.Settings)
    ensures r.userId == s.userId
    ensures r.model == (if f.ModelField? then f.model else s.model)
    ensures r.size == (if f.SizeField? then f.size else s.size)
    ensures r.quantity == (if f.QuantityField? then f.quantity else s.quantity)
  {
    match f
    case ModelField(m) => s.(model := m)
    case SizeField(z) => s.(size := z)
    case QuantityField(q) => s.(quantity := q)
  }

  /** What the store keeps for every user: ids agree and the quantity is one the menu can show. */
  predicate UserWellFormed(id: int, u: Models.User) {
    u.userId == id && u.settings.userId == id && 1 <= u.settings.quantity <= 6
  }

  /** `/start` on the store: a user created by `UserModel.create` is added when the id is unseen. */
  function Register(users: map<int, Models.User>, id: int, name: string): (r: map<int, Models.User>)
    ensures r.Keys == users.Keys + {id}
    ensures forall k :: k in users ==> r[k] == users[k]
    ensures id !in users ==> r[id] == Models.CreateUser(id, name)
  {
    if id in users then users else users[id := Models.CreateUser(id, name)]
  }

  /** A second `/start` leaves the store as the first one left it, whatever name it carries. */
  lemma RegisterIdempotent(users: map<int, Models.User>, id: int, name: string, name2: string)
    ensures Register(Register(users, id, name), id, name2) == Register(users, id, name)
  {
  }

  /** `/start` keeps every stored user well formed. */
  lemma RegisterKeepsWellFormed(users: map<int, Models.User>, id: int, name: string)
    requires forall k :: k in users ==> UserWellFormed(k, users[k])
    ensures var r := Register(users, id, name); forall k :: k in r ==> UserWellFormed(k, r[k])
  {
  }

  /** `db.settings.update`: writes the model, size and quantity into the row of `s.userId`, if there is one. */
  function StoreUpdate(users: map<int, Models.User>, s: Models.Settings): (r: map<int, Models.User>)
    ensures r.Keys == users.Keys
    ensures forall k :: k in users && k != s.userId ==> r[k] == users[k]
    ensures s.userId in users ==>
      var u, v := users[s.userId], r[s.userId];
      && v.userId == u.userId && v.name == u.name && v.settings.userId == u.settings.userId
      && v.settings.model == s.model && v.settings.size == s.size && v.settings.quantity == s.quantity
  {
    if s.userId in users then
      var u := users[s.userId];
      users[s.userId := u.(settings := u.settings.(model := s.model, size := s.size, quantity := s.quantity))]
    else users
  }

  /** Reading the settings back after an update gives exactly what was written. */
  lemma UpdateThenRead(users: map<int, Models.User>, s: Models.Settings)
    requires s.userId in users && users[s.userId].settings.userId == s.userId
    ensures StoreUpdate(users, s)[s.userId].settings == s
  {
  }

  /** Python truthiness of the message text: present and non-empty. Whitespace-only text counts. */
  predicate IsPrompt(text: Option<string>) {
    text.Some? && text.value != ""
  }

  /** The screen `back_to <route>` re-renders: the model or size screen, or an empty text and no keyboard. */
  function BackToScreen(route: Option<Keyboard.BackRoute>, user: Option<Models.User>): (screen: (string, Keyboard.Markup))
    requires route.Some? ==> user.Some?
    ensures route.None? ==> screen == ("", Keyboard.NoMarkup)
    ensures route == Some(Keyboard.BackRoute.ToModels) ==> screen == (Strings.ChooseModelMsg, Keyboard.Inline(Keyboard.ModelRows(user.value.settings)))
    ensures route == Some(Keyboard.BackRoute.ToSizes) ==>
      screen == (Strings.ChooseSizeMsg, Keyboard.Inline(Keyboard.SizeRows(user.value.settings, user.value.settings.model)))
  {
    if route.None? then ("", Keyboard.NoMarkup)
    else if route.value.ToModels? then
      (Strings.ChooseModelMsg, Keyboard.Inline(Keyboard.ModelRows(user.value.settings)))
    else
      (Strings.ChooseSizeMsg, Keyboard.Inline(Keyboard.SizeRows(user.value.settings, user.value.settings.model)))
  }

  /** The field a choice button's data writes, read from the data's second word. */
  function ChosenField(data: string): SettingsField
    requires |Split(data)| >= 2
    requires Routing.RouteCallback(data) == Routing.ChooseQuantityButton ==> Keyboard.QuantityOf(Split(data)[1]).Some?
  {
    var h := Routing.RouteCallback(data);
    if h == Routing.ChooseQuantityButton then QuantityField(Keyboard.QuantityOf(Split(data)[1]).value)
    else if h == Routing.ChooseSizeButton then SizeField(Split(data)[1])
    else ModelField(Split(data)[1])
  }

  /** A model or size button writes the value it was rendered for, as shown on the button. */
  lemma ChoiceWritesItsValue(prefix: string, value: string, current: string)
    requires prefix == "choose_model" || prefix == "choose_size"
    requires value != [] && NoSpace(value)
    ensures var data := Keyboard.ChoiceButton(value, current, prefix).callbackData;
      && Split(data) == [prefix, value]
      && Routing.RouteCallback(data) == Routing.ChoiceHandler(prefix)
      && ChosenField(data) == (if prefix == "choose_model" then ModelField(value) else SizeField(value))
  {
    Routing.ChoiceButtonRoutes(prefix, value, current);
  }

  /** A quantity keycap writes the number it stands for. */
  lemma QuantityChoiceWritesItsNumber(q: int, current: string)
    requires 1 <= q <= 6
    ensures var data := Keyboard.ChoiceButton(Keyboard.Keycap(q), current, "choose_quantity").callbackData;
      && Split(data) == ["choose_quantity", Keyboard.Keycap(q)]
      && Routing.RouteCallback(data) == Routing.ChooseQuantityButton
      && ChosenField(data) == QuantityField(q)
  {
    Keyboard.QuantityRoundTrip(q);
    assert Keyboard.Keycap(q) == Keyboard.QuantityItems[q - 1];
    Routing.ChoiceButtonRoutes("choose_quantity", Keyboard.Keycap(q), current);
  }

  /**
   * The presses whose handler does not raise: the choice handlers need a stored user and
   * parseable data; `back_to` needs a second word, and a stored user when it names a route.
   */
  predicate CallbackSafe(users: map<int, Models.User>, chat: int, data: string) {
    && Routing.CallbackWellFormed(data)
    && match Routing.RouteCallback(data)
       case ChooseModelButton | ChooseSizeButton | ChooseQuantityButton => chat in users
       case BackToButton => Keyboard.ParseRoute(Split(data)[1]).Some? ==> chat in users
       case _ => true
  }

  /** Every button of every wizard screen shown to a stored user can be pressed without a crash. */
  lemma RenderedButtonsAreSafe(users: map<int, Models.User>, chat: int, model: string)
    requires chat in users && 1 <= users[chat].settings.quantity <= 6
    ensures var s := users[chat].settings;
      forall rows: seq<Keyboard.Row> :: rows in [Keyboard.ModelRows(s), Keyboard.SizeRows(s, model), Keyboard.QuantityRows(s)] ==>
        forall i, j :: 0 <= i < |rows| && 0 <= j < |rows[i]| ==> CallbackSafe(users, chat, rows[i][j].callbackData)
  {
    var s := users[chat].settings;
    Routing.RenderedButtonsRoute(s, model);
  }

  /**
   * The calls a text message causes, by the handler it reaches: `waitIndex` is the outbox
   * position the wait message of a prompt will take.
   */
  function MessageEffects(users: map<int, Models.User>, chat: int, text: Option<string>, awaiting: bool,
                          outcome: Dialog.GenOutcome, deliveryFails: bool, waitIndex: nat): seq<Effect>
    requires Routing.RouteMessage(text, awaiting) == Routing.PromptInput && IsPrompt(text) ==> chat in users
  {
    var innerError := [SendMessage(chat, Strings.InnerErrorMsg, Keyboard.NoMarkup)];
    match Routing.RouteMessage(text, awaiting)
    case StartCommand => [SendMessage(chat, Strings.StartMsg, Keyboard.NoMarkup)]
    case HelpCommand => [SendMessage(chat, Strings.HelpMsg, Keyboard.NoMarkup)]
    case DeclineMessage => [SendMessage(chat, Dialog.CancelledMsg, Keyboard.RemoveReply)]
    case GenerateCommand =>
      if chat in users then [SendMessage(chat, Dialog.StatusMsg(users[chat].settings), Dialog.GenerateOptionsKeyboard)]
      else innerError
    case PromptInput =>
      if IsPrompt(text) then
        [SendMessage(chat, Strings.GeneratingMsg, Keyboard.RemoveReply)]
        + Dialog.GenerationEffects(chat, Sent(waitIndex), text.value, users[chat].settings, outcome, deliveryFails)
      else [SendMessage(chat, Strings.SendPromptErrorMsg, Keyboard.NoMarkup)]
    case SettingsCommand =>
      if chat in users then [SendMessage(chat, Strings.ChooseModelMsg, Keyboard.Inline(Keyboard.ModelRows(users[chat].settings)))]
      else innerError
    case NoMessageHandler => []
  }

  /** Every handled message gets a reply in the same chat first; an unhandled one causes nothing. */
  lemma MessageAlwaysReplies(users: map<int, Models.User>, chat: int, text: Option<string>, awaiting: bool,
                             outcome: Dialog.GenOutcome, deliveryFails: bool, waitIndex: nat)
    requires Routing.RouteMessage(text, awaiting) == Routing.PromptInput && IsPrompt(text) ==> chat in users
    ensures var effects := MessageEffects(users, chat, text, awaiting, outcome, deliveryFails, waitIndex);
      && (Routing.RouteMessage(text, awaiting) == Routing.NoMessageHandler <==> effects == [])
      && (effects != [] ==> effects[0].SendMessage? && effects[0].chat == chat)
  {
  }

  /**
   * The calls a button press causes, by the handler it reaches. The choice handlers render the
   * next screen from the settings as updated by the press.
   */
  function CallbackEffects(users: map<int, Models.User>, chat: int, anchor: MessageRef, anchorText: string,
                           data: string): seq<Effect>
    requires CallbackSafe(users, chat, data)
    requires chat in users ==> 1 <= users[chat].settings.quantity <= 6
  {
    var answer := AnswerCallback(chat, None);
    match Routing.RouteCallback(data)
    case AcceptButton =>
      [SendMessage(chat, Strings.SendPromptMsg, Dialog.DeclineKeyboard), EditMessage(anchor, anchorText, Keyboard.NoMarkup), answer]
    case CloseButton => [DeleteMessage(anchor), answer]
    case BackToButton =>
      var user := if chat in users then Some(users[chat]) else None;
      var (text, markup) := BackToScreen(Keyboard.ParseRoute(Split(data)[1]), user);
      (if chat in users then [] else [AnswerCallback(chat, Some(Strings.InnerErrorMsg))])
      + [EditMessage(anchor, text, markup), answer]
    case ChooseModelButton =>
      var s := SetField(users[chat].settings, ChosenField(data));
      [EditMessage(anchor, Strings.ChooseSizeMsg, Keyboard.Inline(Keyboard.SizeRows(s, s.model))), answer]
    case ChooseSizeButton =>
      var s := SetField(users[chat].settings, ChosenField(data));
      [EditMessage(anchor, Strings.ChooseQuantityMsg, Keyboard.Inline(Keyboard.QuantityRows(s))), answer]
    case ChooseQuantityButton =>
      var s := SetField(users[chat].settings, ChosenField(data));
      [EditMessage(anchor, Strings.ChooseModelMsg, Keyboard.Inline(Keyboard.ModelRows(s))), answer]
    case NoCallbackHandler => []
  }

  /**
   * Every handled press is answered, and the plain answer is its last call; an unhandled one
   * causes nothing. Only a press from an unknown chat on `back_to` draws the alert.
   */
  lemma CallbackAlwaysAnswered(users: map<int, Models.User>, chat: int, anchor: MessageRef, anchorText: string,
                               data: string)
    requires CallbackSafe(users, chat, data)
    requires chat in users ==> 1 <= users[chat].settings.quantity <= 6
    ensures var effects := CallbackEffects(users, chat, anchor, anchorText, data);
      && (Routing.RouteCallback(data) == Routing.NoCallbackHandler <==> effects == [])
      && (effects != [] ==> effects[|effects| - 1] == AnswerCallback(chat, None))
      && ((exists k :: 0 <= k < |effects| && effects[k] == AnswerCallback(chat, Some(Strings.InnerErrorMsg)))
          <==> Routing.RouteCallback(data) == Routing.BackToButton && chat !in users)
  {
    var effects := CallbackEffects(users, chat, anchor, anchorText, data);
    if Routing.RouteCallback(data) == Routing.BackToButton && chat !in users {
      assert effects[0] == AnswerCallback(chat, Some(Strings.InnerErrorMsg));
    }
  }

  class Bot {
    var users: map<int, Models.User>
    /** The dialog state, keyed like aiogram's default strategy: by chat and sender. */
    var fsm: map<(int, int), PromptState>
    var outbox: seq<Effect>

    ghost predicate Valid()
      reads this
    {
      forall id :: id in users ==> UserWellFormed(id, users[id])
    }

    constructor ()
      ensures Valid()
      ensures users == map[] && fsm == map[] && outbox == []
    {
      users, fsm, outbox := map[], map[], [];
    }

    /** `handle_start_command`. */
    method HandleStart(chat: int, fullName: string)
      requires Valid()
      modifies this`users, this`outbox
      ensures Valid()
      ensures users == Register(old(users), chat, fullName)
      ensures outbox == old(outbox) + [SendMessage(chat, Strings.StartMsg, Keyboard.NoMarkup)]
    {
      if chat !in users {
        users := users[chat := Models.CreateUser(chat, fullName)];
      }
      outbox := outbox + [SendMessage(chat, Strings.StartMsg, Keyboard.NoMarkup)];
    }

    /** `handle_help_command`: touches neither the store nor the state. */
    method HandleHelp(chat: int)
      modifies this`outbox
      ensures outbox == old(outbox) + [SendMessage(chat, Strings.HelpMsg, Keyboard.NoMarkup)]
    {
      outbox := outbox + [SendMessage(chat, Strings.HelpMsg, Keyboard.NoMarkup)];
    }

    /** `handle_decline_message`: clears the state, whatever it was. */
    method HandleDecline(chat: int, sender: int)
      modifies this`fsm, this`outbox
      ensures fsm == old(fsm) - {(chat, sender)}
      ensures outbox == old(outbox) + [SendMessage(chat, Dialog.CancelledMsg, Keyboard.RemoveReply)]
    {
      fsm := fsm - {(chat, sender)};
      outbox := outbox + [SendMessage(chat, Dialog.CancelledMsg, Keyboard.RemoveReply)];
    }

    /** `handle_generate_command`: the status of a stored user with the continue button; sets no state. */
    method HandleGenerate(chat: int)
      modifies this`outbox
      ensures chat !in users ==> outbox == old(outbox) + [SendMessage(chat, Strings.InnerErrorMsg, Keyboard.NoMarkup)]
      ensures chat in users ==>
        outbox == old(outbox) + [SendMessage(chat, Dialog.StatusMsg(users[chat].settings), Dialog.GenerateOptionsKeyboard)]
    {
      if chat !in users {
        outbox := outbox + [SendMessage(chat, Strings.InnerErrorMsg, Keyboard.NoMarkup)];
        return;
      }
      outbox := outbox + [SendMessage(chat, Dialog.StatusMsg(users[chat].settings), Dialog.GenerateOptionsKeyboard)];
    }

    /**
     * `handle_accept_button_callback`: asks for the prompt with the decline keyboard, enters
     * `get_prompt`, and strips the inline keyboard from the status message.
     */
    method HandleAccept(chat: int, sender: int, anchor: MessageRef, anchorText: string)
      modifies this`fsm, this`outbox
      ensures fsm == old(fsm)[(chat, sender) := GetPrompt]
      ensures outbox == old(outbox) + [SendMessage(chat, Strings.SendPromptMsg, Dialog.DeclineKeyboard),
                                       EditMessage(anchor, anchorText, Keyboard.NoMarkup),
                                       AnswerCallback(chat, None)]
    {
      outbox := outbox + [SendMessage(chat, Strings.SendPromptMsg, Dialog.DeclineKeyboard)];
      fsm := fsm[(chat, sender) := GetPrompt];
      outbox := outbox + [EditMessage(anchor, anchorText, Keyboard.NoMarkup), AnswerCallback(chat, None)];
    }

    /**
     * `handle_get_prompt_state`: a non-empty text clears the state before anything else, then the
     * wait message is sent and the generation runs; anything else re-prompts and keeps the state.
     */
    method HandleGetPrompt(chat: int, sender: int, text: Option<string>, outcome: Dialog.GenOutcome, deliveryFails: bool)
      requires IsPrompt(text) ==> chat in users
      modifies this`fsm, this`outbox
      ensures IsPrompt(text) ==>
        && fsm == old(fsm) - {(chat, sender)}
        && outbox == old(outbox) + [SendMessage(chat, Strings.GeneratingMsg, Keyboard.RemoveReply)]
                     + Dialog.GenerationEffects(chat, Sent(|old(outbox)|), text.value, users[chat].settings, outcome, deliveryFails)
      ensures !IsPrompt(text) ==>
        fsm == old(fsm) && outbox == old(outbox) + [SendMessage(chat, Strings.SendPromptErrorMsg, Keyboard.NoMarkup)]
    {
      if IsPrompt(text) {
        fsm := fsm - {(chat, sender)};
        var wait := Sent(|outbox|);
        outbox := outbox + [SendMessage(chat, Strings.GeneratingMsg, Keyboard.RemoveReply)];
        ProcessPromptInput(chat, wait, text.value, outcome, deliveryFails);
      } else {
        outbox := outbox + [SendMessage(chat, Strings.SendPromptErrorMsg, Keyboard.NoMarkup)];
      }
    }

    /**
     * `process_prompt_input`: calls the generator with the prompt and the stored settings, delivers
     * the response and deletes the wait message. A generator exception ends the handler.
     */
    method ProcessPromptInput(chat: int, wait: MessageRef, prompt: string, outcome: Dialog.GenOutcome, deliveryFails: bool)
      requires chat in users
      modifies this`outbox
      ensures outbox == old(outbox) + Dialog.GenerationEffects(chat, wait, prompt, users[chat].settings, outcome, deliveryFails)
    {
      var s := users[chat].settings;
      outbox := outbox + [GenerateImages(prompt, s.size, s.model, s.quantity)];
      match outcome {
        case GenerationFailed =>
          return;
        case Generated(images) =>
          SendGeneratedImages(chat, images, deliveryFails);
          outbox := outbox + [DeleteMessage(wait)];
      }
    }

    /**
     * `send_generated_images`: a group for more than one image, a single photo otherwise; an empty
     * list or a failed delivery call is reported with the inner-error reply and goes no further.
     */
    method SendGeneratedImages(chat: int, images: seq<Dialog.Image>, deliveryFails: bool)
      modifies this`outbox
      ensures outbox == old(outbox) + Dialog.DeliveryEffects(chat, images, deliveryFails)
    {
      var error := SendMessage(chat, Strings.InnerErrorMsg, Keyboard.NoMarkup);
      if |images| > 1 {
        outbox := outbox + [SendMediaGroup(chat, Dialog.Urls(images))];
        if deliveryFails {
          outbox := outbox + [error];
        }
      } else if |images| == 1 {
        outbox := outbox + [SendPhoto(chat, Dialog.UrlOf(images[0]))];
        if deliveryFails {
          outbox := outbox + [error];
        }
      } else {
        outbox := outbox + [error];
      }
    }

    /** `handle_settings_command`: the model screen for a stored user; no state is set. */
    method HandleSettings(chat: int)
      modifies this`outbox
      ensures chat !in users ==> outbox == old(outbox) + [SendMessage(chat, Strings.InnerErrorMsg, Keyboard.NoMarkup)]
      ensures chat in users ==>
        outbox == old(outbox) + [SendMessage(chat, Strings.ChooseModelMsg, Keyboard.Inline(Keyboard.ModelRows(users[chat].settings)))]
    {
      if chat !in users {
        outbox := outbox + [SendMessage(chat, Strings.InnerErrorMsg, Keyboard.NoMarkup)];
        return;
      }
      var keyboard := Keyboard.GetChooseModelKeyboard(users[chat]);
      outbox := outbox + [SendMessage(chat, Strings.ChooseModelMsg, keyboard)];
    }

    /** `handle_close_button_callback`: deletes the menu message, in any state. */
    method HandleClose(chat: int, anchor: MessageRef)
      modifies this`outbox
      ensures outbox == old(outbox) + [DeleteMessage(anchor), AnswerCallback(chat, None)]
    {
      outbox := outbox + [DeleteMessage(anchor), AnswerCallback(chat, None)];
    }

    /**
     * `handle_back_to_button_callback`: re-renders the named screen in place from the stored
     * settings and writes nothing. A missing user is reported by an alert first.
     */
    method HandleBackTo(chat: int, anchor: MessageRef, data: string)
      requires |Split(data)| >= 2
      requires Keyboard.ParseRoute(Split(data)[1]).Some? ==> chat in users
      modifies this`outbox
      ensures var user := if chat in users then Some(users[chat]) else None;
        var (text, markup) := BackToScreen(Keyboard.ParseRoute(Split(data)[1]), user);
        outbox == old(outbox) + (if chat in users then [] else [AnswerCallback(chat, Some(Strings.InnerErrorMsg))])
                  + [EditMessage(anchor, text, markup), AnswerCallback(chat, None)]
    {
      var route := Split(data)[1];
      if chat !in users {
        outbox := outbox + [AnswerCallback(chat, Some(Strings.InnerErrorMsg))];
      }
      var text, keyboard := "", Keyboard.NoMarkup;
      if route == Keyboard.BackRoute.ToModels.Value() {
        text := Strings.ChooseModelMsg;
        keyboard := Keyboard.GetChooseModelKeyboard(users[chat]);
      } else if route == Keyboard.BackRoute.ToSizes.Value() {
        text := Strings.ChooseSizeMsg;
        keyboard := Keyboard.GetChooseSizeKeyboard(users[chat], users[chat].settings.model);
      }
      outbox := outbox + [EditMessage(anchor, text, keyboard), AnswerCallback(chat, None)];
    }

    /** `_update_user_settings`: sets one field of the user's settings and stores the three columns. */
    method UpdateUserSettings(chat: int, field: SettingsField) returns (user: Models.User)
      requires Valid() && chat in users
      requires field.QuantityField? ==> 1 <= field.quantity <= 6
      modifies this`users
      ensures Valid()
      ensures users == old(users)[chat := old(users)[chat].(settings := SetField(old(users)[chat].settings, field))]
      ensures user == users[chat]
    {
      user := users[chat];
      user := user.(settings := SetField(user.settings, field));
      users := StoreUpdate(users, user.settings);
      assert users == old(users)[chat := user];
    }

    /** The model press: stores the model, keeps the size, shows the size screen for the new model. */
    method HandleChooseModel(chat: int, anchor: MessageRef, data: string)
      requires Valid() && chat in users && |Split(data)| >= 2
      modifies this`users, this`outbox
      ensures Valid()
      ensures users == old(users)[chat := old(users)[chat].(settings := old(users)[chat].settings.(model := Split(data)[1]))]
      ensures outbox == old(outbox) + [EditMessage(anchor, Strings.ChooseSizeMsg,
                                                   Keyboard.Inline(Keyboard.SizeRows(users[chat].settings, Split(data)[1]))),
                                       AnswerCallback(chat, None)]
    {
      var model := Split(data)[1];
      var user := UpdateUserSettings(chat, ModelField(model));
      var keyboard := Keyboard.GetChooseSizeKeyboard(user, user.settings.model);
      outbox := outbox + [EditMessage(anchor, Strings.ChooseSizeMsg, keyboard), AnswerCallback(chat, None)];
    }

    /** The size press: stores the size as sent, without checking it against the model; shows the quantity screen. */
    method HandleChooseSize(chat: int, anchor: MessageRef, data: string)
      requires Valid() && chat in users && |Split(data)| >= 2
      modifies this`users, this`outbox
      ensures Valid()
      ensures users == old(users)[chat := old(users)[chat].(settings := old(users)[chat].settings.(size := Split(data)[1]))]
      ensures outbox == old(outbox) + [EditMessage(anchor, Strings.ChooseQuantityMsg,
                                                   Keyboard.Inline(Keyboard.QuantityRows(users[chat].settings))),
                                       AnswerCallback(chat, None)]
    {
      var size := Split(data)[1];
      var user := UpdateUserSettings(chat, SizeField(size));
      var keyboard := Keyboard.GetChooseQuantityKeyboard(user);
      outbox := outbox + [EditMessage(anchor, Strings.ChooseQuantityMsg, keyboard), AnswerCallback(chat, None)];
    }

    /** The quantity press: stores the quantity the keycap stands for; shows the model screen again. */
    method HandleChooseQuantity(chat: int, anchor: MessageRef, data: string)
      requires Valid() && chat in users && |Split(data)| >= 2
      requires Keyboard.QuantityOf(Split(data)[1]).Some?
      modifies this`users, this`outbox
      ensures Valid()
      ensures users == old(users)[chat := old(users)[chat].(settings :=
                         old(users)[chat].settings.(quantity := Keyboard.QuantityOf(Split(data)[1]).value))]
      ensures outbox == old(outbox) + [EditMessage(anchor, Strings.ChooseModelMsg,
                                                   Keyboard.Inline(Keyboard.ModelRows(users[chat].settings))),
                                       AnswerCallback(chat, None)]
    {
      var quantity := Keyboard.QuantityOf(Split(data)[1]).value;
      var user := UpdateUserSettings(chat, QuantityField(quantity));
      var keyboard := Keyboard.GetChooseModelKeyboard(user);
      outbox := outbox + [EditMessage(anchor, Strings.ChooseModelMsg, keyboard), AnswerCallback(chat, None)];
    }

    /**
     * A text message: the handler it reaches runs and makes the calls `MessageEffects` lists.
     * Only `/start` writes the store; only the decline text and a prompt leave `get_prompt`.
     */
    method OnMessage(chat: int, sender: int, fullName: string, text: Option<string>, outcome: Dialog.GenOutcome, deliveryFails: bool)
      requires Valid()
      requires Routing.RouteMessage(text, (chat, sender) in fsm) == Routing.PromptInput && IsPrompt(text) ==> chat in users
      modifies this
      ensures Valid()
      ensures var h := Routing.RouteMessage(text, (chat, sender) in old(fsm));
        && users == (if h == Routing.StartCommand then Register(old(users), chat, fullName) else old(users))
        && fsm == (if h == Routing.DeclineMessage || (h == Routing.PromptInput && IsPrompt(text)) then old(fsm) - {(chat, sender)} else old(fsm))
        && outbox == old(outbox) + MessageEffects(old(users), chat, text, (chat, sender) in old(fsm), outcome, deliveryFails, |old(outbox)|)
    {
      match Routing.RouteMessage(text, (chat, sender) in fsm) {
        case StartCommand => HandleStart(chat, fullName);
        case HelpCommand => HandleHelp(chat);
        case DeclineMessage => HandleDecline(chat, sender);
        case GenerateCommand => HandleGenerate(chat);
        case PromptInput => HandleGetPrompt(chat, sender, text, outcome, deliveryFails);
        case SettingsCommand => HandleSettings(chat);
        case NoMessageHandler =>
      }
    }

    /** A press on the close or a back button: the menu message is deleted or re-rendered; nothing is written. */
    method OnNavigationCallback(chat: int, anchor: MessageRef, anchorText: string, data: string)
      requires Valid()
      requires CallbackSafe(users, chat, data)
      requires Routing.RouteCallback(data) in {Routing.CloseButton, Routing.BackToButton}
      modifies this`outbox
      ensures outbox == old(outbox) + CallbackEffects(users, chat, anchor, anchorText, data)
    {
      if Routing.RouteCallback(data) == Routing.CloseButton {
        HandleClose(chat, anchor);
      } else {
        HandleBackTo(chat, anchor, data);
      }
    }

    /** A press on one of the three choice buttons: its handler writes the chosen field and renders the next screen. */
    method OnChoiceCallback(chat: int, anchor: MessageRef, anchorText: string, data: string)
      requires Valid()
      requires CallbackSafe(users, chat, data)
      requires Routing.RouteCallback(data) in {Routing.ChooseModelButton, Routing.ChooseSizeButton, Routing.ChooseQuantityButton}
      modifies this`users, this`outbox
      ensures Valid()
      ensures users == old(users)[chat := old(users)[chat].(settings := SetField(old(users)[chat].settings, ChosenField(data)))]
      ensures outbox == old(outbox) + CallbackEffects(old(users), chat, anchor, anchorText, data)
    {
      match Routing.RouteCallback(data) {
        case ChooseQuantityButton => HandleChooseQuantity(chat, anchor, data);
        case ChooseSizeButton => HandleChooseSize(chat, anchor, data);
        case ChooseModelButton => HandleChooseModel(chat, anchor, data);
      }
    }

    /**
     * A button press: the handler it reaches runs and makes the calls `CallbackEffects` lists.
     * Only `generate_accept_btn` changes the state; only the three choice buttons write the store,
     * each its own field.
     */
    method OnCallback(chat: int, sender: int, anchor: MessageRef, anchorText: string, data: string)
      requires Valid()
      requires CallbackSafe(users, chat, data)
      modifies this
      ensures Valid()
      ensures var h := Routing.RouteCallback(data);
        && fsm == (if h == Routing.AcceptButton then old(fsm)[(chat, sender) := GetPrompt] else old(fsm))
        && (h in {Routing.ChooseModelButton, Routing.ChooseSizeButton, Routing.ChooseQuantityButton} ==>
              users == old(users)[chat := old(users)[chat].(settings := SetField(old(users)[chat].settings, ChosenField(data)))])
        && (h !in {Routing.ChooseModelButton, Routing.ChooseSizeButton, Routing.ChooseQuantityButton} ==> users == old(users))
        && outbox == old(outbox) + CallbackEffects(old(users), chat, anchor, anchorText, data)
    {
      match Routing.RouteCallback(data) {
        case AcceptButton => HandleAccept(chat, sender, anchor, anchorText);
        case CloseButton => OnNavigationCallback(chat, anchor, anchorText, data);
        case BackToButton => OnNavigationCallback(chat, anchor, anchorText, data);
        case ChooseQuantityButton => OnChoiceCallback(chat, anchor, anchorText, data);
        case ChooseSizeButton => OnChoiceCallback(chat, anchor, anchorText, data);
        case ChooseModelButton => OnChoiceCallback(chat, anchor, anchorText, data);
        case NoCallbackHandler =>
      }
    }
  }
}

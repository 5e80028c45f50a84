# DALL-E Telegram bot: dialog logic and menu rendering

This project models, in Dafny, the part of the DALL-E Telegram bot that talks to a user:

- registration by `/start` and the `/help` reply;
- the `/settings` wizard, a cycle of three inline-keyboard screens (model → size → quantity → model)
  with back and close buttons, whose presses write one settings field each;
- the `/generate` flow: a status message with a continue button, the `get_prompt` state that
  collects the prompt, the call to the image generator and the delivery of its images;
- the `UserModel` / `SettingsModel` records and their `create` factories with their defaults.

The bot's state is the `Handlers.Bot` class:

- `users` is the user store, a map from chat id to the user and its settings;
- `fsm` is the dialog state (absent, or `GetPrompt`). It is keyed by the pair (chat id, sender id), as aiogram's
  default `USER_IN_CHAT` strategy keys it, since the dispatcher is built without a strategy (bot.py:11).
  Message and press dispatchers take the sender as a parameter; the store is keyed by chat id, as the handlers read it;
- `outbox` is the log of every call the handlers make on the chat and on the generator, in order.

Each handler is a method. Its contract states the new store, the new state and the calls it
appended. The dispatchers `OnMessage` and `OnCallback` pick the handler an update reaches, in the
order the routers are consulted (basic, then dalle, then settings). `OnCallback` hands the settings
menu's navigation and choice presses to `OnNavigationCallback` and `OnChoiceCallback`. `Routing` states that order as
functions. `Keyboard` builds the button lists with a loop (`CreateButtonList`) proved against a
row-layout function (`Chunk`). `Dialog` holds the status text and the delivery plan.

Modules, one per file:

- `Wrappers`: an option type.
- `Text`: Python's `str.split()`, `startswith` and `str(int)`.
- `Gpt`: the `Model` and `Size` enums.
- `Models`: the records.
- `Strings`: the message texts.
- `Keyboard`: the keyboard renderer of `handlers/private/settings.py`.
- `Outbox`: the logged calls.
- `Dialog`: the pure parts of `handlers/private/dalle.py`.
- `Routing`: the dispatch.
- `Handlers`: the store, the state and the handlers.

## Model

| member | source | states |
|---|---|---|
| Wrappers.Option.GetOr | handlers/private/dalle.py:176 | `dict.get(key, default)`: the value when present, the default otherwise |
| Text.Word | handlers/private/settings.py:137 | the first word is a whitespace-free prefix followed by whitespace or the end |
| Text.Split | handlers/private/settings.py:137 | `str.split()` yields only non-empty, whitespace-free fields |
| Text.SplitJoin | handlers/private/settings.py:109 | splitting words joined by one space gives the words back |
| Text.SplitPair | handlers/private/settings.py:137-138 | `"<prefix> <value>".split()` is exactly `[prefix, value]` for whitespace-free parts |
| Text.Digits | handlers/private/dalle.py:91 | the decimal rendering of a number is non-empty and all digits |
| Text.DigitsValue | handlers/private/dalle.py:91 | reading the rendered digits back gives the number |
| Gpt.Model.Value | gpt.py:24-26 | each model's value is a non-empty word (`dall-e-2`, `dall-e-3`) |
| Gpt.Size.Value | gpt.py:16-21 | each size's value is a non-empty word; the DALL-E 3 portrait and landscape sizes use U+00D7 |
| Gpt.ValuesInjective | gpt.py:16-26 | distinct enum members have distinct values |
| Models.CreateSettings | database/models.py:77-96 | explicit arguments are stored unchanged for the given user id |
| Models.CreateUser | database/models.py:33-52 | the user keeps the given id and name; its settings carry the same id and the defaults `dall-e-2`, `256x256`, 1 |
| Models.CreateDefaultsMatchColumns | database/models.py:70-72 | the defaults of `create` equal the column defaults |
| Keyboard.ChoiceButton | handlers/private/settings.py:103-109 | definition: the label is the value, with ` ✔️` appended when it equals the current setting; the data is `"<prefix> <value>"` |
| Keyboard.ChoiceButtons | handlers/private/settings.py:99-109 | one button per item, in item order, each with the item's label and `"<prefix> <value>"` data |
| Keyboard.Chunk | handlers/private/settings.py:97-111 | rows hold at most the width, all rows but the last are full, the last row is always there and is the only row of an empty list |
| Keyboard.FlattenChunk | handlers/private/settings.py:97-111 | reading the rows one after the other gives back the button list |
| Keyboard.CreateButtonList | handlers/private/settings.py:83-111 | the loop's rows are exactly the row layout of the choice buttons |
| Keyboard.MarkingReflectsCurrent | handlers/private/settings.py:104-107 | a label carries ` ✔️` if and only if its value is the current setting; otherwise it is the bare value |
| Keyboard.AtMostOneMarked | handlers/private/settings.py:104-107 | with distinct items at most one button is marked, and one is marked exactly when the current value is among the items |
| Keyboard.ChoiceCallbacksSplit | handlers/private/settings.py:109 | every choice button's data splits into the prefix and the item's value |
| Keyboard.BackRoute.Value | handlers/private/settings.py:38-47 | the route values `models` and `sizes` are whitespace-free words |
| Keyboard.ParseRoute | handlers/private/settings.py:143-149 | a route is recognised exactly when the text is its value |
| Keyboard.RouteRoundTrip | handlers/private/settings.py:124 | the route written into a back button's data is recognised again |
| Keyboard.GetBackCloseButtons | handlers/private/settings.py:114-125 | the close row is always last; a back row to the given route comes first exactly when shown |
| Keyboard.SizeChoices | handlers/private/settings.py:205-207 | the DALL-E 3 sizes for `dall-e-3`, the DALL-E 2 sizes for any other model value |
| Keyboard.SizeValues | handlers/private/settings.py:209-210 | the values of the given sizes, in order |
| Keyboard.Keycap | handlers/private/settings.py:163-167 | the `nums` emoji for 1..6 is a three-character whitespace-free word starting with the digit of its number; `Nums` maps each number to it and `QuantityItems` lists them in key order |
| Keyboard.FirstKeyFrom | handlers/private/settings.py:182 | the first key from `k` on whose emoji is the text, or none when no such key exists |
| Keyboard.QuantityOf | handlers/private/settings.py:182 | the quantity whose keycap is the text, or none when the text is no keycap |
| Keyboard.QuantityRoundTrip | handlers/private/settings.py:163-164 | the emoji table maps 1..6 one-to-one, so inverting it gives the quantity back |
| Keyboard.ScreenLayout | handlers/private/settings.py:170 | the model screen has its choices and the close row but no back row; the size screen goes back to the models, the quantity screen (two rows of three) back to the sizes |
| Keyboard.GetChooseModelKeyboard | handlers/private/settings.py:237-250 | the model screen: both model values, in enum order, marked against the stored model, two per row, then the close row |
| Keyboard.GetChooseSizeKeyboard | handlers/private/settings.py:196-213 | the size screen for the given model, marked against the stored size, then back to models and close |
| Keyboard.GetChooseQuantityKeyboard | handlers/private/settings.py:155-170 | the quantity screen marked against the stored quantity's keycap, then back to sizes and close |
| Dialog.StatusMsg | handlers/private/dalle.py:82-92 | definition: the model label and value, the size label and value, the quantity label and `str(quantity)`, then the settings hint |
| Dialog.StatusShowsSettings | handlers/private/dalle.py:82-92 | the status text shows the stored model, size and quantity, each right after its label, then the settings hint |
| Dialog.Urls | handlers/private/dalle.py:176 | one url per image, in order, `''` for an image without one |
| Dialog.DeliveryPlan | handlers/private/dalle.py:158-163 | a group for more than one image, a single photo with `data[0]`'s url for exactly one, neither for none |
| Dialog.DeliveryEffects | handlers/private/dalle.py:151-166 | definition: the delivery call of the plan, followed by the inner-error reply when it raised; the inner-error reply alone when there is no image |
| Dialog.DeliveryOutcome | handlers/private/dalle.py:151-166 | one group send with all urls or one photo; the inner-error reply comes, last, exactly when there is no image or delivery raised |
| Dialog.GenerationEffects | handlers/private/dalle.py:134-148 | definition: the generator call with the prompt and the stored size, model and quantity; on a response, the delivery calls and the deletion of the wait message |
| Dialog.GenerationOrder | handlers/private/dalle.py:134-148 | the generator is called once, first, with the prompt and the stored size, model and quantity; on a response the wait message is deleted after delivery |
| Routing.IsCommand | handlers/private/basic.py:24 | definition: the `Command` filter, true when the first whitespace-separated word of the text is `/name` |
| Routing.RouteMessage | handlers/private/__init__.py:10-14 | definition: the message handler reached, trying in router order `/start`, `/help` (basic.py:24,42), the decline text, `/generate`, the `get_prompt` state (dalle.py:39,95,115), then `/settings` (settings.py:277) |
| Routing.RouteCallback | handlers/private/settings.py:25 | definition: the callback handler reached, by the first matching `startswith` filter in router order: `generate_accept_btn` (dalle.py:64), `close`, `back_to`, `choose_quantity`, `choose_size`, `choose_model` (settings.py:25,128,172,215,252) |
| Routing.NotCommand | handlers/private/basic.py:24 | a text starting with a visible character other than `/` is no command |
| Routing.OneWordCommand | handlers/private/basic.py:24 | a one-word text is the command it spells and no other |
| Routing.DeclineInEveryState | handlers/private/dalle.py:39-51 | the decline text reaches the decline handler in every state |
| Routing.SettingsWhileAwaitingIsPrompt | handlers/private/__init__.py:10-14 | `/settings` sent in `get_prompt` is taken as the prompt; sent outside it, it opens the settings |
| Routing.DeclineKeyboardCancels | handlers/private/dalle.py:28-51 | `get_decline_keyboard` is one reply button, and its label reaches the decline handler in every state |
| Routing.GenerateOptionsAccept | handlers/private/dalle.py:54-78 | every button of `get_generate_options_inline_keyboard` (the one continue button, data `generate_accept_btn`) reaches the accept handler |
| Routing.AwaitingTakesEverythingElse | handlers/private/dalle.py:115-131 | in `get_prompt` every message other than decline, `/start`, `/help` and `/generate` is prompt input |
| Routing.RoutePrefixed | handlers/private/settings.py:172 | data starting with a `choose_*` prefix reaches that prefix's handler |
| Routing.ChoiceButtonRoutes | handlers/private/settings.py:109 | a choice button's data reaches its handler and splits into prefix and value; a keycap parses as a quantity |
| Routing.QuantityItemParses | handlers/private/settings.py:167 | every keycap on the quantity screen stands for a quantity |
| Routing.BackDataRoutes | handlers/private/settings.py:124-138 | `back_to <route>` reaches the back handler and splits into the two words |
| Routing.NavRowsRoute | handlers/private/settings.py:122-128 | the close button reaches the close handler; a back button reaches the back handler with its route |
| Routing.ChoicesRoute | handlers/private/settings.py:97-111 | every button of a choice list reaches a handler that can take its data apart |
| Routing.ChoiceRowsAndNav | handlers/private/settings.py:166-170 | the same for a choice list followed by the navigation rows |
| Routing.RenderedButtonsRoute | handlers/private/settings.py:155-273 | every button of the three wizard screens reaches a handler that can take its data apart |
| Handlers.SetField | handlers/private/settings.py:77 | only the chosen field changes; the user id and the other fields are kept |
| Handlers.Register | handlers/private/basic.py:35-37 | an unseen id gains exactly one user built by `UserModel.create`; every stored user is kept |
| Handlers.RegisterIdempotent | handlers/private/basic.py:35-37 | a second `/start` leaves the store as the first left it |
| Handlers.RegisterKeepsWellFormed | handlers/private/basic.py:37 | registration keeps ids consistent and quantities in 1..6 |
| Handlers.StoreUpdate | database/database.py:189-204 | the update writes exactly model, size and quantity into the row of the settings' user |
| Handlers.UpdateThenRead | database/database.py:200-204 | reading the settings back after an update gives what was written |
| Handlers.IsPrompt | handlers/private/dalle.py:124-125 | definition: Python truthiness of the text, present and non-empty; whitespace-only text counts as a prompt |
| Handlers.BackToScreen | handlers/private/settings.py:142-149 | the model or size screen for a known route; empty text and no keyboard for an unknown one |
| Handlers.ChosenField | handlers/private/settings.py:172-271 | definition: the field a choice handler writes, from the data's second word: the keycap's number for `choose_quantity` (182), the text itself for `choose_size` (225) and `choose_model` (262) |
| Handlers.ChoiceWritesItsValue | handlers/private/settings.py:215-271 | a model or size button, rendered as `f'{callback_prefix} {callback_data}'` (109), writes the value it was rendered for |
| Handlers.QuantityChoiceWritesItsNumber | handlers/private/settings.py:163-184 | the keycap button for n writes quantity n |
| Handlers.CallbackSafe | handlers/private/settings.py:128-191 | definition: the presses that raise in no handler: a second data word (138, 182, 225, 262), a keycap (182), a stored user where the user is dereferenced (77, 148, 184) |
| Handlers.RenderedButtonsAreSafe | handlers/private/settings.py:155-273 | no button shown to a stored user can crash the handler it reaches |
| Handlers.Bot.HandleStart | handlers/private/basic.py:24-39 | the store gains the user only when unseen; `start_msg` is sent in every case |
| Handlers.Bot.HandleHelp | handlers/private/basic.py:42-52 | `help_msg` is sent; store and state are untouched |
| Handlers.Bot.HandleDecline | handlers/private/dalle.py:39-51 | the state is cleared from any state and the cancellation is sent with the reply keyboard removed |
| Handlers.Bot.HandleGenerate | handlers/private/dalle.py:95-112 | unknown user: the inner error; known user: the status with the continue button; no state is set |
| Handlers.Bot.HandleAccept | handlers/private/dalle.py:64-76 | the prompt request with the decline keyboard, state `get_prompt`, the status message stripped of its keyboard |
| Handlers.Bot.HandleGetPrompt | handlers/private/dalle.py:115-131 | a non-empty text clears the state before the wait message and the generation; an empty or missing one re-prompts and keeps the state |
| Handlers.Bot.ProcessPromptInput | handlers/private/dalle.py:134-148 | the generator gets the stored settings; images are delivered and the wait message deleted |
| Handlers.Bot.SendGeneratedImages | handlers/private/dalle.py:151-193 | the calls are those of the delivery plan, with the inner-error fallback |
| Handlers.Bot.HandleSettings | handlers/private/settings.py:277-297 | unknown user: the inner error; known user: the model screen; no state |
| Handlers.Bot.HandleClose | handlers/private/settings.py:25-35 | the menu message is deleted and the press answered, in any state |
| Handlers.Bot.HandleBackTo | handlers/private/settings.py:128-152 | the named screen is re-rendered in place and nothing is written; a missing user gets an alert first |
| Handlers.Bot.UpdateUserSettings | handlers/private/settings.py:65-80 | exactly one field of one user's settings changes; the store stays well formed |
| Handlers.Bot.HandleChooseModel | handlers/private/settings.py:252-271 | only the model changes (the size is kept); the size screen for the new model follows |
| Handlers.Bot.HandleChooseSize | handlers/private/settings.py:215-232 | only the size changes, to the value sent; the quantity screen follows |
| Handlers.Bot.HandleChooseQuantity | handlers/private/settings.py:172-191 | only the quantity changes, to the keycap's number; the model screen follows |
| Handlers.MessageEffects | handlers/private/__init__.py:10-14 | definition: the calls of the handler a message reaches, each as that handler's method states them |
| Handlers.MessageAlwaysReplies | handlers/private/__init__.py:10-14 | a handled message always gets a reply in its chat as the first call; exactly an unhandled one causes no call |
| Handlers.CallbackEffects | handlers/private/settings.py:25-271 | definition: the calls of the handler a press reaches (close 25-35, back 128-152, the choices 172-191, 215-232, 252-271, and the continue button of handlers/private/dalle.py:64-76), the choice handlers rendering the next screen from the updated settings |
| Handlers.CallbackAlwaysAnswered | handlers/private/settings.py:25-271 | a handled press is always answered, the plain `callback.answer()` last (35, 152, 191, 232, 271 and handlers/private/dalle.py:76); the alert comes exactly for `back_to` from an unknown chat; exactly an unhandled press causes no call |
| Handlers.Bot.OnMessage | handlers/private/__init__.py:9-14 | the outbox grows by the reached handler's calls; only `/start` writes the store; only decline and a prompt leave `get_prompt` |
| Handlers.Bot.OnNavigationCallback | handlers/private/settings.py:25-152 | a close or back press appends exactly the reached handler's calls and writes neither store nor state |
| Handlers.Bot.OnChoiceCallback | handlers/private/settings.py:172-271 | a choice press writes exactly its own field of the pressing user's settings and appends the reached handler's calls |
| Handlers.Bot.OnCallback | handlers/private/__init__.py:9-14 | the outbox grows by the reached handler's calls; only the continue button enters `get_prompt`; only the choice buttons write the store, each its own field |

## Left out

- Telegram transport: sending, editing, deleting and answering are entries in the outbox. Message ids the bot
  creates are outbox positions; the message a button sits on is a parameter.
- The image generator is not modelled. Its response is a parameter of the handler, a list of images or a failure.
  Whether the delivery call raises is a boolean parameter.
- Failures of transport calls other than the delivery calls inside `send_generated_images` are not modelled.
- Asynchronous concurrency between updates is not modelled: updates are handled one at a time.
- Logging, configuration, the SQL sessions and the admin panel are not modelled. The user store is a map from
  chat id to user.
- Storage columns the dialog never reads (the settings row id, the join date) are not modelled.
- Routing.IsCommand: matches only the plain `/name` first word. The `/name@botname` form and media captions
  are not modelled.
- Dispatch is static. The source registers the `choose_*` and `generate_accept_btn` handlers again each time
  a keyboard is built; the model treats them as registered once, in the order they appear in each router.
- Handlers.Bot.HandleGetPrompt: a generator exception leaves the handler. The state is already cleared,
  the wait message is not deleted, and no reply is sent. The code sends no inner-error reply here, so the
  model follows the code.
- Crash paths the code does not handle are preconditions rather than modelled outcomes:
  - a missing user in `_update_user_settings`;
  - a missing user in `process_prompt_input`;
  - a missing user in `back_to` with a known route;
  - callback data without a second word;
  - a quantity text that is no keycap;
  - a stored quantity outside 1..6 on the quantity screen.
  - a back row requested without a route (`back_to.value` on `None`, settings.py:124), excluded by
    Keyboard.BackCloseRows and Keyboard.GetBackCloseButtons requiring a route whenever the back row is shown;
    every caller passes one.
- Keyboard.CreateButtonList: requires a positive row width. All callers pass 2 or 3.
- The settings store does not reset the size when the model changes and does not check the size against
  the model. The model keeps both behaviours as written.

/**
 * Which handler an update reaches. The routers are consulted in the order basic, dalle,
 * settings, and within a router in registration order; handlers without a state filter
 * match in every state. Button handlers that the source registers while rendering a
 * keyboard are treated as always registered.
 */
module Routing {
  import opened Wrappers
  import opened Text
  import Keyboard
  import Models
  import Dialog
  import Gpt

  datatype MessageHandler =
    | StartCommand | HelpCommand | DeclineMessage | GenerateCommand | PromptInput | SettingsCommand
    | NoMessageHandler

  datatype CallbackHandler =
    | AcceptButton | CloseButton | BackToButton | ChooseQuantityButton | ChooseSizeButton | ChooseModelButton
    | NoCallbackHandler

  /** The `Command(name)` filter: the first whitespace-separated word of the text is `/name`. */
  predicate IsCommand(text: Option<string>, name: string) {
    text.Some? && var fields := Split(text.value); |fields| > 0 && fields[0] == "/" + name
  }

  /** The message handler an update with this text reaches, given whether the chat is in `get_prompt`. */
  function RouteMessage(text: Option<string>, awaitingPrompt: bool): MessageHandler {
    if IsCommand(text, "start") then StartCommand
    else if IsCommand(text, "help") then HelpCommand
    else if text == Some(Dialog.DeclineText) then DeclineMessage
    else if IsCommand(text, "generate") then GenerateCommand
    else if awaitingPrompt then PromptInput
    else if IsCommand(text, "settings") then SettingsCommand
    else NoMessageHandler
  }

  /** The callback handler a button press with this data reaches (the `F.data.startswith` filters). */
  function RouteCallback(data: string): CallbackHandler {
    if StartsWith(data, "generate_accept_btn") then AcceptButton
    else if StartsWith(data, "close") then CloseButton
    else if StartsWith(data, "back_to") then BackToButton
    else if StartsWith(data, "choose_quantity") then ChooseQuantityButton
    else if StartsWith(data, "choose_size") then ChooseSizeButton
    else if StartsWith(data, "choose_model") then ChooseModelButton
    else NoCallbackHandler
  }

  /** A text that starts with a visible character other than `/` is no command. */
  lemma NotCommand(t: string, name: string)
    requires t != [] && !IsSpace(t[0]) && t[0] != '/'
    ensures !IsCommand(Some(t), name)
  {
    assert Split(t)[0] == Word(t);
  }

  /** A single whitespace-free word is the command it spells, and no other. */
  lemma OneWordCommand(word: string, name: string)
    requires word != [] && NoSpace(word)
    ensures IsCommand(Some(word), name) <==> word == "/" + name
  {
    SplitJoin([word]);
  }

  /** The decline text reaches the decline handler in every state. */
  lemma DeclineInEveryState(awaiting: bool)
    ensures RouteMessage(Some(Dialog.DeclineText), awaiting) == DeclineMessage
  {
    NotCommand(Dialog.DeclineText, "start");
    NotCommand(Dialog.DeclineText, "help");
  }

  /**
   * Every label of the decline keyboard reaches the decline handler, in every state: the keyboard
   * sent with the prompt request is a way out of `get_prompt`.
   */
  lemma DeclineKeyboardCancels(awaiting: bool)
    ensures Dialog.DeclineKeyboard.Reply? && |Dialog.DeclineKeyboard.labels| == 1
    ensures var labels := Dialog.DeclineKeyboard.labels;
      forall i, j :: 0 <= i < |labels| && 0 <= j < |labels[i]| ==>
        RouteMessage(Some(labels[i][j]), awaiting) == DeclineMessage
  {
    DeclineInEveryState(awaiting);
  }

  /** Every button of the status message's keyboard reaches the accept handler. */
  lemma GenerateOptionsAccept()
    ensures Dialog.GenerateOptionsKeyboard.Inline? && ScreenRoutes(Dialog.GenerateOptionsKeyboard.rows)
    ensures var rows := Dialog.GenerateOptionsKeyboard.rows;
      forall i, j :: 0 <= i < |rows| && 0 <= j < |rows[i]| ==> RouteCallback(rows[i][j].callbackData) == AcceptButton
  {
  }

  /**
   * `/settings` sent while a prompt is awaited is taken as the prompt, because the router holding
   * the prompt handler is consulted before the one holding the settings command.
   */
  lemma SettingsWhileAwaitingIsPrompt()
    ensures RouteMessage(Some("/settings"), true) == PromptInput
    ensures RouteMessage(Some("/settings"), false) == SettingsCommand
  {
    var t := "/settings";
    assert NoSpace(t);
    OneWordCommand(t, "start");
    OneWordCommand(t, "help");
    OneWordCommand(t, "generate");
    OneWordCommand(t, "settings");
  }

  /**
   * In `get_prompt` every message other than the decline text and the `/start`, `/help` and
   * `/generate` commands is prompt input, whatever its text (or lack of one).
   */
  lemma AwaitingTakesEverythingElse(text: Option<string>)
    requires text != Some(Dialog.DeclineText)
    requires !IsCommand(text, "start") && !IsCommand(text, "help") && !IsCommand(text, "generate")
    ensures RouteMessage(text, true) == PromptInput
    ensures RouteMessage(text, false) == (if IsCommand(text, "settings") then SettingsCommand else NoMessageHandler)
  {
  }

  /** The callback data the handler behind it can take apart without raising. */
  predicate CallbackWellFormed(data: string) {
    match RouteCallback(data)
    case BackToButton | ChooseModelButton | ChooseSizeButton => |Split(data)| >= 2
    case ChooseQuantityButton => |Split(data)| >= 2 && Keyboard.QuantityOf(Split(data)[1]).Some?
    case _ => true
  }

  lemma {:induction false} ChunkMember<T>(s: seq<T>, width: nat, i: nat, j: nat)
    requires width > 0
    requires i < |Keyboard.Chunk(s, width)| && j < |Keyboard.Chunk(s, width)[i]|
    ensures Keyboard.Chunk(s, width)[i][j] in s
    decreases |s|
  {
    if i > 0 {
      ChunkMember(s[width..], width, i - 1, j);
    }
  }

  lemma NotStartsWith(s: string, prefix: string, i: nat)
    requires i < |prefix| && i < |s| && s[i] != prefix[i]
    ensures !StartsWith(s, prefix)
  {
  }

  /** The handler a choice button's prefix selects. */
  function ChoiceHandler(prefix: string): CallbackHandler {
    if prefix == "choose_model" then ChooseModelButton
    else if prefix == "choose_size" then ChooseSizeButton
    else ChooseQuantityButton
  }

  /** Data that starts with a choice prefix reaches that prefix's handler. */
  lemma RoutePrefixed(prefix: string, rest: string)
    requires prefix == "choose_model" || prefix == "choose_size" || prefix == "choose_quantity"
    ensures RouteCallback(prefix + rest) == ChoiceHandler(prefix)
  {
    var d := prefix + rest;
    assert d[..|prefix|] == prefix;
    assert d[0] == 'c' && d[1] == 'h' && d[7] == prefix[7];
    NotStartsWith(d, "generate_accept_btn", 0);
    NotStartsWith(d, "close", 1);
    NotStartsWith(d, "back_to", 0);
    if prefix != "choose_quantity" {
      NotStartsWith(d, "choose_quantity", 7);
    }
    if prefix == "choose_model" {
      NotStartsWith(d, "choose_size", 7);
    }
  }

  /** A choice button routes to the handler of its field and carries a value that handler can parse. */
  lemma ChoiceButtonRoutes(prefix: string, value: string, current: string)
    requires prefix == "choose_model" || prefix == "choose_size" || prefix == "choose_quantity"
    requires value != [] && NoSpace(value)
    requires prefix == "choose_quantity" ==> value in Keyboard.QuantityItems
    ensures var data := Keyboard.ChoiceButton(value, current, prefix).callbackData;
      RouteCallback(data) == ChoiceHandler(prefix) && Split(data) == [prefix, value] && CallbackWellFormed(data)
  {
    var data := Keyboard.ChoiceButton(value, current, prefix).callbackData;
    ChoicePrefixNoSpace(prefix);
    SplitPair(prefix, value);
    assert data == prefix + (" " + value);
    RoutePrefixed(prefix, " " + value);
    if prefix == "choose_quantity" {
      QuantityItemParses(value);
    }
  }

  lemma ChoicePrefixNoSpace(prefix: string)
    requires prefix == "choose_model" || prefix == "choose_size" || prefix == "choose_quantity"
    ensures prefix != [] && NoSpace(prefix)
  {
  }

  lemma QuantityItemParses(value: string)
    requires value in Keyboard.QuantityItems
    ensures Keyboard.QuantityOf(value).Some?
  {
    var q :| 0 <= q < 6 && value == Keyboard.QuantityItems[q];
    Keyboard.QuantityRoundTrip(q + 1);
  }

  /** Back-button data reaches the back handler and splits into the action and the route. */
  lemma BackDataRoutes(v: string)
    requires v != [] && NoSpace(v)
    ensures RouteCallback("back_to " + v) == BackToButton && Split("back_to " + v) == ["back_to", v]
  {
    BackDataSplits(v);
    BackDataStarts(v);
  }

  lemma BackDataSplits(v: string)
    requires v != [] && NoSpace(v)
    ensures Split("back_to " + v) == ["back_to", v]
  {
    var p := "back_to";
    assert NoSpace(p);
    SplitPair(p, v);
    assert p + " " + v == "back_to " + v;
  }

  lemma BackDataStarts(v: string)
    ensures RouteCallback("back_to " + v) == BackToButton
  {
    var data := "back_to " + v;
    assert data[..7] == "back_to";
    NotStartsWith(data, "generate_accept_btn", 0);
    NotStartsWith(data, "close", 0);
  }

  lemma NavRowsRoute(route: Keyboard.BackRoute)
    ensures RouteCallback(Keyboard.CloseButton.callbackData) == CloseButton
    ensures var data := Keyboard.BackButton(route).callbackData;
      RouteCallback(data) == BackToButton && Split(data) == ["back_to", route.Value()]
      && Keyboard.ParseRoute(Split(data)[1]) == Some(route)
  {
    BackDataRoutes(route.Value());
    NotStartsWith("close", "generate_accept_btn", 0);
  }

  /** Every button on a screen routes to a handler and carries data that handler can take apart. */
  predicate ScreenRoutes(rows: seq<Keyboard.Row>) {
    forall i, j :: 0 <= i < |rows| && 0 <= j < |rows[i]| ==>
      RouteCallback(rows[i][j].callbackData) != NoCallbackHandler && CallbackWellFormed(rows[i][j].callbackData)
  }

  /**
   * Every button the three wizard screens render, whatever the stored settings, reaches a handler
   * and carries data that handler accepts: a choice button reaches the handler of its own field,
   * a back button names a known route.
   */
  lemma RenderedButtonsRoute(s: Models.Settings, model: string)
    ensures ScreenRoutes(Keyboard.ModelRows(s))
    ensures ScreenRoutes(Keyboard.SizeRows(s, model))
    ensures 1 <= s.quantity <= 6 ==> ScreenRoutes(Keyboard.QuantityRows(s))
  {
    ModelScreenRoutes(s);
    SizeScreenRoutes(s, model);
    if 1 <= s.quantity <= 6 {
      QuantityScreenRoutes(s);
    }
  }

  lemma ModelScreenRoutes(s: Models.Settings)
    ensures ScreenRoutes(Keyboard.ModelRows(s))
  {
    var items := Keyboard.ModelItems;
    assert items == [Gpt.Model.DallE2.Value(), Gpt.Model.DallE3.Value()];
    ChoiceRowsAndNav(items, s.model, "choose_model", 2, None, false);
  }

  lemma SizeScreenRoutes(s: Models.Settings, model: string)
    ensures ScreenRoutes(Keyboard.SizeRows(s, model))
  {
    var sizes := Keyboard.SizeValues(Keyboard.SizeChoices(model));
    ChoiceRowsAndNav(sizes, s.size, "choose_size", 3, Some(Keyboard.ToModels), true);
  }

  lemma QuantityScreenRoutes(s: Models.Settings)
    requires 1 <= s.quantity <= 6
    ensures ScreenRoutes(Keyboard.QuantityRows(s))
  {
    var items := Keyboard.QuantityItems;
    forall k | 0 <= k < |items| ensures items[k] != [] && NoSpace(items[k]) {
      assert items[k] == Keyboard.Keycap(k + 1);
    }
    ChoiceRowsAndNav(items, Keyboard.Nums[s.quantity], "choose_quantity", 3, Some(Keyboard.ToSizes), true);
  }

  lemma ChoicesRoute(items: seq<string>, current: string, prefix: string, width: nat)
    requires width > 0
    requires prefix == "choose_model" || prefix == "choose_size" || prefix == "choose_quantity"
    requires forall k :: 0 <= k < |items| ==> items[k] != [] && NoSpace(items[k])
    requires prefix == "choose_quantity" ==> forall k :: 0 <= k < |items| ==> items[k] in Keyboard.QuantityItems
    ensures ScreenRoutes(Keyboard.Chunk(Keyboard.ChoiceButtons(items, current, prefix), width))
  {
    var bs := Keyboard.ChoiceButtons(items, current, prefix);
    var rows: seq<Keyboard.Row> := Keyboard.Chunk(bs, width);
    forall i, j | 0 <= i < |rows| && 0 <= j < |rows[i]|
      ensures RouteCallback(rows[i][j].callbackData) != NoCallbackHandler && CallbackWellFormed(rows[i][j].callbackData)
    {
      ChunkMember(bs, width, i, j);
      var k :| 0 <= k < |bs| && bs[k] == rows[i][j];
      ChoiceButtonRoutes(prefix, items[k], current);
    }
  }

  lemma ChoiceRowsAndNav(items: seq<string>, current: string, prefix: string, width: nat,
                         backTo: Option<Keyboard.BackRoute>, showBackTo: bool)
    requires width > 0
    requires showBackTo ==> backTo.Some?
    requires prefix == "choose_model" || prefix == "choose_size" || prefix == "choose_quantity"
    requires forall k :: 0 <= k < |items| ==> items[k] != [] && NoSpace(items[k])
    requires prefix == "choose_quantity" ==> forall k :: 0 <= k < |items| ==> items[k] in Keyboard.QuantityItems
    ensures ScreenRoutes(Keyboard.Chunk(Keyboard.ChoiceButtons(items, current, prefix), width)
                         + Keyboard.BackCloseRows(backTo, showBackTo))
  {
    ChoicesRoute(items, current, prefix, width);
    NavRowsRoute(if backTo.Some? then backTo.value else Keyboard.ToModels);
  }
}

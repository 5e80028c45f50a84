/**
 * The settings menu renderer: choice buttons laid out in rows of fixed width, the
 * optional "back" row and the "close" row, the three screens of the wizard
 * (model, size, quantity), the size list that depends on the model, the keycap-emoji
 * table of quantities and the back routes.
 */
module Keyboard {
  import opened Wrappers
  import opened Text
  import Gpt
  import Models

  /** An inline button: the label shown and the callback data sent back when pressed. */
  datatype Button = Button(text: string, callbackData: string)

  type Row = seq<Button>

  /** The reply markup attached to a message. */
  datatype Markup =
    | NoMarkup                                  // no `reply_markup` argument, or `reply_markup=None`
    | Inline(rows: seq<Row>)                    // `InlineKeyboardMarkup(inline_keyboard=rows)`
    | Reply(labels: seq<seq<string>>)           // `ReplyKeyboardMarkup(keyboard=..., resize_keyboard=True)`
    | RemoveReply                               // `ReplyKeyboardRemove()`

  /** The selection marker appended to the label of the current value. */
  const CheckMark: string := " \U{2714}\U{FE0F}"

  /** One choice button: the label is the value, marked when it is the current setting. */
  function ChoiceButton(value: string, current: string, prefix: string): Button {
    Button(if value == current then value + CheckMark else value, prefix + " " + value)
  }

  predicate Marked(b: Button, value: string) {
    b.text == value + CheckMark
  }

  /** One button per item, in item order. */
  function ChoiceButtons(items: seq<string>, current: string, prefix: string): (bs: seq<Button>)
    ensures |bs| == |items|
    ensures forall k :: 0 <= k < |items| ==> bs[k] == ChoiceButton(items[k], current, prefix)
  {
    if items == [] then [] else [ChoiceButton(items[0], current, prefix)] + ChoiceButtons(items[1..], current, prefix)
  }

  /** The rows read one after the other. */
  function Flatten<T>(rows: seq<seq<T>>): seq<T> {
    if rows == [] then [] else rows[0] + Flatten(rows[1..])
  }

  /**
   * The row layout of the button list: full rows of `width`, then one last row that holds
   * the rest. The last row is present even when there is nothing to put in it.
   */
  function Chunk<T>(s: seq<T>, width: nat): (rows: seq<seq<T>>)
    requires width > 0
    ensures |rows| >= 1
    ensures forall k :: 0 <= k < |rows| ==> |rows[k]| <= width
    ensures forall k :: 0 <= k < |rows| - 1 ==> |rows[k]| == width
    ensures s == [] <==> rows == [[]]
    decreases |s|
  {
    if |s| <= width then [s] else [s[..width]] + Chunk(s[width..], width)
  }

  lemma {:induction false} FlattenAppend<T>(rows: seq<seq<T>>, row: seq<T>)
    ensures Flatten(rows + [row]) == Flatten(rows) + row
  {
    if rows != [] {
      assert (rows + [row])[1..] == rows[1..] + [row];
      FlattenAppend(rows[1..], row);
    }
  }

  /** Reading the rows back in order gives every element once, in the original order. */
  lemma {:induction false} FlattenChunk<T>(s: seq<T>, width: nat)
    requires width > 0
    ensures Flatten(Chunk(s, width)) == s
    decreases |s|
  {
    if |s| > width {
      var rows := Chunk(s, width);
      assert rows[1..] == Chunk(s[width..], width);
      FlattenChunk(s[width..], width);
      assert s[..width] + s[width..] == s;
    }
  }

  /** Full rows followed by a non-empty remainder (or nothing at all) are exactly what `Chunk` lays out. */
  lemma {:induction false} ChunkOfRows<T>(rows: seq<seq<T>>, last: seq<T>, width: nat)
    requires width > 0
    requires forall k :: 0 <= k < |rows| ==> |rows[k]| == width
    requires |last| <= width
    requires rows != [] ==> last != []
    ensures Chunk(Flatten(rows) + last, width) == rows + [last]
    decreases |rows|
  {
    if rows != [] {
      var rest := Flatten(rows[1..]) + last;
      assert Flatten(rows) + last == rows[0] + rest;
      assert rows[1..] != [] ==> |Flatten(rows[1..])| >= |rows[1]| > 0;
      assert |rows[0] + rest| > width;
      ChunkOfRows(rows[1..], last, width);
      assert (rows[0] + rest)[..width] == rows[0];
      assert (rows[0] + rest)[width..] == rest;
      assert Chunk(rows[0] + rest, width) == [rows[0]] + Chunk(rest, width);
      assert [rows[0]] + (rows[1..] + [last]) == rows + [last];
    } else {
      assert Flatten(rows) + last == last;
    }
  }

  /** Appending the next element to the open row extends the covered prefix by one. */
  lemma PrefixStep<T>(closed: seq<T>, row: seq<T>, s: seq<T>, i: nat)
    requires i < |s| && closed + row == s[..i]
    ensures closed + (row + [s[i]]) == s[..i + 1]
  {
    assert s[..i + 1] == s[..i] + [s[i]];
  }

  /**
   * `_create_button_list`: walks the items, closing the current row when it is full,
   * and appends the last row at the end.
   */
  method CreateButtonList(items: seq<string>, current: string, prefix: string, maxPerRow: nat)
    returns (rows: seq<Row>)
    requires maxPerRow > 0
    ensures rows == Chunk(ChoiceButtons(items, current, prefix), maxPerRow)
  {
    ghost var buttons := ChoiceButtons(items, current, prefix);
    rows := [];
    var row: Row := [];
    for i := 0 to |items|
      invariant forall k :: 0 <= k < |rows| ==> |rows[k]| == maxPerRow
      invariant |row| <= maxPerRow
      invariant rows != [] ==> row != []
      invariant Flatten(rows) + row == buttons[..i]
    {
      if |row| == maxPerRow {
        FlattenAppend(rows, row);
        rows := rows + [row];
        row := [];
      }
      PrefixStep(Flatten(rows), row, buttons, i);
      row := row + [ChoiceButton(items[i], current, prefix)];
    }
    ChunkOfRows(rows, row, maxPerRow);
    assert buttons[..|items|] == buttons;
    rows := rows + [row];
  }

  /** A button is marked exactly when its value is the current setting; otherwise its label is the bare value. */
  lemma MarkingReflectsCurrent(items: seq<string>, current: string, prefix: string)
    ensures var bs := ChoiceButtons(items, current, prefix);
      forall k :: 0 <= k < |items| ==>
        && (Marked(bs[k], items[k]) <==> items[k] == current)
        && (items[k] != current ==> bs[k].text == items[k])
  {
    var bs := ChoiceButtons(items, current, prefix);
    forall k | 0 <= k < |items|
      ensures Marked(bs[k], items[k]) <==> items[k] == current
    {
      if items[k] != current {
        assert |bs[k].text| < |items[k] + CheckMark|;
      }
    }
  }

  /** With distinct items, one button is marked when the current value is among them, and none otherwise. */
  lemma AtMostOneMarked(items: seq<string>, current: string, prefix: string)
    requires forall i, j :: 0 <= i < j < |items| ==> items[i] != items[j]
    ensures var bs := ChoiceButtons(items, current, prefix);
      && (forall i, j :: 0 <= i < |items| && 0 <= j < |items| && Marked(bs[i], items[i]) && Marked(bs[j], items[j]) ==> i == j)
      && ((exists k :: 0 <= k < |items| && Marked(bs[k], items[k])) <==> current in items)
  {
    MarkingReflectsCurrent(items, current, prefix);
  }

  /** Every choice button's callback data splits back into the prefix and the item's value. */
  lemma ChoiceCallbacksSplit(items: seq<string>, current: string, prefix: string)
    requires prefix != [] && NoSpace(prefix)
    requires forall k :: 0 <= k < |items| ==> items[k] != [] && NoSpace(items[k])
    ensures var bs := ChoiceButtons(items, current, prefix);
      forall k :: 0 <= k < |items| ==> Split(bs[k].callbackData) == [prefix, items[k]]
  {
    forall k | 0 <= k < |items| {
      SplitPair(prefix, items[k]);
    }
  }

  /** `BackRoutes`: where a back button leads. */
  datatype BackRoute = ToModels | ToSizes {
    function Value(): (v: string)
      ensures v != [] && NoSpace(v)
    {
      match this
      case ToModels => "models"
      case ToSizes => "sizes"
    }
  }

  /** The route named by the argument of a `back_to` callback; `None` when it names none. */
  function ParseRoute(route: string): (r: Option<BackRoute>)
    ensures r.Some? ==> r.value.Value() == route
    ensures r.None? ==> route != ToModels.Value() && route != ToSizes.Value()
  {
    if route == ToModels.Value() then Some(ToModels)
    else if route == ToSizes.Value() then Some(ToSizes)
    else None
  }

  lemma RouteRoundTrip(r: BackRoute)
    ensures ParseRoute(r.Value()) == Some(r)
  {
  }

  const CloseButton: Button := Button("Закрыть \U{274C}", "close")

  function BackButton(route: BackRoute): Button {
    Button("\U{2B05}\U{FE0F} Назад", "back_to " + route.Value())
  }

  /** The navigation rows: a back row when asked for, then the close row. */
  function BackCloseRows(backTo: Option<BackRoute>, showBackTo: bool): seq<Row>
    requires showBackTo ==> backTo.Some?
  {
    if showBackTo then [[BackButton(backTo.value)], [CloseButton]] else [[CloseButton]]
  }

  /** `_get_back_close_buttons`: the close row, with the back row inserted in front of it when shown. */
  method GetBackCloseButtons(backTo: Option<BackRoute> := None, showBackTo: bool := true) returns (rows: seq<Row>)
    requires showBackTo ==> backTo.Some?
    ensures |rows| == (if showBackTo then 2 else 1)
    ensures rows[|rows| - 1] == [CloseButton]
    ensures showBackTo ==> rows[0] == [BackButton(backTo.value)]
    ensures rows == BackCloseRows(backTo, showBackTo)
  {
    rows := [[CloseButton]];
    if showBackTo {
      rows := [[BackButton(backTo.value)]] + rows;
    }
  }

  /** The sizes offered for a model: the DALL-E 3 list for `dall-e-3`, the DALL-E 2 list for any other value. */
  function SizeChoices(model: string): (sizes: seq<Gpt.Size>)
    ensures model == Gpt.Model.DallE3.Value() ==> sizes == [Gpt.Size.S1024, Gpt.Size.S1024x1792, Gpt.Size.S1792x1024]
    ensures model != Gpt.Model.DallE3.Value() ==> sizes == [Gpt.Size.S256, Gpt.Size.S512, Gpt.Size.S1024]
  {
    if model == Gpt.Model.DallE3.Value() then [Gpt.Size.S1024, Gpt.Size.S1024x1792, Gpt.Size.S1792x1024]
    else [Gpt.Size.S256, Gpt.Size.S512, Gpt.Size.S1024]
  }

  function SizeValues(sizes: seq<Gpt.Size>): (values: seq<string>)
    ensures |values| == |sizes|
    ensures forall k :: 0 <= k < |sizes| ==> values[k] == sizes[k].Value()
  {
    if sizes == [] then [] else [sizes[0].Value()] + SizeValues(sizes[1..])
  }

  const ModelItems: seq<string> := [Gpt.Model.DallE2.Value(), Gpt.Model.DallE3.Value()]

  /** The keycap emoji for a digit: the digit, VARIATION SELECTOR-16, COMBINING ENCLOSING KEYCAP. */
  function Keycap(d: int): (e: string)
    requires 1 <= d <= 6
    ensures |e| == 3 && DigitValue(e[0]) == d
    ensures NoSpace(e)
  {
    [DigitChar(d), '\U{FE0F}', '\U{20E3}']
  }

  /** The `nums` table of the quantity screen. */
  const Nums: map<int, string> := map q | 1 <= q <= 6 :: Keycap(q)

  /** `[nums[i] for i in range(1, 6 + 1)]`. */
  const QuantityItems: seq<string> := [Keycap(1), Keycap(2), Keycap(3), Keycap(4), Keycap(5), Keycap(6)]

  function FirstKeyFrom(e: string, k: int): (q: Option<int>)
    requires 1 <= k <= 7
    ensures q.Some? ==> k <= q.value <= 6 && Nums[q.value] == e
    ensures q.None? ==> forall j :: k <= j <= 6 ==> Keycap(j) != e
    decreases 7 - k
  {
    if k > 6 then None else if Nums[k] == e then Some(k) else FirstKeyFrom(e, k + 1)
  }

  /**
   * The quantity a keycap stands for: the first key of `nums` whose emoji is `e`.
   * `None` stands for the empty list the comprehension gives for any other text.
   */
  function QuantityOf(e: string): (q: Option<int>)
    ensures q.Some? ==> 1 <= q.value <= 6 && Nums[q.value] == e
    ensures q.None? ==> forall j :: 1 <= j <= 6 ==> Keycap(j) != e
  {
    FirstKeyFrom(e, 1)
  }

  /** The emoji table maps 1..6 one-to-one, so inverting it recovers the quantity. */
  lemma QuantityRoundTrip(q: int)
    requires 1 <= q <= 6
    ensures q in Nums && QuantityOf(Nums[q]) == Some(q)
  {
    var r := QuantityOf(Nums[q]);
    assert r.Some? by {
      assert Keycap(q) == Nums[q];
    }
    assert Nums[r.value][0] == DigitChar(r.value) && Nums[q][0] == DigitChar(q);
  }

  /** The model screen: both models in one row, then the close row; no back row. */
  function ModelRows(s: Models.Settings): seq<Row> {
    Chunk(ChoiceButtons(ModelItems, s.model, "choose_model"), 2) + BackCloseRows(None, false)
  }

  /** The size screen for `model`: its three sizes in one row, a back row to the models, the close row. */
  function SizeRows(s: Models.Settings, model: string): seq<Row> {
    Chunk(ChoiceButtons(SizeValues(SizeChoices(model)), s.size, "choose_size"), 3) + BackCloseRows(Some(ToModels), true)
  }

  /** The quantity screen: six keycaps in two rows of three, a back row to the sizes, the close row. */
  function QuantityRows(s: Models.Settings): seq<Row>
    requires 1 <= s.quantity <= 6
  {
    Chunk(ChoiceButtons(QuantityItems, Nums[s.quantity], "choose_quantity"), 3) + BackCloseRows(Some(ToSizes), true)
  }

  /**
   * The wizard's navigation: the model screen is its choice row and the close row, with no
   * way back; the size screen leads back to the models, the quantity screen back to the sizes.
   */
  lemma ScreenLayout(s: Models.Settings, model: string)
    ensures var m := ModelRows(s);
      |m| == 2 && m[0] == ChoiceButtons(ModelItems, s.model, "choose_model") && m[1] == [CloseButton]
    ensures var z := SizeRows(s, model);
      && |z| == 3 && z[0] == ChoiceButtons(SizeValues(SizeChoices(model)), s.size, "choose_size")
      && z[1] == [BackButton(ToModels)] && z[2] == [CloseButton]
    ensures 1 <= s.quantity <= 6 ==>
      var q := QuantityRows(s);
      && |q| == 4 && |q[0]| == 3 && q[0] + q[1] == ChoiceButtons(QuantityItems, Nums[s.quantity], "choose_quantity")
      && q[2] == [BackButton(ToSizes)] && q[3] == [CloseButton]
  {
    SingleRow(ChoiceButtons(ModelItems, s.model, "choose_model"), 2);
    SingleRow(ChoiceButtons(SizeValues(SizeChoices(model)), s.size, "choose_size"), 3);
    if 1 <= s.quantity <= 6 {
      TwoRows(ChoiceButtons(QuantityItems, Nums[s.quantity], "choose_quantity"), 3);
    }
  }

  /** A list no longer than the width is laid out as one row. */
  lemma SingleRow<T>(s: seq<T>, width: nat)
    requires 0 < |s| <= width
    ensures Chunk(s, width) == [s]
  {
  }

  /** A list of twice the width is laid out as two full rows. */
  lemma TwoRows<T>(s: seq<T>, width: nat)
    requires width > 0 && |s| == 2 * width
    ensures Chunk(s, width) == [s[..width], s[width..]]
    ensures s[..width] + s[width..] == s
  {
    assert Chunk(s[width..], width) == [s[width..]];
  }

  /** `get_choose_model_inline_keyboard`. */
  method GetChooseModelKeyboard(user: Models.User) returns (markup: Markup)
    ensures markup == Inline(ModelRows(user.settings))
  {
    var rows := CreateButtonList(ModelItems, user.settings.model, "choose_model", 2);
    var nav := GetBackCloseButtons(showBackTo := false);
    markup := Inline(rows + nav);
  }

  /** `get_choose_size_inline_keyboard`: the size list is chosen by the `model` argument. */
  method GetChooseSizeKeyboard(user: Models.User, model: string) returns (markup: Markup)
    ensures markup == Inline(SizeRows(user.settings, model))
  {
    var sizes := [Gpt.Size.S256, Gpt.Size.S512, Gpt.Size.S1024];
    if model == Gpt.Model.DallE3.Value() {
      sizes := [Gpt.Size.S1024, Gpt.Size.S1024x1792, Gpt.Size.S1792x1024];
    }
    var rows := CreateButtonList(SizeValues(sizes), user.settings.size, "choose_size", 3);
    var nav := GetBackCloseButtons(backTo := Some(ToModels));
    markup := Inline(rows + nav);
  }

  /** `get_choose_quantity_keyboard`: `nums[user.settings.quantity]` needs a quantity from 1 to 6. */
  method GetChooseQuantityKeyboard(user: Models.User) returns (markup: Markup)
    requires 1 <= user.settings.quantity <= 6
    ensures markup == Inline(QuantityRows(user.settings))
  {
    var rows := CreateButtonList(QuantityItems, Nums[user.settings.quantity], "choose_quantity", 3);
    var nav := GetBackCloseButtons(backTo := Some(ToSizes));
    markup := Inline(rows + nav);
  }
}

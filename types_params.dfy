/**
 * `types_send_message_params.go` and `types_edit_message_text_params.go`:
 * options that put an inline keyboard on a request and hand back the option
 * that puts the previous keyboard back.
 */
module KeyboardOptions {
  import opened Types

  type Keyboard = seq<seq<InlineKeyboardButton>>

  class InlineKeyboardMarkup {
    var inlineKeyboard: Keyboard

    /** `&InlineKeyboardMarkup{}`: a nil keyboard, modelled as the empty one. */
    constructor ()
      ensures inlineKeyboard == []
    {
      inlineKeyboard := [];
    }
  }

  /** The markup union of `sendMessage`; only its inline member is modelled. */
  class ReplyMarkup {
    var inlineKeyboardMarkup: InlineKeyboardMarkup?

    constructor (m: InlineKeyboardMarkup?)
      ensures inlineKeyboardMarkup == m
    {
      inlineKeyboardMarkup := m;
    }
  }

  class SendMessageParams {
    var chatID: string
    var text: string
    var replyMarkup: ReplyMarkup?

    constructor (chatID: string, text: string)
      ensures this.chatID == chatID && this.text == text && replyMarkup == null
    {
      this.chatID := chatID;
      this.text := text;
      replyMarkup := null;
    }
  }

  class EditMessageTextParams {
    var chatID: string
    var text: string
    var replyMarkup: InlineKeyboardMarkup?

    constructor (chatID: string, text: string)
      ensures this.chatID == chatID && this.text == text && replyMarkup == null
    {
      this.chatID := chatID;
      this.text := text;
      replyMarkup := null;
    }
  }

  /** `SendMessageOption` values: a whole keyboard, or a column of buttons. */
  datatype SendMessageOption = SendInlineKeyboard(keyboard: Keyboard) | SendInlineButtons(buttons: seq<InlineKeyboardButton>)

  /** `EditMessageTextOption` values: a whole keyboard, or a column of buttons. */
  datatype EditMessageTextOption = EditInlineKeyboard(keyboard: Keyboard) | EditInlineButtons(buttons: seq<InlineKeyboardButton>)

  /** The keyboard of a single column: one row per button, in order, each holding only that button. */
  function OneButtonRows(buttons: seq<InlineKeyboardButton>): (k: Keyboard)
    ensures |k| == |buttons|
    ensures forall i :: 0 <= i < |buttons| ==> k[i] == [buttons[i]]
  {
    seq(|buttons|, i requires 0 <= i < |buttons| => [buttons[i]])
  }

  /** The row-building loop of the two `...InlineButtons` options. */
  method Column(buttons: seq<InlineKeyboardButton>) returns (keyboard: Keyboard)
    ensures keyboard == OneButtonRows(buttons)
  {
    keyboard := [];
    for i := 0 to |buttons|
      invariant |keyboard| == i
      invariant forall j :: 0 <= j < i ==> keyboard[j] == [buttons[j]]
    {
      keyboard := keyboard + [[buttons[i]]];
    }
  }

  /** The keyboard a send option installs. */
  function SendKeyboard(opt: SendMessageOption): Keyboard {
    match opt
    case SendInlineKeyboard(k) => k
    case SendInlineButtons(b) => OneButtonRows(b)
  }

  /** The keyboard an edit option installs. */
  function EditKeyboard(opt: EditMessageTextOption): Keyboard {
    match opt
    case EditInlineKeyboard(k) => k
    case EditInlineButtons(b) => OneButtonRows(b)
  }

  /**
   * Applying a send option: a missing reply markup, or one without an inline
   * member, is replaced by a fresh one; an existing inline markup is reused.
   * The keyboard is then set, and the result is the keyboard option carrying
   * the keyboard that was there before.
   */
  method ApplySend(params: SendMessageParams, opt: SendMessageOption) returns (rollback: SendMessageOption)
    modifies params, params.replyMarkup, if params.replyMarkup != null then params.replyMarkup.inlineKeyboardMarkup else null
    ensures params.chatID == old(params.chatID) && params.text == old(params.text)
    ensures params.replyMarkup != null && params.replyMarkup.inlineKeyboardMarkup != null
    ensures params.replyMarkup.inlineKeyboardMarkup.inlineKeyboard == SendKeyboard(opt)
    ensures old(params.replyMarkup) != null && old(params.replyMarkup.inlineKeyboardMarkup) != null ==>
      params.replyMarkup == old(params.replyMarkup)
      && params.replyMarkup.inlineKeyboardMarkup == old(params.replyMarkup.inlineKeyboardMarkup)
      && rollback == SendInlineKeyboard(old(params.replyMarkup.inlineKeyboardMarkup.inlineKeyboard))
    ensures !(old(params.replyMarkup) != null && old(params.replyMarkup.inlineKeyboardMarkup) != null) ==>
      fresh(params.replyMarkup) && fresh(params.replyMarkup.inlineKeyboardMarkup)
      && rollback == SendInlineKeyboard([])
  {
    var keyboard: Keyboard;
    match opt {
      case SendInlineKeyboard(k) => keyboard := k;
      case SendInlineButtons(b) => keyboard := Column(b);
    }
    if params.replyMarkup == null || params.replyMarkup.inlineKeyboardMarkup == null {
      var inline := new InlineKeyboardMarkup();
      params.replyMarkup := new ReplyMarkup(inline);
    }
    var markup := params.replyMarkup.inlineKeyboardMarkup;
    var previous := markup.inlineKeyboard;
    markup.inlineKeyboard := keyboard;
    rollback := SendInlineKeyboard(previous);
  }

  /**
   * Applying an edit option: a missing inline markup is replaced by a fresh
   * one, the keyboard is set, and the result carries the previous keyboard.
   */
  method ApplyEdit(params: EditMessageTextParams, opt: EditMessageTextOption) returns (rollback: EditMessageTextOption)
    modifies params, params.replyMarkup
    ensures params.chatID == old(params.chatID) && params.text == old(params.text)
    ensures params.replyMarkup != null
    ensures params.replyMarkup.inlineKeyboard == EditKeyboard(opt)
    ensures old(params.replyMarkup) != null ==>
      params.replyMarkup == old(params.replyMarkup)
      && rollback == EditInlineKeyboard(old(params.replyMarkup.inlineKeyboard))
    ensures old(params.replyMarkup) == null ==>
      fresh(params.replyMarkup) && rollback == EditInlineKeyboard([])
  {
    var keyboard: Keyboard;
    match opt {
      case EditInlineKeyboard(k) => keyboard := k;
      case EditInlineButtons(b) => keyboard := Column(b);
    }
    if params.replyMarkup == null {
      params.replyMarkup := new InlineKeyboardMarkup();
    }
    var previous := params.replyMarkup.inlineKeyboard;
    params.replyMarkup.inlineKeyboard := keyboard;
    rollback := EditInlineKeyboard(previous);
  }

  /** An option followed by its rollback leaves the keyboard that was there before (none becomes empty). */
  method SendRollback(params: SendMessageParams, opt: SendMessageOption)
    modifies params, params.replyMarkup, if params.replyMarkup != null then params.replyMarkup.inlineKeyboardMarkup else null
    ensures params.replyMarkup != null && params.replyMarkup.inlineKeyboardMarkup != null
    ensures params.replyMarkup.inlineKeyboardMarkup.inlineKeyboard ==
      if old(params.replyMarkup) != null && old(params.replyMarkup.inlineKeyboardMarkup) != null
      then old(params.replyMarkup.inlineKeyboardMarkup.inlineKeyboard) else []
  {
    var rollback := ApplySend(params, opt);
    rollback := ApplySend(params, rollback);
  }

  /** The same round trip for edit options. */
  method EditRollback(params: EditMessageTextParams, opt: EditMessageTextOption)
    modifies params, params.replyMarkup
    ensures params.replyMarkup != null
    ensures params.replyMarkup.inlineKeyboard ==
      if old(params.replyMarkup) != null then old(params.replyMarkup.inlineKeyboard) else []
  {
    var rollback := ApplyEdit(params, opt);
    rollback := ApplyEdit(params, rollback);
  }
}

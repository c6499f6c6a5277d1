/** `inline_keyboard_button.go`: rewriting a button's callback data, and `SetText`. */
module InlineButtons {
  import opened Wrappers
  import opened GoStrings
  import opened Types
  import opened Helpers

  /** The callback data up to its first space: the part a button handler is registered under. */
  function Command(data: string): (r: string)
    ensures r <= data && ' ' !in r
    ensures ' ' !in data ==> r == data
    ensures ' ' in data ==> |r| < |data| && data[|r|] == ' '
  {
    Cut(data, ' ').before
  }

  /**
   * `WithArgs`: a copy of the button whose callback data is its command
   * followed, when there are arguments, by a space and the arguments joined
   * by spaces. Every other field is copied.
   */
  function WithArgs(b: InlineKeyboardButton, args: seq<string>): (r: InlineKeyboardButton)
    ensures r == b.(callbackData := r.callbackData)
    ensures Command(r.callbackData) == Command(b.callbackData)
    ensures |args| == 0 ==> r.callbackData == Command(b.callbackData)
    ensures |args| > 0 ==> r.callbackData == Command(b.callbackData) + " " + Join(args, " ")
  {
    var base := Command(b.callbackData);
    if |args| != 0 then
      CutOfSplit(base, ' ', Join(args, " "));
      b.(callbackData := base + " " + Join(args, " "))
    else
      b.(callbackData := base)
  }

  /**
   * `WithPayload`: a copy of the button whose callback data is its command
   * followed, when the payload is non-empty, by a space and the payload.
   */
  function WithPayload(b: InlineKeyboardButton, payload: string): (r: InlineKeyboardButton)
    ensures r == b.(callbackData := r.callbackData)
    ensures Command(r.callbackData) == Command(b.callbackData)
    ensures payload == "" ==> r.callbackData == Command(b.callbackData)
    ensures payload != "" ==> r.callbackData == Command(b.callbackData) + " " + payload
  {
    var base := Command(b.callbackData);
    if payload != "" then
      CutOfSplit(base, ' ', payload);
      b.(callbackData := base + " " + payload)
    else
      b.(callbackData := base)
  }

  /** The payload written by `WithPayload` is what `ExtractPayload` reads back. */
  lemma PayloadRoundTrip(b: InlineKeyboardButton, payload: string)
    ensures ExtractPayload(WithPayload(b, payload).callbackData) == payload
  {
    var base := Command(b.callbackData);
    if payload != "" {
      ExtractPayloadOfSplit(base, payload);
    }
  }

  /** The arguments written by `WithArgs` are what `ExtractArgs` reads back, when the command is a word and the arguments are words. */
  lemma ArgsRoundTrip(b: InlineKeyboardButton, args: seq<string>)
    requires Command(b.callbackData) != "" && NoSpace(Command(b.callbackData))
    requires forall i :: 0 <= i < |args| ==> args[i] != "" && NoSpace(args[i])
    ensures ExtractArgs(WithArgs(b, args).callbackData) == Some(args)
  {
    ExtractArgsOfJoin(Command(b.callbackData), args);
  }

  /** A Go `*InlineKeyboardButton`: a shared, mutable button. */
  class ButtonRef {
    var button: InlineKeyboardButton

    constructor (b: InlineKeyboardButton)
      ensures button == b
    {
      button := b;
    }

    /** `SetText`: overwrites the text in place and returns the same pointer. */
    method SetText(text: string) returns (r: ButtonRef)
      modifies this
      ensures r == this
      ensures button == old(button).(text := text)
    {
      button := button.(text := text);
      r := this;
    }
  }
}

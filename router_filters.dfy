/** `router_filters.go` and the inline-button filter of `router.go`: predicates over the dispatch context. */
module Filters {
  import opened Wrappers
  import opened GoStrings
  import opened Types
  import InlineButtons

  /**
   * What a filter can see of a dispatch context: its text (`ctx.Text()`,
   * derived from the update by generated code that is not part of this
   * model) and the update itself.
   */
  datatype View = View(text: string, update: Update)

  /** `Filter`: a predicate over the context. */
  type Filter = View -> bool

  /** `FilterText(s)`: the text equals s. */
  function FilterText(s: string): (f: Filter)
    ensures forall v :: f(v) <==> v.text == s
  {
    (v: View) => v.text == s
  }

  /** The body of `FilterCommand(s)` applied to a text, as written. */
  predicate CommandMatches(s: string, text: string) {
    if s == "" then false
    else if text == "" || text[0] != '/' then false
    else if text == s then true
    else if Cut(text, '@').found && Cut(text, '@').before == s then true
    else if Cut(text, ' ').found && Cut(text, ' ').before == s then true
    else false
  }

  /** `FilterCommand(s)`: whether the context text is the command s. */
  function FilterCommand(s: string): (f: Filter)
    ensures forall v :: f(v) <==> CommandMatches(s, v.text)
  {
    (v: View) => CommandMatches(s, v.text)
  }

  /**
   * A text is the command s exactly when s is non-empty, the text starts with
   * `/`, and the text is s itself, or s followed by `@` (s holding no `@`),
   * or s followed by a space (s holding no space).
   */
  lemma CommandMatchesSpec(s: string, text: string)
    ensures CommandMatches(s, text) <==>
      s != "" && text != "" && text[0] == '/'
      && (text == s || (s + "@" <= text && '@' !in s) || (s + " " <= text && ' ' !in s))
  {
    CutBefore(text, '@', s);
    CutBefore(text, ' ', s);
  }

  /** `FilterMessageDocument`: the update carries a message with a document. */
  function FilterMessageDocument(): (f: Filter)
    ensures forall v :: f(v) <==> v.update.message.Some? && v.update.message.value.document.Some?
  {
    (v: View) => v.update.message.Some? && v.update.message.value.document.Some?
  }

  /** `FilterMessageVideo`: the update carries a message with a video. */
  function FilterMessageVideo(): (f: Filter)
    ensures forall v :: f(v) <==> v.update.message.Some? && v.update.message.value.video.Some?
  {
    (v: View) => v.update.message.Some? && v.update.message.value.video.Some?
  }

  /** `FilterMessageContact`: the update carries a message with a contact. */
  function FilterMessageContact(): (f: Filter)
    ensures forall v :: f(v) <==> v.update.message.Some? && v.update.message.value.contact.Some?
  {
    (v: View) => v.update.message.Some? && v.update.message.value.contact.Some?
  }

  /** The filter `HandleInlineKeyboardButton` registers, as written: the data is the button's, or starts with it up to the first space. */
  function InlineButtonFilter(b: InlineKeyboardButton): (f: Filter)
    ensures forall v :: f(v) <==> (v.update.callbackQuery.Some? &&
      (v.update.callbackQuery.value.data == b.callbackData
       || (Cut(v.update.callbackQuery.value.data, ' ').found && Cut(v.update.callbackQuery.value.data, ' ').before == b.callbackData)))
  {
    (v: View) => v.update.callbackQuery.Some? &&
      var data := v.update.callbackQuery.value.data;
      var c := Cut(data, ' ');
      data == b.callbackData || (c.found && c.before == b.callbackData)
  }

  /** The inline-button filter matches exactly the button's data, or the button's data followed by a space and anything, when it has no space itself. */
  lemma InlineButtonFilterSpec(b: InlineKeyboardButton, v: View)
    ensures InlineButtonFilter(b)(v) <==> (v.update.callbackQuery.Some? &&
      (v.update.callbackQuery.value.data == b.callbackData
       || (b.callbackData + " " <= v.update.callbackQuery.value.data && ' ' !in b.callbackData)))
  {
    if v.update.callbackQuery.Some? {
      CutBefore(v.update.callbackQuery.value.data, ' ', b.callbackData);
    }
  }

  /** A button whose data has no space still routes to its handler after `WithPayload` or `WithArgs` rewrote the data. */
  lemma RewrittenButtonRoutes(b: InlineKeyboardButton, payload: string, args: seq<string>, v: View)
    requires ' ' !in b.callbackData
    requires v.update.callbackQuery.Some?
    requires v.update.callbackQuery.value.data == InlineButtons.WithPayload(b, payload).callbackData
          || v.update.callbackQuery.value.data == InlineButtons.WithArgs(b, args).callbackData
    ensures InlineButtonFilter(b)(v)
  {
    InlineButtonFilterSpec(b, v);
  }
}

/** `types_message.go` and `types_callback_query.go`: payload and arguments of a message text or callback data. */
module MessageText {
  import opened Wrappers
  import opened GoStrings
  import opened Types
  import opened Helpers

  /** `Message.Payload`: the text after the first space of the message text. */
  function MessagePayload(m: Message): (r: string)
    ensures r == ExtractPayload(m.text)
    ensures ' ' !in m.text ==> r == ""
  {
    ExtractPayload(m.text)
  }

  /** `Message.Args`: the fields of the message text after the command; nil when the text has no field. */
  function MessageArgs(m: Message): (r: Option<seq<string>>)
    ensures r == ExtractArgs(m.text)
    ensures AllSpace(m.text) <==> r.None?
  {
    ExtractArgs(m.text)
  }

  /** `CallbackQuery.Payload`: the callback data after its first space. */
  function CallbackPayload(q: CallbackQuery): (r: string)
    ensures r == ExtractPayload(q.data)
    ensures ' ' !in q.data ==> r == ""
  {
    ExtractPayload(q.data)
  }

  /** `CallbackQuery.Args`: the fields of the callback data except the first word. */
  function CallbackArgs(q: CallbackQuery): (r: Option<seq<string>>)
    ensures r == ExtractArgs(q.data)
    ensures r.Some? ==> Fields(q.data) == [Fields(q.data)[0]] + r.value
  {
    ExtractArgs(q.data)
  }
}

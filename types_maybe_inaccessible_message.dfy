/** `types_maybe_inaccessible_message.go`: a message that may have been deleted or be too old to read. */
module MaybeInaccessible {
  import opened Wrappers
  import opened Types
  import opened GoStrings

  /** Why decoding the JSON failed; the decoder itself is not modelled. */
  datatype DecodeError = DecodeError(reason: string)

  /** The Go struct with its two pointer fields; nil is `None`. */
  class MaybeInaccessibleMessage {
    var message: Option<Message>
    var inaccessible: Option<InaccessibleMessage>

    /** The zero value: both pointers nil. */
    constructor ()
      ensures message == None && inaccessible == None
    {
      message := None;
      inaccessible := None;
    }

    /**
     * The selection done by `UnmarshalJSON` once the JSON has been decoded
     * into a `Message`: a decode error is returned as it is and changes
     * nothing; a non-zero date keeps the message; a zero date marks the
     * message inaccessible, keeping only its chat and id.
     */
    method UnmarshalJSON(decoded: Result<Message, DecodeError>) returns (err: Option<DecodeError>)
      modifies this
      ensures decoded.Failure? ==> err == Some(decoded.error) && message == old(message) && inaccessible == old(inaccessible)
      ensures decoded.Success? ==> err == None
      ensures decoded.Success? && decoded.value.date != 0 ==>
        message == Some(decoded.value) && inaccessible == old(inaccessible)
      ensures decoded.Success? && decoded.value.date == 0 ==>
        inaccessible == Some(InaccessibleMessage(decoded.value.chat, decoded.value.messageID)) && message == old(message)
      ensures decoded.Success? && old(message).None? ==>
        MessageID() == Some(decoded.value.messageID) && Chat() == Some(decoded.value.chat)
    {
      if decoded.Failure? {
        return Some(decoded.error);
      }
      var v := decoded.value;
      if v.date != 0 {
        message := Some(v);
      } else {
        inaccessible := Some(InaccessibleMessage(v.chat, v.messageID));
      }
      return None;
    }

    /** At least one side is set: the accessors dereference one of the two pointers. */
    predicate Set()
      reads this
    {
      message.Some? || inaccessible.Some?
    }

    /**
     * `MessageID`: the accessible message's id if there is one, else the
     * inaccessible one's. With neither set Go dereferences a nil pointer and
     * panics, which is `None`.
     */
    function MessageID(): (id: Option<Int64>)
      reads this
      ensures id.Some? <==> Set()
      ensures message.Some? ==> id == Some(message.value.messageID)
      ensures message.None? && inaccessible.Some? ==> id == Some(inaccessible.value.messageID)
    {
      if message.Some? then Some(message.value.messageID)
      else if inaccessible.Some? then Some(inaccessible.value.messageID)
      else None
    }

    /** `Chat`: the accessible message's chat if there is one, else the inaccessible one's; `None` for the nil dereference. */
    function Chat(): (c: Option<Types.Chat>)
      reads this
      ensures c.Some? <==> Set()
      ensures message.Some? ==> c == Some(message.value.chat)
      ensures message.None? && inaccessible.Some? ==> c == Some(inaccessible.value.chat)
    {
      if message.Some? then Some(message.value.chat)
      else if inaccessible.Some? then Some(inaccessible.value.chat)
      else None
    }
  }
}

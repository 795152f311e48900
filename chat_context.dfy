/** The part of a Telegraf context the handlers use: the replies they send (with any
    inline keyboard), the messages they delete, and the texts they write over the
    message whose button was pressed. Message ids are positions in `sent`. */
module ChatContext {

  /** An inline-keyboard button: its caption and the callback data it sends back. */
  datatype Button = Button(caption: string, data: string)

  datatype Message = Message(text: string, buttons: seq<Button>)

  /** The texts of the sent messages, in order. */
  function Texts(sent: seq<Message>): (texts: seq<string>)
    ensures |texts| == |sent|
    ensures forall i :: 0 <= i < |sent| ==> texts[i] == sent[i].text
  {
    seq(|sent|, i requires 0 <= i < |sent| => sent[i].text)
  }

  lemma TextsAppend(a: seq<Message>, b: seq<Message>)
    ensures Texts(a + b) == Texts(a) + Texts(b)
  {
  }

  class Context {
    var sent: seq<Message>
    var deleted: set<nat>
    var edits: seq<string>

    constructor ()
      ensures sent == [] && deleted == {} && edits == []
    {
      sent := [];
      deleted := {};
      edits := [];
    }

    /** `ctx.reply(text)`, answering the id of the new message. */
    method Reply(text: string) returns (id: nat)
      modifies this
      ensures sent == old(sent) + [Message(text, [])] && id == |old(sent)|
      ensures deleted == old(deleted) && edits == old(edits)
    {
      id := |sent|;
      sent := sent + [Message(text, [])];
    }

    /** `ctx.reply(text, { reply_markup: { inline_keyboard: [buttons] } })` */
    method ReplyWithButtons(text: string, buttons: seq<Button>)
      modifies this
      ensures sent == old(sent) + [Message(text, buttons)]
      ensures deleted == old(deleted) && edits == old(edits)
    {
      sent := sent + [Message(text, buttons)];
    }

    /** `ctx.telegram.deleteMessage(chatId, id)` */
    method DeleteMessage(id: nat)
      modifies this
      ensures deleted == old(deleted) + {id}
      ensures sent == old(sent) && edits == old(edits)
    {
      deleted := deleted + {id};
    }

    /** `ctx.editMessageText(text)` on the message carrying the pressed button. */
    method EditMessageText(text: string)
      modifies this
      ensures edits == old(edits) + [text]
      ensures sent == old(sent) && deleted == old(deleted)
    {
      edits := edits + [text];
    }
  }
}

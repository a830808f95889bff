/** The chat transport, reduced to what the handlers do with it: answer a
    callback query and send text messages, recorded in order in an outbox. */
module Transport {

  datatype Event = Sent(chatId: int, text: string) | Answered

  /** One `Sent` event per text, in order. */
  function SentAll(chatId: int, texts: seq<string>): (r: seq<Event>)
    ensures |r| == |texts|
    ensures forall i :: 0 <= i < |texts| ==> r[i] == Sent(chatId, texts[i])
    decreases |texts|
  {
    if |texts| == 0 then [] else [Sent(chatId, texts[0])] + SentAll(chatId, texts[1..])
  }

  /** What the user of chat `chatId` reads, in order. */
  function TextsTo(chatId: int, events: seq<Event>): seq<string>
    decreases |events|
  {
    if |events| == 0 then []
    else
      var rest := TextsTo(chatId, events[1..]);
      match events[0]
      case Sent(id, text) => if id == chatId then [text] + rest else rest
      case Answered => rest
  }

  /** The recipient reads exactly the texts sent to it, in the order sent. */
  lemma {:induction false} TextsToSentAll(chatId: int, texts: seq<string>)
    ensures TextsTo(chatId, SentAll(chatId, texts)) == texts
    decreases |texts|
  {
    if |texts| > 0 {
      TextsToSentAll(chatId, texts[1..]);
    }
  }

  lemma {:induction false} TextsToAppend(chatId: int, a: seq<Event>, b: seq<Event>)
    ensures TextsTo(chatId, a + b) == TextsTo(chatId, a) + TextsTo(chatId, b)
    decreases |a|
  {
    if |a| > 0 {
      assert (a + b)[1..] == a[1..] + b;
      TextsToAppend(chatId, a[1..], b);
    } else {
      assert a + b == b;
    }
  }

  class Bot {
    var outbox: seq<Event>

    constructor ()
      ensures outbox == []
    {
      outbox := [];
    }

    /** `context.bot.send_message(chat_id=chatId, text=text)`. */
    method SendMessage(chatId: int, text: string)
      modifies this
      ensures outbox == old(outbox) + [Sent(chatId, text)]
    {
      outbox := outbox + [Sent(chatId, text)];
    }

    /** `query.answer()`. */
    method AnswerCallbackQuery()
      modifies this
      ensures outbox == old(outbox) + [Answered]
    {
      outbox := outbox + [Answered];
    }

    /** `for chunk in chunks: send_message(chat_id=chatId, text=chunk)`. */
    method SendEach(chatId: int, texts: seq<string>)
      modifies this
      ensures outbox == old(outbox) + SentAll(chatId, texts)
    {
      for i := 0 to |texts|
        invariant outbox == old(outbox) + SentAll(chatId, texts[..i])
      {
        assert SentAll(chatId, texts[..i + 1]) == SentAll(chatId, texts[..i]) + [Sent(chatId, texts[i])];
        SendMessage(chatId, texts[i]);
      }
      assert texts[..|texts|] == texts;
    }
  }
}

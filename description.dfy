/** `get_description`: the description title and body, sent in chunks. */
module Description {
  import opened Text
  import opened Chunking
  import opened Consts
  import opened Transport
  import opened Messages

  /** `message_with_title`. */
  function DescriptionText(m: Messages): string {
    m.descriptionTitle + m.descriptionInfo
  }

  /** `data_chunks`. */
  function DescriptionChunks(cfg: Config, m: Messages): seq<string> {
    Chunks(DescriptionText(m), cfg.maxMessageLength)
  }

  method GetDescription(bot: Bot, cfg: Config, m: Messages, chatId: int)
    modifies bot
    ensures bot.outbox == old(bot.outbox) + SentAll(chatId, DescriptionChunks(cfg, m))
  {
    var messageWithTitle := m.descriptionTitle + m.descriptionInfo;
    var dataChunks := Chunks(messageWithTitle, cfg.maxMessageLength);
    bot.SendEach(chatId, dataChunks);
  }

  /** What the chat reads, put back together, is the title followed by the body. */
  lemma DescriptionDelivered(cfg: Config, m: Messages, chatId: int)
    ensures Concat(TextsTo(chatId, SentAll(chatId, DescriptionChunks(cfg, m))))
            == m.descriptionTitle + m.descriptionInfo
  {
    TextsToSentAll(chatId, DescriptionChunks(cfg, m));
    ChunksConcat(DescriptionText(m), cfg.maxMessageLength);
  }

  /** The number of messages: none for empty texts, ceil(len / max) otherwise,
      each within the limit and all but the last exactly at it. */
  lemma DescriptionMessageCount(cfg: Config, m: Messages)
    ensures var c := DescriptionChunks(cfg, m); var n := |DescriptionText(m)|;
            (n == 0 <==> |c| == 0)
            && (n > 0 ==> (|c| - 1) * cfg.maxMessageLength < n <= |c| * cfg.maxMessageLength)
            && (forall k :: 0 <= k < |c| ==> 0 < |c[k]| <= cfg.maxMessageLength)
            && (forall k :: 0 <= k < |c| - 1 ==> |c[k]| == cfg.maxMessageLength)
  {
    CeilDivIsCeiling(|DescriptionText(m)|, cfg.maxMessageLength);
  }
}

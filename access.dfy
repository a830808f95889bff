/** `is_admin` and `is_client`: who a chat is, judged by its id as text. */
module Access {
  import opened Text
  import opened Consts

  /** `user_chat_id == cfg.ADMIN_CHAT_ID`. */
  predicate IsAdmin(cfg: Config, chatKey: string) {
    chatKey == cfg.adminChatId
  }

  /** `user_chat_id in cfg.CLIENT_CHAT_ID`, as written: `CLIENT_CHAT_ID` is a
      string, so this is a substring test. */
  predicate IsClient(cfg: Config, chatKey: string) {
    Contains(cfg.clientChatId, chatKey)
  }

  /** The substring test accepts the client's own id ... */
  lemma ClientIsClient(cfg: Config)
    ensures IsClient(cfg, cfg.clientChatId)
  {
    ContainsAt(cfg.clientChatId, cfg.clientChatId, 0);
  }

  /** ... but also another chat whose id is a piece of the client's id. */
  lemma IsClientAdmitsOtherChat(cfg: Config)
    requires cfg.clientChatId == "1234567890"
    ensures IsClient(cfg, "23456") && "23456" != cfg.clientChatId
  {
    assert cfg.clientChatId[1..6] == "23456";
    ContainsAt(cfg.clientChatId, "23456", 1);
  }

  /** The evidently intended check: the chat is the client exactly. */
  predicate IsClientExact(cfg: Config, chatKey: string) {
    chatKey == cfg.clientChatId
  }

  /** The exact check is the substring test restricted to whole ids. */
  lemma IsClientExactIff(cfg: Config, chatKey: string)
    ensures IsClientExact(cfg, chatKey) <==> IsClient(cfg, chatKey) && |chatKey| == |cfg.clientChatId|
  {
    if IsClient(cfg, chatKey) && |chatKey| == |cfg.clientChatId| {
      var k :| 0 <= k <= |cfg.clientChatId| - |chatKey| && OccursAt(cfg.clientChatId, chatKey, k);
      assert k == 0;
      assert cfg.clientChatId[0..|chatKey|] == cfg.clientChatId;
    }
    if IsClientExact(cfg, chatKey) {
      ClientIsClient(cfg);
    }
  }
}

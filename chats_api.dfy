/**
 * The chat endpoints (backend/api/endpoints/chats.py): reading a chat, opening a chat between the
 * caller and a partner, and posting a message.
 */
module ChatsApi {
  import opened Util
  import opened Tables
  import opened Database
  import opened Http

  /** `get_chat_by_id`: the chat, or 404. */
  function GetChatById(db: Store, chatId: int): (r: Reply<Chat>)
    reads db
    ensures r.Fail? <==> forall c :: c in db.chats ==> c.chatId != chatId
    ensures r.Fail? ==> r.status == NotFound
    ensures r.Done? ==> r.body in db.chats && r.body.chatId == chatId
  {
    match db.ChatById(chatId)
    case None => Fail(NotFound)
    case Some(c) => Done(c)
  }

  /**
   * `create_chat`: 400 when the two users already share a chat, in either order; then 404 when
   * either user is unknown; otherwise one chat is added and both ids are echoed. The existence
   * check comes first, so 400 wins over 404.
   */
  method CreateChat(db: Store, currentUserId: int, partnerId: int) returns (r: Reply<(int, int)>)
    requires db.Valid()
    modifies db`chats, db`nextId
    ensures db.Valid()
    ensures old(db.ChatExistsBetween(currentUserId, partnerId)) ==> r == Fail(BadRequest)
    ensures !old(db.ChatExistsBetween(currentUserId, partnerId)) && !db.UserExists(currentUserId) ==> r == Fail(NotFound)
    ensures !old(db.ChatExistsBetween(currentUserId, partnerId)) && !db.UserExists(partnerId) ==> r == Fail(NotFound)
    ensures r.Fail? ==> db.chats == old(db.chats) && db.nextId == old(db.nextId)
    ensures r.Done? <==>
      !old(db.ChatExistsBetween(currentUserId, partnerId)) && db.UserExists(currentUserId) && db.UserExists(partnerId)
    ensures r.Done? ==> r.body == (currentUserId, partnerId)
    ensures r.Done? ==> db.chats == old(db.chats) + [Chat(old(db.nextId), currentUserId, partnerId)]
    ensures r.Done? ==> db.ChatExistsBetween(currentUserId, partnerId) && db.ChatExistsBetween(partnerId, currentUserId)
  {
    if db.ChatExistsBetween(currentUserId, partnerId) {
      return Fail(BadRequest);
    }
    if !db.UserExists(currentUserId) || !db.UserExists(partnerId) {
      return Fail(NotFound);
    }
    var chatId := db.CreateChat(currentUserId, partnerId);
    r := Done((currentUserId, partnerId));
  }

  /** Once two users share a chat, opening one again is refused in both directions. */
  lemma SecondChatRefused(chats: seq<Chat>, chatId: int, user1: int, user2: int)
    ensures ChatExists(chats + [Chat(chatId, user1, user2)], user1, user2)
    ensures ChatExists(chats + [Chat(chatId, user1, user2)], user2, user1)
  {
    assert Chat(chatId, user1, user2) in chats + [Chat(chatId, user1, user2)];
  }

  /** `create_chat_message`: the message is appended without checks, and the request is echoed. */
  method CreateChatMessage(db: Store, chatId: int, userId: int, message: string) returns (r: (int, int, string))
    requires db.Valid()
    modifies db`messages, db`nextId
    ensures db.Valid()
    ensures r == (chatId, userId, message)
    ensures db.messages == old(db.messages) + [ChatMessage(old(db.nextId), chatId, userId, message)]
    ensures db.MessagesOfChat(chatId) == old(db.MessagesOfChat(chatId)) + [ChatMessage(old(db.nextId), chatId, userId, message)]
  {
    var msgId := db.CreateChatMsg(chatId, userId, message);
    FilterAppend(old(db.messages), [ChatMessage(msgId, chatId, userId, message)], MessageOfChat(chatId));
    r := (chatId, userId, message);
  }
}

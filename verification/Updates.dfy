/** Bot API updates as the gateway persists them, and the functions that classify them. */
module Updates {
  import opened Basics
  import opened Decimal

  /** Which of its optional fields an update carries. NoKind is an update with none of them. */
  datatype Kind =
    | Message | EditedMessage | ChannelPost | EditedChannelPost
    | BusinessConnection | BusinessMessage | EditedBusinessMessage | DeletedBusinessMessages
    | CallbackQuery | InlineQuery | ChosenInlineResult | ShippingQuery | PreCheckoutQuery
    | Poll | PollAnswer | MyChatMember | ChatMember | ChatJoinRequest
    | MessageReaction | MessageReactionCount | ChatBoost | RemovedChatBoost
    | PurchasedPaidMedia | ManagedBot | NoKind

  /** chatId is the Chat.ID of the object carried (0 when a callback query has no message);
      date and editDate are the message dates in Unix seconds, 0 when absent. */
  datatype Update = Update(updateId: int, kind: Kind, chatId: int, date: int, editDate: int)

  /** A Redis stream ID "ms-seq", encoded as ms * 2^64 + seq so that ID order is number order. */
  type StreamId = nat

  const SEQ_RANGE: nat := 0x1_0000_0000_0000_0000

  function StreamMillis(id: StreamId): nat { id / SEQ_RANGE }

  function StreamIdText(id: StreamId): string {
    Itoa(StreamMillis(id)) + "-" + Itoa(id % SEQ_RANGE)
  }

  function UpdateChatId(u: Update): int {
    match u.kind
    case Message | EditedMessage | ChannelPost | EditedChannelPost => u.chatId
    case BusinessMessage | EditedBusinessMessage | DeletedBusinessMessages => u.chatId
    case CallbackQuery | ChatJoinRequest | MyChatMember | ChatMember => u.chatId
    case ChatBoost | RemovedChatBoost | MessageReaction | MessageReactionCount => u.chatId
    case _ => 0
  }

  /** The family of updates that share a queue within one chat, if the kind belongs to one. */
  function QueueFamily(k: Kind): Option<string> {
    match k
    case Message | EditedMessage | ChannelPost | EditedChannelPost
      | BusinessMessage | EditedBusinessMessage | DeletedBusinessMessages => Some("message:")
    case MyChatMember | ChatMember | ChatJoinRequest => Some("member:")
    case ChatBoost | RemovedChatBoost => Some("boost:")
    case MessageReaction | MessageReactionCount => Some("reaction:")
    case _ => None
  }

  function WebhookQueueKey(u: Update, id: StreamId): string {
    if UpdateChatId(u) != 0 && QueueFamily(u.kind).Some? then
      QueueFamily(u.kind).value + Itoa(UpdateChatId(u))
    else
      "update:" + StreamIdText(id)
  }

  /** What must arrive in order within a chat: messages with their edits and deletions, changes of
      membership, boosts, and reactions. */
  const MESSAGES := {Message, EditedMessage, ChannelPost, EditedChannelPost, BusinessMessage, EditedBusinessMessage,
                     DeletedBusinessMessages}
  const MEMBERS := {MyChatMember, ChatMember, ChatJoinRequest}
  const BOOSTS := {ChatBoost, RemovedChatBoost}
  const REACTIONS := {MessageReaction, MessageReactionCount}

  predicate SameFamily(k: Kind, l: Kind) {
    || (k in MESSAGES && l in MESSAGES) || (k in MEMBERS && l in MEMBERS)
    || (k in BOOSTS && l in BOOSTS) || (k in REACTIONS && l in REACTIONS)
  }

  predicate SameConversation(u: Update, v: Update) {
    u.chatId == v.chatId != 0 && SameFamily(u.kind, v.kind)
  }

  /** The keys know the same families, and their chats. A callback query has a chat and no family. */
  lemma FamiliesOfKeys(u: Update, v: Update)
    ensures QueueFamily(u.kind).Some? ==> UpdateChatId(u) == u.chatId
    ensures UpdateChatId(u) == if SameFamily(u.kind, u.kind) || u.kind.CallbackQuery? then u.chatId else 0
    ensures QueueFamily(u.kind).Some? && QueueFamily(u.kind) == QueueFamily(v.kind) <==> SameFamily(u.kind, v.kind)
  {
  }

  predicate WithFamily(u: Update) { UpdateChatId(u) != 0 && QueueFamily(u.kind).Some? }

  /** The prefixes of the keys tell the families apart. */
  lemma FamilyNames(k: Kind)
    ensures QueueFamily(k).Some? ==> QueueFamily(k).value in {"message:", "member:", "boost:", "reaction:"}
    ensures (k in MESSAGES ==> QueueFamily(k) == Some("message:")) && (k in MEMBERS ==> QueueFamily(k) == Some("member:"))
    ensures (k in BOOSTS ==> QueueFamily(k) == Some("boost:")) && (k in REACTIONS ==> QueueFamily(k) == Some("reaction:"))
  {
  }

  /** Two different stream entries share a queue exactly when they are of one family and one chat:
      the textual keys never collide. */
  lemma QueueKeysSeparateConversations(u: Update, i: StreamId, v: Update, j: StreamId)
    requires i != j
    ensures WebhookQueueKey(u, i) == WebhookQueueKey(v, j) <==> SameConversation(u, v)
  {
    hide SameFamily, UpdateChatId, QueueFamily;
    FamiliesOfKeys(u, v);
    FamiliesOfKeys(v, u);
    FamilyNames(u.kind);
    FamilyNames(v.kind);
    var a, b := WebhookQueueKey(u, i), WebhookQueueKey(v, j);
    if a == b {
      assert a[0] == b[0] && a[1] == b[1] && a[2] == b[2];
      if WithFamily(u) && WithFamily(v) {
        var f := QueueFamily(u.kind).value;
        assert QueueFamily(v.kind).value == f;
        assert a[|f|..] == Itoa(u.chatId) && b[|f|..] == Itoa(v.chatId);
        ItoaInjective(u.chatId, v.chatId);
      } else {
        assert !WithFamily(u) && !WithFamily(v);
        assert a[7..] == StreamIdText(i) && b[7..] == StreamIdText(j);
        StreamIdTextInjective(i, j);
      }
    }
  }

  lemma StreamIdTextInjective(i: StreamId, j: StreamId)
    requires StreamIdText(i) == StreamIdText(j)
    ensures i == j
  {
    var s := StreamIdText(i);
    var mi, mj := Itoa(StreamMillis(i)), Itoa(StreamMillis(j));
    assert s[|mi|] == '-' && s[|mj|] == '-';
    assert forall k | 0 <= k < |mi| :: s[k] == mi[k] && s[k] != '-';
    assert forall k | 0 <= k < |mj| :: s[k] == mj[k] && s[k] != '-';
    assert |mi| == |mj|;
    assert s[..|mi|] == mi && s[..|mj|] == mj;
    ItoaInjective(StreamMillis(i), StreamMillis(j));
    assert s[|mi| + 1..] == Itoa(i % SEQ_RANGE) && s[|mj| + 1..] == Itoa(j % SEQ_RANGE);
    ItoaInjective(i % SEQ_RANGE, j % SEQ_RANGE);
  }

  /** The name allowed_updates uses for a kind; a removed boost and an empty update have none. */
  function TypeName(k: Kind): string {
    match k
    case Message => "message"
    case EditedMessage => "edited_message"
    case ChannelPost => "channel_post"
    case EditedChannelPost => "edited_channel_post"
    case BusinessConnection => "business_connection"
    case BusinessMessage => "business_message"
    case EditedBusinessMessage => "edited_business_message"
    case DeletedBusinessMessages => "deleted_business_messages"
    case CallbackQuery => "callback_query"
    case InlineQuery => "inline_query"
    case ChosenInlineResult => "chosen_inline_result"
    case ShippingQuery => "shipping_query"
    case PreCheckoutQuery => "pre_checkout_query"
    case Poll => "poll"
    case PollAnswer => "poll_answer"
    case MyChatMember => "my_chat_member"
    case ChatMember => "chat_member"
    case ChatJoinRequest => "chat_join_request"
    case MessageReaction => "message_reaction"
    case MessageReactionCount => "message_reaction_count"
    case ChatBoost => "chat_boost"
    case PurchasedPaidMedia => "purchased_paid_media"
    case ManagedBot => "managed_bot"
    case RemovedChatBoost | NoKind => ""
  }

  predicate UpdateAllowed(u: Update, allowed: seq<string>) {
    allowed == [] || TypeName(u.kind) in allowed
  }

  /** What a filter can name, and how. */
  predicate Names(name: string, k: Kind) {
    || (k.Message? && name == "message") || (k.EditedMessage? && name == "edited_message")
    || (k.ChannelPost? && name == "channel_post") || (k.EditedChannelPost? && name == "edited_channel_post")
    || (k.BusinessConnection? && name == "business_connection")
    || (k.BusinessMessage? && name == "business_message")
    || (k.EditedBusinessMessage? && name == "edited_business_message")
    || (k.DeletedBusinessMessages? && name == "deleted_business_messages")
    || (k.CallbackQuery? && name == "callback_query") || (k.InlineQuery? && name == "inline_query")
    || (k.ChosenInlineResult? && name == "chosen_inline_result")
    || (k.ShippingQuery? && name == "shipping_query") || (k.PreCheckoutQuery? && name == "pre_checkout_query")
    || (k.Poll? && name == "poll") || (k.PollAnswer? && name == "poll_answer")
    || (k.MyChatMember? && name == "my_chat_member") || (k.ChatMember? && name == "chat_member")
    || (k.ChatJoinRequest? && name == "chat_join_request") || (k.MessageReaction? && name == "message_reaction")
    || (k.MessageReactionCount? && name == "message_reaction_count") || (k.ChatBoost? && name == "chat_boost")
    || (k.PurchasedPaidMedia? && name == "purchased_paid_media") || (k.ManagedBot? && name == "managed_bot")
  }

  lemma TheNames()
    ensures TypeName(Message) == "message"
    ensures TypeName(EditedMessage) == "edited_message"
    ensures TypeName(ChannelPost) == "channel_post"
    ensures TypeName(EditedChannelPost) == "edited_channel_post"
    ensures TypeName(BusinessConnection) == "business_connection"
    ensures TypeName(BusinessMessage) == "business_message"
    ensures TypeName(EditedBusinessMessage) == "edited_business_message"
    ensures TypeName(DeletedBusinessMessages) == "deleted_business_messages"
    ensures TypeName(CallbackQuery) == "callback_query"
    ensures TypeName(InlineQuery) == "inline_query"
    ensures TypeName(ChosenInlineResult) == "chosen_inline_result"
    ensures TypeName(ShippingQuery) == "shipping_query"
    ensures TypeName(PreCheckoutQuery) == "pre_checkout_query"
    ensures TypeName(Poll) == "poll"
    ensures TypeName(PollAnswer) == "poll_answer"
    ensures TypeName(MyChatMember) == "my_chat_member"
    ensures TypeName(ChatMember) == "chat_member"
    ensures TypeName(ChatJoinRequest) == "chat_join_request"
    ensures TypeName(MessageReaction) == "message_reaction"
    ensures TypeName(MessageReactionCount) == "message_reaction_count"
    ensures TypeName(ChatBoost) == "chat_boost"
    ensures TypeName(PurchasedPaidMedia) == "purchased_paid_media"
    ensures TypeName(ManagedBot) == "managed_bot"
    ensures TypeName(RemovedChatBoost) == TypeName(NoKind) == ""
  {
  }

  lemma NameOfType(name: string, k: Kind)
    ensures Names(name, k) <==> name == TypeName(k) && !k.RemovedChatBoost? && !k.NoKind?
    ensures k.RemovedChatBoost? || k.NoKind? ==> TypeName(k) == ""
  {
    hide TypeName;
    TheNames();
  }

  /** A filter lets through exactly the types it names, an empty one everything; what has no name
      passes a filter only by the empty name. */
  lemma FilterIsByName(u: Update, allowed: seq<string>)
    ensures UpdateAllowed(u, allowed) <==>
      allowed == [] || (exists name | name in allowed :: Names(name, u.kind))
      || ((u.kind.RemovedChatBoost? || u.kind.NoKind?) && "" in allowed)
  {
    hide TypeName, Names;
    NameOfType(TypeName(u.kind), u.kind);
    forall name | name in allowed && Names(name, u.kind) ensures name == TypeName(u.kind) {
      NameOfType(name, u.kind);
    }
  }

  const MESSAGE_MAX_AGE: int := 24 * 3600 * 1000

  /** A message, or its last edit, more than a day before `now` (milliseconds). */
  predicate StaleMessageUpdate(u: Update, now: int) {
    match u.kind
    case Message | EditedMessage | ChannelPost | EditedChannelPost =>
      var date := if u.editDate != 0 then u.editDate else u.date;
      date != 0 && now - 1000 * date > MESSAGE_MAX_AGE
    case _ => false
  }

  /** The last change of a message counts: one edited within a day is fresh however old it is, one never
      edited goes by its own date, and what has no date, or is no message, is never stale. */
  lemma StaleByItsLastChange(u: Update, now: int)
    ensures u.kind !in {Message, EditedMessage, ChannelPost, EditedChannelPost} ==> !StaleMessageUpdate(u, now)
    ensures u.kind in {Message, EditedMessage, ChannelPost, EditedChannelPost} ==>
      (StaleMessageUpdate(u, now) <==>
        (u.editDate != 0 && now > 1000 * (u.editDate + 86400)) || (u.editDate == 0 != u.date && now > 1000 * (u.date + 86400)))
  {
  }
}

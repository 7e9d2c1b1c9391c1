/** The chat with a seller on a product page (src/components/ChatWidget.tsx):
    the seller's keyword replies and the conversation's send and reply steps.
    The seller's reply arrives after a timer; here it is a step of its own. */
module ChatWidget {
  import opened Types
  import Text
  import Keywords

  /** The seller's canned replies, in the order the chain tests for them, and the fallback. */
  datatype SellerReply =
    | PriceInfo
    | ShippingInfo
    | WarrantyInfo
    | ReturnInfo
    | StockInfo
    | SizeInfo
    | QualityInfo
    | DefaultThanks

  /** The chain of `getSellerResponse`, group by group. */
  const SellerRules: seq<Keywords.Rule<SellerReply>> := [
    Keywords.Rule(["price", "cost"], PriceInfo),
    Keywords.Rule(["shipping", "delivery"], ShippingInfo),
    Keywords.Rule(["warranty", "guarantee"], WarrantyInfo),
    Keywords.Rule(["return", "refund"], ReturnInfo),
    Keywords.Rule(["stock", "available"], StockInfo),
    Keywords.Rule(["size", "fit"], SizeInfo),
    Keywords.Rule(["quality", "material"], QualityInfo)
  ]

  /** `getSellerResponse`: matching is on the lower-cased message. */
  function GetSellerResponse(customerMessage: string): (r: SellerReply) {
    Keywords.FirstMatch(SellerRules, Text.ToLower(customerMessage), DefaultThanks)
  }

  /** The text of each reply. */
  function ReplyText(r: SellerReply): string {
    match r
    case PriceInfo =>
      "The current price is as shown on the product page. We also offer special discounts for bulk orders!"
    case ShippingInfo =>
      "We offer free shipping on orders over $50. Standard delivery takes 3-5 business days."
    case WarrantyInfo =>
      "All our products come with a 1-year manufacturer warranty. We also offer extended warranty options."
    case ReturnInfo =>
      "We have a 30-day return policy. If you're not satisfied, you can return the item for a full refund."
    case StockInfo =>
      "Yes, this item is currently in stock! We recommend ordering soon as inventory can change quickly."
    case SizeInfo =>
      "The sizing information is available in the product description. If you need help finding the right size, let me know your measurements!"
    case QualityInfo =>
      "We only sell high-quality products from trusted manufacturers. All items are thoroughly tested before shipping."
    case DefaultThanks =>
      "Thank you for your question! I'll be happy to help you with any specific details about this product."
  }

  /** The reply is that of the first group with a keyword in the lower-cased
      message, or the thanks when no group matches. */
  lemma SellerResponseIsFirstMatch(customerMessage: string, i: int)
    ensures Keywords.FirstMatching(SellerRules, Text.ToLower(customerMessage), i) ==>
      GetSellerResponse(customerMessage) == SellerRules[i].reply
    ensures Keywords.NoneMatching(SellerRules, Text.ToLower(customerMessage)) ==>
      GetSellerResponse(customerMessage) == DefaultThanks
  {
    Keywords.FirstMatchSpec(SellerRules, Text.ToLower(customerMessage), DefaultThanks);
  }

  /** Only a message without any of the keywords gets the thanks; each reply
      other than the thanks answers a message containing one of its group's
      keywords. */
  lemma SellerReplyHasItsKeyword(customerMessage: string)
    ensures GetSellerResponse(customerMessage) == DefaultThanks <==>
      Keywords.NoneMatching(SellerRules, Text.ToLower(customerMessage))
    ensures GetSellerResponse(customerMessage) != DefaultThanks ==>
      exists i :: 0 <= i < |SellerRules| && SellerRules[i].reply == GetSellerResponse(customerMessage)
        && Keywords.ContainsAny(Text.ToLower(customerMessage), SellerRules[i].keywords)
  {
    var lower := Text.ToLower(customerMessage);
    Keywords.FirstMatchSpec(SellerRules, lower, DefaultThanks);
    if !Keywords.NoneMatching(SellerRules, lower) {
      var i :| Keywords.FirstMatching(SellerRules, lower, i);
      assert SellerRules[i].reply != DefaultThanks;
    }
  }

  /** "return shipping" is answered by the shipping group, which is tested
      before the return group. */
  lemma ReturnShippingGetsShippingInfo()
    ensures GetSellerResponse("return shipping") == ShippingInfo
  {
    var lower := Text.ToLower("return shipping");
    assert lower == "return shipping";
    assert Text.OccursAt(lower, "shipping", 7);
    Keywords.KeywordMatches(lower, SellerRules[1].keywords, 0);
    assert !Keywords.ContainsAny(lower, SellerRules[0].keywords) by {
      forall i | 0 <= i <= |lower| - 5 ensures !Text.OccursAt(lower, "price", i) {
        assert lower[i..i + 5][0] == lower[i] && lower[i..i + 5][1] == lower[i + 1];
        assert lower[i] != 'p' || lower[i + 1] != 'r';
      }
      forall i | 0 <= i <= |lower| - 4 ensures !Text.OccursAt(lower, "cost", i) {
        assert lower[i..i + 4][0] == lower[i] != 'c';
      }
    }
    SellerResponseIsFirstMatch("return shipping", 1);
  }

  // ---------------------------------------------------------------- conversation

  datatype SenderType = FromCustomer | FromSeller

  /** A message in the conversation. */
  datatype ChatMessage = ChatMessage(
    id: string,
    senderId: string,
    senderName: string,
    senderAvatar: string,
    senderType: SenderType,
    message: string,
    timestamp: Timestamp,
    isRead: bool)

  function WelcomeText(sellerName: string): string {
    "Hi! Welcome to " + sellerName + ". How can I help you with this product?"
  }

  /** A customer message is trimmed and non-empty; a seller message carries
      the seller's identity. */
  predicate WellSent(m: ChatMessage, sellerId: string, sellerName: string, sellerAvatar: string) {
    match m.senderType
    case FromCustomer => m.message != "" && Text.Trim(m.message) == m.message
    case FromSeller => m.senderId == sellerId && m.senderName == sellerName && m.senderAvatar == sellerAvatar
  }

  /** The conversation with one seller. */
  class ChatWidgetSession {
    const sellerId: string
    const sellerName: string
    const sellerAvatar: string
    var messages: seq<ChatMessage>
    var message: string
    var isTyping: bool
    /** The sent texts whose two-second timer has not fired yet, oldest first. */
    ghost var pending: seq<string>

    /** Every customer message is trimmed and non-empty, and every seller
        message is sent under the seller's identity. */
    ghost predicate Valid()
      reads this
    {
      forall i :: 0 <= i < |messages| ==> WellSent(messages[i], sellerId, sellerName, sellerAvatar)
    }

    /** The conversation opens with the seller's welcome, already read. */
    constructor(sellerId: string, sellerName: string, sellerAvatar: string, now: Timestamp)
      ensures this.sellerId == sellerId && this.sellerName == sellerName && this.sellerAvatar == sellerAvatar
      ensures messages == [ChatMessage("welcome", sellerId, sellerName, sellerAvatar, FromSeller, WelcomeText(sellerName), now, true)]
      ensures message == "" && !isTyping && pending == []
      ensures Valid()
    {
      pending := [];
      this.sellerId := sellerId;
      this.sellerName := sellerName;
      this.sellerAvatar := sellerAvatar;
      messages := [ChatMessage("welcome", sellerId, sellerName, sellerAvatar, FromSeller, WelcomeText(sellerName), now, true)];
      message := "";
      isTyping := false;
    }

    /** Typing into the input box. */
    method SetMessage(text: string)
      modifies this
      ensures message == text && messages == old(messages) && isTyping == old(isTyping)
      ensures pending == old(pending)
    {
      message := text;
    }

    /** `handleSendMessage` up to the timer: nothing happens when the input is
        blank or nobody is logged in; otherwise the trimmed text is appended as
        the customer's unread message, the box is cleared and the seller starts
        typing. The text the reply will answer is returned and queued. */
    method SendMessage(user: Option<AuthUser>, now: Timestamp) returns (sent: Option<string>)
      requires Valid()
      modifies this
      ensures Valid()
      ensures Text.IsBlank(old(message)) || user.None? ==>
        sent.None? && messages == old(messages) && message == old(message) && isTyping == old(isTyping)
        && pending == old(pending)
      ensures !Text.IsBlank(old(message)) && user.Some? ==>
        && sent == Some(old(message))
        && pending == old(pending) + [old(message)]
        && messages == old(messages) + [ChatMessage("msg-" + Text.NatToString(now), user.value.id, user.value.name,
                                                    user.value.avatar, FromCustomer, Text.Trim(old(message)), now, false)]
        && message == "" && isTyping
    {
      Text.TrimEmptyIffBlank(message);
      if Text.Trim(message) == "" || user.None? {
        return None;
      }
      var text := Text.Trim(message);
      Text.TrimIdempotent(message);
      sent := Some(message);
      pending := pending + [message];
      messages := messages + [ChatMessage("msg-" + Text.NatToString(now), user.value.id, user.value.name,
                                          user.value.avatar, FromCustomer, text, now, false)];
      message := "";
      isTyping := true;
    }

    /** The timer's callback for the oldest pending text: the seller's unread
        reply to that text, trimmed. */
    method DeliverReply(sent: string, now: Timestamp)
      requires Valid()
      requires pending != [] && sent == pending[0]
      modifies this
      ensures Valid()
      ensures messages == old(messages) + [ChatMessage("seller-" + Text.NatToString(now), sellerId, sellerName, sellerAvatar,
                                                       FromSeller, ReplyText(GetSellerResponse(Text.Trim(sent))), now, false)]
      ensures !isTyping && message == old(message)
      ensures pending == old(pending)[1..]
    {
      pending := pending[1..];
      messages := messages + [ChatMessage("seller-" + Text.NatToString(now), sellerId, sellerName, sellerAvatar,
                                          FromSeller, ReplyText(GetSellerResponse(Text.Trim(sent))), now, false)];
      isTyping := false;
    }
  }
}

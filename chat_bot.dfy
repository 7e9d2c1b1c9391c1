/** The help-centre assistant (src/components/ChatBot.tsx): the keyword chain
    that picks a canned reply, and the conversation's send and reply steps.
    The reply arrives after a timer; here it is a step of its own. */
module ChatBot {
  import opened Types
  import Text
  import Keywords

  /** The canned replies, in the order the chain tests for them, and the fallback. */
  datatype BotReply =
    | Greeting
    | AccountHelp
    | PaymentHelp
    | OrderHelp
    | ReturnHelp
    | FoodHelp
    | ShopeePayHelp
    | ShoppingHelp
    | SupportHelp
    | Suggestions

  /** The chain of `generateBotResponse`, group by group. */
  const BotRules: seq<Keywords.Rule<BotReply>> := [
    Keywords.Rule(["hello", "hi", "hey"], Greeting),
    Keywords.Rule(["password", "login", "account"], AccountHelp),
    Keywords.Rule(["payment", "pay", "paylater", "card"], PaymentHelp),
    Keywords.Rule(["order", "shipping", "delivery", "track"], OrderHelp),
    Keywords.Rule(["return", "refund", "cancel"], ReturnHelp),
    Keywords.Rule(["food", "shopeefood", "restaurant"], FoodHelp),
    Keywords.Rule(["shopeepay", "wallet", "balance"], ShopeePayHelp),
    Keywords.Rule(["shop", "buy", "product", "seller"], ShoppingHelp),
    Keywords.Rule(["contact", "support", "help", "agent"], SupportHelp)
  ]

  /** `generateBotResponse`: matching is on the lower-cased message. */
  function GenerateBotResponse(userMessage: string): (r: BotReply) {
    Keywords.FirstMatch(BotRules, Text.ToLower(userMessage), Suggestions)
  }

  /** The text of each reply. */
  function ReplyText(r: BotReply): string {
    match r
    case Greeting =>
      "Hello! Welcome to Shopee Help Center. I can help you with questions about shopping, payments, orders, returns, and more. What would you like to know?"
    case AccountHelp =>
      "For account and password issues:\n\n1. Go to login page and click \"Forgot Password\"\n2. Enter your registered email or phone number\n3. Follow the reset instructions sent to you\n4. If you still can't access your account, please contact our live support.\n\nWould you like me to connect you with a live agent?"
    case PaymentHelp =>
      "I can help with payment issues:\n\n\U{2022} **PayLater**: Check your credit limit and payment history in ShopeePay\n\U{2022} **Card Issues**: Ensure your card details are correct and has sufficient funds\n\U{2022} **Payment Failed**: Try using a different payment method\n\nFor specific PayLater issues, you can contact our Consumer Protection Services. Need more help?"
    case OrderHelp =>
      "For order and shipping questions:\n\n\U{2022} **Track Order**: Go to \"My Orders\" in your profile\n\U{2022} **Shipping Issues**: Contact the seller or our customer service\n\U{2022} **Delivery Problems**: Check your address details and contact info\n\nYou can also track your order using the tracking number provided. Would you like help with a specific order?"
    case ReturnHelp =>
      "For returns and refunds:\n\n\U{2022} **Return Items**: Go to order details and select \"Return/Refund\"\n\U{2022} **Cancellation**: You can cancel orders before they're shipped\n\U{2022} **Refund Process**: Refunds typically take 3-7 business days\n\nMake sure to pack items properly for return shipping. Need help with a specific return?"
    case FoodHelp =>
      "For ShopeeFood orders:\n\n\U{2022} **Cancel Order**: You can cancel before restaurant confirms\n\U{2022} **Delivery Issues**: Contact the delivery partner or restaurant\n\U{2022} **Refunds**: Available for cancelled or problematic orders\n\nShopeeFood has different policies than regular Shopee orders. Need specific help with a food order?"
    case ShopeePayHelp =>
      "For ShopeePay questions:\n\n\U{2022} **Add Money**: Use bank transfer, cards, or cash at partner locations\n\U{2022} **Transaction Issues**: Check your transaction history\n\U{2022} **Security**: Enable PIN and biometric protection\n\nShopeePay offers secure digital payments and rewards. What specific feature do you need help with?"
    case ShoppingHelp =>
      "For shopping on Shopee:\n\n\U{2022} **Product Questions**: Contact the seller directly\n\U{2022} **Seller Issues**: Check seller ratings and reviews\n\U{2022} **Shopping Tips**: Look for Shopee Mall for authentic products\n\U{2022} **Promotions**: Check our daily deals and flash sales\n\nIs there a specific product or seller you need help with?"
    case SupportHelp =>
      "You can contact Shopee support through:\n\n\U{2022} **Live Chat**: Available 24/7 for immediate help\n\U{2022} **Phone Support**: Call our customer service hotline\n\U{2022} **Email**: Send detailed questions to our support team\n\nFor urgent issues like account security, I recommend using Live Chat. Would you like me to connect you with a live agent?"
    case Suggestions =>
      "I'm not sure about that specific question, but I can help you with:\n\n\U{2022} Account and login issues\n\U{2022} Payment and PayLater problems\n\U{2022} Order tracking and shipping\n\U{2022} Returns and refunds\n\U{2022} ShopeeFood orders\n\U{2022} ShopeePay wallet\n\U{2022} General shopping questions\n\nTry asking about any of these topics, or would you like to speak with a live agent?"
  }

  /** The reply is that of the first group with a keyword in the lower-cased
      message, or the suggestions when no group matches. */
  lemma BotResponseIsFirstMatch(userMessage: string, i: int)
    ensures Keywords.FirstMatching(BotRules, Text.ToLower(userMessage), i) ==>
      GenerateBotResponse(userMessage) == BotRules[i].reply
    ensures Keywords.NoneMatching(BotRules, Text.ToLower(userMessage)) ==>
      GenerateBotResponse(userMessage) == Suggestions
  {
    Keywords.FirstMatchSpec(BotRules, Text.ToLower(userMessage), Suggestions);
  }

  /** Matching ignores case: a message and its lower-cased form get the same reply. */
  lemma BotResponseIgnoresCase(userMessage: string)
    ensures GenerateBotResponse(Text.ToLower(userMessage)) == GenerateBotResponse(userMessage)
  {
    Text.ToLowerIsLower(userMessage);
  }

  /** The greeting group is tested first and "hi" occurs inside many words, so
      any message containing "shipping" is answered with the greeting. */
  lemma ShippingGetsGreeting(userMessage: string)
    requires Text.Contains(Text.ToLower(userMessage), "shipping")
    ensures GenerateBotResponse(userMessage) == Greeting
  {
    var lower := Text.ToLower(userMessage);
    assert Text.OccursAt("shipping", "hi", 1);
    Text.ContainsTransitive(lower, "shipping", "hi");
    Keywords.KeywordMatches(lower, BotRules[0].keywords, 1);
    BotResponseIsFirstMatch(userMessage, 0);
  }

  /** Every index of a reply in the chain other than the ShopeePay group's is
      some other reply. */
  lemma ShopeePayRuleIndex(i: int)
    requires 0 <= i < |BotRules| && BotRules[i].reply == ShopeePayHelp
    ensures i == 6
  {
  }

  /** "shopeepay" contains "pay", which the payment group tests earlier: a
      message mentioning ShopeePay is answered by the greeting, account or
      payment group, never by the ShopeePay group. */
  lemma ShopeePayHitsPaymentFirst(userMessage: string)
    requires Text.Contains(Text.ToLower(userMessage), "shopeepay")
    ensures GenerateBotResponse(userMessage) in {Greeting, AccountHelp, PaymentHelp}
  {
    var lower := Text.ToLower(userMessage);
    assert Text.OccursAt("shopeepay", "pay", 6);
    Text.ContainsTransitive(lower, "shopeepay", "pay");
    Keywords.KeywordMatches(lower, BotRules[2].keywords, 1);
    Keywords.FirstMatchSpec(BotRules, lower, Suggestions);
    var i :| Keywords.FirstMatching(BotRules, lower, i);
    assert i <= 2;
  }

  /** The ShopeePay reply is given only to messages with "wallet" or "balance". */
  lemma ShopeePayReplyNeedsWalletOrBalance(userMessage: string)
    requires GenerateBotResponse(userMessage) == ShopeePayHelp
    ensures Text.Contains(Text.ToLower(userMessage), "wallet") || Text.Contains(Text.ToLower(userMessage), "balance")
  {
    var lower := Text.ToLower(userMessage);
    Keywords.FirstMatchSpec(BotRules, lower, Suggestions);
    var i :| Keywords.FirstMatching(BotRules, lower, i);
    ShopeePayRuleIndex(i);
    var keywords := BotRules[6].keywords;
    assert keywords == ["shopeepay", "wallet", "balance"];
    var k :| 0 <= k < 3 && Text.Contains(lower, keywords[k]);
    if k == 0 {
      ShopeePayHitsPaymentFirst(userMessage);
    }
  }

  /** A message with none of the keywords gets the suggestions. */
  lemma NoKeywordGetsSuggestions(userMessage: string)
    requires forall i, k :: 0 <= i < |BotRules| && 0 <= k < |BotRules[i].keywords| ==>
      !Text.Contains(Text.ToLower(userMessage), BotRules[i].keywords[k])
    ensures GenerateBotResponse(userMessage) == Suggestions
  {
    BotResponseIsFirstMatch(userMessage, 0);
  }

  // ---------------------------------------------------------------- conversation

  datatype Message = Message(id: string, text: string, isBot: bool, timestamp: Timestamp)

  const WelcomeText :=
    "Hi! I'm Shopee Assistant. How can I help you today? You can ask me about orders, payments, returns, or any other questions."

  /** The assistant's conversation state. */
  class ChatBotSession {
    var messages: seq<Message>
    var inputText: string
    var isTyping: bool
    /** The sent texts whose timer has not fired yet; with a random delay of
        one to three seconds, they may fire in any order. */
    ghost var pending: multiset<string>

    /** The conversation opens with the assistant's one welcome message. */
    constructor(now: Timestamp)
      ensures messages == [Message("1", WelcomeText, true, now)]
      ensures inputText == "" && !isTyping && pending == multiset{}
    {
      messages := [Message("1", WelcomeText, true, now)];
      pending := multiset{};
      inputText := "";
      isTyping := false;
    }

    /** Typing into the input box. */
    method SetInputText(text: string)
      modifies this
      ensures inputText == text && messages == old(messages) && isTyping == old(isTyping)
      ensures pending == old(pending)
    {
      inputText := text;
    }

    /** `handleSendMessage` up to the timer: a blank input sends nothing;
        otherwise the text, untrimmed, is appended as the user's message, the
        box is cleared and the assistant starts typing. The text the reply
        will answer is returned and awaits its reply. */
    method SendMessage(now: Timestamp) returns (sent: Option<string>)
      modifies this
      ensures Text.IsBlank(old(inputText)) ==>
        sent.None? && messages == old(messages) && inputText == old(inputText) && isTyping == old(isTyping)
        && pending == old(pending)
      ensures !Text.IsBlank(old(inputText)) ==>
        && sent == Some(old(inputText))
        && messages == old(messages) + [Message(Text.NatToString(now), old(inputText), false, now)]
        && inputText == "" && isTyping
        && pending == old(pending) + multiset{old(inputText)}
    {
      Text.TrimEmptyIffBlank(inputText);
      if Text.Trim(inputText) == "" {
        return None;
      }
      sent := Some(inputText);
      pending := pending + multiset{inputText};
      messages := messages + [Message(Text.NatToString(now), inputText, false, now)];
      inputText := "";
      isTyping := true;
    }

    /** The timer's callback for one sent text: the assistant's reply to it,
        with id `now + 1`. */
    method DeliverReply(userText: string, now: Timestamp)
      requires userText in pending
      modifies this
      ensures messages == old(messages) + [Message(Text.NatToString(now + 1), ReplyText(GenerateBotResponse(userText)), true, now)]
      ensures !isTyping && inputText == old(inputText)
      ensures pending == old(pending) - multiset{userText}
    {
      pending := pending - multiset{userText};
      messages := messages + [Message(Text.NatToString(now + 1), ReplyText(GenerateBotResponse(userText)), true, now)];
      isTyping := false;
    }
  }
}

/**
 * The deployed bot (`main.py`): canned replies, the update dispatcher, the
 * change monitor and the polling cursor, with the subscriber set saved to
 * storage after every change.
 */
module MainBot {
  import opened Wrappers
  import opened Text
  import opened Language
  import opened Commands
  import opened Telegram
  import opened Broadcasting
  import opened Monitor

  /** The "timing" keywords of `ai_reply`. */
  const TimingWords: seq<string> := ["متى", "وقت", "مفتوح"]
  /** The "documents" keywords of `ai_reply`. */
  const DocumentWords: seq<string> := ["كيف", "وثائق", "documents"]

  const TimingAnswers: Table := Table(
    "الموقع لا يملك وقت ثابت، سنرسل لك إشعاراً أول ما يفتح.",
    "Le site n'a pas d'horaire fixe. Nous vous enverrons une alerte dès qu'il ouvre.",
    "The site has no fixed opening time. You'll get notified when it opens.")
  const DocumentAnswers: Table := Table(
    "الوثائق المطلوبة عادة: بطاقة وطنية، شهادة الحالة، تحقق من الوكالة.",
    "Documents typiques: carte d'identité, justificatif, vérifiez localement.",
    "Typical docs: ID card, proof of status, check locally.")
  const GeneralAnswers: Table := Table(
    "أستطيع تنبيهك عند فتح الموقع أو الإجابة عن أسئلة بسيطة. اكتب /minha.",
    "Je peux vous alerter ou répondre à des questions simples. Tapez /minha.",
    "I can alert you or answer simple questions. Type /minha.")

  /** The confirmation of `/minha`. */
  const SubscribedText: Table := Table("تم تفعيل التنبيه.", "Abonnement activé.", "Subscription activated.")

  /**
   * `ai_reply`: the timing group is tried first, then the documents group,
   * then the general answer; each answer is `table[lang]`, which raises
   * (`None`) for a tag other than the three known ones.
   */
  function AiReply(userText: string, lang: string): (r: Option<string>)
    ensures r.Some? <==> IsTag(lang)
    ensures Mentions(userText, TimingWords) ==> r == TimingAnswers.Index(lang)
    ensures !Mentions(userText, TimingWords) && Mentions(userText, DocumentWords) ==> r == DocumentAnswers.Index(lang)
    ensures !Mentions(userText, TimingWords) && !Mentions(userText, DocumentWords) ==> r == GeneralAnswers.Index(lang)
  {
    var t := Lower(userText);
    if ContainsAny(t, TimingWords) then TimingAnswers.Index(lang)
    else if ContainsAny(t, DocumentWords) then DocumentAnswers.Index(lang)
    else GeneralAnswers.Index(lang)
  }

  /** A text in both keyword groups gets the timing answer. */
  lemma TimingBeforeDocuments(userText: string, lang: string)
    requires Mentions(userText, TimingWords) && Mentions(userText, DocumentWords)
    ensures AiReply(userText, lang) == TimingAnswers.Index(lang)
  {
  }

  /** Whatever a text says, `ai_reply` answers in the language detected for any text. */
  lemma AiReplyAnswersDetectedLanguage(userText: string, anyText: string)
    ensures AiReply(userText, DetectLanguage(anyText)).Some?
  {
  }

  /** The reply to `/stop` and `/unsubscribe`: Arabic, English, and French for every other tag. */
  function UnsubscribedText(lang: string): (r: string)
    ensures lang == AR ==> r == "تم إلغاء الاشتراك."
    ensures lang == EN ==> r == "Unsubscribed."
    ensures lang != AR && lang != EN ==> r == "Désabonné."
  {
    if lang == AR then "تم إلغاء الاشتراك." else if lang == EN then "Unsubscribed." else "Désabonné."
  }

  /** One `send_message` with `reply`, or the `KeyError` of a failed table lookup. */
  function Reply(subscribers: set<int>, chat: int, reply: Option<string>): (r: StepResult)
    ensures r.subscribers == subscribers
    ensures reply.Some? ==> r.sent == [Outgoing(chat, reply.value)] && !r.raised
    ensures reply.None? ==> r.sent == [] && r.raised
  {
    match reply
    case Some(text) => StepResult(subscribers, [Outgoing(chat, text)], false)
    case None => StepResult(subscribers, [], true)
  }

  /**
   * `process_update`: an update without a message is ignored; a message
   * without a chat id raises; otherwise the text is routed and answered
   * with exactly one send, `/minha` adding and `/stop` or `/unsubscribe`
   * removing the sender.
   */
  function Step(subscribers: set<int>, u: Update): (r: StepResult)
    ensures u.message.None? ==> r == StepResult(subscribers, [], false)
    ensures r.raised <==> u.message.Some? && Sender(u).None?
    ensures Sender(u).Some? ==> |r.sent| == 1 && r.sent[0].chat == Sender(u).value
  {
    match u.message
    case None => StepResult(subscribers, [], false)
    case Some(msg) =>
      var text := msg.text.GetOr("");
      match msg.chat
      case None => StepResult(subscribers, [], true)
      case Some(chat) =>
        var lang := DetectLanguage(text);
        match Route(text)
        case Start => Reply(subscribers, chat, Some(Welcome.GetOrEnglish(lang)))
        case Subscribe => Reply(subscribers + {chat}, chat, SubscribedText.Index(lang))
        case Unsubscribe => Reply(subscribers - {chat}, chat, Some(UnsubscribedText(lang)))
        case Help => Reply(subscribers, chat, HelpText.Index(lang))
        case Chat => Reply(subscribers, chat, AiReply(text, lang))
  }

  /** After `/minha` the sender is subscribed and nobody else changes; a second `/minha` changes nothing. */
  lemma SubscribeAddsSender(subscribers: set<int>, u: Update)
    requires Sender(u).Some? && Route(TextOf(u)) == Subscribe
    ensures Sender(u).value in Step(subscribers, u).subscribers
    ensures forall c | c != Sender(u).value :: c in Step(subscribers, u).subscribers <==> c in subscribers
    ensures Step(Step(subscribers, u).subscribers, u) == Step(subscribers, u)
  {
  }

  /**
   * After `/stop` or `/unsubscribe` the sender is not subscribed and nobody
   * else changes; for a sender who was not subscribed nothing changes, and
   * the reply is the one a subscribed sender gets.
   */
  lemma UnsubscribeRemovesSender(subscribers: set<int>, u: Update)
    requires Sender(u).Some? && Route(TextOf(u)) == Unsubscribe
    ensures Sender(u).value !in Step(subscribers, u).subscribers
    ensures forall c | c != Sender(u).value :: c in Step(subscribers, u).subscribers <==> c in subscribers
    ensures Sender(u).value !in subscribers ==> Step(subscribers, u).subscribers == subscribers
    ensures Step(subscribers, u).sent == Step(subscribers + {Sender(u).value}, u).sent
  {
  }

  /** `/start`, `/help`, `/aide`, unknown commands and plain text leave the subscribers alone. */
  lemma OtherTextsKeepSubscribers(subscribers: set<int>, u: Update)
    requires Route(TextOf(u)) != Subscribe && Route(TextOf(u)) != Unsubscribe
    ensures Step(subscribers, u).subscribers == subscribers
  {
  }

  /**
   * The one reply to a message with a chat id is the one its route picks,
   * in the language detected for its text.
   */
  lemma ReplyFollowsRoute(subscribers: set<int>, u: Update)
    requires Sender(u).Some?
    ensures var r := Step(subscribers, u);
      var text := TextOf(u);
      var lang := DetectLanguage(text);
      && (Route(text) == Start ==> r.sent[0].text == Welcome.GetOrEnglish(lang))
      && (Route(text) == Subscribe ==> SubscribedText.Index(lang) == Some(r.sent[0].text))
      && (Route(text) == Unsubscribe ==> r.sent[0].text == UnsubscribedText(lang))
      && (Route(text) == Help ==> HelpText.Index(lang) == Some(r.sent[0].text))
      && (Route(text) == Chat ==> AiReply(text, lang) == Some(r.sent[0].text))
  {
  }

  /** `/minha` adds the sender and sends the confirmation for the text's language. */
  lemma SubscribeReplies(subscribers: set<int>, u: Update)
    requires Sender(u).Some? && Route(TextOf(u)) == Subscribe
    ensures Step(subscribers, u) == Reply(subscribers + {Sender(u).value}, Sender(u).value, SubscribedText.Index(DetectLanguage(TextOf(u))))
  {
  }

  /** `/minha` holds no Arabic letter. */
  lemma MinhaHasNoArabic()
    ensures !HasArabicLetter("/minha")
  {
    BelowArabicBlock("/minha");
  }

  /** `/minha` holds no French keyword. */
  lemma MinhaHasNoFrench()
    ensures !Mentions("/minha", FrenchKeywords)
  {
    MinhaIsLower();
    RuledOutExcludes("/minha", FrenchKeywords);
  }

  /** `/minha` is English, so the confirmation is the English one. */
  lemma MinhaIsEnglish()
    ensures DetectLanguage("/minha") == EN
  {
    MinhaHasNoArabic();
    MinhaHasNoFrench();
  }

  /** Scenario: chat 100 sends `/minha` and is subscribed, with the English confirmation. */
  lemma MinhaScenario()
    ensures var u := Update(1, Some(Message(Some(100), Some("/minha"))));
      Step({}, u) == StepResult({100}, [Outgoing(100, "Subscription activated.")], false)
  {
    var u := Update(1, Some(Message(Some(100), Some("/minha"))));
    MinhaRoutesToSubscribe();
    MinhaIsEnglish();
    SubscribeReplies({}, u);
  }

  /**
   * The deployed bot's state: the subscriber set, its copy in storage
   * (`subscribers.json`), the page snapshot and the polling cursor.
   */
  class Bot {
    const url: string
    var subscribers: set<int>
    var persisted: set<int>
    var lastContent: Option<string>
    var offset: Option<int>

    /** Storage always holds the in-memory set. */
    ghost predicate Valid()
      reads this
    {
      persisted == subscribers
    }

    /** Start-up: `load_subscribers()` reads the stored list, or starts empty when there is none. */
    constructor (url: string, stored: Option<seq<int>>)
      ensures Valid()
      ensures this.url == url && lastContent == None && offset == None
      ensures stored.None? ==> subscribers == {}
      ensures stored.Some? ==> forall c :: c in subscribers <==> c in stored.value
    {
      this.url := url;
      var loaded: set<int> := if stored.Some? then set c | c in stored.value else {};
      subscribers := loaded;
      persisted := loaded;
      lastContent := None;
      offset := None;
    }

    /** `save_subscribers()`: the whole set is written to storage. */
    method Save()
      modifies this`persisted
      ensures Valid()
    {
      persisted := subscribers;
    }

    /** `process_update`, saving after each change of the set. */
    method ProcessUpdate(u: Update) returns (sent: seq<Outgoing>, raised: bool)
      requires Valid()
      modifies this`subscribers, this`persisted
      ensures Valid()
      ensures StepResult(subscribers, sent, raised) == Step(old(subscribers), u)
    {
      if u.message.None? {
        return [], false;
      }
      var msg := u.message.value;
      var text := msg.text.GetOr("");
      if msg.chat.None? {
        return [], true;
      }
      var chat := msg.chat.value;
      var lang := DetectLanguage(text);
      var reply: Option<string>;
      match Route(text) {
        case Start =>
          reply := Some(Welcome.GetOrEnglish(lang));
        case Subscribe =>
          subscribers := subscribers + {chat};
          Save();
          reply := SubscribedText.Index(lang);
        case Unsubscribe =>
          subscribers := subscribers - {chat};
          Save();
          reply := Some(UnsubscribedText(lang));
        case Help =>
          reply := HelpText.Index(lang);
        case Chat =>
          reply := AiReply(text, lang);
      }
      match reply
      case Some(t) =>
        sent, raised := [Outgoing(chat, t)], false;
      case None =>
        sent, raised := [], true;
    }

    /**
     * One tick of `monitor_loop`: `fetched` is the page body, or `None`
     * when the request raised. A change broadcasts the alert to every
     * subscriber; sends to `unreachable` chats fail on their own.
     */
    method MonitorTick(fetched: Option<string>, unreachable: set<int>) returns (sent: seq<Outgoing>, delivered: set<int>)
      requires Valid()
      modifies this`lastContent
      ensures Valid()
      ensures lastContent == Tick(old(lastContent), fetched).snapshot
      ensures Tick(old(lastContent), fetched).alert ==> IsBroadcast(sent, subscribers, AlertText(url)) && delivered == subscribers - unreachable
      ensures !Tick(old(lastContent), fetched).alert ==> sent == [] && delivered == {}
    {
      sent, delivered := [], {};
      if fetched.None? {
        return;
      }
      var content := fetched.value;
      if lastContent.None? {
        lastContent := Some(content);
      } else if content != lastContent.value {
        lastContent := Some(content);
        sent, delivered := Broadcast(subscribers, AlertText(url), unreachable);
      }
    }

    /**
     * One pass of `updates_loop`: `requested` is the `offset` parameter of
     * the `getUpdates` request, and `response` its decoded reply, or `None`
     * when the request or the decoding raised. Each update moves the cursor
     * past itself before it is processed; an exception ends the pass.
     */
    method PollTick(response: Option<Response>) returns (requested: Option<int>, sent: seq<Outgoing>)
      requires Valid()
      modifies this`subscribers, this`persisted, this`offset
      ensures Valid()
      ensures requested == OffsetParam(old(offset))
      ensures response.None? ==> subscribers == old(subscribers) && offset == old(offset) && sent == []
      ensures response.Some? ==>
        var r := RunBatch(Step, old(subscribers), old(offset), response.value.result);
        subscribers == r.subscribers && offset == r.offset && sent == r.sent
    {
      requested := OffsetParam(offset);
      sent := [];
      if response.None? {
        return;
      }
      var updates := response.value.result;
      ghost var whole := RunBatch(Step, subscribers, offset, updates);
      var i := 0;
      while i < |updates|
        invariant 0 <= i <= |updates|
        invariant Valid()
        invariant whole == Resume(RunBatch(Step, subscribers, offset, updates[i..]), sent, i)
      {
        ghost var before := subscribers;
        ghost var cursor := offset;
        offset := Some(updates[i].updateId + 1);
        var out, raised := ProcessUpdate(updates[i]);
        if raised {
          ResumeRaised(Step, before, cursor, updates, i, sent, whole);
          sent := sent + out;
          return;
        }
        ResumeQuiet(Step, before, cursor, updates, i, sent, whole);
        sent := sent + out;
        i := i + 1;
      }
    }
  }
}

/**
 * The earlier one-file variant of the bot: the same classifier and monitor,
 * different reply texts, English as the fallback language everywhere, a
 * separate reply for `/stop` from a non-subscriber, a check of the `ok` flag
 * of `getUpdates`, and no storage. Its `send_message` does not catch errors,
 * so a failed send inside `process_update` raises.
 */
module OneClickBot {
  import opened Wrappers
  import opened Text
  import opened Language
  import opened Commands
  import opened Telegram
  import opened Broadcasting
  import opened Monitor

  /** The "timing" keywords of this variant's `ai_reply`. */
  const TimingWords: seq<string> := ["متى", "وقت", "متى يفتح", "مفتوح"]
  /** The "documents" keywords of this variant's `ai_reply`. */
  const DocumentWords: seq<string> := ["كيف", "واش لازم", "documents", "وثائق"]

  const TimingAnswers: Table := Table(
    "الموقع لا يملك وقت ثابت، سنرسل لك إشعاراً أول ما يفتح.",
    "Le site n'a pas d'horaire fixe. Nous vous enverrons une alerte dès qu'il ouvre.",
    "The site has no fixed opening time. You'll get notified when it opens.")
  const DocumentAnswers: Table := Table(
    "الوثائق المطلوبة عادة: بطاقة وطنية، شهادة الحالة،... (تحقق محلياً من الوكالة).",
    "Documents typiques: carte d'identité, justificatif de situation, etc. Vérifiez localement.",
    "Typical docs: ID card, proof of status, etc. Check locally with ANEM.")
  const GeneralAnswers: Table := Table(
    "أستطيع تنبيهك عند فتح الموقع أو الإجابة عن أسئلة بسيطة حول المنحة. اكتب /minha للتسجيل في التنبيهات.",
    "Je peux vous alerter quand le site ouvre ou répondre à des questions simples. Tapez /minha.",
    "I can alert you when the site opens or answer simple questions. Type /minha.")

  /** The confirmation of `/minha`. */
  const SubscribedText: Table := Table(
    "تم تفعيل التنبيه: ستحصل على إشعار عند فتح التسجيل.",
    "Abonnement activé: vous recevrez une alerte.",
    "Subscription activated: you'll receive alerts.")

  /** The reply to `/stop` from a subscriber, in Arabic whatever the language. */
  const UnsubscribedText: string := "تم إلغاء الاشتراك. يمكنك إعادة الاشتراك بإرسال /minha"
  /** The reply to `/stop` from a non-subscriber, in English whatever the language. */
  const NotSubscribedText: string := "You are not subscribed."

  /**
   * This variant's `ai_reply`: the same group order as the deployed one, each
   * answer chosen by an if-chain that ends in English, so any tag is answered.
   */
  function AiReply(userText: string, lang: string): (r: string)
    ensures Mentions(userText, TimingWords) ==> r == TimingAnswers.GetOrEnglish(lang)
    ensures !Mentions(userText, TimingWords) && Mentions(userText, DocumentWords) ==> r == DocumentAnswers.GetOrEnglish(lang)
    ensures !Mentions(userText, TimingWords) && !Mentions(userText, DocumentWords) ==> r == GeneralAnswers.GetOrEnglish(lang)
  {
    var t := Lower(userText);
    if ContainsAny(t, TimingWords) then
      (if lang == AR then TimingAnswers.ar else if lang == FR then TimingAnswers.fr else TimingAnswers.en)
    else if ContainsAny(t, DocumentWords) then
      (if lang == AR then DocumentAnswers.ar else if lang == FR then DocumentAnswers.fr else DocumentAnswers.en)
    else
      (if lang == AR then GeneralAnswers.ar else if lang == FR then GeneralAnswers.fr else GeneralAnswers.en)
  }

  /** Any tag other than "ar" and "fr" gets the English answer of its group. */
  lemma UnknownTagGetsEnglish(userText: string, lang: string)
    requires lang != AR && lang != FR
    ensures AiReply(userText, lang) in {TimingAnswers.en, DocumentAnswers.en, GeneralAnswers.en}
    ensures AiReply(userText, lang) == AiReply(userText, EN)
  {
  }

  /**
   * `send_message(chat, text)` as the last act of `process_update`: one post
   * to the chat, raising exactly when that post fails, after the subscriber
   * change of the update has been made.
   */
  function Send(subscribers: set<int>, chat: int, text: string, sendFails: bool): (r: StepResult)
    ensures r.subscribers == subscribers
    ensures |r.sent| == 1 && r.sent[0].chat == chat && r.sent[0].text == text
    ensures r.raised <==> sendFails
  {
    StepResult(subscribers, [Outgoing(chat, text)], sendFails)
  }

  /**
   * This variant's `process_update`. `sendFails` says whether the one
   * `send_message` call of this update raises.
   */
  function Step(subscribers: set<int>, u: Update, sendFails: bool): (r: StepResult)
    ensures u.message.None? ==> r == StepResult(subscribers, [], false)
    ensures Sender(u).Some? ==> |r.sent| == 1 && r.sent[0].chat == Sender(u).value
    ensures r.raised <==> u.message.Some? && (Sender(u).None? || sendFails)
  {
    match u.message
    case None => StepResult(subscribers, [], false)
    case Some(msg) =>
      var text := msg.text.GetOr("");
      match msg.chat
      case None => StepResult(subscribers, [], true)
      case Some(chat) =>
        var lang := DetectLanguage(text);
        match Route(text)
        case Start => Send(subscribers, chat, Welcome.GetOrEnglish(lang), sendFails)
        case Subscribe => Send(subscribers + {chat}, chat, SubscribedText.GetOrEnglish(lang), sendFails)
        case Unsubscribe =>
          if chat in subscribers then Send(subscribers - {chat}, chat, UnsubscribedText, sendFails)
          else Send(subscribers, chat, NotSubscribedText, sendFails)
        case Help => Send(subscribers, chat, HelpText.GetOrEnglish(lang), sendFails)
        case Chat => Send(subscribers, chat, AiReply(text, lang), sendFails)
  }

  /**
   * `process_update` as `updates_loop` calls it, where `failing` holds the
   * ids of the updates whose reply fails to send: each post fails or not on
   * its own, so two updates from one chat may fare differently.
   */
  function StepWith(failing: set<int>): (step: (set<int>, Update) -> StepResult)
    ensures forall s: set<int>, u: Update :: step(s, u).raised <==> u.message.Some? && (Sender(u).None? || u.updateId in failing)
  {
    (s: set<int>, u: Update) => Step(s, u, u.updateId in failing)
  }

  /**
   * Whether a send fails decides only whether the update raises: the
   * subscriber change and the reply are those of a pass where every send
   * gets through.
   */
  lemma FailedSendOnlyRaises(failing: set<int>, subscribers: set<int>, u: Update)
    ensures StepWith(failing)(subscribers, u).subscribers == StepWith({})(subscribers, u).subscribers
    ensures StepWith(failing)(subscribers, u).sent == StepWith({})(subscribers, u).sent
  {
  }

  /**
   * Two updates from chat 5, of which only the second one's reply fails:
   * both are taken and answered, the pass ends at the second, and the
   * cursor moves past it.
   */
  lemma OneChatTwoOutcomes()
    ensures var u1 := Update(1, Some(Message(Some(5), None)));
      var u2 := Update(2, Some(Message(Some(5), None)));
      var r := RunBatch(StepWith({2}), {}, None, [u1, u2]);
      && r.consumed == 2 && r.aborted && r.offset == Some(3)
      && |r.sent| == 2 && r.sent[0].chat == 5 && r.sent[1].chat == 5
  {
    var u1 := Update(1, Some(Message(Some(5), None)));
    var u2 := Update(2, Some(Message(Some(5), None)));
    var step := StepWith({2});
    var s1 := step({}, u1);
    assert !s1.raised;
    assert step(s1.subscribers, u2).raised;
    assert [u1, u2][1..] == [u2];
    assert [u2][1..] == [];
  }

  /** `/minha` subscribes the sender, touches nobody else, and confirms in the detected language. */
  lemma SubscribeConfirmsInLanguage(subscribers: set<int>, u: Update, sendFails: bool)
    requires Sender(u).Some? && Route(TextOf(u)) == Subscribe
    ensures var r := Step(subscribers, u, sendFails);
      && Sender(u).value in r.subscribers
      && (forall c | c != Sender(u).value :: c in r.subscribers <==> c in subscribers)
      && r.sent[0].text == SubscribedText.GetOrEnglish(DetectLanguage(TextOf(u)))
  {
  }

  /**
   * `/stop` and `/unsubscribe` remove a subscribed sender with the Arabic
   * reply; a sender who is not subscribed leaves the set as it was and is
   * told so in English.
   */
  lemma UnsubscribeOnlyWhenSubscribed(subscribers: set<int>, u: Update, sendFails: bool)
    requires Sender(u).Some? && Route(TextOf(u)) == Unsubscribe
    ensures var r := Step(subscribers, u, sendFails);
      var chat := Sender(u).value;
      && (chat in subscribers ==> r.subscribers == subscribers - {chat} && r.sent[0].text == UnsubscribedText)
      && (chat !in subscribers ==> r.subscribers == subscribers && r.sent[0].text == NotSubscribedText)
  {
  }

  /**
   * The one reply to a message with a chat id is the one its route picks,
   * in the language detected for its text, English for any other tag.
   */
  lemma ReplyFollowsRoute(subscribers: set<int>, u: Update, sendFails: bool)
    requires Sender(u).Some?
    ensures var r := Step(subscribers, u, sendFails);
      var text := TextOf(u);
      var lang := DetectLanguage(text);
      && (Route(text) == Start ==> r.sent[0].text == Welcome.GetOrEnglish(lang))
      && (Route(text) == Subscribe ==> r.sent[0].text == SubscribedText.GetOrEnglish(lang))
      && (Route(text) == Help ==> r.sent[0].text == HelpText.GetOrEnglish(lang))
      && (Route(text) == Chat ==> r.sent[0].text == AiReply(text, lang))
  {
  }

  /** Unknown commands, plain text, `/start` and `/help` leave the subscribers alone. */
  lemma OtherTextsKeepSubscribers(subscribers: set<int>, u: Update, sendFails: bool)
    requires Route(TextOf(u)) != Subscribe && Route(TextOf(u)) != Unsubscribe
    ensures Step(subscribers, u, sendFails).subscribers == subscribers
  {
  }

  /** The earlier bot's state: an in-memory subscriber set, the page snapshot and the cursor. */
  class Bot {
    const url: string
    var subscribers: set<int>
    var lastContent: Option<string>
    var offset: Option<int>

    /** Start-up: no subscribers, no snapshot, no cursor. */
    constructor (url: string)
      ensures this.url == url && subscribers == {} && lastContent == None && offset == None
    {
      this.url := url;
      subscribers := {};
      lastContent := None;
      offset := None;
    }

    /** `process_update`; a failed send raises after the subscriber set has changed. */
    method ProcessUpdate(u: Update, sendFails: bool) returns (sent: seq<Outgoing>, raised: bool)
      modifies this`subscribers
      ensures StepResult(subscribers, sent, raised) == Step(old(subscribers), u, sendFails)
    {
      if u.message.None? {
        return [], false;
      }
      var msg := u.message.value;
      var text := msg.text.GetOr("");
      if msg.chat.None? {
        return [], true;
      }
      var chat := msg.chat.value;
      var lang := DetectLanguage(text);
      var reply: string;
      match Route(text) {
        case Start =>
          reply := Welcome.GetOrEnglish(lang);
        case Subscribe =>
          subscribers := subscribers + {chat};
          reply := if lang == AR then SubscribedText.ar else if lang == FR then SubscribedText.fr else SubscribedText.en;
        case Unsubscribe =>
          if chat in subscribers {
            subscribers := subscribers - {chat};
            reply := UnsubscribedText;
          } else {
            reply := NotSubscribedText;
          }
        case Help =>
          reply := HelpText.GetOrEnglish(lang);
        case Chat =>
          reply := AiReply(text, lang);
      }
      sent := [Outgoing(chat, reply)];
      raised := sendFails;
    }

    /**
     * One tick of this variant's `monitor_loop`, which sets a `trigger`
     * flag and broadcasts when it is raised; each send failure is caught on
     * its own.
     */
    method MonitorTick(fetched: Option<string>, unreachable: set<int>) returns (sent: seq<Outgoing>, delivered: set<int>)
      modifies this`lastContent
      ensures lastContent == Tick(old(lastContent), fetched).snapshot
      ensures Tick(old(lastContent), fetched).alert ==> IsBroadcast(sent, subscribers, AlertText(url)) && delivered == subscribers - unreachable
      ensures !Tick(old(lastContent), fetched).alert ==> sent == [] && delivered == {}
    {
      sent, delivered := [], {};
      if fetched.None? {
        return;
      }
      var content := fetched.value;
      var trigger := false;
      if lastContent.None? {
        lastContent := Some(content);
      } else {
        if content != lastContent.value {
          trigger := true;
          lastContent := Some(content);
        }
      }
      if trigger {
        sent, delivered := Broadcast(subscribers, AlertText(url), unreachable);
      }
    }

    /**
     * One pass of this variant's `updates_loop`: the request carries the
     * cursor as in the deployed bot; a reply whose `ok` flag is not set is
     * skipped whole; otherwise as in the deployed bot, with `failing` the
     * ids of the updates whose reply fails to send.
     */
    method PollTick(response: Option<Response>, failing: set<int>) returns (requested: Option<int>, sent: seq<Outgoing>)
      modifies this`subscribers, this`offset
      ensures requested == OffsetParam(old(offset))
      ensures response.None? || !response.value.ok ==> subscribers == old(subscribers) && offset == old(offset) && sent == []
      ensures response.Some? && response.value.ok ==>
        var r := RunBatch(StepWith(failing), old(subscribers), old(offset), response.value.result);
        subscribers == r.subscribers && offset == r.offset && sent == r.sent
    {
      requested := OffsetParam(offset);
      sent := [];
      if response.None? || !response.value.ok {
        return;
      }
      var updates := response.value.result;
      ghost var step := StepWith(failing);
      ghost var whole := RunBatch(step, subscribers, offset, updates);
      var i := 0;
      while i < |updates|
        invariant 0 <= i <= |updates|
        invariant whole == Resume(RunBatch(step, subscribers, offset, updates[i..]), sent, i)
      {
        ghost var before := subscribers;
        ghost var cursor := offset;
        offset := Some(updates[i].updateId + 1);
        var out, raised := ProcessUpdate(updates[i], updates[i].updateId in failing);
        assert step(before, updates[i]) == StepResult(subscribers, out, raised);
        if raised {
          ResumeRaised(step, before, cursor, updates, i, sent, whole);
          sent := sent + out;
          return;
        }
        ResumeQuiet(step, before, cursor, updates, i, sent, whole);
        sent := sent + out;
        i := i + 1;
      }
    }
  }
}

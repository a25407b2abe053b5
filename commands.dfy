/**
 * Command routing, shared by both variants: a text that starts with `/` is a
 * command named by its lower-cased first whitespace-separated token. Both
 * variants also share the welcome and help texts.
 */
module Commands {
  import opened Text
  import opened Language

  /** `WELCOME`. */
  const Welcome: Table := Table(
    "مرحباً! هذا بوت تنبيهات منحة البطالة. اكتب /minha للحصول على آخر الأخبار.",
    "Bienvenue! Ceci est le bot d'alerte Minha. Tapez /minha pour les dernières infos.",
    "Welcome! This is the Minha alerts bot. Type /minha for latest updates.")

  /** The reply to `/help` and `/aide`. */
  const HelpText: Table := Table(
    "/minha - تفعيل التنبيه\n/stop - إلغاء الاشتراك\n/help - المساعدة",
    "/minha - Activer l'alerte\n/stop - Se désabonner\n/help - Aide",
    "/minha - Activate alert\n/stop - Unsubscribe\n/help - Help")

  /** What `process_update` does with a text; `Chat` covers unknown commands and plain text. */
  datatype Command = Start | Subscribe | Unsubscribe | Help | Chat

  /** The handler a lower-cased command token selects. */
  function CommandOf(cmd: string): (c: Command)
    ensures c == Start <==> cmd == "/start"
    ensures c == Subscribe <==> cmd == "/minha"
    ensures c == Unsubscribe <==> cmd == "/stop" || cmd == "/unsubscribe"
    ensures c == Help <==> cmd == "/help" || cmd == "/aide"
  {
    if cmd == "/start" then Start
    else if cmd == "/minha" then Subscribe
    else if cmd == "/stop" || cmd == "/unsubscribe" then Unsubscribe
    else if cmd == "/help" || cmd == "/aide" then Help
    else Chat
  }

  /** `text.startswith('/')`: the text is not empty and its first character is `/`. */
  function IsCommandText(text: string): (b: bool)
    ensures b <==> |text| > 0 && text[0] == '/'
  {
    StartsWith(text, "/")
  }

  /** The branch of `process_update` a message text takes: `text.split()[0].lower()` for a command. */
  function Route(text: string): (c: Command)
    ensures !IsCommandText(text) ==> c == Chat
  {
    if IsCommandText(text) then CommandOf(Lower(FirstToken(text))) else Chat
  }

  /** A command word followed by nothing or by whitespace routes by that word alone. */
  lemma RouteByFirstWord(word: string, rest: string)
    requires IsCommandText(word)
    requires forall i :: 0 <= i < |word| ==> !IsSpace(word[i])
    requires rest == [] || IsSpace(rest[0])
    ensures Route(word + rest) == CommandOf(Lower(word))
  {
    FirstTokenOf(word, rest);
    assert (word + rest)[0] == word[0];
  }

  /** The token of the lower-cased text is the lower-cased token. */
  lemma {:induction false} FirstTokenOfLower(s: string)
    ensures FirstToken(Lower(s)) == Lower(FirstToken(s))
  {
    if s != [] {
      LowerCharKeepsSpace(s[0]);
      assert Lower(s)[0] == LowerChar(s[0]);
      assert Lower(s)[1..] == Lower(s[1..]);
      FirstTokenOfLower(s[1..]);
      if !IsSpace(s[0]) {
        assert Lower([s[0]] + FirstToken(s[1..])) == [LowerChar(s[0])] + Lower(FirstToken(s[1..]));
      }
    } else {
      assert Lower(s) == [];
    }
  }

  /** Commands are case-insensitive: `/MINHA`, `/Minha` and `/minha` all route alike. */
  lemma RouteIgnoresCase(text: string)
    ensures Route(Lower(text)) == Route(text)
  {
    if IsCommandText(text) {
      FirstTokenOfLower(text);
      var w := FirstToken(text);
      forall i | 0 <= i < |w| ensures LowerChar(LowerChar(w[i])) == LowerChar(w[i]) {
        LowerCharIdempotent(w[i]);
      }
      assert Lower(Lower(w)) == Lower(w);
    }
  }

  /** `/minha` is its own first token. */
  lemma MinhaToken()
    ensures FirstToken("/minha") == "/minha"
  {
    FirstTokenOf("/minha", "");
    assert "/minha" + "" == "/minha";
  }

  /** `/minha` is already lower-case. */
  lemma MinhaIsLower()
    ensures Lower("/minha") == "/minha"
  {
    LowerOfNoUpper("/minha");
  }

  /** `/minha` alone is the subscribe command. */
  lemma MinhaRoutesToSubscribe()
    ensures Route("/minha") == Subscribe
  {
    MinhaToken();
    MinhaIsLower();
  }

  /** The first token of `/MINHA foo` is `/MINHA`. */
  lemma UpperMinhaToken()
    ensures FirstToken("/MINHA foo") == "/MINHA"
  {
    FirstTokenOf("/MINHA", " foo");
    assert "/MINHA" + " foo" == "/MINHA foo";
  }

  /** `/MINHA` lower-cases to `/minha`. */
  lemma UpperMinhaLowers()
    ensures Lower("/MINHA") == "/minha"
  {
  }

  /** `/MINHA foo` subscribes: only the first token counts, in any case. */
  lemma UpperCaseMinhaSubscribes()
    ensures Route("/MINHA foo") == Subscribe
  {
    UpperMinhaToken();
    UpperMinhaLowers();
  }
}

/** How the earlier variant of the bot differs from the deployed one, and where they agree. */
module Variants {
  import opened Text
  import opened Language
  import opened Telegram
  import MainBot
  import OneClickBot

  /**
   * The extra timing phrase "متى يفتح" of the earlier variant adds nothing:
   * it contains "متى", so both variants recognise the same timing questions.
   */
  lemma TimingGroupsAgree(text: string)
    ensures Mentions(text, OneClickBot.TimingWords) <==> Mentions(text, MainBot.TimingWords)
  {
    var t := Lower(text);
    var early, main := OneClickBot.TimingWords, MainBot.TimingWords;
    if Mentions(text, early) {
      var j :| 0 <= j < |early| && Contains(t, early[j]);
      if j == 2 {
        assert OccursAt(main[0], early[2], 0);
        ContainsTransitive(t, early[2], main[0]);
        assert Contains(t, main[0]);
      } else {
        assert early[j] == main[if j < 2 then j else 2];
      }
    }
    if Mentions(text, main) {
      var j :| 0 <= j < |main| && Contains(t, main[j]);
      assert main[j] == early[if j < 2 then j else 3];
    }
  }

  /**
   * Both variants change the subscriber set in the same way for every
   * update, whichever sends fail; they differ only in what they reply and
   * in whether a failed send raises.
   */
  lemma SubscribersAgree(subscribers: set<int>, u: Update, sendFails: bool)
    ensures OneClickBot.Step(subscribers, u, sendFails).subscribers == MainBot.Step(subscribers, u).subscribers
  {
    if Sender(u).Some? && Sender(u).value !in subscribers {
      assert subscribers - {Sender(u).value} == subscribers;
    }
  }

  /**
   * For a tag other than the three known ones the deployed `ai_reply`
   * raises, while the earlier one answers in English.
   */
  lemma UnknownTagHandling(text: string, lang: string)
    requires !IsTag(lang)
    ensures MainBot.AiReply(text, lang).None?
    ensures OneClickBot.AiReply(text, lang) == OneClickBot.AiReply(text, EN)
  {
  }

  /** The phrase "واش لازم" ("what is needed"). */
  const WhatIsNeeded: string := "واش لازم"

  /** The phrase has no upper-case letter, so lower-casing keeps it. */
  lemma PhraseIsLower()
    ensures Lower(WhatIsNeeded) == WhatIsNeeded
  {
    LowerOfNoUpper(WhatIsNeeded);
  }

  /** The deployed timing group does not match the phrase. */
  lemma DeployedTimingMissesPhrase()
    ensures !Mentions(WhatIsNeeded, MainBot.TimingWords)
  {
    PhraseIsLower();
    RuledOutExcludes(WhatIsNeeded, MainBot.TimingWords);
  }

  /** The deployed documents group does not match the phrase either. */
  lemma DeployedDocumentsMissPhrase()
    ensures !Mentions(WhatIsNeeded, MainBot.DocumentWords)
  {
    PhraseIsLower();
    RuledOutExcludes(WhatIsNeeded, MainBot.DocumentWords);
  }

  /** The earlier variant's timing group does not match the phrase. */
  lemma EarlyTimingMissesPhrase()
    ensures !Mentions(WhatIsNeeded, OneClickBot.TimingWords)
  {
    PhraseIsLower();
    RuledOutExcludes(WhatIsNeeded, OneClickBot.TimingWords);
  }

  /** The earlier variant's documents group holds the phrase itself. */
  lemma EarlyDocumentsMatchPhrase()
    ensures Mentions(WhatIsNeeded, OneClickBot.DocumentWords)
  {
    PhraseIsLower();
    assert OneClickBot.DocumentWords[1] == WhatIsNeeded;
    assert OccursAt(WhatIsNeeded, WhatIsNeeded, 0);
  }

  /**
   * "واش لازم" is a documents question only for the earlier variant; the
   * deployed one gives it the general answer.
   */
  lemma DocumentsPhraseOnlyInEarlyVariant(lang: string)
    ensures OneClickBot.AiReply(WhatIsNeeded, lang) == OneClickBot.DocumentAnswers.GetOrEnglish(lang)
    ensures MainBot.AiReply(WhatIsNeeded, lang) == MainBot.GeneralAnswers.Index(lang)
  {
    DeployedTimingMissesPhrase();
    DeployedDocumentsMissPhrase();
    EarlyTimingMissesPhrase();
    EarlyDocumentsMatchPhrase();
  }
}

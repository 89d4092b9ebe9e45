/**
 * Worked examples of the assistant on concrete emails: the classifiers on
 * sample subjects and bodies (read off the subject and the body separately)
 * and the dashboard order of three rows.
 */
module Scenarios {
  import opened Text
  import opened Classifier
  import opened Dashboard

  /** A word that contains none of the keywords does not mention the group. */
  lemma NotMentioned(word: string, keywords: seq<string>)
    requires forall i :: 0 <= i < |keywords| ==> !Contains(word, keywords[i])
    ensures !Mentions(word, keywords)
  {
  }

  /** A word that contains one keyword of a group mentions the group. */
  lemma MentionedAt(word: string, keywords: seq<string>, i: nat, at: nat)
    requires i < |keywords| && OccursAt(word, keywords[i], at)
    ensures Mentions(word, keywords)
  {
    assert Contains(word, keywords[i]);
  }

  /** What the words "urgent" and "servers" mention. */
  lemma UrgentServersWords()
    ensures Mentions("urgent", HighKeywords) && !Mentions("urgent", CategoryKeywords)
    ensures !Mentions("servers", LoginKeywords + BillingKeywords + IntegrationKeywords)
    ensures Mentions("servers", DowntimeKeywords)
  {
    MentionedAt("urgent", HighKeywords, 0, 0);
    NotMentioned("urgent", CategoryKeywords);
    NotMentioned("servers", LoginKeywords + BillingKeywords + IntegrationKeywords);
    MentionedAt("servers", DowntimeKeywords, 1, 0);
  }

  /** "Urgent" / "servers": a High keyword in the subject, a downtime keyword in the body. */
  lemma UrgentServersEmail()
    ensures PriorityOf("Urgent", "servers") == High
    ensures CategoryOf("Urgent", "servers") == SystemDowntime
  {
    assert Lower("Urgent") == "urgent" by { assert LowerChar('U') == 'u'; }
    assert Lower("servers") == "servers";
    UrgentServersWords();
    MentionsConcat("urgent", LoginKeywords + BillingKeywords + IntegrationKeywords, DowntimeKeywords);
    MentionsConcat("urgent", LoginKeywords + BillingKeywords, IntegrationKeywords);
    MentionsConcat("urgent", LoginKeywords, BillingKeywords);
    MentionsConcat("servers", LoginKeywords + BillingKeywords, IntegrationKeywords);
    MentionsConcat("servers", LoginKeywords, BillingKeywords);
    PriorityFromParts("Urgent", "servers");
    CategoryFromParts("Urgent", "servers");
  }

  /** What the words "refund" and "help" mention. */
  lemma RefundHelpWords()
    ensures !Mentions("refund", HighKeywords) && !Mentions("help", HighKeywords)
    ensures Mentions("help", MediumKeywords)
    ensures !Mentions("refund", LoginKeywords) && !Mentions("help", LoginKeywords)
    ensures Mentions("refund", BillingKeywords)
  {
    NotMentioned("refund", HighKeywords);
    NotMentioned("help", HighKeywords);
    MentionedAt("help", MediumKeywords, 0, 0);
    NotMentioned("refund", LoginKeywords);
    NotMentioned("help", LoginKeywords);
    MentionedAt("refund", BillingKeywords, 3, 0);
  }

  /** "Refund" / "help": no High keyword, a Medium one in the body; no login
      keyword, a billing one in the subject. */
  lemma RefundHelpEmail()
    ensures PriorityOf("Refund", "help") == Medium
    ensures CategoryOf("Refund", "help") == BillingPricing
  {
    assert Lower("Refund") == "refund" by { assert LowerChar('R') == 'r'; }
    assert Lower("help") == "help";
    RefundHelpWords();
    PriorityFromParts("Refund", "help");
    CategoryFromParts("Refund", "help");
  }

  /** "Hello" contains no keyword of either classifier. */
  lemma HelloHasNoKeyword()
    ensures !Mentions("hello", HighKeywords) && !Mentions("hello", MediumKeywords)
    ensures !Mentions("hello", LoginKeywords) && !Mentions("hello", BillingKeywords)
    ensures !Mentions("hello", IntegrationKeywords) && !Mentions("hello", DowntimeKeywords)
  {
    NotMentioned("hello", HighKeywords);
    NotMentioned("hello", MediumKeywords);
    NotMentioned("hello", LoginKeywords);
    NotMentioned("hello", BillingKeywords);
    NotMentioned("hello", IntegrationKeywords);
    NotMentioned("hello", DowntimeKeywords);
  }

  /** "Thanks" contains no keyword of either classifier. */
  lemma ThanksHasNoKeyword()
    ensures !Mentions("thanks", HighKeywords) && !Mentions("thanks", MediumKeywords)
    ensures !Mentions("thanks", LoginKeywords) && !Mentions("thanks", BillingKeywords)
    ensures !Mentions("thanks", IntegrationKeywords) && !Mentions("thanks", DowntimeKeywords)
  {
    NotMentioned("thanks", HighKeywords);
    NotMentioned("thanks", MediumKeywords);
    NotMentioned("thanks", LoginKeywords);
    NotMentioned("thanks", BillingKeywords);
    NotMentioned("thanks", IntegrationKeywords);
    NotMentioned("thanks", DowntimeKeywords);
  }

  /** "Hello" / "Thanks": no keyword anywhere gives Low and GeneralInquiry. */
  lemma HelloThanksEmail()
    ensures PriorityOf("Hello", "Thanks") == Low
    ensures CategoryOf("Hello", "Thanks") == GeneralInquiry
  {
    assert Lower("Hello") == "hello" by { assert LowerChar('H') == 'h'; }
    assert Lower("Thanks") == "thanks" by { assert LowerChar('T') == 't'; }
    HelloHasNoKeyword();
    ThanksHasNoKeyword();
    PriorityFromParts("Hello", "Thanks");
    CategoryFromParts("Hello", "Thanks");
  }

  /** "api" sits inside "rapid", which mentions no other keyword the two classifiers test first. */
  lemma RapidWord()
    ensures !Mentions("rapid", HighKeywords)
    ensures !Mentions("rapid", LoginKeywords + BillingKeywords)
    ensures Mentions("rapid", IntegrationKeywords)
  {
    NotMentioned("rapid", HighKeywords);
    NotMentioned("rapid", LoginKeywords + BillingKeywords);
    MentionedAt("rapid", IntegrationKeywords, 0, 1);
  }

  /** "supporter" mentions no High keyword. */
  lemma SupporterNotHigh()
    ensures !Mentions("supporter", HighKeywords)
  {
    NotMentioned("supporter", HighKeywords);
  }

  /** "supporter" mentions no login or billing keyword. */
  lemma SupporterNotLoginOrBilling()
    ensures !Mentions("supporter", LoginKeywords + BillingKeywords)
  {
    NotMentioned("supporter", LoginKeywords + BillingKeywords);
  }

  /** "support" sits inside "supporter". */
  lemma SupporterIsMedium()
    ensures Mentions("supporter", MediumKeywords)
  {
    assert "supporter"[0..7] == "support";
    MentionedAt("supporter", MediumKeywords, 1, 0);
  }

  /** "Rapid" / "Supporter": plain substring tests make this a Medium
      Integration email although neither word is a keyword. */
  lemma RapidSupporterEmail()
    ensures PriorityOf("Rapid", "Supporter") == Medium
    ensures CategoryOf("Rapid", "Supporter") == Integration
  {
    assert Lower("Rapid") == "rapid" by { assert LowerChar('R') == 'r'; }
    assert Lower("Supporter") == "supporter" by { assert LowerChar('S') == 's'; }
    RapidWord();
    SupporterNotHigh();
    SupporterNotLoginOrBilling();
    SupporterIsMedium();
    MentionsConcat("rapid", LoginKeywords, BillingKeywords);
    MentionsConcat("supporter", LoginKeywords, BillingKeywords);
    PriorityFromParts("Rapid", "Supporter");
    CategoryFromParts("Rapid", "Supporter");
  }

  /** An empty subject and body: both classifiers still answer, with the defaults. */
  lemma EmptyEmail()
    ensures PriorityOf("", "") == Low
    ensures CategoryOf("", "") == GeneralInquiry
  {
    NotMentioned("", HighKeywords + MediumKeywords + CategoryKeywords);
    MentionsConcat("", HighKeywords, MediumKeywords);
    MentionsConcat("", HighKeywords + MediumKeywords, CategoryKeywords);
    PriorityFromParts("", "");
    CategoryFromParts("", "");
  }

  /** The rows High, Medium, Low in that order are rank-ordered and have the
      priority column High, Medium, Low. */
  lemma RankOrderedThree(m: Row, h: Row, l: Row)
    requires m.info.priority == Medium && h.info.priority == High && l.info.priority == Low
    ensures SortedByPriority([h, m, l])
    ensures Priorities([h, m, l]) == [High, Medium, Low]
  {
    var sorted := [h, m, l];
    assert forall i :: 0 <= i < 3 ==> Rank(sorted[i].info.priority) == i;
  }

  /** Swapping the first two of three rows keeps the same rows. */
  lemma SwapFirstTwo<T>(a: T, b: T, c: T)
    ensures multiset([b, a, c]) == multiset([a, b, c])
  {
    assert [b, a, c] == [b] + [a] + [c] && [a, b, c] == [a] + [b] + [c];
  }

  /** Three rows of priorities Medium, High, Low: whatever order the sort leaves
      rows of equal priority in, the dashboard shows High, Medium, Low. */
  lemma ThreeRowDashboard(m: Row, h: Row, l: Row, shown: seq<Row>)
    requires m.info.priority == Medium && h.info.priority == High && l.info.priority == Low
    requires SortedByPriority(shown) && multiset(shown) == multiset([m, h, l])
    ensures Priorities(shown) == [High, Medium, Low]
  {
    RankOrderedThree(m, h, l);
    SwapFirstTwo(m, h, l);
    SortedPriorityColumnUnique(shown, [h, m, l]);
  }
}

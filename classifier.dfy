/**
 * The two rule-based classifiers of the email assistant. Both look only at the
 * normalised text `lower(subject + " " + body)` and test keywords by plain
 * substring containment, so "supporter" mentions "support" and "rapid"
 * mentions "api".
 */
module Classifier {
  import opened Text

  datatype Priority = High | Medium | Low

  datatype Category = LoginAccount | BillingPricing | Integration | SystemDowntime | GeneralInquiry

  const HighKeywords: seq<string> := ["urgent", "critical", "immediate", "blocked", "downtime", "error"]
  const MediumKeywords: seq<string> := ["help", "support", "issue", "problem", "question", "query"]

  const LoginKeywords: seq<string> := ["login", "access", "password", "account"]
  const BillingKeywords: seq<string> := ["billing", "pricing", "subscription", "refund"]
  const IntegrationKeywords: seq<string> := ["api", "integration"]
  const DowntimeKeywords: seq<string> := ["downtime", "servers"]

  /** The twelve keywords the category chain tests, in the order it tests them. */
  const CategoryKeywords: seq<string> := LoginKeywords + BillingKeywords + IntegrationKeywords + DowntimeKeywords

  /** The text both classifiers examine. */
  function NormalizedText(subject: string, body: string): string
  {
    Lower(subject + " " + body)
  }

  /** Some keyword of `keywords` is a substring of `text`. */
  predicate Mentions(text: string, keywords: seq<string>)
  {
    exists k :: k in keywords && Contains(text, k)
  }

  /** Python's `any(keyword in text for keyword in keywords)`, keyword by keyword. */
  function AnyKeyword(text: string, keywords: seq<string>): (r: bool)
    ensures r <==> Mentions(text, keywords)
  {
    if keywords == [] then false
    else
      assert forall k :: k in keywords <==> k == keywords[0] || k in keywords[1..];
      Contains(text, keywords[0]) || AnyKeyword(text, keywords[1..])
  }

  /** `_get_priority`: a High keyword wins over any Medium keyword; neither gives Low. */
  function PriorityOf(subject: string, body: string): (r: Priority)
    ensures r == High <==> Mentions(NormalizedText(subject, body), HighKeywords)
    ensures r == Medium <==>
              !Mentions(NormalizedText(subject, body), HighKeywords)
              && Mentions(NormalizedText(subject, body), MediumKeywords)
    ensures r == Low <==>
              !Mentions(NormalizedText(subject, body), HighKeywords)
              && !Mentions(NormalizedText(subject, body), MediumKeywords)
  {
    var text := NormalizedText(subject, body);
    if AnyKeyword(text, HighKeywords) then High
    else if AnyKeyword(text, MediumKeywords) then Medium
    else Low
  }

  /** `_categorize_email`: the first keyword group with a hit decides; none gives GeneralInquiry. */
  function CategoryOf(subject: string, body: string): (r: Category)
    ensures r == LoginAccount <==> Mentions(NormalizedText(subject, body), LoginKeywords)
    ensures r == BillingPricing <==>
              !Mentions(NormalizedText(subject, body), LoginKeywords)
              && Mentions(NormalizedText(subject, body), BillingKeywords)
    ensures r == Integration <==>
              !Mentions(NormalizedText(subject, body), LoginKeywords)
              && !Mentions(NormalizedText(subject, body), BillingKeywords)
              && Mentions(NormalizedText(subject, body), IntegrationKeywords)
    ensures r == SystemDowntime <==>
              !Mentions(NormalizedText(subject, body), LoginKeywords)
              && !Mentions(NormalizedText(subject, body), BillingKeywords)
              && !Mentions(NormalizedText(subject, body), IntegrationKeywords)
              && Mentions(NormalizedText(subject, body), DowntimeKeywords)
    ensures r == GeneralInquiry <==> !Mentions(NormalizedText(subject, body), CategoryKeywords)
  {
    var text := NormalizedText(subject, body);
    var login := Contains(text, "login") || Contains(text, "access") || Contains(text, "password") || Contains(text, "account");
    var billing := Contains(text, "billing") || Contains(text, "pricing") || Contains(text, "subscription") || Contains(text, "refund");
    var integration := Contains(text, "api") || Contains(text, "integration");
    var downtime := Contains(text, "downtime") || Contains(text, "servers");
    MentionsFour(text, "login", "access", "password", "account");
    MentionsFour(text, "billing", "pricing", "subscription", "refund");
    MentionsTwo(text, "api", "integration");
    MentionsTwo(text, "downtime", "servers");
    MentionsConcat(text, LoginKeywords, BillingKeywords);
    MentionsConcat(text, LoginKeywords + BillingKeywords, IntegrationKeywords);
    MentionsConcat(text, LoginKeywords + BillingKeywords + IntegrationKeywords, DowntimeKeywords);
    if login then LoginAccount
    else if billing then BillingPricing
    else if integration then Integration
    else if downtime then SystemDowntime
    else GeneralInquiry
  }

  /** Mentioning a list of four keywords is a chain of four `in` tests joined by `or`. */
  lemma MentionsFour(text: string, a: string, b: string, c: string, d: string)
    ensures Mentions(text, [a, b, c, d]) <==> Contains(text, a) || Contains(text, b) || Contains(text, c) || Contains(text, d)
  {
    assert forall k :: k in [a, b, c, d] <==> k == a || k == b || k == c || k == d;
  }

  /** Mentioning a list of two keywords is two `in` tests joined by `or`. */
  lemma MentionsTwo(text: string, a: string, b: string)
    ensures Mentions(text, [a, b]) <==> Contains(text, a) || Contains(text, b)
  {
    assert forall k :: k in [a, b] <==> k == a || k == b;
  }

  /** A concatenation of keyword lists is mentioned when one of its parts is. */
  lemma MentionsConcat(text: string, a: seq<string>, b: seq<string>)
    ensures Mentions(text, a + b) <==> Mentions(text, a) || Mentions(text, b)
  {
    assert forall k :: k in a + b <==> k in a || k in b;
  }

  /** No keyword of either classifier contains a space. */
  lemma KeywordsHaveNoSpace()
    ensures forall k :: k in HighKeywords + MediumKeywords + CategoryKeywords ==> ' ' !in k
  {
  }

  /**
   * For keywords without a space, a keyword group is mentioned by the joined
   * text exactly when it is mentioned by the lower-cased subject or the
   * lower-cased body.
   */
  lemma {:induction false} MentionsSplit(subject: string, body: string, keywords: seq<string>)
    requires forall k :: k in keywords ==> ' ' !in k
    ensures Mentions(NormalizedText(subject, body), keywords)
            <==> Mentions(Lower(subject), keywords) || Mentions(Lower(body), keywords)
  {
    LowerAppend(subject + " ", body);
    LowerAppend(subject, " ");
    assert Lower(" ") == " ";
    assert NormalizedText(subject, body) == Lower(subject) + " " + Lower(body);
    forall k | k in keywords
      ensures Contains(NormalizedText(subject, body), k) <==> Contains(Lower(subject), k) || Contains(Lower(body), k)
    {
      ContainsAcrossSpace(Lower(subject), Lower(body), k);
    }
  }

  /** The priority read off the subject and the body separately. */
  lemma PriorityFromParts(subject: string, body: string)
    ensures PriorityOf(subject, body) ==
              if Mentions(Lower(subject), HighKeywords) || Mentions(Lower(body), HighKeywords) then High
              else if Mentions(Lower(subject), MediumKeywords) || Mentions(Lower(body), MediumKeywords) then Medium
              else Low
  {
    KeywordsHaveNoSpace();
    MentionsSplit(subject, body, HighKeywords);
    MentionsSplit(subject, body, MediumKeywords);
  }

  /** The category read off the subject and the body separately. */
  lemma CategoryFromParts(subject: string, body: string)
    ensures CategoryOf(subject, body) ==
              if Mentions(Lower(subject), LoginKeywords) || Mentions(Lower(body), LoginKeywords) then LoginAccount
              else if Mentions(Lower(subject), BillingKeywords) || Mentions(Lower(body), BillingKeywords) then BillingPricing
              else if Mentions(Lower(subject), IntegrationKeywords) || Mentions(Lower(body), IntegrationKeywords) then Integration
              else if Mentions(Lower(subject), DowntimeKeywords) || Mentions(Lower(body), DowntimeKeywords) then SystemDowntime
              else GeneralInquiry
  {
    KeywordsHaveNoSpace();
    MentionsSplit(subject, body, LoginKeywords);
    MentionsSplit(subject, body, BillingKeywords);
    MentionsSplit(subject, body, IntegrationKeywords);
    MentionsSplit(subject, body, DowntimeKeywords);
  }

  /** Both classifiers ignore letter case: only the lower-cased subject and body matter. */
  lemma CaseInsensitive(subject: string, body: string, subject': string, body': string)
    requires Lower(subject) == Lower(subject') && Lower(body) == Lower(body')
    ensures PriorityOf(subject, body) == PriorityOf(subject', body')
    ensures CategoryOf(subject, body) == CategoryOf(subject', body')
  {
    LowerAppend(subject + " ", body);
    LowerAppend(subject, " ");
    LowerAppend(subject' + " ", body');
    LowerAppend(subject', " ");
    assert NormalizedText(subject, body) == NormalizedText(subject', body');
  }

  /** Classifying already lower-cased text gives the same answers. */
  lemma LowerCasedInput(subject: string, body: string)
    ensures PriorityOf(Lower(subject), Lower(body)) == PriorityOf(subject, body)
    ensures CategoryOf(Lower(subject), Lower(body)) == CategoryOf(subject, body)
  {
    LowerIdempotent(subject);
    LowerIdempotent(body);
    CaseInsensitive(Lower(subject), Lower(body), subject, body);
  }
}

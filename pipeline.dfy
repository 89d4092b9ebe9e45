/**
 * The enrichment pass of the email assistant (`process_emails`). The loaded
 * table is a `Frame`: the sender/subject/body rows and, once processing has
 * happened, the three derived columns priority, category and response. The
 * assistant object holds the frame and fills the derived columns in place.
 */
module Pipeline {
  import opened Wrappers
  import opened Classifier
  import opened Responder

  /** One row of the loaded table. */
  datatype Email = Email(sender: string, subject: string, body: string)

  /** The three columns `process_emails` adds, for one row. */
  datatype Derived = Derived(priority: Priority, category: Category, response: string)

  /** The assistant's table: its rows, and the derived columns if they exist.
      A frame that has them has one entry per row. */
  datatype Frame = Frame(emails: seq<Email>, derived: Option<seq<Derived>>)
  {
    predicate Valid()
    {
      derived.Some? ==> |derived.value| == |emails|
    }
  }

  /** The text-generation service: what the `call`-th request of the run gets
      back. The call number lets two identical requests get different outcomes. */
  type Generator = (nat, Request) -> HttpOutcome

  /** `_get_ai_response(prompt, context)` as the `call`-th request of the run. */
  function GenerateResponse(gen: Generator, call: nat, prompt: string, context: string): (r: string)
    ensures GeneratedText(gen(call, RequestFor(prompt, context))).None? ==> r == Fallback
    ensures GeneratedText(gen(call, RequestFor(prompt, context))).Some? ==>
              r == GeneratedText(gen(call, RequestFor(prompt, context))).value
  {
    ResponseFor(gen(call, RequestFor(prompt, context)))
  }

  /** The derived columns of the row at position `call`: priority and category
      from its own subject and body, the reply from the prompt naming its sender
      and subject with its body as context. */
  function DeriveRow(e: Email, call: nat, gen: Generator): Derived
  {
    Derived(PriorityOf(e.subject, e.body), CategoryOf(e.subject, e.body),
            GenerateResponse(gen, call, Prompt(e.sender, e.subject), e.body))
  }

  /** The derived columns for a whole table, row by row in table order. */
  function Enrich(emails: seq<Email>, gen: Generator): (r: seq<Derived>)
    ensures |r| == |emails|
    ensures forall i :: 0 <= i < |emails| ==>
              r[i].priority == PriorityOf(emails[i].subject, emails[i].body)
              && r[i].category == CategoryOf(emails[i].subject, emails[i].body)
              && r[i].response == GenerateResponse(gen, i, Prompt(emails[i].sender, emails[i].subject), emails[i].body)
  {
    seq(|emails|, i requires 0 <= i < |emails| => DeriveRow(emails[i], i, gen))
  }

  /** What `process_emails` makes of a frame: an empty table is left as it is;
      otherwise the rows stay and the derived columns are (re)computed. */
  function Processed(f: Frame, gen: Generator): (r: Frame)
    ensures r.emails == f.emails
    ensures |f.emails| == 0 ==> r == f
    ensures |f.emails| > 0 ==> r.Valid() && r.derived.Some?
  {
    if |f.emails| == 0 then f else Frame(f.emails, Some(Enrich(f.emails, gen)))
  }

  /**
   * Each row's priority and category come from that row's own subject and body
   * alone: not from its sender, its position, the other rows or the service.
   */
  lemma RowsClassifiedIndependently(emails: seq<Email>, emails': seq<Email>, gen: Generator, gen': Generator, i: nat, j: nat)
    requires i < |emails| && j < |emails'|
    requires emails[i].subject == emails'[j].subject && emails[i].body == emails'[j].body
    ensures Enrich(emails, gen)[i].priority == Enrich(emails', gen')[j].priority
    ensures Enrich(emails, gen)[i].category == Enrich(emails', gen')[j].category
  {
  }

  /** Each row's derived columns, spelled out: the classifiers applied to the
      row's subject and body, and the reply to the row's own request. */
  lemma EnrichAt(emails: seq<Email>, gen: Generator, i: nat)
    requires i < |emails|
    ensures Enrich(emails, gen)[i].priority == PriorityOf(emails[i].subject, emails[i].body)
    ensures Enrich(emails, gen)[i].category == CategoryOf(emails[i].subject, emails[i].body)
    ensures Enrich(emails, gen)[i].response
            == ResponseFor(gen(i, Request(Prompt(emails[i].sender, emails[i].subject), emails[i].body, Persona, true)))
  {
  }

  /** With a service whose every call fails (no connection, an error status,
      a body that is not JSON or lacks the text), every row gets exactly the
      fallback reply, and the classification of the rows does not change. */
  lemma ServiceDownGivesFallback(emails: seq<Email>, gen: Generator, gen': Generator)
    requires forall call: nat, req: Request :: GeneratedText(gen(call, req)).None?
    ensures forall i :: 0 <= i < |emails| ==> Enrich(emails, gen)[i].response == Fallback
    ensures forall i :: 0 <= i < |emails| ==>
              Enrich(emails, gen)[i].priority == Enrich(emails, gen')[i].priority
              && Enrich(emails, gen)[i].category == Enrich(emails, gen')[i].category
  {
  }

  /**
   * `df.apply(f, axis=1)`: `f` applied to every row, in row order. `f` also
   * receives the row's position, which for the response pass is the number of
   * the service call the row makes.
   */
  method Apply<T(0)>(emails: seq<Email>, f: (nat, Email) -> T) returns (column: array<T>)
    ensures fresh(column) && column.Length == |emails|
    ensures forall k :: 0 <= k < |emails| ==> column[k] == f(k, emails[k])
  {
    column := new T[|emails|];
    for i := 0 to |emails|
      invariant forall k :: 0 <= k < i ==> column[k] == f(k, emails[k])
    {
      column[i] := f(i, emails[i]);
    }
  }

  /** The assistant object: it owns the table and enriches it in place. */
  class EmailAssistant {
    var df: Frame

    /** Starts from an already loaded table, without derived columns. */
    constructor (loaded: seq<Email>)
      ensures df == Frame(loaded, None)
    {
      df := Frame(loaded, None);
    }

    /**
     * `process_emails`: on an empty table nothing changes; otherwise it fills
     * the priority column, then the category column, then the response column
     * (one service call per row, in row order), and returns the table.
     */
    method ProcessEmails(gen: Generator) returns (result: Frame)
      modifies this
      ensures df == Processed(old(df), gen)
      ensures result == df
    {
      if |df.emails| == 0 {
        return df;
      }
      var emails := df.emails;
      var n := |emails|;
      var priorities := Apply(emails, (_, e: Email) => PriorityOf(e.subject, e.body));
      var categories := Apply(emails, (_, e: Email) => CategoryOf(e.subject, e.body));
      var responses := Apply(emails, (k, e: Email) => GenerateResponse(gen, k, Prompt(e.sender, e.subject), e.body));
      var derived := seq(n, k requires 0 <= k < n reads priorities, categories, responses =>
                           Derived(priorities[k], categories[k], responses[k]));
      assert forall k :: 0 <= k < n ==> derived[k] == DeriveRow(emails[k], k, gen);
      assert derived == Enrich(emails, gen);
      df := Frame(emails, Some(derived));
      result := df;
    }
  }
}

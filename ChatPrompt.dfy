/** The chatbot service (jakpa_bot/services.py): the system prompt is the
    fixed base prompt followed by a "live site data" block built from the
    published posts, active testimonials, FAQs and open booking slots; the
    model is sent that prompt, a canned acknowledgement, the conversation
    history and the new message, and its failure is answered with a fixed
    apology. The query results arrive as sequences in the order the
    queries return them; the text of the base prompt, `strip_tags`,
    `strftime` and the Gemini call are parameters. */
module ChatPrompt {
  import opened Base
  import opened Calendar
  import opened Scheduling
  import opened Grouping

  // ---------------------------------------------------------------------
  // Site records and the opaque library functions
  // ---------------------------------------------------------------------

  /** A published post: its title, the names of its categories, excerpt
      and HTML content. */
  datatype PostRecord = PostRecord(title: string, categoryNames: seq<string>, excerpt: string, content: string)

  datatype TestimonialRecord = TestimonialRecord(name: string, location: string, testimony: string, isActive: bool)

  datatype FaqRecord = FaqRecord(question: string, answer: string)

  /** What the prompt reads from the database: posts already published and
      newest first, testimonials and FAQs newest first, session slots by
      date and time, and today's date. */
  datatype SiteData = SiteData(
    posts: seq<PostRecord>,
    testimonials: seq<TestimonialRecord>,
    faqs: seq<FaqRecord>,
    slots: seq<SessionTime>,
    today: Date)

  /** strip_tags, strftime('%A, %b %d %Y') and strftime('%I:%M %p'). */
  datatype Formatters = Formatters(
    stripTags: string -> string,
    dateText: Date -> string,
    timeText: nat -> string)

  const PostLimit: nat := 20
  const TestimonialLimit: nat := 5
  const FaqLimit: nat := 10
  const SlotLimit: nat := 8
  const ExcerptLength: nat := 200
  const TestimonyLength: nat := 150

  const BlogHeader: string := "**Our Blog — Published Articles (use these to answer content questions):**\n"
  const TestimonialHeader: string := "**Recent Success Stories (use these to inspire and validate):**\n"
  const FaqHeader: string := "**Frequently Asked Questions (answer these accurately):**\n"
  const SlotHeader: string := "**Currently Available Booking Slots (mention these if asked about scheduling):**\n"
  const LiveDataHeader: string := "\n\n---\n**LIVE SITE DATA (use this to answer specific questions):**\n\n"

  // ---------------------------------------------------------------------
  // The four queries
  // ---------------------------------------------------------------------

  /** The first twenty published posts. */
  function ShownPosts(site: SiteData): (r: seq<PostRecord>)
    ensures |r| <= PostLimit && r <= site.posts
    ensures |site.posts| >= PostLimit ==> |r| == PostLimit
    ensures |site.posts| <= PostLimit ==> r == site.posts
  {
    Take(site.posts, PostLimit)
  }

  /** The first five active testimonials, in query order. */
  function ShownTestimonials(site: SiteData): (r: seq<TestimonialRecord>)
    ensures |r| <= TestimonialLimit
    ensures forall i :: 0 <= i < |r| ==> r[i].isActive && r[i] in site.testimonials
    ensures forall j :: 0 <= j < |site.testimonials| && site.testimonials[j].isActive && site.testimonials[j] !in r ==>
              |r| == TestimonialLimit
    ensures r <= FilterActive(site.testimonials)
    ensures |FilterActive(site.testimonials)| <= TestimonialLimit ==> r == FilterActive(site.testimonials)
    ensures |FilterActive(site.testimonials)| > TestimonialLimit ==> |r| == TestimonialLimit
  {
    var active := FilterActive(site.testimonials);
    assert forall i :: 0 <= i < |Take(active, TestimonialLimit)| ==> Take(active, TestimonialLimit)[i] == active[i];
    Take(active, TestimonialLimit)
  }

  predicate IsActive(t: TestimonialRecord) {
    t.isActive
  }

  /** filter(is_active=True): the active rows. */
  function FilterActive(ts: seq<TestimonialRecord>): (r: seq<TestimonialRecord>)
    ensures forall i :: 0 <= i < |r| ==> r[i].isActive && r[i] in ts
    ensures forall j :: 0 <= j < |ts| && ts[j].isActive ==> ts[j] in r
    ensures (exists i :: 0 <= i < |ts| && ts[i].isActive) ==> r != []
  {
    Filter(ts, IsActive)
  }

  /** Each active row is kept as often as it occurs, and nothing is added. */
  lemma ActiveKeepsCopies(ts: seq<TestimonialRecord>)
    ensures multiset(FilterActive(ts)) <= multiset(ts)
    ensures forall t :: t in ts && t.isActive ==> multiset(FilterActive(ts))[t] == multiset(ts)[t]
  {
    FilterMultiset(ts, IsActive);
  }

  /** The active rows keep their query order. */
  lemma ActiveKeepsOrder(xs: seq<TestimonialRecord>, ys: seq<TestimonialRecord>)
    ensures FilterActive(xs + ys) == FilterActive(xs) + FilterActive(ys)
  {
    FilterAppend(xs, ys, IsActive);
  }

  /** The first ten FAQs. */
  function ShownFaqs(site: SiteData): (r: seq<FaqRecord>)
    ensures |r| <= FaqLimit && r <= site.faqs
    ensures |site.faqs| <= FaqLimit ==> r == site.faqs
    ensures |site.faqs| > FaqLimit ==> |r| == FaqLimit
  {
    Take(site.faqs, FaqLimit)
  }

  /** An available slot dated today or later. */
  predicate OpenSlot(s: SessionTime, today: Date) {
    s.isAvailable && AtOrBefore(today, s.slot.date)
  }

  /** filter(is_available=True, date__gte=today): the open slots. */
  function FilterOpen(ss: seq<SessionTime>, today: Date): (r: seq<SessionTime>)
    ensures forall i :: 0 <= i < |r| ==> OpenSlot(r[i], today) && r[i] in ss
    ensures forall j :: 0 <= j < |ss| && OpenSlot(ss[j], today) ==> ss[j] in r
    ensures (exists i :: 0 <= i < |ss| && OpenSlot(ss[i], today)) ==> r != []
  {
    Filter(ss, (s: SessionTime) => OpenSlot(s, today))
  }

  /** Each open slot is kept as often as it occurs, and nothing is added. */
  lemma OpenKeepsCopies(ss: seq<SessionTime>, today: Date)
    ensures multiset(FilterOpen(ss, today)) <= multiset(ss)
    ensures forall s :: s in ss && OpenSlot(s, today) ==> multiset(FilterOpen(ss, today))[s] == multiset(ss)[s]
  {
    FilterMultiset(ss, (s: SessionTime) => OpenSlot(s, today));
  }

  /** The open slots keep their date-and-time order. */
  lemma OpenKeepsOrder(xs: seq<SessionTime>, ys: seq<SessionTime>, today: Date)
    ensures FilterOpen(xs + ys, today) == FilterOpen(xs, today) + FilterOpen(ys, today)
  {
    FilterAppend(xs, ys, (s: SessionTime) => OpenSlot(s, today));
  }

  /** The first eight open slots, in query order. */
  function ShownSlots(site: SiteData): (r: seq<SessionTime>)
    ensures |r| <= SlotLimit
    ensures forall i :: 0 <= i < |r| ==> OpenSlot(r[i], site.today) && r[i] in site.slots
    ensures forall j :: 0 <= j < |site.slots| && OpenSlot(site.slots[j], site.today) && site.slots[j] !in r ==>
              |r| == SlotLimit
    ensures r <= FilterOpen(site.slots, site.today)
    ensures |FilterOpen(site.slots, site.today)| <= SlotLimit ==> r == FilterOpen(site.slots, site.today)
    ensures |FilterOpen(site.slots, site.today)| > SlotLimit ==> |r| == SlotLimit
  {
    var open := FilterOpen(site.slots, site.today);
    assert forall i :: 0 <= i < |Take(open, SlotLimit)| ==> Take(open, SlotLimit)[i] == open[i];
    Take(open, SlotLimit)
  }

  // ---------------------------------------------------------------------
  // One line per record
  // ---------------------------------------------------------------------

  /** ', '.join(names) or 'General'. */
  function CategoryLabel(names: seq<string>): (r: string)
    ensures names == [] ==> r == "General"
    ensures r != ""
    ensures Join(names, ", ") != "" ==> r == Join(names, ", ")
  {
    var joined := Join(names, ", ");
    if joined == "" then "General" else joined
  }

  /** The post's own excerpt, or else the first 200 characters of its
      tag-stripped content, stripped of surrounding white space. */
  function Excerpt(p: PostRecord, fmt: Formatters): (r: string)
    ensures p.excerpt != "" ==> r == p.excerpt
    ensures p.excerpt == "" ==> |r| <= ExcerptLength
    ensures p.excerpt == "" && p.content == "" ==> r == ""
    ensures p.excerpt == "" && p.content != "" ==> IsStripOf(Take(fmt.stripTags(p.content), ExcerptLength), r)
  {
    StripShape(Take(fmt.stripTags(p.content), ExcerptLength));
    if p.excerpt != "" then p.excerpt
    else if p.content != "" then Strip(Take(fmt.stripTags(p.content), ExcerptLength))
    else ""
  }

  function BlogLine(p: PostRecord, fmt: Formatters): string {
    "  - \"" + p.title + "\" [" + CategoryLabel(p.categoryNames) + "]: " + Excerpt(p, fmt)
  }

  /** The first 150 characters of a testimony. */
  function Snippet(testimony: string): (r: string)
    ensures |r| <= TestimonyLength && r <= testimony
    ensures |testimony| <= TestimonyLength ==> r == testimony
    ensures |testimony| > TestimonyLength ==> |r| == TestimonyLength
  {
    Take(testimony, TestimonyLength)
  }

  function TestimonialLine(t: TestimonialRecord): string {
    "  - " + t.name + " (" + t.location + "): \"" + Snippet(t.testimony) + "\""
  }

  function FaqLine(f: FaqRecord): string {
    "  Q: " + f.question + "\n  A: " + f.answer
  }

  function SlotLine(s: SessionTime, fmt: Formatters): string {
    "  - " + fmt.dateText(s.slot.date) + " at " + fmt.timeText(s.slot.minute)
  }

  function BlogLines(ps: seq<PostRecord>, fmt: Formatters): (r: seq<string>)
    ensures |r| == |ps|
  {
    seq(|ps|, i requires 0 <= i < |ps| => BlogLine(ps[i], fmt))
  }

  // ---------------------------------------------------------------------
  // The dynamic context
  // ---------------------------------------------------------------------

  /** One section per non-empty query, each a header and its lines. */
  function BlogSection(site: SiteData, fmt: Formatters): seq<string> {
    var posts := ShownPosts(site);
    if posts == [] then [] else [BlogHeader + Join(BlogLines(posts, fmt), "\n")]
  }

  function TestimonialSection(site: SiteData): seq<string> {
    var ts := ShownTestimonials(site);
    if ts == [] then []
    else [TestimonialHeader + Join(seq(|ts|, i requires 0 <= i < |ts| => TestimonialLine(ts[i])), "\n")]
  }

  function FaqSection(site: SiteData): seq<string> {
    var faqs := ShownFaqs(site);
    if faqs == [] then []
    else [FaqHeader + Join(seq(|faqs|, i requires 0 <= i < |faqs| => FaqLine(faqs[i])), "\n\n")]
  }

  function SlotSection(site: SiteData, fmt: Formatters): seq<string> {
    var slots := ShownSlots(site);
    if slots == [] then []
    else [SlotHeader + Join(seq(|slots|, i requires 0 <= i < |slots| => SlotLine(slots[i], fmt)), "\n")]
  }

  function Sections(site: SiteData, fmt: Formatters): seq<string> {
    BlogSection(site, fmt) + TestimonialSection(site) + FaqSection(site) + SlotSection(site, fmt)
  }

  /** What build_dynamic_context returns. */
  function DynamicContext(site: SiteData, fmt: Formatters): string {
    var parts := Sections(site, fmt);
    if parts == [] then "" else LiveDataHeader + Join(parts, "\n\n")
  }

  /** The loop over the posts, one formatted line each. */
  method CollectBlogLines(posts: seq<PostRecord>, fmt: Formatters) returns (blogLines: seq<string>)
    ensures blogLines == BlogLines(posts, fmt)
  {
    blogLines := [];
    for i := 0 to |posts|
      invariant blogLines == BlogLines(posts[..i], fmt)
    {
      assert posts[..i + 1] == posts[..i] + [posts[i]];
      blogLines := blogLines + [BlogLine(posts[i], fmt)];
    }
    assert posts[..|posts|] == posts;
  }

  /** build_dynamic_context: each query with rows contributes one section,
      in the order blog, testimonials, FAQs, slots; the blog lines are
      collected one post at a time. */
  method BuildDynamicContext(site: SiteData, fmt: Formatters) returns (context: string)
    ensures context == DynamicContext(site, fmt)
  {
    var parts: seq<string> := [];
    var posts := ShownPosts(site);
    if posts != [] {
      var blogLines := CollectBlogLines(posts, fmt);
      parts := parts + [BlogHeader + Join(blogLines, "\n")];
    }
    assert parts == BlogSection(site, fmt);
    parts := parts + TestimonialSection(site);
    parts := parts + FaqSection(site);
    parts := parts + SlotSection(site, fmt);
    assert parts == Sections(site, fmt);
    if parts == [] {
      context := "";
    } else {
      context := LiveDataHeader + Join(parts, "\n\n");
    }
  }

  /** The context is empty exactly when every query comes back empty; it
      never is when there is a published post. */
  lemma {:induction false} EmptyContext(site: SiteData, fmt: Formatters)
    ensures DynamicContext(site, fmt) == "" <==>
              (site.posts == []
               && (forall i :: 0 <= i < |site.testimonials| ==> !site.testimonials[i].isActive)
               && site.faqs == []
               && (forall i :: 0 <= i < |site.slots| ==> !OpenSlot(site.slots[i], site.today)))
  {
    var parts := Sections(site, fmt);
    if parts != [] {
      assert DynamicContext(site, fmt)[0] == LiveDataHeader[0];
    }
  }

  /** build_full_system_prompt. */
  function FullSystemPrompt(basePrompt: string, site: SiteData, fmt: Formatters): (r: string)
    ensures basePrompt <= r
  {
    basePrompt + DynamicContext(site, fmt)
  }

  /** With nothing on the site the prompt is the base prompt alone. */
  lemma EmptySitePrompt(basePrompt: string, site: SiteData, fmt: Formatters)
    requires site.posts == [] && site.testimonials == [] && site.faqs == [] && site.slots == []
    ensures FullSystemPrompt(basePrompt, site, fmt) == basePrompt
  {
    EmptyContext(site, fmt);
  }

  /** A published post always shows up: the prompt is longer than the base
      prompt. */
  lemma PostsReachPrompt(basePrompt: string, site: SiteData, fmt: Formatters)
    requires site.posts != []
    ensures |FullSystemPrompt(basePrompt, site, fmt)| > |basePrompt|
  {
    EmptyContext(site, fmt);
  }

  // ---------------------------------------------------------------------
  // The conversation sent to the model
  // ---------------------------------------------------------------------

  /** One stored message as the view hands it over: its role and content. */
  datatype HistoryItem = HistoryItem(role: string, content: string)

  /** A turn of the request: role "user" or "model" and its text. */
  datatype Turn = Turn(role: string, text: string)

  const Acknowledgement: string :=
    "Understood! I'm Jakpa, ready to help doctors navigate their path to Germany. "
    + "I have access to our latest blog articles, FAQs, testimonials, and available booking slots. "
    + "How can I assist you today?"

  const Apology: string :=
    "I apologize, but I'm having trouble processing your request right now. "
    + "Please try again in a moment, or contact dr.Jakpa directly at info@drjakpa.com "
    + "for immediate assistance."

  const Greeting: string :=
    "Hi! \U{1F44B} I'm Jakpa, the official AI assistant for dr.Jakpa. "
    + "I'm here to help you navigate your journey to practicing medicine in Germany. "
    + "I can answer questions about the Approbation process, our blog articles, services, "
    + "booking sessions, and more. What would you like to know?"

  /** The model's role for a stored role. */
  function ModelRole(role: string): (r: string)
    ensures r == "model" <==> role == "assistant"
    ensures r == "user" <==> role != "assistant"
  {
    if role == "assistant" then "model" else "user"
  }

  function HistoryTurns(history: seq<HistoryItem>): seq<Turn> {
    seq(|history|, i requires 0 <= i < |history| => Turn(ModelRole(history[i].role), history[i].content))
  }

  /** The request: the prompt as a user turn, the acknowledgement as a
      model turn, the history, the current message. */
  function Contents(prompt: string, history: seq<HistoryItem>, userMessage: string): seq<Turn> {
    [Turn("user", prompt), Turn("model", Acknowledgement)] + HistoryTurns(history) + [Turn("user", userMessage)]
  }

  /** Turns appear in that order, one per history item, roles mapped. */
  lemma ContentsShape(prompt: string, history: seq<HistoryItem>, userMessage: string)
    ensures var c := Contents(prompt, history, userMessage);
            && |c| == 3 + |history|
            && c[0] == Turn("user", prompt)
            && c[1] == Turn("model", Acknowledgement)
            && (forall i :: 0 <= i < |history| ==>
                  c[2 + i].text == history[i].content
                  && (c[2 + i].role == "model" <==> history[i].role == "assistant"))
            && c[|c| - 1] == Turn("user", userMessage)
            && (forall i :: 0 <= i < |c| ==> c[i].role == "user" || c[i].role == "model")
  {
    var c := Contents(prompt, history, userMessage);
    forall i | 0 <= i < |history|
      ensures c[2 + i] == Turn(ModelRole(history[i].role), history[i].content)
    {
      assert c[2 + i] == HistoryTurns(history)[i];
    }
  }

  /** The contents loop of generate_response. */
  method AssembleContents(prompt: string, history: seq<HistoryItem>, userMessage: string) returns (contents: seq<Turn>)
    ensures contents == Contents(prompt, history, userMessage)
  {
    contents := [Turn("user", prompt), Turn("model", Acknowledgement)];
    for i := 0 to |history|
      invariant contents == [Turn("user", prompt), Turn("model", Acknowledgement)] + HistoryTurns(history[..i])
    {
      assert HistoryTurns(history[..i + 1]) == HistoryTurns(history[..i]) + [Turn(ModelRole(history[i].role), history[i].content)];
      contents := contents + [Turn(ModelRole(history[i].role), history[i].content)];
    }
    assert history[..|history|] == history;
    contents := contents + [Turn("user", userMessage)];
  }

  /** What a generate_content call gives: a response with text, a
      response whose `text` is None (no text parts, as for a blocked
      prompt), or an exception. */
  datatype Answer = Text(text: string) | NoText | Raised

  /** The reply for a conversation, `gemini` being the remote model:
      None when the response carries no text. */
  function Reply(basePrompt: string, site: SiteData, fmt: Formatters, history: seq<HistoryItem>,
                 userMessage: string, gemini: seq<Turn> -> Answer): Option<string>
  {
    match gemini(Contents(FullSystemPrompt(basePrompt, site, fmt), history, userMessage))
    case Text(t) => Some(t)
    case NoText => None
    case Raised => Some(Apology)
  }

  /** generate_response: build the prompt and contents, ask the model,
      pass on its text (None included), answer with the apology when the
      call raises. */
  method GenerateResponse(basePrompt: string, site: SiteData, fmt: Formatters, history: seq<HistoryItem>,
                          userMessage: string, gemini: seq<Turn> -> Answer) returns (text: Option<string>)
    ensures text == Reply(basePrompt, site, fmt, history, userMessage, gemini)
    ensures var sent := Contents(FullSystemPrompt(basePrompt, site, fmt), history, userMessage);
            && (gemini(sent).Raised? ==> text == Some(Apology))
            && (gemini(sent).NoText? ==> text.None?)
            && (gemini(sent).Text? ==> text == Some(gemini(sent).text))
  {
    var dynamic := BuildDynamicContext(site, fmt);
    var contents := AssembleContents(basePrompt + dynamic, history, userMessage);
    var answer := gemini(contents);
    match answer {
      case Text(t) => text := Some(t);
      case NoText => text := None;
      case Raised => text := Some(Apology);
    }
  }
}

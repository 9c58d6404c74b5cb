# DRJAKPA core in Dafny

This project models the core of DRJAKPA, a Django site for doctors who plan to move to Germany. The model is verified in Dafny. It covers these parts of the site:

- **Page-view analytics.**
  - `TrafficSource` classifies a referrer URL as direct, search, social or referral.
  - `AnalyticsMiddleware` decides which responses become page-view rows. It derives the page title, client IP and location, and keeps a ten-minute in-process de-duplication cache.
  - `AnalyticsModels`, `AnalyticsServices` and `AnalyticsViews` hold the reporting side: period filters, traffic-source counts, top pages and top referrers, the country and city tables, and the hourly, weekly, monthly and yearly charts.
- **The eligibility self-assessment.** `Eligibility` covers the additive score, the tier, the strengths and weaknesses, and the stored assessment.
- **The dashboard's content management.** `Posts` covers trash, restore and delete; bulk actions; unique slugs; category add, edit and delete; the post-form rules; and the date filter options.
- **Consultation booking.** `Scheduling` covers the booking price, the form submission, the status change, and the creation, update and deletion of session slots.
- **The chat assistant.**
  - `Chat` covers sessions with a 24-hour lifetime, the message store, and the send, history and initialisation endpoints.
  - `ChatPrompt` covers the live site context added to the system prompt, the turn list sent to the language model, and the fallback apology.
- **The public blog views.** `Blog` covers the featured strip, a slug that names a category or a post, related posts, comment counts and search.

## How the model is built

Database tables are sequences of records in the order the query returns them. Tables that a view changes are maps from primary key to record, held in classes:

| class | module |
|---|---|
| `Dashboard` | `Posts` |
| `Schedule` | `Scheduling` |
| `ChatStore` | `Chat` |
| `AssessmentStore` | `Eligibility` |
| `Middleware` | `AnalyticsMiddleware` |

The methods of these classes state the whole new state of their tables. Aggregations (`values(...).annotate(Count).order_by('-count')[:n]`) use one grouping function, `Grouping.Top`. Its result is a top-n ranking (`Grouping.IsTop`): distinct keys with their exact counts, sorted by count, and a key is left out only when the list is full of keys counted at least as often. Every top-n query of the analytics states its result as such a ranking of its own keys. Where the view then renames the keys (a city shown as "city, region", an empty page title shown as "Homepage"), the contract says that the result is a ranking of the keys before renaming, with each key renamed in place (`Grouping.Relabel`).

Anything the code gets from outside becomes a parameter:

- the clock: today's date, the current hour, and seconds since the epoch;
- HTTP request data: headers and query parameters as maps;
- `slugify`, `strip_tags` and `strftime`;
- the ip-api lookup;
- UUID parsing;
- the Gemini client;
- whether the page-view write succeeded.

The column sizes of the assessment and booking tables (main/models.py:17-32 and 68-75) are modelled, because PostgreSQL refuses a value that does not fit and the INSERT then raises: `Eligibility.Storable` and `Scheduling.FitsColumns`.

detect_source falls back to direct only when `urlparse` raises: its `except: return 'direct'` (analytics/utils.py:38-39) catches parse errors and nothing else. A referrer without a scheme, such as `google.com/x`, is not a parse error. It gets an empty netloc, so the code classifies it as a referral, not as direct. The `TrafficSource.BareDomainIsReferral` and `TrafficSource.PlainTextIsReferral` lemmas state this. The one parse error the model raises is an unbalanced `[`/`]` in the netloc, which falls back to direct (`TrafficSource.UnbalancedBracketIsDirect`). Python's `urlparse` raises in two more cases that the model does not cover; "Left out" lists them under `UrlNetloc`.

`Posts.GetDateOptions` models get_date_options (dashboard/views.py:195-211). The posts view defines that helper but never calls it: its context passes the selected date filter string under `'date_options'` (dashboard/views.py:219).

## Model

| member | source | states |
|---|---|---|
| TrafficSource.LStripControl | analytics/utils.py:23 | the URL suffix left after stripping leading C0 controls and spaces; it starts with a character above U+0020 |
| TrafficSource.RemoveUnsafe | analytics/utils.py:23 | the tab, CR and LF characters urlparse drops are gone, and the result is no longer than the input |
| TrafficSource.UpToDelimiter | analytics/utils.py:23 | the netloc is the longest prefix free of `/`, `?` and `#`, ending at one of them or at the end |
| TrafficSource.UrlNetloc | analytics/utils.py:23 | a netloc that parses has balanced `[` and `]` |
| TrafficSource.StripLeadingWww | analytics/utils.py:26 | removes exactly one leading `www.` and leaves any other host unchanged |
| TrafficSource.ClassifyWithCases | analytics/utils.py:29-37 | each of the four sources holds exactly when its rule is the first to match: same-site, then the search list, then the social list, else referral |
| TrafficSource.DetectSourceCases | analytics/utils.py:18-39 | DetectSource outcome by outcome, each as an if-and-only-if: direct exactly for an empty referrer, an unparseable one, or a host containing doclumina.org; search exactly for a parsed host without doclumina.org that contains a search domain; social exactly when it contains no search domain but a social one; referral exactly when it contains none of them. The host is the lowercased netloc less one leading `www.` |
| TrafficSource.SameSiteBeatsLists | analytics/utils.py:29-30 | a doclumina.org netloc is direct even when it also contains a search or social domain |
| TrafficSource.SearchBeatsSocial | analytics/utils.py:32-35 | a netloc containing a search domain is search even when it also contains a social one |
| TrafficSource.EmptyHostIsReferral | analytics/utils.py:36-37 | an empty netloc is a referral |
| TrafficSource.NoAuthorityIsReferral | analytics/utils.py:23-37 | a non-empty referrer whose netloc parses to "" is a referral, not direct |
| TrafficSource.PlainTextIsReferral | analytics/utils.py:23-37 | clean text with no `:` that does not start with `//` is a referral |
| TrafficSource.BareDomainIsReferral | analytics/utils.py:23-37 | `google.com/x`, which has no scheme, is a referral and not search |
| TrafficSource.UnbalancedBracketIsDirect | analytics/utils.py:38-39 | a `[` without `]` in the netloc makes the parse fail, and the result is direct |
| TrafficSource.PathNeverMatters | analytics/utils.py:23 | two absolute URLs with the same scheme and host have the same netloc and the same source, whatever follows the host |
| TrafficSource.NetlocOfAbsolute | analytics/utils.py:23 | for `scheme://host...` the netloc is the host |
| TrafficSource.SearchHostIsSearch | analytics/utils.py:6-9 | an absolute URL whose host is a listed search engine (not doclumina.org) is search |
| AnalyticsModels.SourceKey | analytics/models.py:7-12 | every source is stored as one of the four choice keys of the traffic_source field |
| AnalyticsModels.SourceOfKey | analytics/models.py:7-12 | a key decodes exactly when it is one of the four choice keys |
| AnalyticsModels.SourceKeyRoundTrip | analytics/models.py:7-12 | decoding a stored key gives back the source, and a key that decodes is the stored key of its source |
| AnalyticsModels.DetectSourceIsChoice | analytics/models.py:16 | every detected source is a valid choice of the field |
| AnalyticsModels.FilterByPeriod | analytics/models.py:39-54 | keeps exactly the rows whose date falls in the period (today, since this week's Monday, since the first of the month, since the first of the year), each as many times as it occurs, and nothing else |
| AnalyticsModels.PeriodKeepsOrder | analytics/models.py:39-54 | the period's rows keep their order: filtering a concatenation is the concatenation of the filtered parts |
| AnalyticsModels.UnknownPeriodKeepsAll | analytics/models.py:54 | an unknown period keeps every row |
| AnalyticsModels.WeekHoldsToday | analytics/models.py:43-45 | today is inside the week period |
| AnalyticsModels.ViewsByPeriod | analytics/models.py:39-54 | the count never exceeds the number of rows |
| AnalyticsModels.TrafficSources | analytics/models.py:57-74 | exactly the grouping of the period's rows by source key: each key appears once with its count, every key is a valid choice, and there are at most four |
| AnalyticsModels.AtMostFourKeys | analytics/models.py:57-74 | a grouping with distinct choice keys has at most four entries |
| AnalyticsServices.ViewsByPeriodIsFilterCount | analytics/models.py:39-54 | the period's view count is the size of the period filter |
| AnalyticsServices.TrafficSourcesTotal | analytics/models.py:57-74 | the counts per source add up to the period's view count |
| AnalyticsServices.GetTopPages | analytics/services.py:32-40 | a top-`limit` ranking of the period's (url, title) pairs: distinct pairs with exact counts, sorted by count, and a pair is left out only when the list is full of pairs viewed at least as often |
| AnalyticsServices.CountryData | analytics/services.py:143-153 | a top-ten ranking of the rows' known countries (never empty or "Local"), with exact positive counts; a country is left out only when ten countries counted at least as often are listed |
| AnalyticsServices.PlaceName | analytics/services.py:167 | "city, region" when the region is non-empty, else the city |
| AnalyticsServices.CityData | analytics/services.py:155-171 | a top-ten ranking of the known (city, region) pairs, each then named "city, region" or "city" in place; names never empty or "Local", counts positive and sorted |
| AnalyticsServices.GetLocationData | analytics/services.py:139-171 | for countries, the country ranking; for any other type, the (city, region) ranking named in place; at most ten names, never empty or "Local" |
| AnalyticsServices.LocationData | analytics/services.py:139-171 | the same rankings over the rows of the period |
| AnalyticsServices.GetTopReferrers | analytics/services.py:174-185 | a top-`limit` ranking of the period's (domain, source) pairs of referred rows, never with an empty domain or a direct source |
| AnalyticsServices.ClockNumber | analytics/services.py:88-95 | the 12-hour clock number is between 1 and 12 |
| AnalyticsServices.HourLabelShape | analytics/services.py:88-95 | an hour's label is its 12-hour number followed by am or pm |
| AnalyticsServices.HourLabelInjective | analytics/services.py:88-95 | two hours of a day never share a label |
| AnalyticsServices.HourlyChart | analytics/services.py:79-96 | 24 points, hour h labelled by h and counting today's rows in hour h; all labels distinct |
| AnalyticsServices.WeeklyChart | analytics/services.py:98-110 | four points, oldest first; point j counts the rows in the week window 3-j weeks back |
| AnalyticsServices.LastWeekEndsToday | analytics/services.py:98-110 | the newest week window ends today |
| AnalyticsServices.WeekWindowSpan | analytics/services.py:98-110 | window i starts 7i+6 days before today and does not end before it starts |
| AnalyticsServices.WeekWindowsContiguous | analytics/services.py:98-110 | consecutive week windows are adjacent: each starts the day after the older one ends |
| AnalyticsServices.MonthlyChart | analytics/services.py:112-125 | six points; point i steps back 32·i days from the first of the current month, then goes to the first of the month it lands in, and counts the rows from there to the next first of month |
| AnalyticsServices.MonthStepLands | analytics/services.py:116-117 | the i-th step lands on the first of month M-i-1 (M for i = 0), M being the current month |
| AnalyticsServices.MonthChartEndsNow | analytics/services.py:112-125 | the newest bucket is the current month |
| AnalyticsServices.MonthBucketIsCalendarMonth | analytics/services.py:118-122 | each bucket runs from one month's first day to the next month's first day |
| AnalyticsServices.MonthChartSkipsPreviousMonth | analytics/services.py:113-117 | no bucket is the previous calendar month |
| AnalyticsServices.CalendarMonthlyChart | analytics/services.py:112-125 | six points for the last six calendar months, oldest first, each counting its month's rows |
| AnalyticsServices.YearlyChart | analytics/services.py:127-134 | three points for the current year and the two before it, each counting that year's rows |
| AnalyticsServices.GetChartData | analytics/services.py:75-136 | today gives the 24 hourly points, week the four week windows, month the six 32-day-step months, and any other period the three yearly points, each point with its caption and its count |
| AnalyticsViews.GetOr | analytics/views.py:14-17 | the query parameter when present, else the default |
| AnalyticsViews.NormalizePeriod | analytics/views.py:31-34 | a known period passes through; a missing or unknown one becomes week |
| AnalyticsViews.NormalizeLocationType | analytics/views.py:50-54 | countries or regions pass through; anything else becomes countries |
| AnalyticsViews.LocationDataView | analytics/views.py:48-64 | at most ten entries; for countries, the country ranking of the normalised period; for regions, the named (city, region) ranking |
| AnalyticsViews.DirectTitles | analytics/views.py:75-88 | the page titles of exactly the direct rows, one per row, in order |
| AnalyticsViews.DomainsOf | analytics/views.py:89-107 | the referrer domains of one source type, none empty |
| AnalyticsViews.SourceBreakdown | analytics/views.py:75-107 | at most ten non-empty names with positive counts, sorted; for direct, a top-ten ranking of the direct titles with an empty title shown as Homepage; for any other type, a top-ten ranking of that type's domains |
| AnalyticsViews.TrafficSourcesDetail | analytics/views.py:68-108 | with type defaulting to search and period to week, the breakdown's ranking over the rows of that period |
| AnalyticsViews.DetailUnknownPeriodUsesAllRows | analytics/views.py:70-73 | an unknown period breaks down every row, as the unfiltered query does |
| AnalyticsViews.UnknownTypeIsEmpty | analytics/views.py:89-107 | a source type that no row has gives an empty breakdown |
| AnalyticsMiddleware.MetaGet | analytics/middleware.py:46 | request.META.get: the header when present, else the default |
| AnalyticsMiddleware.ClientIp | analytics/middleware.py:123-127 | the first X-Forwarded-For entry when that header is non-empty, else REMOTE_ADDR |
| AnalyticsMiddleware.ForwardedIpHasNoComma | analytics/middleware.py:123-127 | the IP taken from X-Forwarded-For never contains a comma |
| AnalyticsMiddleware.LocationFor | analytics/middleware.py:129-149 | localhost and private addresses give Local for country, city and region; any other address gives the lookup's answer |
| AnalyticsMiddleware.TitleShape | analytics/middleware.py:86-95 | str.title leaves non-letters alone and never upper-cases a letter that follows a letter |
| AnalyticsMiddleware.TitleFromChars | analytics/middleware.py:86-95 | str.title character by character: a letter is lowercased after a letter and uppercased otherwise, and every other character is kept |
| AnalyticsMiddleware.PageTitle | analytics/middleware.py:78-95 | a tracked page's fixed title, a blog page's derived title, otherwise "", and "" exactly when neither applies |
| AnalyticsMiddleware.BlogPostTitle | analytics/middleware.py:86-95 | a post slug under /blog/ is titled "Blog: " plus the title-cased slug with dashes turned into spaces |
| AnalyticsMiddleware.ReferrerDomain | analytics/middleware.py:98-106 | for a non-empty, non-direct referrer whose netloc parses and is non-empty, the lowercased netloc with every `www.` removed; no domain in every other case |
| AnalyticsMiddleware.InnerWwwRemoved | analytics/middleware.py:104 | `replace('www.', '')` removes every occurrence, not only a leading one |
| AnalyticsMiddleware.TrackPageView | analytics/middleware.py:66-121 | no row exactly when the path has no title; otherwise every field of the row: the path and its title, the detected source, the referrer (None when empty), the IP, the user agent cut to 500 characters, the three location fields of the IP, today's date, the hour and the referrer domain |
| AnalyticsMiddleware.Pruned | analytics/middleware.py:60-64 | keeps exactly the cache entries seen within the window, with their timestamps |
| AnalyticsMiddleware.RecordedKeepsKey | analytics/middleware.py:51-64 | after recording, the key maps to now, recent entries survive, and an entry is dropped only when the cache overflowed and the entry is stale |
| AnalyticsMiddleware.FirstVisitNotDeduplicated | analytics/middleware.py:51-57 | a key absent from the cache is never treated as a repeat |
| AnalyticsMiddleware.Middleware.Sweep | analytics/middleware.py:60-64 | the cache becomes its pruned version and the views are unchanged |
| AnalyticsMiddleware.Middleware.ProcessResponse | analytics/middleware.py:22-121 | returns the response; ignored requests and repeats change nothing; otherwise the key is recorded and the page view appended when it has a title and the write succeeds |
| Eligibility.Get | main/views.py:121-151 | dict.get: an answer exactly when the key is present |
| Eligibility.ScoreUpToBounded | main/views.py:124-151 | the score after any prefix of the rules is at most the sum of their points |
| Eligibility.MaxScoreIsHundred | main/views.py:124-151 | the points of the six rules add up to 100 |
| Eligibility.ScoreAtMostHundred | main/views.py:124-151 | every set of answers scores at most 100 |
| Eligibility.ScoreReadsSixAnswers | main/views.py:124-151 | answers that agree on the six scored questions get the same score |
| Eligibility.ScoreExtremes | main/views.py:124-151 | answers meeting every rule score 100; answers meeting none score 0 |
| Eligibility.FiredCount | main/views.py:172-199 | the list holds as many observations as there are rules that fire |
| Eligibility.ActivePracticeStrength | main/views.py:185-186 | anyone not answering No to currently practising gets the active-practice strength, last in the list |
| Eligibility.OneToThreeYears | main/views.py:140-142 | 1-3 years of experience scores its 15 points but yields neither the experience strength nor the experience weakness |
| Eligibility.ComputeScore | main/views.py:124-151 | the loop's score is the rule score, at most 100 |
| Eligibility.ComputeTier | main/views.py:154-169 | each tier holds exactly on its score band (80+, 60-79, 40-59, below 40) |
| Eligibility.ComputeStrengths | main/views.py:172-186 | exactly the strengths whose rules fire, in order |
| Eligibility.FirstStrengths | main/views.py:227 | the first three firing strengths |
| Eligibility.ComputeWeaknesses | main/views.py:189-199 | exactly the weaknesses whose rules fire, in order |
| Eligibility.Evaluate | main/views.py:124-199 | score, tier band, strengths and weaknesses together |
| Eligibility.AssessmentStore.Submit | main/views.py:119-235 | a missing body, a missing stored field, or a value longer than its column (full_name 200, email 254, phone and whatsapp 20, each answer 50) gives 400 and stores nothing; otherwise the assessment is stored with its score and its tier's category, and the response carries the score, the tier's category, package and colour, three strengths and two weaknesses |
| Eligibility.ResponseLists | main/views.py:227-228 | the response lists are at most three and two entries long and are prefixes of the full lists |
| Posts.Trashed | dashboard/views.py:253-259 | marks the post trashed with time and user and changes nothing else |
| Posts.Restored | dashboard/views.py:262-268 | clears the trash fields, makes the post a draft, and changes nothing else |
| Posts.RestoreUndoesTrash | dashboard/views.py:253-268 | restoring a trashed post gives back the original as a draft |
| Posts.ApplyStatus | dashboard/views.py:360-365 | save-draft wins; publishing sets a published date only when there is none; neither button leaves the post as it is |
| Posts.BulkApply | dashboard/views.py:234-288 | delete removes exactly the selected posts; other actions keep the keys; unselected posts are unchanged |
| Posts.BulkPublishKeepsPublished | dashboard/views.py:275-277 | bulk publish leaves already-published posts untouched and gives the others a published date |
| Posts.UnknownBulkActionChangesNothing | dashboard/views.py:246-288 | an unknown action changes no post |
| Posts.BaseSlug | dashboard/views.py:531-545 | the base slug is never empty |
| Posts.CandidatesDistinct | dashboard/views.py:531-545 | the candidate slugs slug, slug-1, slug-2, ... are pairwise distinct |
| Posts.ExcludeZero | dashboard/views.py:531-545 | excluding primary key 0 is the same as excluding nothing |
| Posts.Submitted | dashboard/views.py:745-778 | the stored name and description are the stripped form fields |
| Posts.SubmittedSlug | dashboard/views.py:745-778 | the slug is slugified from the given slug, or from the name when the slug is blank |
| Posts.CleanSeoDescription | dashboard/forms.py:84-88 | accepted exactly when at most 160 characters |
| Posts.RequiredFields | dashboard/forms.py:46-56 | the form stops requiring slug, published date and featured image, and nothing else changes |
| Posts.GetDateOptions | dashboard/views.py:195-211 | twelve month starts, the current month first, each one month before the previous |
| Posts.Dashboard.GenerateUniqueSlug | dashboard/views.py:531-545 | the first candidate not used by another post |
| Posts.Dashboard.FreeCandidate | dashboard/views.py:531-545 | the loop returns the first free candidate |
| Posts.Dashboard.CleanSlug | dashboard/forms.py:62-82 | the cleaned slug is the first free candidate of the given or derived slug |
| Posts.Dashboard.BulkAction | dashboard/views.py:234-288 | no selection or no post type changes nothing; otherwise the posts become BulkApply of the action |
| Posts.Dashboard.TrashPost | dashboard/views.py:292-313 | 404 for a missing post; otherwise that post alone is trashed |
| Posts.Dashboard.DeletePost | dashboard/views.py:665-677 | only the post's author finds it, and it is moved to the trash; anyone else gets 404 and nothing changes |
| Posts.Dashboard.RestorePost | dashboard/views.py:680-691 | only a trashed post is restored; otherwise 404 and nothing changes |
| Posts.Dashboard.AddPost | dashboard/views.py:341-383 | a new post under a fresh key built from the form's title, slug and date: authored by the user, not trashed, the buttons' status, a unique slug when the slug is empty, and exactly the selected categories (none when nothing is selected); no other post changes |
| Posts.Dashboard.EditPost | dashboard/views.py:400-448 | 404 for a missing post; only the author or a superuser may edit, and then the edit succeeds; the form's title, slug and date are bound onto the stored post, which keeps its author and trash fields, gets the buttons' status and exactly the selected categories |
| Posts.Dashboard.AddCategory | dashboard/views.py:745-778 | the full decision: a blank name, then an equal name ignoring case, then an equal slug are refused and change nothing; any other submission adds the category under a fresh key |
| Posts.Dashboard.EditCategory | dashboard/views.py:781-816 | 404 for a missing category; then the same decision as adding, with the category itself not counted as a duplicate; a valid edit replaces that category only |
| Posts.Dashboard.DeleteCategory | dashboard/views.py:819-836 | a category still holding posts is kept; otherwise it is removed; a missing one is 404 |
| Scheduling.Price | main/models.py:95 | price is 10000 per hour and non-negative for a non-negative duration |
| Scheduling.DefaultBookingPrice | main/models.py:74-95 | the default booking is pending and costs 10000 |
| Scheduling.DurationOf | main/views.py:53 | a missing duration is 1; any other is int() of the text, which may fail |
| Scheduling.NewBooking | main/views.py:66-73 | a new booking is pending, priced at 10000 per hour |
| Scheduling.DefaultFormDuration | main/views.py:53 | a form without a duration books one hour for 10000 |
| Scheduling.Schedule.SaveBooking | main/models.py:93-101 | saving fails and stores nothing exactly when the slot is unavailable or the row, with its computed price, does not fit its columns (names 200, email 254, WhatsApp 20, a price below 10^8 in absolute value); otherwise the booking is stored with its computed price |
| Scheduling.Schedule.SubmitBooking | main/views.py:46-93 | a non-numeric duration or session id fails; missing fields are reported; with the fields filled, an unbookable slot gives SessionUnavailable, and a bookable one succeeds exactly when the new row fits its columns and fails otherwise; success stores exactly one pending booking priced by the hour under a fresh key |
| Scheduling.TenThousandHoursDoNotFit | main/models.py:75 | 10000 hours cost 100000000.00, more than numeric(10, 2) holds, so such a booking never fits; 9999 hours do |
| Scheduling.Schedule.UpdateBookingStatus | dashboard/views.py:1284-1301 | 400 for a non-AJAX request or invalid status, 404 for a missing booking, 500 exactly when the slot is unavailable, 200 in every other case, and then only the status changes |
| Scheduling.Schedule.DeleteBooking | dashboard/views.py:1305-1315 | 400 without AJAX, 404 for a missing booking, otherwise exactly that booking is removed |
| Scheduling.Schedule.CreateSession | dashboard/views.py:1367-1404 | a taken date and time is refused with 400; otherwise a new available slot is added under a fresh key |
| Scheduling.Schedule.UpdateSession | dashboard/views.py:1425-1457 | moving onto another slot's date and time is refused; otherwise only this slot changes and slots stay unique |
| Scheduling.Schedule.DeleteSession | dashboard/views.py:1461-1480 | a slot with bookings is kept (400); otherwise it is removed |
| Scheduling.OwnSlotNotTaken | dashboard/views.py:1425-1457 | a slot never collides with itself when its own key is excluded, while without exclusion it is taken |
| Chat.ExpiryIsMonotone | jakpa_bot/models.py:25-26 | a session is not expired at its expiry instant, and once expired it stays expired |
| Chat.ChatSession.Save | jakpa_bot/models.py:20-23 | the first save sets the expiry 24 hours ahead; later saves keep it |
| Chat.RoleName | jakpa_bot/models.py:33-36 | every role is one of the two choices, and assistant is the assistant's alone |
| Chat.SessionIdOf | jakpa_bot/views.py:44-52 | a session id exactly when the field is present and non-empty |
| Chat.MessageOf | jakpa_bot/views.py:44-52 | the stripped message, or "" when absent |
| Chat.Window | jakpa_bot/views.py:81-82 | drops the first and the last message and keeps the rest in order |
| Chat.WindowDropsGreetingAndCurrent | jakpa_bot/views.py:81-82 | the window of the stored history plus the new message is the history without its first message |
| Chat.SendHistoryIsEarlierMessages | jakpa_bot/views.py:74-85 | the history sent to the model is every earlier message except the greeting |
| Chat.Items | jakpa_bot/views.py:125 | one item per message, with its role name and content |
| Chat.ContentPreview | jakpa_bot/admin.py:26-27 | at most 103 characters; short content unchanged; longer content is its first 100 characters plus "..." |
| Chat.ChatStore.InitializeSession | jakpa_bot/views.py:15-37 | a fresh id gets a session and the greeting as its only message; a used id gives 500 and changes nothing |
| Chat.ChatStore.SendMessage | jakpa_bot/views.py:42-109 | 400 for bad input, 404 for an unknown session, 403 for an expired session, which alone is deactivated while every other session is unchanged; on a live session the user message is stored, then the reply is appended with 200, or, when the model's response has no text, 500 with only the user message stored |
| Chat.ChatStore.Deactivate | jakpa_bot/views.py:64-71 | the session becomes inactive and keeps its expiry |
| Chat.ChatStore.Converse | jakpa_bot/views.py:74-92 | stores the user message, asks the model with the earlier messages, then appends the reply; a reply without text is not appended |
| Chat.ChatStore.StoreReply | jakpa_bot/views.py:88-92 | the assistant message is appended when there is reply text; with none, the NOT NULL content column refuses it and nothing is stored |
| Chat.ChatStore.GetChatHistory | jakpa_bot/views.py:114-142 | 500 for a malformed id, 404 for an unknown session, 403 for an expired one, else all its messages in order; the route `history/<uuid:session_id>/` (jakpa_bot/urls.py:8) already answers a malformed id with 404, so the 500 branch is reached only when the view is called directly |
| ChatPrompt.ShownPosts | jakpa_bot/services.py:89 | the first twenty published posts in order: all of them when there are at most twenty, else exactly twenty |
| ChatPrompt.ShownTestimonials | jakpa_bot/services.py:113 | a prefix of the active testimonials in query order: all of them when there are at most five, else exactly five; an active testimonial is left out only when five are shown |
| ChatPrompt.ActiveKeepsCopies | jakpa_bot/services.py:113 | filter(is_active=True) keeps each active row as often as it occurs and adds nothing |
| ChatPrompt.ActiveKeepsOrder | jakpa_bot/services.py:113 | the filter keeps query order: filtering two runs of rows is filtering their concatenation |
| ChatPrompt.ShownFaqs | jakpa_bot/services.py:127 | the first ten FAQs in order: all of them when there are at most ten, else exactly ten |
| ChatPrompt.ShownSlots | jakpa_bot/services.py:141-145 | a prefix of the available slots dated today or later, in query order: all of them when there are at most eight, else exactly eight; an open slot is left out only when eight are shown |
| ChatPrompt.OpenKeepsCopies | jakpa_bot/services.py:141-144 | the slot filter keeps each open slot as often as it occurs and adds nothing |
| ChatPrompt.OpenKeepsOrder | jakpa_bot/services.py:141-145 | the slot filter keeps the date-and-time order |
| ChatPrompt.CategoryLabel | jakpa_bot/services.py:94 | the joined category names, or General when there are none |
| ChatPrompt.Excerpt | jakpa_bot/services.py:95-98 | the post's own excerpt; else, when there is content, the first 200 characters of the tag-stripped content with white space stripped from both ends: a contiguous slice of them with only white space around it and none at its ends |
| Base.StripShape | jakpa_bot/services.py:98 | str.strip() returns a contiguous slice of the text with only white space around it and no white space at either end |
| ChatPrompt.Snippet | jakpa_bot/services.py:116 | the first 150 characters of the testimony: all of it when it is at most 150 long, else exactly 150 |
| ChatPrompt.CollectBlogLines | jakpa_bot/services.py:91-101 | the loop builds one line per post |
| ChatPrompt.BuildDynamicContext | jakpa_bot/services.py:79-163 | the context is the live-data header followed by the non-empty sections in order |
| ChatPrompt.EmptyContext | jakpa_bot/services.py:156-157 | the context is empty exactly when every section is empty |
| ChatPrompt.FullSystemPrompt | jakpa_bot/services.py:166-169 | the base prompt is a prefix of the full prompt |
| ChatPrompt.EmptySitePrompt | jakpa_bot/services.py:156-169 | with no site data the prompt is the base prompt |
| ChatPrompt.PostsReachPrompt | jakpa_bot/services.py:103-106 | a published post makes the prompt longer than the base prompt |
| ChatPrompt.ModelRole | jakpa_bot/services.py:213 | assistant becomes model; every other role becomes user |
| ChatPrompt.ContentsShape | jakpa_bot/services.py:195-223 | the prompt, the model's acknowledgement, the history in order and the new message: three more turns than the history |
| ChatPrompt.AssembleContents | jakpa_bot/services.py:195-223 | the loop builds exactly that turn list |
| ChatPrompt.GenerateResponse | jakpa_bot/services.py:182-238 | the model's text for that turn list; None when the response has no text (`response.text` is None); the apology when the call raises |
| Blog.FilterKeepsUniqueIds | blog/views.py:12-25 | a filtered table keeps unique primary keys |
| Blog.FillerNotFeatured | blog/views.py:19-23 | top-up posts are live, from the table, and not already featured |
| Blog.FeaturedPosts | blog/views.py:12-25 | at most three live posts without repeats: the first featured ones, topped up with other live posts when fewer than three |
| Blog.FirstCategoryWithSlug | blog/views.py:49-51 | finds a category exactly when one carries the slug |
| Blog.CategoryPosts | blog/views.py:51-55 | exactly the live posts of the category, from the table |
| Blog.Related | blog/views.py:71-76 | at most five other live posts sharing a category; such a post is left out only when five are shown |
| Blog.Resolve | blog/views.py:47-76 | a category with the slug wins and lists that category's live posts; otherwise exactly one live post with the slug shows that post with its related posts, none gives not found, and several make get() fail |
| Blog.CategoryShadowsPost | blog/views.py:49-68 | a slug shared by a category and a post shows the category |
| Blog.ShownComments | blog/views.py:107-112 | a prefix of the approved top-level comments in query order: all of them with show_all or when there are at most ten, else exactly ten |
| Blog.TotalSplits | blog/views.py:107-112 | the approved comment count is the number of approved top-level comments plus the number of approved replies |
| Blog.LoadMoreWithEveryCommentShown | blog/views.py:107-121 | when replies lift the approved count above ten while at most ten top-level comments exist, "load more" is offered although every top-level comment is already shown |
| Blog.ReplyFreeLoadMore | blog/views.py:107-121 | in a thread without approved replies, "load more" is offered exactly when some top-level comment is held back |
| Blog.Search | blog/views.py:147-159 | no query, no results; otherwise exactly the live posts whose title, content or excerpt contains it |
| Grouping.Top | analytics/services.py:36-39 | a top-`limit` ranking: at most `limit` distinct keys with exact counts, sorted by count; when a key is left out, the list is full and every kept count is at least the omitted one |
| Grouping.FilterMultiset | analytics/models.py:39-54 | filter keeps every passing row as many times as it occurs and adds nothing |
| Grouping.FilterAppend | analytics/models.py:39-54 | filter keeps the rows' order: it distributes over concatenation |
| Grouping.Relabel | analytics/services.py:165-171 | renaming the keys keeps each entry's count and position, so a sorted grouping stays sorted |

## Left out

- `slugify`, `strip_tags`, `strftime`, the ip-api lookup, UUID parsing and the Gemini client are parameters. Their own behaviour (Unicode normalisation, HTML parsing, date formatting, HTTP) is not modelled.
- The text of BASE_SYSTEM_PROMPT is a parameter, because its wording is data and not logic.
- Column sizes of the blog and dashboard tables (Post, Category, Comment) are not modelled: blog/models.py is not part of this model, so their max_length values are unknown.
- Posts.NewPostStatus: the status of a new post when neither save_draft nor publish is posted is the Post model's field default. blog/models.py is not part of this model, so that default is assumed to be "draft".
- Query orderings (`-published_date`, `-created_at`, `date, time`) are modelled as the order of the input tables. Sorting by database columns is the database's job.
- The `try/except Exception: pass` around each section of build_dynamic_context is left out. The sections read in-memory tables that cannot raise.
- JSON bodies are maps from string keys to string values. Non-string JSON values and bodies that are not objects are left out, apart from "no body at all", which is modelled.
- Time is whole seconds and dates are civil dates. The current date, hour and epoch second are inputs.
- The booking price is an integer number of naira, where the source uses Decimal. Durations are whole hours.
- BOT_PATTERN is modelled as a case-insensitive substring test against its alternatives, with no general regular-expression engine.
- urlparse is modelled for what detect_source and referrer_domain read: the scheme split, the `//` authority, the bracket check and the stripping of unsafe characters. Ports, userinfo and IPv6 validation beyond brackets are not modelled.
- The de-duplication cache is modelled for one process. Races between workers are left out, and their only effect is an occasional duplicate row.
- The booking confirmation e-mail thread, comment posting and replies, booking_update (the full edit form), sessions_list, session_detail and pagination are not modelled. They render templates or send mail without decision logic of their own.
- Featured-image upload and removal in add_post and edit_post, handle_profile_update, and the category branch of auto_save_post are not modelled.
- dashboard/views.py defines restore_post twice. The later definition wins and is the one modelled.
- Chat.ChatStore.MessageCount has no contract of its own. The message counts are stated by the ensures of InitializeSession and SendMessage.
- get_dashboard_data, get_blog_analytics, dashboard_data and traffic_data are not modelled as members. They only bundle results of the modelled functions into dictionaries.
- AnalyticsServices.CityData: the counts are stated per (city, region) pair, before naming, not per displayed name. A city "A, B" without a region and a city "A" in region "B" show the same name, so a name alone does not determine a count.
- UrlNetloc: does not raise where Python's `urlsplit` also raises, so such referrers are classified by their host instead of falling back to direct. `_checknetloc` raises for a non-ASCII netloc whose NFKC normalisation introduces one of `/?#@:`, such as one holding U+FF0F. `_check_bracketed_netloc` raises for a bracketed host that is not an IPv6 or IPvFuture address, such as `[abc]`. Both need Unicode normalisation and address parsing, which the model does not have.
- Case folding is ASCII only. `Base.Lower` lowercases A-Z and nothing else, so the model's BOT_PATTERN test, `icontains` and `iexact` differ from Python and the database on non-ASCII letters.
- `str.strip()` is modelled for the whitespace characters below U+0100 (`Base.IsSpace`). Python also strips the Unicode whitespace above that, such as U+2003 and U+3000.
- `Base.ParseInt` accepts an optional sign and ASCII digits. Python's `int()` also accepts underscores between digits (`1_0`) and non-ASCII decimal digits; the model rejects both.

## Findings

| source | as written | input that shows it | evidently intended | confidence | as-written member | corrected member |
|---|---|---|---|---|---|---|
| analytics/services.py:113-117 | the month chart steps back 32·i days from the first of the current month, then goes to the first of the month it lands in | any date, e.g. a day in March: the six bars are September, October, November, December, January and March, and February is missing | one bar for each of the last six calendar months | not executed | AnalyticsServices.MonthChartSkipsPreviousMonth | AnalyticsServices.CalendarMonthlyChart |

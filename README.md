# A Dafny model of the Dr Islam El-Helou clinic website

The site is bilingual (English and Arabic). This project models its logic, not its pages:

- **Insight tools.** Short dermatology questionnaires whose answers are scored against per-module weights. The score is mapped to one of three tiers (informational, evaluation, priority). Red flags are collected, and a summary can be saved in the browser.
- **Routing.** Locale detection, the edge redirect to `/{locale}`, the root page's redirect and the language toggle.
- **Metadata.** The SEO metadata builder and the sitemap.
- **API routes.** The appointment, lead and contact routes, with their validation chains, the HTML escaping of e-mail fields, the appointment store and the dashboard's password and cookie checks.
- **Browser-side helpers.** The analytics-consent slot, the blog's helpers (post list, table of contents, reading time), the service landing-page table, the testimonial slider's index arithmetic and the analytics click classifier.

The model follows the shape of the code:

- Pure TypeScript becomes datatypes, functions and lemmas.
- State the code updates in place becomes a class whose methods are specified against those functions:
  - the quiz stepper's React state;
  - the JSON file of appointments;
  - the localStorage slots;
  - the cookie jar;
  - the slider's index.
- Loops become methods with loop invariants, proved equal to a recursive specification:
  - `computeScore`;
  - the sitemap's nested loops;
  - the table-of-contents loop;
  - `detectLocale`.
- These are parameters rather than modelled behaviour:
  - environment variables, headers and cookie values;
  - the clock and random ids;
  - whether the e-mail service accepts a message;
  - a post's front matter;
  - the heading slugger.

JavaScript behaviour that matters is written out:

- `String(x ?? '')` on request bodies.
- `trim` with JavaScript's whitespace set.
- Truthiness.
- `Array.prototype.find` as a first match.
- `%` on non-negative operands.
- String `<` as code-point order.
- UTF-8 byte lengths (for the password check).
- UTF-16 lengths (for the length bounds of the contact, appointment and lead routes).
- The leftmost-match semantics of each regular expression the core uses.

## Model

| member | source | states |
|---|---|---|
| InsightEngine.Selected | lib/insights/engine.ts:9-11 | the option chosen for a question is one of its options whose id is the answer; none when the question is unanswered or no option id matches |
| InsightEngine.RedFlags | lib/insights/engine.ts:6-16 | the English and Arabic red-flag lists have equal length, and hold the selected options' flags in question order |
| InsightEngine.ComputeScore | lib/insights/engine.ts:4-20 | the loop's score is the sum of the selected options' weights over the module's questions, and its red flags are `RedFlags` |
| InsightEngine.WithRedFlags | lib/insights/engine.ts:22-32 | with both lists empty the result is returned unchanged; otherwise every field is kept and `redFlags` is set to the two lists |
| InsightEngine.UnmatchedQuestionIsNeutral | lib/insights/engine.ts:9-11 | an unanswered question, or one whose answer matches no option, adds nothing to the score and no red flag wherever it sits |
| InsightEngine.ScoreDependsOnlyOnOwnAnswers | lib/insights/engine.ts:8-9 | two answer maps that agree on the module's question ids give the same score and red flags; other keys are irrelevant |
| InsightEngine.ScoreAppend | lib/insights/engine.ts:8-17 | the score and the flags of a concatenation of questions are the sums and concatenations of the parts |
| InsightEngine.ScoreOfSelected | lib/insights/engine.ts:8-16 | when every question has a selected option, the score is the sum of those options' weights and the flags are theirs, in order |
| InsightEngine.ScoreBounds | lib/insights/engine.ts:5-12 | with non-negative weights the score lies between 0 and the sum of each question's largest weight |
| InsightEngine.CompleteScoreAtLeastMin | lib/insights/engine.ts:8-12 | when every question is answered with one of its options, the score is at least the sum of each question's smallest weight |
| InsightModules.LevelFor | lib/insights/modules.ts:80 | priority iff score ≥ high; evaluation iff mid ≤ score < high; informational otherwise |
| InsightModules.SummaryFor | lib/insights/modules.ts:82-95 | the summary text is chosen by the tier alone |
| InsightModules.StepsFor | lib/insights/modules.ts:105-120 | tiered modules give two fixed steps and a third depending only on whether the tier is informational; fixed modules give their constant steps |
| InsightModules.Evaluate | lib/insights/modules.ts:76-131 | the result's score is `computeScore`'s; its tier follows the module's (high, mid) pair; summary, explanation and next steps are chosen as above; `redFlags` is present iff some flag was collected, and then it equals the collected lists |
| InsightModules.ModuleThresholds | lib/insights/modules.ts:80-719 | the thresholds are acne 14/9, hair-loss 12/7, pigmentation 12/7, rosacea 13/8, eczema 14/9, psoriasis 15/9, when-to-consult 10/6, and high > mid in every module |
| InsightModules.EvaluateMonotone | lib/insights/modules.ts:80-719 | a higher score never gives a lower tier, whatever the locales |
| InsightModules.EvaluateIgnoresLocale | lib/insights/modules.ts:76-202 | the locale argument does not change the result |
| InsightModules.TieredNextSteps | lib/insights/modules.ts:105-244 | every module but when-to-consult has three steps per locale; the first two are fixed; the third depends only on whether the tier is informational |
| InsightModules.WhenToConsultStepsConstant | lib/insights/modules.ts:744-755 | when-to-consult's three steps are constant |
| InsightModules.WeightsNonNegative | lib/insights/modules.ts:17-72 | every option weight of every module is non-negative |
| InsightModules.ScoreInRange | lib/insights/modules.ts:77 | every module's score lies between 0 and its maximum |
| InsightModules.FindBySlug | lib/insights/modules.ts:771-773 | the module found has the slug asked for; none iff no module has it |
| InsightModules.GetInsightModule | lib/insights/modules.ts:761-773 | `getInsightModule` returns a registered module with that slug, or nothing iff the slug is not registered |
| InsightModules.RegistrySlugs | lib/insights/modules.ts:761-769 | the registry lists the seven slugs, all distinct |
| InsightModules.LookupBySlug | lib/insights/modules.ts:771-773 | looking up a registered module's slug finds that module; an unknown slug finds nothing |
| InsightModules.AcneHighEnd | lib/insights/modules.ts:17-80 | acne answers gt12, jaw, nodules, scar, rx give score 19, priority, and red flags for nodules and scarring |
| InsightModules.AcneLowEnd | lib/insights/modules.ts:17-80 | acne answers lt3, forehead, comedones, none, none give score 4, informational, and no `redFlags` field |
| InsightModules.WhenToConsultSymptomsArePriority | lib/insights/modules.ts:682-719 | any complete when-to-consult answer set with symptoms = yes is priority (the minimum is 1 + 8 + 1 = 10) |
| InsightsSaved.KeepObjects | lib/insights/saved.ts:20 | only truthy objects survive the first filter |
| InsightsSaved.Normalize | lib/insights/saved.ts:21-30 | id, module and summary texts default to '' and `at` to 0; a missing or null level becomes 'informational'; any other stored level passes through |
| InsightsSaved.KeepComplete | lib/insights/saved.ts:31 | survivors have a non-empty id and module and a non-zero `at`, and come from the input |
| InsightsSaved.LoadFrom | lib/insights/saved.ts:11-36 | `loadSaved` gives well-formed entries, at most 3; it gives [] with no window, an empty slot, unparsable JSON or a non-array |
| InsightsSaved.SurvivorsAreFiltered | lib/insights/saved.ts:20-31 | the two filters and the map keep exactly the object-like entries whose normalised form is complete, in stored order |
| InsightsSaved.ScanTakesSurvivors | lib/insights/saved.ts:19-32 | the single pass keeps the first `room` of those entries, in stored order |
| InsightsSaved.ScanIsPipeline | lib/insights/saved.ts:19-32 | scanning the stored array once and stopping at three equals the filter/map/filter/slice pipeline |
| InsightsSaved.NewEntry | lib/insights/saved.ts:40-42 | a saved entry's id is `module:at` |
| InsightsSaved.WithoutId | lib/insights/saved.ts:42-48 | an order-preserving filter: removes exactly the entries with that id and keeps every other entry in stored order (a list without the id is unchanged) |
| InsightsSaved.WithoutIdAppend | lib/insights/saved.ts:42-48 | filtering a concatenation filters each part and concatenates the results, so relative order is kept |
| InsightsSaved.SaveList | lib/insights/saved.ts:42-43 | the new entry comes first; after it come the earlier entries with a different id, in stored order, cut so that there are at most 3 |
| InsightsSaved.LoadEncoded | lib/insights/saved.ts:19-43 | reading back a written well-formed list gives the same list |
| InsightsSaved.SavedStore.SaveInsight | lib/insights/saved.ts:38-44 | with a window, the slot holds `SaveList` of the loaded list; without one, nothing changes |
| InsightsSaved.SavedStore.RemoveSaved | lib/insights/saved.ts:46-50 | with a window, the slot holds the loaded list minus that id; without one, nothing changes |
| InsightsSaved.LoadAfterSave | lib/insights/saved.ts:38-44 | after saving, `loadSaved` starts with the new entry, and the entries after it are earlier ones with a different id |
| InsightsSaved.SaveTwiceKeepsOne | lib/insights/saved.ts:42 | saving the same module and time twice leaves exactly one entry with that id |
| InsightsSaved.LoadAfterRemove | lib/insights/saved.ts:46-50 | after removing, no loaded entry has that id and the others keep their order |
| InsightStepper.InsightTool.constructor | components/InsightTool.tsx:24-27 | the stepper starts at question 0 with no answers, not done and not saved |
| InsightStepper.InsightTool.Current | components/InsightTool.tsx:33 | the current question exists iff `step` is within the question list |
| InsightStepper.InsightTool.CanContinue | components/InsightTool.tsx:44-47 | true iff there is a current question and its answer is a non-empty string |
| InsightStepper.InsightTool.Result | components/InsightTool.tsx:35-38 | no result until done; then the module's evaluation of the answers |
| InsightStepper.InsightTool.OnSelect | components/InsightTool.tsx:40-42 | sets the answer to that question and leaves every other answer, the step and the flags unchanged |
| InsightStepper.InsightTool.Next | components/InsightTool.tsx:49-55 | before the last question, step + 1; on the last, done and not saved with step unchanged; step stays within the questions |
| InsightStepper.InsightTool.Back | components/InsightTool.tsx:73-80 | when done, clears done and returns to question 0 keeping the answers; otherwise step becomes max(0, step − 1) |
| InsightStepper.InsightTool.Reset | components/InsightTool.tsx:82-87 | empties the answers; step 0, not done, not saved |
| InsightStepper.InsightTool.PressContinue | components/InsightTool.tsx:155 | the Continue button acts only when `canContinue` |
| InsightStepper.InsightTool.PressBack | components/InsightTool.tsx:152 | the Back button does nothing at step 0 |
| InsightStepper.InsightTool.OnSave | components/InsightTool.tsx:89-104 | without a result nothing happens; with one, it is marked saved and, when there is a window, the summary is saved under the module slug; without a window the slot is unchanged |
| Proxy.DetectLocale | proxy.ts:5-23 | the loop's answer is the cookie when it names a locale, else the first accept-language tag whose base is a locale, else 'en' |
| Proxy.FirstNonEmpty | proxy.ts:38-39 | the first non-empty path segment, if any |
| Proxy.Route | proxy.ts:33-60 | internal, API and dotted paths pass through, as does a path whose first segment is a locale; '/' redirects to '/{locale}' and any other path to '/{locale}' + path, each with the lang cookie |
| Proxy.Proxy | proxy.ts:30-61 | the handler routes on the detected locale; every redirect's cookie has path '/' and max age 31536000 |
| Proxy.RedirectTargetPassesThrough | proxy.ts:42-57 | a redirect target passes through when routed again |
| RootPage.PreferredTags | app/page.tsx:8-12 | the `.filter(Boolean)` keeps no empty tag |
| RootPage.OneTagHeader | app/page.tsx:8-12 | a header holding one bare tag lists exactly that tag |
| RootPage.BaseOf | app/page.tsx:14 | a tag's base is its prefix before the first '-' |
| RootPage.SupportedIndex | app/page.tsx:13-16 | the position of the first tag whose base is a locale: every earlier tag has an unsupported base; the list length when no tag qualifies |
| RootPage.FirstSupported | app/page.tsx:13-16 | the first tag by list position whose base is a locale; none iff no tag has one |
| RootPage.FirstSupportedFrom | app/page.tsx:13-16 | one loop step at position i: that tag's locale when its base is supported, otherwise the answer from the next position |
| RootPage.DetectLocaleFromHeader | app/page.tsx:5-19 | a missing or empty header gives 'en'; otherwise the first supported tag, or 'en' when there is none |
| RootPage.RootLocale | app/page.tsx:21-32 | a valid cookie locale wins; otherwise the header decides |
| RootPage.Root | app/page.tsx:21-32 | the redirect target is '/en' or '/ar', the cookie's locale when it is valid |
| RootPage.InvalidCookieIgnored | app/page.tsx:25 | an invalid cookie is the same as no cookie |
| RootPage.RegionTagExample | app/page.tsx:14 | 'ar-EG' selects 'ar' |
| RootPage.ListOrderExample | app/page.tsx:8-16 | 'fr-FR, ar;q=0.5' selects 'ar': list position decides, q-values are ignored |
| I18n.ParseLocale | lib/i18n.ts:1-8 | a locale is parsed exactly from its own code |
| I18n.IsLocaleExactly | lib/i18n.ts:6-8 | `isLocale` holds exactly for 'en' and 'ar' |
| I18n.CodeRoundTrip | lib/i18n.ts:1-4 | parsing a locale's code gives it back, and the default locale is a locale |
| I18n.Other | components/LanguageToggle.tsx:14 | the other locale differs from the given one |
| I18n.GetDirection | lib/i18n.ts:10-12 | 'rtl' iff Arabic, 'ltr' iff English |
| I18n.FirstPhoneMatch | lib/i18n.ts:16 | the leftmost position where an optional '+' and twelve digits match; none when no position does |
| I18n.FormatPhone | lib/i18n.ts:14-17 | only the first match is rewritten as '+dd dd dddd dddd'; with no match the input is returned unchanged |
| I18n.FormatClinicPhone | lib/i18n.ts:15-16 | '+201016006000' is displayed as '+20 10 1600 6000' |
| I18n.FormatPhoneWithoutDigits | lib/i18n.ts:16 | a string without digits is returned unchanged |
| I18n.GetClinicBrandName | lib/i18n.ts:45-47 | the Arabic brand iff the locale is Arabic |
| I18n.GetDoctorDisplayName | lib/i18n.ts:49-51 | the Arabic name iff the locale is Arabic |
| I18n.GetMapEmbedSrc | lib/i18n.ts:53-55 | both locales' embed URLs are the same string |
| I18n.GetGoogleMapsDirectionsUrl | lib/i18n.ts:57-59 | the Arabic URL iff the locale is Arabic |
| Cookies.LangCookie | proxy.ts:53 | the lang cookie has path '/' and a max age of one year |
| Cookies.CookieJar.Set | components/LanguageToggle.tsx:6-8 | writing a cookie replaces that name only |
| LanguageToggle.NextPath | components/LanguageToggle.tsx:21-25 | a localized path gets its prefix replaced by the other locale; '/' becomes '/{other}'; any other path p becomes '/{other}' + p |
| LanguageToggle.ToggleTwice | components/LanguageToggle.tsx:21-24 | toggling twice from a localized path returns the original path |
| LanguageToggle.PrefixedExample | components/LanguageToggle.tsx:21-25 | '/english' under English becomes '/ar/english' |
| LanguageToggle.SwitchLang | components/LanguageToggle.tsx:16-25 | writes lang = other with a one-year max age and navigates to `NextPath` |
| Seo.BuildLocalizedMetadata | lib/seo.ts:13-59 | the same full title 'title • brand' appears in all three places; canonical and og url are '/{locale}{path}'; the alternates are /en and /ar with x-default = en; og locale and alternate locale swap by locale; site name by locale; type and image defaults; one 1200×630 image whose alt is the title |
| Seo.CanonicalIsOwnAlternate | lib/seo.ts:22-32 | the canonical URL is the alternate of its own locale |
| Seo.GetSiteUrl | lib/seo.ts:61-63 | the configured URL when non-empty, the default otherwise |
| Seo.ToAbsoluteUrl | lib/seo.ts:65-68 | http(s) URLs are unchanged; otherwise the site URL plus the path, with one '/' inserted when the path lacks it |
| Seo.ToAbsoluteUrlIdempotent | lib/seo.ts:65-68 | the result is absolute, and making it absolute again changes nothing |
| Seo.GetDefaultSocialImage | lib/seo.ts:70-72 | the site URL followed by '/images/doctor.webp' |
| Seo.GetPublisherLogo | lib/seo.ts:74-76 | the site URL followed by '/brand/logo.png' |
| Sitemap.EntryFor | app/sitemap.ts:28-37 | an entry's url is base/locale + suffix; its en and ar alternates carry the same suffix; it has the shared timestamp |
| Sitemap.PushLocale | app/sitemap.ts:27-65 | one locale's three loops append the static, blog and module entries in that order |
| Sitemap.BuildSitemap | app/sitemap.ts:6-69 | the entries are, per locale in order, the static paths, then the blog slugs, then the modules |
| Sitemap.ExpectedCount | app/sitemap.ts:12-65 | the count is the sum over locales of 9 + that locale's blog posts + the modules |
| Sitemap.SitemapShape | app/sitemap.ts:12-65 | with the real module list, the count per locale and the home entry base/locale |
| Sitemap.EntriesAgree | app/sitemap.ts:29-62 | every entry's url is one of its two alternates and all share the timestamp |
| Appointments.ParseStatus | app/api/appointment/route.ts:143-145 | a status is accepted iff it is one of new, contacted, booked, closed, and then it names that status |
| Appointments.Added | lib/appointments.ts:58-60 | the new request is at index 0, the previous items follow in order, and the length is min(old + 1, 5000) |
| Appointments.FindIndex | lib/appointments.ts:83 | the first index with that id, or −1 iff none |
| Appointments.WithStatus | lib/appointments.ts:83-84 | same length and order; only the first item with that id changes, and only its status |
| Appointments.UnknownIdUnchanged | lib/appointments.ts:83-85 | an unknown id leaves the list as it was |
| Appointments.AppointmentStore.ListAppointments | lib/appointments.ts:39-73 | the stored list, or [] when the file holds no array |
| Appointments.AppointmentStore.AddAppointment | lib/appointments.ts:51-61 | the stored list becomes `Added` of the old one |
| Appointments.AppointmentStore.UpdateAppointmentStatus | lib/appointments.ts:76-86 | the stored list becomes `WithStatus` of the old one |
| FormInput.Field | app/api/appointment/route.ts:25-29 | a string field is trimmed; a missing or null one is '' |
| FormInput.Honeypot | app/api/appointment/route.ts:21 | the trap is sprung iff `company` is a string holding a non-whitespace character |
| FormInput.IsValidEmail | app/api/appointment/route.ts:7-9 | an accepted address has at least 5 characters and contains '@' and '.' |
| FormInput.Safe | app/api/appointment/route.ts:70-75 | text without '&', '<', '>' and '"' passes through unchanged |
| FormInput.EmailShape | app/api/appointment/route.ts:7-9 | an address is valid iff it is a@b.c where a, b and c are non-empty and hold no whitespace or '@' (b.c has a '.' with a character on each side) |
| FormInput.ValidEmailExample | app/api/appointment/route.ts:7-9 | 'a@b.co' is valid |
| FormInput.SafeIsEscape | app/api/appointment/route.ts:70-75 | the four chained replacements equal escaping each character on its own |
| FormInput.SafeOutput | app/api/appointment/route.ts:70-75 | escaped text holds no '<', '>' or '"', and every '&' starts &amp;, &lt;, &gt; or &quot; |
| FormInput.UnescapeSafe | app/api/lead/route.ts:46-51 | escaping loses nothing: decoding the four entities gives the input back |
| Utf8.EncodeChar | lib/dashboardAuth.ts:18-19 | a character's UTF-8 encoding is 1 to 4 bytes, its length given by the lead byte |
| Utf8.DecodeEncodeChar | lib/dashboardAuth.ts:18-19 | decoding a character's bytes gives the character back |
| Utf8.EncodeInjective | lib/dashboardAuth.ts:18-22 | two strings with the same UTF-8 bytes are equal |
| DashboardAuth.CookieName | lib/dashboardAuth.ts:12-14 | the dashboard cookie is named 'dash_auth' |
| DashboardAuth.IsDashboardAuthed | lib/dashboardAuth.ts:4-10 | true iff the dash_auth cookie value is exactly '1' |
| DashboardAuth.VerifyPassword | lib/dashboardAuth.ts:16-23 | false when the expected password is empty or the byte lengths differ; otherwise true only when the bytes are equal |
| DashboardAuth.VerifyPasswordIff | lib/dashboardAuth.ts:16-23 | true iff the expected password is non-empty and equals the input, a missing input counting as '' |
| Consent.ConsentOf | lib/consent.ts:8-9 | a stored value is read back only when it is exactly 'granted' or 'denied' |
| Consent.ConsentRoundTrip | lib/consent.ts:8-29 | storing a state and reading it gives that state |
| Consent.ConsentBrowser.ReadConsent | lib/consent.ts:6-10 | null without a window, otherwise the recognised stored value |
| Consent.ConsentBrowser.HasAnalyticsConsent | lib/consent.ts:12-14 | true iff there is a window and the stored value is 'granted' |
| Consent.ConsentBrowser.ApplyGoogleConsent | lib/consent.ts:16-25 | one consent update with all four flags equal to the state, or nothing without a window or gtag |
| Consent.ConsentBrowser.SetConsent | lib/consent.ts:27-32 | stores the state, informs gtag and dispatches 'consent-changed'; afterwards `readConsent` gives the state; nothing without a window |
| AppointmentRoute.ReadSubmission | app/api/appointment/route.ts:25-30 | fields are trimmed, the e-mail lower-cased, and the locale is Arabic iff `body.locale === 'ar'` |
| AppointmentRoute.CheckAppointment | app/api/appointment/route.ts:17-43 | each early return happens exactly when its test fails and all earlier ones passed, in the source's order: JSON, honeypot, name of 2 and phone of 8 UTF-16 code units, e-mail if given, preferred time |
| AppointmentRoute.MailConfigured | app/api/appointment/route.ts:63-65 | an e-mail is attempted iff the API key is non-empty and the appointment address, or failing that the lead address, is non-empty |
| AppointmentRoute.Record | app/api/appointment/route.ts:48-58 | the stored request has status new, the e-mail absent iff empty, and the submission's fields and locale |
| AppointmentRoute.Either | app/api/appointment/route.ts:64 | `a \|\| b`: the first setting when it is non-empty, else the second |
| AppointmentRoute.AppointmentSubject | app/api/appointment/route.ts:96 | 'Appointment Request — ' followed by the condition, or 'General' when it is empty |
| AppointmentRoute.Post | app/api/appointment/route.ts:15-127 | a rejected or trapped request stores nothing and gets the check's reply; an accepted one is added to the store as `Record` of `ReadSubmission`, and the reply says whether the e-mail was configured and sent |
| AppointmentRoute.List | app/api/appointment/route.ts:129-135 | 401 without the dashboard cookie, otherwise the stored list |
| AppointmentRoute.CheckPatch | app/api/appointment/route.ts:141-147 | accepted iff the id is non-empty and the status is one of the four allowed |
| AppointmentRoute.Patch | app/api/appointment/route.ts:137-150 | 401 without the cookie and 400 for a bad body, both leaving the store unchanged; otherwise 200 and the status update |
| LeadRoute.ReadLead | app/api/lead/route.ts:20-24 | fields are trimmed and the e-mail lower-cased |
| LeadRoute.CheckLead | app/api/lead/route.ts:10-31 | each early return happens exactly when its test fails and the earlier ones passed: JSON, honeypot, a name of 2 UTF-16 code units, e-mail (required) |
| LeadRoute.EmptyEmailInvalid | app/api/lead/route.ts:29 | the empty string is never a valid address |
| LeadRoute.Topic | app/api/lead/route.ts:70 | the condition, or 'Clinical Summary' when it is empty |
| LeadRoute.LeadSubjectAsWritten | app/api/lead/route.ts:70 | the subject as written: the head, then the em dash's UTF-8 bytes each read as a Windows-1252 character, then the topic |
| LeadRoute.SubjectMojibake | app/api/lead/route.ts:70 | the subject as written holds no em dash, so it differs from the intended subject |
| LeadRoute.SubjectSeparatorMatches | app/api/lead/route.ts:70 | the corrected subject has an em dash after its head, as the appointment subject does |
| LeadRoute.LeadMail | app/api/lead/route.ts:53-72 | every field in the notification is escaped; an empty phone reads 'Not provided' |
| LeadRoute.Post | app/api/lead/route.ts:8-78 | 400 with the check's error; success without mail for the honeypot; 500 when the key or address is missing, checked only after validation; otherwise the escaped mail is sent, and the reply is success when the send succeeds and 500 without a message when it fails |
| LeadRoute.MailFieldsEscaped | app/api/lead/route.ts:46-64 | no visitor text reaches the HTML with '<', and ampersands are entities |
| Strings.Utf16Length | app/api/contact/route.ts:5-7 | a string's JavaScript `length`: between its character count and twice that, and equal to the character count when every character is in the Basic Multilingual Plane |
| ContactRoute.Parse | app/api/contact/route.ts:4-9 | accepted iff an object with name 2–80, phone 6–30 and message 5–1200 code units, and a locale that is absent or a string |
| ContactRoute.Post | app/api/contact/route.ts:11-27 | ok iff the body is JSON the schema accepts; every other case is 400 |
| ContactRoute.UntrimmedNameAccepted | app/api/contact/route.ts:5 | lengths are taken untrimmed: a name of two spaces passes |
| ContactRoute.NullLocaleRefused | app/api/contact/route.ts:8 | a null locale is refused |
| Mdx.PostSlugs | lib/mdx.ts:30-37 | [] without the directory; every slug is a listed file's name less '.mdx'; a single file gives its slug iff it ends in '.mdx' |
| Mdx.PostSlugsComplete | lib/mdx.ts:33-36 | no '.mdx' file is missed: each one's name less the suffix is a slug |
| Mdx.PostSlugsAppend | lib/mdx.ts:33-36 | the slugs of two listings in a row are the slugs of each, concatenated, so directory order is kept |
| Mdx.LessTransitive | lib/mdx.ts:48 | string `<` is a strict order (with `LessAsymmetric`, `LessTotal`) |
| Mdx.SortNewestFirst | lib/mdx.ts:48 | the sort returns a permutation of the posts with no later date after an earlier one |
| Mdx.GetAllPosts | lib/mdx.ts:39-51 | every post of `getAllPostSlugs` with its front matter, in newest-first order |
| Mdx.Lines | lib/mdx.ts:62 | the content is split at '\n', with a '\r' before it dropped |
| Mdx.HeadingOf | lib/mdx.ts:63-68 | a line yields a heading only when it starts with exactly two or three '#' followed by whitespace; the level is the number of '#'; the text is the rest of the line trimmed, backticks removed, links replaced by their text, trimmed again, and non-empty |
| Mdx.RemoveBackticks | lib/mdx.ts:67 | no backtick remains; text without backticks is unchanged |
| Mdx.RemoveBackticksAppend | lib/mdx.ts:67 | removing backticks from a concatenation removes them from each part |
| Mdx.StripLinks | lib/mdx.ts:67 | no character is introduced |
| Mdx.StripLinksNoBracket | lib/mdx.ts:67 | text without '[' is unchanged |
| Mdx.StripLinksLink | lib/mdx.ts:67 | `[text](url)` followed by more text becomes the link text followed by the rest with its links stripped |
| Mdx.TocItemsWellFormed | lib/mdx.ts:62-70 | every table-of-contents item is level 2 or 3 with a non-empty, backtick-free text, and the items are the document's headings in order |
| Mdx.BuildToc | lib/mdx.ts:60-70 | the loop builds exactly `Toc` of the content's lines |
| Mdx.WordCount | lib/mdx.ts:78 | the number of whitespace-separated words; 0 iff the text is blank |
| Mdx.WordCountAppend | lib/mdx.ts:78 | counts add up over two texts joined at a whitespace boundary |
| Mdx.WordCountSplit | lib/mdx.ts:78 | a whitespace character separates: the count of a + c + b is the count of a plus the count of b |
| Mdx.WordCountWord | lib/mdx.ts:78 | one non-empty run without whitespace counts as one word |
| Mdx.ReadingTimeMinutes | lib/mdx.ts:79 | at least 1; 1 below 300 words; otherwise the nearest whole number of 200-word minutes |
| ServiceLocationPages.PagesFollowSlugs | lib/serviceLocationPages.ts:3-220 | the table's slugs are acne, hair-loss, pigmentation, psoriasis in that order, all distinct |
| ServiceLocationPages.FindBySlug | lib/serviceLocationPages.ts:287 | the first page with that slug; none iff no page has it |
| ServiceLocationPages.GetServiceLocationPage | lib/serviceLocationPages.ts:286-288 | a page iff the slug is one of the four, and then the page with that slug |
| ServiceLocationPages.RosaceaHasNoPage | lib/serviceLocationPages.ts:286-288 | 'rosacea' has no page |
| ServiceLocationPages.GetFindsEachPage | lib/serviceLocationPages.ts:286-288 | each page is found by its own slug |
| ServiceLocationPages.GetAllServiceLocationPages | lib/serviceLocationPages.ts:290-292 | all four pages in table order |
| ServiceLocationPages.PagesComplete | lib/serviceLocationPages.ts:7-284 | every page has every text in English and in Arabic, and its lists have as many items in each |
| TestimonialsSlider.NextIndex | components/TestimonialsSlider.tsx:27 | the next index stays in [0, total), wrapping from the last to 0 |
| TestimonialsSlider.PrevIndex | components/TestimonialsSlider.tsx:28 | the previous index stays in [0, total), wrapping from 0 to the last |
| TestimonialsSlider.PrevUndoesNext | components/TestimonialsSlider.tsx:27-28 | prev after next and next after prev return the original index |
| TestimonialsSlider.AdvanceWraps | components/TestimonialsSlider.tsx:27-33 | n steps forward give (i + n) mod total, so a full round returns to the start |
| TestimonialsSlider.Dots | components/TestimonialsSlider.tsx:25 | the dots are exactly 0..total−1 |
| TestimonialsSlider.Slider.constructor | components/TestimonialsSlider.tsx:19-20 | starts at the first review, unpaused |
| TestimonialsSlider.Slider.Next | components/TestimonialsSlider.tsx:27 | the index becomes `NextIndex` of the old one |
| TestimonialsSlider.Slider.Prev | components/TestimonialsSlider.tsx:28 | the index becomes `PrevIndex` of the old one |
| TestimonialsSlider.Slider.SelectDot | components/TestimonialsSlider.tsx:111 | clicking dot d shows review d |
| TestimonialsSlider.Slider.OnKey | components/TestimonialsSlider.tsx:40-43 | ArrowRight moves forward, ArrowLeft back, other keys do nothing |
| TestimonialsSlider.Slider.SetPaused | components/TestimonialsSlider.tsx:53-56 | hover and touch set only the pause flag |
| TestimonialsSlider.Slider.AutoplayRuns | components/TestimonialsSlider.tsx:31-33 | autoplay runs iff not paused and there are at least two reviews |
| SiteAnalytics.TrackedPath | components/SiteAnalytics.tsx:12-13 | the path alone when the query string is empty, else the path, '?' and the query string |
| SiteAnalytics.TrackedPathSplits | components/SiteAnalytics.tsx:13 | the path can be recovered from a tracked path as the part before '?' |
| SiteAnalytics.ClassifyClick | components/SiteAnalytics.tsx:25-49 | no anchor gives no event; 'tel:' wins; then WhatsApp; then maps markers; each click reports at most one event |
| SiteAnalytics.MapsDirRedundant | components/SiteAnalytics.tsx:42-44 | the 'google.com/maps/dir' test never decides anything, since such a link already contains 'google.com/maps' |

## Left out

- JSON text: `JSON.parse` and `JSON.stringify` are not modelled. Request bodies and stored slots are given as already-parsed values, and an unparsable body is `None`.
- Numbers are integers. Fractional numbers, exponent and hexadecimal forms of `Number(...)`, and `Infinity` are not modelled. Date strings are opaque.
- `toLowerCase` is modelled on ASCII letters only.
- Storage and platform I/O are not modelled:
  - the appointment file's creation, reads and writes, and their failures (the routes' catch-all 500);
  - the Supabase branches of the store;
  - the Resend client;
  - `router.push` and `router.refresh`;
  - event listener registration.
- The stepper's `localStorage` writes of the last run are not modelled, and neither is `saveInsight` throwing.
- The clock, random ids and the autoplay timer are parameters or left out. The slider's floating-point swipe thresholds and the autoplay interval are not modelled.
- The WhatsApp link of the appointment reply, its message text and `encodeURIComponent` are not modelled, and neither is the HTML markup of the e-mails beyond the escaped fields.
- DashboardAuth.VerifyPassword: equal bytes are compared as a sequence equality; the constant-time guarantee of `timingSafeEqual` cannot be stated.
- Utf8.EncodeChar: lone surrogates cannot occur in a Dafny string, so their replacement by U+FFFD is not modelled.
- LeadRoute.LeadMail: the mail carries the corrected subject `LeadSubject`, with an em dash; the source sends the garbled subject modelled by `LeadSubjectAsWritten` (see Findings).
- Mdx.Less: compares code points, while JavaScript compares UTF-16 code units; the two differ only for characters outside the Basic Multilingual Plane.
- Mdx.SortNewestFirst: the comparator never answers 0, so the engine's order among posts with equal dates is unspecified; the model fixes one order and proves only that later dates come first.
- Mdx.BuildToc: the slugger is a parameter given the heading text and the earlier texts; github-slugger's own rules are not modelled.
- Mdx.WordCount: it counts the words of the text it is given; the regular expressions that strip code blocks, tags, braces and markup characters first are not modelled.
- The front matter reader (gray-matter) and MDX compilation are foreign libraries. Front matter is a function from slug to record.
- Sitemap.BuildSitemap: the blog slugs per locale are a parameter, not `Mdx.PostSlugs` of a directory listing.
- The OG image route, rendering, styling and animation are not modelled.

## Findings

| source | as written | input that shows it | evidently intended | confidence | as-written member | corrected member |
|---|---|---|---|---|---|---|
| app/api/lead/route.ts:70 | the subject literal holds the three characters 'â', '€', '”': the UTF-8 bytes of an em dash decoded as Windows-1252 | any lead, e.g. condition 'Acne': the subject reads 'New Insight Lead â€” Acne' | 'New Insight Lead — Acne', with the em dash the appointment route's subject uses | high (not executed) | LeadRoute.SubjectMojibake | LeadRoute.SubjectSeparatorMatches |

# CodeHustlers client core, modelled in Dafny

CodeHustlers is a browser client for spotting misinformation and fraud.
Every detection (images, articles, call recordings, AI voices, trending
narratives, awareness infographics) is handed to a generative-model
service; the client around those calls is what this project models and
proves things about:

- the **service adapter** (`services/geminiService.ts`): the code-fence
  stripper applied before JSON parsing, the line parser for trending
  topics with its five-entry cap and its sentinel entries, the fixed
  fallback record each tool returns on any failure, the pass-through of
  chat and voice replies, and the prompts that carry the user's text;
- the **root session controller** (`App.tsx`): display names derived from
  e-mail addresses, login with its priority rule for the user record,
  registration, logout, the navigation override, and the dispatch from a
  page string to a view;
- the **forms**: registration (e-mail and phone patterns, the ordered
  detail checks, the six-slot OTP buffer and its exact-match check),
  login, and the profile editor;
- the **header** initials and logo target;
- the **voice assistant**'s four-flag machine and status line, and the
  **chatbot**'s append-only transcript;
- the **tool pages**: awareness templates (read-once topic hand-off, safe
  file names, copied and downloaded text layouts), trending topics,
  article analysis, SMS verdicts, call-fraud and AI-voice detection
  (10 MiB size rule, base64 payload of a `data:` URL).

The model service, `JSON.parse`, timers, randomness and browser APIs are
not modelled: what they return is an input to the model. A service reply
is `Reply = Text(text) | NoText | Threw`; `JSON.parse` is an abstract
partial function `string -> Option<T>`; a timer callback, a file-reader
result or a speech-recognition callback is a later event with its outcome
as a parameter. Each event handler is one atomic transition; an `async`
handler is two (before and after its `await`). Components whose state the
handlers update are classes with `modifies` clauses; string processing is
functions with lemmas.

JavaScript string semantics are written out in `js_strings.dfy`: `trim`
and `\s` use the ECMAScript whitespace set, `split` with one character
always yields at least one piece, `substring` clamps and swaps its bounds,
and case mapping is ASCII only.

Files, one module each: `wrappers.dfy` (Option), `js_strings.dfy`,
`types.dfy`, `topic_parser.dfy`, `gemini_service.dfy`, `app.dfy`,
`registration_page.dfy`, `login_page.dfy`, `profile_page.dfy`,
`header.dfy`, `voice_assistant.dfy`, `chatbot.dfy`, `risk_color.dfy`,
`session_store.dfy`, `trending_topics_page.dfy`,
`awareness_templates_page.dfy`, `audio_upload.dfy`,
`voice_detection_page.dfy`, `ai_voice_detection_page.dfy`,
`article_analysis_page.dfy`, `sms_fraud_detection_page.dfy`.

## Model

| member | source | states |
|---|---|---|
| JsStrings.Trim | services/geminiService.ts:14 | `trim`: the result has no whitespace at either end, is no longer than the input, and is empty for an all-whitespace input |
| JsStrings.TrimPadded | services/geminiService.ts:14-18 | trimming whitespace padding around a trimmed text gives that text back |
| JsStrings.TrimKeepsHead | pages/dashboard/AwarenessTemplatesPage.tsx:156 | trimming padding around a text that starts and ends (up to a head) with non-whitespace keeps the head and removes only trailing whitespace |
| JsStrings.Split | App.tsx:47-49 | `split` on one character: at least one piece, no piece holds the separator, and joining the pieces with it gives the input back |
| JsStrings.SplitCount | App.tsx:124 | more than one piece exactly when the separator occurs |
| JsStrings.SplitConcat | components/Header.tsx:29-31 | splitting at a separator concatenates the pieces of both sides |
| JsStrings.BeforeFirst | App.tsx:47 | `split(sep)[0]`: separator-free, and either the whole input or the prefix ending just before the first separator |
| JsStrings.Substring | services/geminiService.ts:16-18 | `substring`: within range it is the slice between the bounds, swapped bounds give the same slice, bounds beyond both ends give the whole string; never longer than the string |
| JsStrings.Join | App.tsx:51 | `join(sep)`: the parts with the separator between each pair (inverse of Split, as Split's contract states) |
| JsStrings.StartsWith | services/geminiService.ts:15-17 | `startsWith`: the text begins with the prefix |
| JsStrings.ToUpper | components/Header.tsx:31 | `toUpperCase` on ASCII: same length, each character upper-cased in place |
| JsStrings.ToLower | pages/dashboard/AwarenessTemplatesPage.tsx:186 | `toLowerCase` on ASCII: same length, each character lower-cased in place |
| JsStrings.NatToDecimal | pages/RegistrationPage.tsx:56 | `toString` of a whole number: decimal digits, no leading zero, whose value is the number |
| Types.LabelsRoundTrip | types.ts:4-33 | every label of the closed sets (image class, voice class, fraud assessment, risk level, history type) is recognised back as itself |
| Types.ImageClassOf | types.ts:4 | recognises exactly the three image labels, each as the member spelled that way |
| Types.VoiceClassOf | types.ts:10 | recognises exactly the three voice labels, each as the member spelled that way |
| Types.FraudAssessmentOf | types.ts:12 | recognises exactly the three call assessments, each as the member spelled that way |
| Types.RiskLevelOf | types.ts:24 | recognises exactly the three risk levels, each as the member spelled that way |
| Types.HistoryKindOf | types.ts:33 | recognises exactly the five history kinds, each as the member spelled that way |
| TopicParser.ParseTopicLine | services/geminiService.ts:263-272 | a line yields a topic exactly when the pattern matches; its topic is the title group trimmed and stripped of one pair of enclosing quotes, its risk the trimmed level group, its score the decimal value of the digit run, unclamped |
| TopicParser.MatchedTopics | services/geminiService.ts:263-273 | the `map` then `filter` over the reply's lines: no longer than the lines, and empty exactly when no line matches |
| TopicParser.StripQuotes | services/geminiService.ts:267 | one leading and one trailing double quote are removed; a text without them is unchanged |
| TopicParser.MatchFrom | services/geminiService.ts:264 | the first match of the topic pattern at or after a position: when there is one, its credibility capture is a non-empty run of digits |
| TopicParser.MatchAt | services/geminiService.ts:264 | the pattern tried at one start position: the `\d+\.\s*` prefix when a digit run there is followed by '.', then the lazy title; any match carries a non-empty digit run |
| TopicParser.LazyTitleSpan | services/geminiService.ts:264 | the lazy `(.*?)` title is the text from where it started and, as `.` does, never runs over a line terminator |
| TopicParser.MatchAtTitle | services/geminiService.ts:264 | a title captured at one start position lies on one line, and without a numeral there it is the text at that position |
| TopicParser.ParseTrending | services/geminiService.ts:262-279 | at most five entries; empty exactly for the empty text; the first five matches in line order when any line matches; otherwise the single 'Could not parse' entry |
| TopicParser.MatchedTopicsAppend | services/geminiService.ts:263-273 | the topics of two blocks of lines are those of the first block followed by those of the second: order is kept and lines are independent |
| TopicParser.MatchedTopicsFromLines | services/geminiService.ts:273 | every kept topic is the parse of some line at or after its own index |
| TopicParser.NoDashNoMatch | services/geminiService.ts:264 | a line without '-' is dropped |
| TopicParser.EmptyTextHasNoMatch | services/geminiService.ts:262-273 | the empty reply yields no topic, which is why the adapter returns an empty list for it |
| TopicParser.ParseFormattedLine | services/geminiService.ts:264-270 | a line `[N. ]<title> - Risk: <level> - Credibility: <digits>` with plain fields parses to exactly those title, level and score |
| TopicParser.ParsePaddedLine | services/geminiService.ts:264-267 | a line with whitespace before its title and no numeral reads back to the same title, level and score: the title group captures the whitespace and the trim removes it |
| TopicParser.FilterMapAppend | services/geminiService.ts:263-273 | the map-and-filter step distributes over concatenation |
| GeminiService.StripFences | services/geminiService.ts:13-19 | the text handed to `JSON.parse` is trimmed, and is just the trimmed reply when it does not start with a fence |
| GeminiService.JsonFenceRoundTrip | services/geminiService.ts:15-16 | a json-fenced body with whitespace around it comes back as the body |
| GeminiService.BareFenceRoundTrip | services/geminiService.ts:17-18 | a bare-fenced trimmed body, with or without whitespace around it (the compact "```{...}```" included), comes back as the body whenever the text after the fence does not start with "json" |
| GeminiService.JsonFenceDropsLastThree | services/geminiService.ts:16 | after a json fence the last three characters are dropped whatever they are: the closing fence is not checked |
| GeminiService.BareFenceDropsLastThree | services/geminiService.ts:17-18 | for every trimmed bare-fenced text that is not a json fence, the first three and the last three characters go, unchecked, and the rest is trimmed |
| GeminiService.CompactBareFence | services/geminiService.ts:17-18 | the compact reply "```{}```" is parsed from "{}" |
| GeminiService.LoneBareFence | services/geminiService.ts:17-18 | a reply that is only a bare fence is parsed as the fence itself, the substring bounds having crossed |
| GeminiService.LoneJsonFence | services/geminiService.ts:16 | a reply that is only the json fence becomes 'son' because the substring bounds cross and swap |
| GeminiService.Guarded | services/geminiService.ts:106-110 | the result is the parse of the stripped reply text when it parses; a missing text, a failed request or a failed parse gives the fallback |
| GeminiService.GuardedFencedReply | services/geminiService.ts:13-21 | a fenced reply whose body parses gives that parse |
| GeminiService.FallbacksWellTyped | services/geminiService.ts:109-224 | the image, voice, call and article fallbacks keep to their closed label sets and say 'Uncertain' or 'High' |
| GeminiService.AnalyzeImageForAI | services/geminiService.ts:42-111 | the image fallback on any failure |
| GeminiService.AnalyzeVoiceForAI | services/geminiService.ts:113-147 | the AI-voice fallback on any failure |
| GeminiService.AnalyzeCallForFraud | services/geminiService.ts:149-190 | the call fallback on any failure |
| GeminiService.AnalyzeArticleContent | services/geminiService.ts:193-226 | the article fallback on any failure |
| GeminiService.GenerateAwarenessTemplateText | services/geminiService.ts:228-250 | the template fallback on any failure |
| GeminiService.GetTrendingTopics | services/geminiService.ts:252-284 | the parse of the reply text, at most five entries, empty only for an empty text, the error entry when the request fails |
| GeminiService.TextReply | services/geminiService.ts:32-40 | a text reply is passed through unchanged and a failed request becomes the apology |
| GeminiService.GetChatbotResponse | services/geminiService.ts:32-40 | the reply text, or the connection apology |
| GeminiService.GetVoiceAssistantResponse | services/geminiService.ts:286-297 | the reply text, or the voice apology |
| GeminiService.Embedded | services/geminiService.ts:197 | recovering the user text from a prompt gives a text that embeds back to that prompt |
| GeminiService.EmbedRoundTrip | services/geminiService.ts:197-290 | embedding a text between a fixed head and tail and recovering it gives the text back |
| GeminiService.ArticlePrompt | services/geminiService.ts:197 | the article text is recovered verbatim from the article prompt |
| GeminiService.TemplatePrompt | services/geminiService.ts:232 | the topic is recovered verbatim from the template prompt |
| GeminiService.VoicePrompt | services/geminiService.ts:290 | the query is recovered verbatim from the voice-assistant prompt |
| GeminiService.PromptsInjective | services/geminiService.ts:197-290 | different user texts give different prompts |
| App.ReplaceSeparators | App.tsx:48 | every '.', '_' and '-' becomes a space and nothing else changes |
| App.Capitalize | App.tsx:50 | the first character is upper-cased and the rest kept |
| App.CapitalizeWords | App.tsx:49-51 | reference definition: a character is upper-cased exactly when it starts the text or follows a space |
| App.CapitalizeAll | App.tsx:50 | the `.map` step: one capitalised part per part, in order |
| App.DeriveNameFromEmail | App.tsx:47-51 | the derived name is the reference capitalisation of the local part with separators replaced |
| App.SplitCapitalizeJoin | App.tsx:49-51 | split at spaces, capitalise each part and join with spaces equals the reference definition |
| App.DerivedNameShape | App.tsx:47-51 | the derived name is as long as the local part and holds no '@', '.', '_' or '-' |
| App.DeriveNameExample | App.tsx:47-51 | 'gia.lee.goog@example.com' gives 'Gia Lee Goog' |
| App.DeriveFromLocalPart | App.tsx:47 | only the text before the first '@' matters |
| App.LoginUser | App.tsx:53-71 | the Google e-mail if present, else the typed e-mail, else the fixed default user; a picture only from a Google profile that has one |
| App.Truthy | App.tsx:53-57 | JavaScript truthiness of an optional string: present and non-empty |
| App.RegisteredUser | App.tsx:86-97 | registration keeps the e-mail, derives the name, sets no picture |
| App.LoginNameFromEmail | App.tsx:53-71 | whoever logs in, the name is the one derived from the user's e-mail, and the e-mail is never empty |
| App.DefaultUserName | App.tsx:66-70 | the default user's name is the one derived from its e-mail |
| App.RegisterMatchesLogin | App.tsx:59-64 | registering with an e-mail gives the user that logging in with it gives |
| App.GoogleDemoUser | pages/LoginPage.tsx:41-44 | the simulated Google sign-in logs in as 'Gia Lee Goog' with no picture |
| App.Subpage | App.tsx:124 | the segment after 'dashboard/' up to the next '/' |
| App.ToolView | App.tsx:125-135 | the dashboard view exactly for a segment that names none of the eight tools |
| App.AuthView | App.tsx:116-121 | registration exactly when the auth page is 'register', login otherwise |
| App.SignedInView | App.tsx:123-151 | a signed-in user never sees an auth form; dashboard pages go to the tool of their segment; unknown pages go to the dashboard |
| App.RenderPage | App.tsx:115-152 | signed out, only the auth form, whatever the current page; signed in, the page view |
| App.DashboardDispatch | App.tsx:123-135 | 'dashboard/' + segment + rest opens the tool the segment names |
| App.AppState.Login | App.tsx:73-75 | the chosen user is stored, the session is signed in and on 'home' |
| App.AppState.constructor | App.tsx:27-31 | light theme, signed out, no user, current page and auth page 'login', so the login form is shown |
| App.AppState.View | App.tsx:115-152 | the page the root state renders: an authentication form exactly while signed out, the registration form exactly for the 'register' auth page |
| App.AppState.Register | App.tsx:93-99 | the registered user is stored, signed in, on 'home' |
| App.AppState.Logout | App.tsx:79-84 | signed out, no user, page and auth page both 'login' |
| App.AppState.UpdateProfile | App.tsx:103-105 | the user record is replaced, nothing else changes |
| App.AppState.Navigate | App.tsx:107-113 | 'login' while signed in goes to 'dashboard'; any other request is taken verbatim |
| App.AppState.SwitchAuthPage | App.tsx:118-120 | the auth page changes and nothing else |
| App.AppState.ToggleDarkMode | App.tsx:38-40 | the theme flag flips, nothing else changes |
| Registration.EmailCheckMatchesPattern | pages/RegistrationPage.tsx:32 | the e-mail check holds exactly for one or more characters without whitespace or '@', then '@', then a domain without them holding a '.' with a character on each side |
| Registration.IsValidEmail | pages/RegistrationPage.tsx:32 | the e-mail test: a non-empty plain part before the first '@', then a plain domain with an inner '.' (shown equal to the pattern by EmailCheckMatchesPattern) |
| Registration.IsValidPhone | pages/RegistrationPage.tsx:40 | the phone test: an optional '+', then 2 to 15 digits with no leading zero |
| Registration.PhoneNumbersAccepted | pages/RegistrationPage.tsx:40 | every number of 2 to 15 digits without a leading zero is accepted, with or without '+' |
| Registration.PhoneShape | pages/RegistrationPage.tsx:40 | an accepted number is 2 to 16 characters, digits after an optional leading '+' |
| Registration.DetailsError | pages/RegistrationPage.tsx:32-51 | each message is set exactly when all earlier checks pass and its own fails; no message exactly when all pass |
| Registration.LastChar | pages/RegistrationPage.tsx:104 | `slice(-1)`: the last character, or empty |
| Registration.JoinedLength | pages/RegistrationPage.tsx:68-69 | the joined entry is as long as the number of filled slots, so it is shorter than six exactly when some slot is empty |
| Registration.OtpCode | pages/RegistrationPage.tsx:56 | a draw in 100000..999999 gives six digits, no leading zero, whose value is the draw |
| Registration.PhoneSignUpUser | pages/RegistrationPage.tsx:82 | a phone sign-up logs in with no credentials and so as the default user |
| Registration.RegistrationPage.SubmitDetails | pages/RegistrationPage.tsx:28-53 | the first failing check's message is set and nothing starts; otherwise submitting starts with no message |
| Registration.RegistrationPage.constructor | pages/RegistrationPage.tsx:12-25 | e-mail sign-up on the details step, every field and the six OTP slots empty, no flag set |
| Registration.RegistrationPage.CodeSent | pages/RegistrationPage.tsx:55-63 | a six-digit code is stored, the step is 'otp', the modal opens, submitting ends |
| Registration.RegistrationPage.ChangeOtp | pages/RegistrationPage.tsx:100-106 | an entry with a non-digit changes nothing; otherwise only the edited slot changes, to the last character typed; six slots of at most one digit remain |
| Registration.RegistrationPage.SubmitOtp | pages/RegistrationPage.tsx:66-74 | with an empty slot the incomplete message is set and nothing starts; otherwise verification starts with the joined six-character entry |
| Registration.RegistrationPage.Verify | pages/RegistrationPage.tsx:76-88 | a match registers the e-mail (e-mail mode) or logs in with no credentials (phone mode); a mismatch sets the invalid message and ends verifying |
| Registration.RegistrationPage.FinishGoogleSignUp | pages/RegistrationPage.tsx:94-97 | the modal closes and the Google demo credentials are handed to login |
| Registration.RegistrationPage.StartGoogleSignUp | pages/RegistrationPage.tsx:91-93 | the Google wait and the sign-in modal start |
| Registration.RegistrationPage.ChooseType | pages/RegistrationPage.tsx:148-149 | the sign-up type changes |
| Registration.RegistrationPage.BackToDetails | pages/RegistrationPage.tsx:239 | the step goes back to details |
| Login.LoginError | pages/LoginPage.tsx:20-27 | 'Email is required.' exactly for an empty e-mail; the length message exactly for a non-empty e-mail with a short password; no format check |
| Login.AcceptedLoginUser | pages/LoginPage.tsx:32 | a typed e-mail logs in as the user registration would create |
| Login.LoginPage.Submit | pages/LoginPage.tsx:18-35 | on a failing check its message is set and nothing is sent; otherwise the message is cleared, logging-in starts, and exactly the typed e-mail and password are sent |
| Login.LoginPage.constructor | pages/LoginPage.tsx:11-16 | empty fields and message, no flag set |
| Login.LoginPage.StartGoogleLogin | pages/LoginPage.tsx:37-39 | the Google wait and the sign-in modal start |
| Login.LoginPage.FinishGoogleLogin | pages/LoginPage.tsx:41-44 | the modal closes and the Google demo credentials are handed to login |
| Profile.SavedUser | pages/ProfilePage.tsx:39-41 | e-mail kept, preview stored, name the trimmed typed name and non-empty, and its initials as written are the intended ones |
| Profile.ProfilePage.ChangeImage | pages/ProfilePage.tsx:26-32 | a picked file becomes the selection and its URL the preview; no file changes nothing |
| Profile.ProfilePage.constructor | pages/ProfilePage.tsx:11-15 | not editing; the form shows the user's name and picture with no message and no file |
| Profile.ProfilePage.StartEditing | pages/ProfilePage.tsx:120 | editing starts |
| Profile.ProfilePage.Save | pages/ProfilePage.tsx:34-44 | a blank name sets the message and keeps editing; otherwise the saved user is handed on and editing ends |
| Profile.ProfilePage.Cancel | pages/ProfilePage.tsx:46-52 | name and preview back from the current user record (the one last passed in), no message, no file, editing ends |
| Profile.ProfilePage.ChangeName | pages/ProfilePage.tsx:54-59 | the typed name is taken and the message cleared |
| Profile.ProfilePage.UserChanged | App.tsx:103-105 | the root controller passes the updated record to the mounted page (the page element keeps its key, App.tsx:148,164); only the record changes |
| Profile.SaveThenCancelFlow | pages/ProfilePage.tsx:34-52 | after saving a name and editing again, cancelling shows the saved, trimmed name and the saved picture |
| Profile.EditAndSave | pages/ProfilePage.tsx:34-44 | editing the name and saving hands on the saved record, which becomes the page's record, and ends editing |
| Profile.EditAndCancel | pages/ProfilePage.tsx:46-59 | editing the name and cancelling brings the form back to the current record |
| Header.FirstCharText | components/Header.tsx:31 | `part[0]` in a template: the first character, or 'undefined' for an empty part |
| Header.InitialsAsWritten | components/Header.tsx:28-34 | one-part names give their first two characters upper-cased; names with non-empty first and last parts give those parts' first characters upper-cased |
| Header.TrailingSpaceInitials | components/Header.tsx:28-34 | a one-word name followed by a space gives its initial followed by 'UNDEFINED' |
| Header.ReachableUndefinedInitials | App.tsx:47-51 | the e-mail 'bob.@example.com' gives the name 'Bob ' and the header initials 'BUNDEFINED' |
| Header.Initials | components/Header.tsx:28-34 | the intended initials: at most two characters, no ASCII lower-case letter, the first characters of the first and last parts |
| Header.InitialsAgree | components/Header.tsx:28-34 | when every part used is non-empty, the code as written gives the intended initials |
| Header.TrimmedNameInitials | pages/ProfilePage.tsx:18-24 | for a trimmed name (what saving a profile stores) the code as written gives the intended initials |
| Header.MiddlePartsIgnored | components/Header.tsx:29-31 | parts between the first and the last never change the initials, as written or intended |
| Header.LogoTarget | components/Header.tsx:41 | 'home' for a signed-in user, 'login' for anyone else |
| Header.LogoLeadsHome | components/Header.tsx:41 | following the logo shows the home page to a signed-in user and the auth form to anyone else |
| Assistant.StatusText | components/VoiceAssistant.tsx:145-152 | listening, then thinking, then the spoken response, then the quoted transcript, then the response, then the prompt |
| Assistant.VoiceAssistant.Status | components/VoiceAssistant.tsx:145-152 | the status line of the assistant's current flags, transcript and response |
| Assistant.StatusBlank | components/VoiceAssistant.tsx:145-152 | the status line is blank only while an empty response is spoken |
| Assistant.VoiceAssistant.ToggleListen | components/VoiceAssistant.tsx:119-132 | the panel is open; listening is stopped, or, when idle, the exchange is cleared and listening requested; otherwise nothing |
| Assistant.VoiceAssistant.constructor | components/VoiceAssistant.tsx:44-49 | closed and idle with an empty exchange, so the status line is the prompt |
| Assistant.VoiceAssistant.RecognitionStarted | components/VoiceAssistant.tsx:65-69 | listening with transcript and response cleared |
| Assistant.VoiceAssistant.RecognitionResult | components/VoiceAssistant.tsx:71-75 | the phrase is kept and sent, listening turns into thinking |
| Assistant.VoiceAssistant.ReplyArrived | components/VoiceAssistant.tsx:95-106 | the adapter's answer becomes the response, thinking ends, and it is spoken exactly when non-empty |
| Assistant.VoiceAssistant.RecognitionFailed | components/VoiceAssistant.tsx:77-86 | listening and thinking end; 'no-speech' and other errors set their messages; 'aborted' keeps the response |
| Assistant.VoiceAssistant.RecognitionEnded | components/VoiceAssistant.tsx:88-90 | listening ends |
| Assistant.VoiceAssistant.SpeechStarted | components/VoiceAssistant.tsx:107 | speaking starts |
| Assistant.VoiceAssistant.SpeechEnded | components/VoiceAssistant.tsx:108-111 | speaking ends and the panel closes |
| Assistant.VoiceAssistant.SpeechFailed | components/VoiceAssistant.tsx:112-115 | speaking ends, the panel stays |
| Assistant.VoiceAssistant.Close | components/VoiceAssistant.tsx:134-143 | recognition is asked to abort and speech to cancel; all four flags are false |
| Chat.CountAppend | components/Chatbot.tsx:28-37 | appending a message adds one to its sender's count only |
| Chat.Chatbot.constructor | components/Chatbot.tsx:12-14 | the transcript is exactly the greeting |
| Chat.Chatbot.Send | components/Chatbot.tsx:25-31 | a blank input or a pending reply changes nothing; otherwise one user message with the untrimmed input is appended, the input cleared, and loading set; the greeting stays first and every question but the pending one has its answer |
| Chat.Chatbot.ToggleOpen | components/Chatbot.tsx:49 | the window opens or closes |
| Chat.Chatbot.Close | components/Chatbot.tsx:60 | the header's close button closes the window |
| Chat.Chatbot.Type | components/Chatbot.tsx:91 | the input line takes the typed value |
| Chat.Chatbot.ReplyArrived | components/Chatbot.tsx:33-37 | exactly one bot message is appended, earlier messages unchanged, loading ends |
| Chat.Chatbot.KeyPress | components/Chatbot.tsx:40-44 | Enter behaves exactly like Send; any other key changes nothing |
| RiskColors.RiskColor | pages/dashboard/TrendingTopicsPage.tsx:58-65 | red, yellow, green exactly for 'high', 'medium', 'low' in any ASCII case; grey for anything else |
| RiskColors.RiskColorCaseBlind | pages/dashboard/ArticleAnalysisPage.tsx:34 | a label and its lower-case form get the same colour |
| RiskColors.RiskLabelColors | pages/dashboard/ArticleAnalysisPage.tsx:33-39 | the three labels of the risk set get the three colours and never grey |
| Trending.TrendingTopicsPage.TopicsArrived | pages/dashboard/TrendingTopicsPage.tsx:33-47 | an empty list sets the no-topics message and leaves the list as it was; any other list is stored unchanged; loading ends either way |
| Trending.TrendingTopicsPage.constructor | pages/dashboard/TrendingTopicsPage.tsx:27-29 | no topics, loading, no message |
| Trending.TrendingTopicsPage.FetchStarted | pages/dashboard/TrendingTopicsPage.tsx:33-34 | loading with the message cleared |
| Trending.TrendingTopicsPage.CreateTemplate | pages/dashboard/TrendingTopicsPage.tsx:53-56 | the topic is stored under 'templateTopic' and the page is 'dashboard/templates' |
| Trending.TemplatesPageShown | pages/dashboard/TrendingTopicsPage.tsx:55 | that page shows the awareness-templates tool to a signed-in user |
| Templates.SafeTitle | pages/dashboard/AwarenessTemplatesPage.tsx:186 | at most 30 characters, all in [a-z0-9_], each the lower-cased title character at the same position or '_' |
| Templates.SafeTitleIdempotent | pages/dashboard/AwarenessTemplatesPage.tsx:186 | a safe title is its own safe title |
| Templates.FileName | pages/dashboard/AwarenessTemplatesPage.tsx:187 | the prefix, then the safe title, then the extension |
| Templates.DownloadNamesAgree | pages/dashboard/AwarenessTemplatesPage.tsx:187-214 | the text and picture of one result have the same name up to the extension |
| Templates.CopyText | pages/dashboard/AwarenessTemplatesPage.tsx:148-156 | the copied text keeps the title, the key points and the tips heading whole, loses only trailing whitespace, and is trimmed |
| Templates.CopyLayout | pages/dashboard/AwarenessTemplatesPage.tsx:148-155 | the copied text before trimming: title, key points as bullets, the tips heading, tips as bullets |
| Templates.CopyTextWithoutTips | pages/dashboard/AwarenessTemplatesPage.tsx:148-156 | with no tips the copied text ends at the tips heading |
| Templates.DownloadText | pages/dashboard/AwarenessTemplatesPage.tsx:165-179 | trimming leaves the downloaded layout whole |
| Templates.DownloadLayout | pages/dashboard/AwarenessTemplatesPage.tsx:165-178 | the downloaded text before trimming: banner, title, key points, tips and footer with its rule |
| Templates.AwarenessTemplatesPage.Mount | pages/dashboard/AwarenessTemplatesPage.tsx:106-111 | a non-empty stored topic becomes the prompt and the key is removed; otherwise nothing changes |
| Templates.AwarenessTemplatesPage.constructor | pages/dashboard/AwarenessTemplatesPage.tsx:97-103 | empty prompt, no result, message or copy mark; topic picker empty and loading |
| Templates.ReplaceUnsafe | pages/dashboard/AwarenessTemplatesPage.tsx:186 | same length; ASCII letters and digits kept, every other character '_' |
| Templates.Bullets | pages/dashboard/AwarenessTemplatesPage.tsx:152-154 | one line per item, each the marker followed by the item, in order |
| Templates.AwarenessTemplatesPage.TopicsArrived | pages/dashboard/AwarenessTemplatesPage.tsx:112-123 | the picker's topics are the adapter's, at most five, and loading ends |
| Templates.AwarenessTemplatesPage.Generate | pages/dashboard/AwarenessTemplatesPage.tsx:126-134 | a blank prompt sets the message and requests nothing; otherwise loading starts with result and message cleared |
| Templates.AwarenessTemplatesPage.GenerateDone | pages/dashboard/AwarenessTemplatesPage.tsx:135-143 | the adapter's content, fallback included, is stored and loading ends |
| Templates.AwarenessTemplatesPage.Copy | pages/dashboard/AwarenessTemplatesPage.tsx:146-160 | nothing without a result; otherwise the copied text and the mark set |
| Templates.AwarenessTemplatesPage.CopiedExpired | pages/dashboard/AwarenessTemplatesPage.tsx:159 | the mark is cleared |
| Templates.AwarenessTemplatesPage.DownloadTextFile | pages/dashboard/AwarenessTemplatesPage.tsx:162-194 | nothing without a result; otherwise the text file under the '.txt' name |
| Templates.AwarenessTemplatesPage.DownloadImage | pages/dashboard/AwarenessTemplatesPage.tsx:196-225 | nothing without a result; a failed rendering sets the message; otherwise the '.png' name |
| Templates.AwarenessTemplatesPage.SelectTopic | pages/dashboard/AwarenessTemplatesPage.tsx:227-230 | the prompt becomes the topic |
| Templates.AwarenessTemplatesPage.EditPrompt | pages/dashboard/AwarenessTemplatesPage.tsx:265 | the prompt takes the typed value |
| Templates.TopicHandOff | pages/dashboard/AwarenessTemplatesPage.tsx:107-111 | a topic handed over becomes the next page's prompt and a page opened after that starts blank; an empty topic stays stored |
| AudioUpload.LimitIsTenMebibytes | pages/dashboard/VoiceDetectionPage.tsx:16 | the limit is 10485760 bytes and a file of exactly that size is accepted |
| AudioUpload.DataPart | pages/dashboard/VoiceDetectionPage.tsx:31 | `split(',')[1]`: undefined exactly when there is no comma; otherwise the text from just after the first comma up to the next comma or the end |
| AudioUpload.DataPartField | pages/dashboard/VoiceDetectionPage.tsx:31 | the element after the first comma is the field up to the second |
| AudioUpload.DataUrlRoundTrip | pages/dashboard/VoiceDetectionPage.tsx:26-36 | the payload taken from `data:<type>;base64,<data>` is the base64 data (section 3 of RFC 2397), when the type has no comma |
| AudioUpload.AudioPage.ChooseFile | pages/dashboard/VoiceDetectionPage.tsx:13-24 | an oversized file sets the message and keeps selection and result; an accepted file replaces the selection and clears result and message |
| AudioUpload.AudioPage.constructor | pages/dashboard/VoiceDetectionPage.tsx:8-11 | no file, not loading, no result, no message |
| AudioUpload.AudioPage.Detect | pages/dashboard/VoiceDetectionPage.tsx:38-43 | nothing without a file; otherwise loading starts with result and message cleared |
| AudioUpload.AudioPage.FileRead | pages/dashboard/VoiceDetectionPage.tsx:44-52 | a read failure sets the failure message and ends loading; a data URL becomes the request with its payload and the file's MIME type |
| AudioUpload.AudioPage.AnalysisArrived | pages/dashboard/VoiceDetectionPage.tsx:46-53 | the analysis is stored and loading ends |
| CallFraud.IsFraudMeansFraudulentLabel | pages/dashboard/VoiceDetectionPage.tsx:57 | a result is fraud exactly when its assessment is the 'Fraudulent Call' label of the closed set |
| CallFraud.IsFraud | pages/dashboard/VoiceDetectionPage.tsx:57 | `isFraud`: the assessment is exactly 'Fraudulent Call' (related to the closed set by IsFraudMeansFraudulentLabel) |
| CallFraud.FraudOnlyFromParsedReply | pages/dashboard/VoiceDetectionPage.tsx:57-87 | the reporting block is never shown for a failed analysis: only a parsed reply can be fraud |
| CallFraud.DetectFlow | pages/dashboard/VoiceDetectionPage.tsx:13-54 | picking a file and detecting sends the file's base64 data with its MIME type and stores the analysis of the reply, with no message and loading over |
| CallFraud.OversizedFlow | pages/dashboard/VoiceDetectionPage.tsx:16-19 | an oversized file sets the message, is not selected, and detection does nothing |
| AiVoice.ConfidenceColor | pages/dashboard/AiVoiceDetectionPage.tsx:58-62 | for any real confidence, fractions included: green exactly above 75, yellow exactly above 40 up to 75, red exactly at 40 or below |
| AiVoice.ConfidenceColorMonotone | pages/dashboard/AiVoiceDetectionPage.tsx:58-62 | a higher confidence is never shown in a worse colour |
| AiVoice.ConfidenceBandEdges | pages/dashboard/AiVoiceDetectionPage.tsx:58-62 | a fraction just above 40 is yellow and just above 75 green, while 40 itself is red and 75 itself yellow |
| AiVoice.IsAIMeansAiLabel | pages/dashboard/AiVoiceDetectionPage.tsx:57 | a result is shown as AI exactly when its classification is the AI label of the closed set |
| AiVoice.IsAI | pages/dashboard/AiVoiceDetectionPage.tsx:57 | `isAI`: the classification is exactly 'AI-Generated Voice' (related to the closed set by IsAIMeansAiLabel) |
| AiVoice.FallbackShownAsFailed | pages/dashboard/AiVoiceDetectionPage.tsx:57-62 | a failed analysis is never shown as AI and its bar is red |
| AiVoice.DetectFlow | pages/dashboard/AiVoiceDetectionPage.tsx:13-54 | picking a file and detecting sends its base64 data and stores the analysis of the reply |
| AiVoice.ReadFailureFlow | pages/dashboard/AiVoiceDetectionPage.tsx:44-53 | a read failure ends with the failure message, no result and loading over |
| Article.ArticleAnalysisPage.Analyze | pages/dashboard/ArticleAnalysisPage.tsx:13-20 | blank text sets the message and sends nothing; otherwise loading starts with result and message cleared and the untrimmed text is sent |
| Article.ArticleAnalysisPage.constructor | pages/dashboard/ArticleAnalysisPage.tsx:8-11 | empty text, not loading, no result, no message |
| Article.ArticleAnalysisPage.Edit | pages/dashboard/ArticleAnalysisPage.tsx:57 | the text takes the typed value |
| Article.RiskLabelColor | pages/dashboard/ArticleAnalysisPage.tsx:33-39 | a risk label of the closed set is never shown grey |
| Article.ArticleAnalysisPage.AnalysisArrived | pages/dashboard/ArticleAnalysisPage.tsx:22-30 | the adapter's record, fallback included, is stored and loading ends |
| Article.ArticleAnalysisPage.ResultColor | pages/dashboard/ArticleAnalysisPage.tsx:33-39 | no colour without a result; a risk label of the closed set is never grey |
| Article.AnalyzeFlow | pages/dashboard/ArticleAnalysisPage.tsx:13-30 | a non-blank text is sent verbatim and the analysis of the reply stored; a failed request shows 'High' in red |
| Article.BlankFlow | pages/dashboard/ArticleAnalysisPage.tsx:14-17 | a blank text only sets the message |
| Sms.VerdictFor | pages/dashboard/SmsFraudDetectionPage.tsx:24-28 | fraud exactly for the 'alphanumeric' sender type, safe for every other |
| Sms.OtherSendersSafe | pages/dashboard/SmsFraudDetectionPage.tsx:26-27 | the alphabetic, numeric and OTP sender types are safe |
| Sms.SmsFraudDetectionPage.Analyze | pages/dashboard/SmsFraudDetectionPage.tsx:13-22 | a blank message sets the message and starts nothing; otherwise loading starts with result and message cleared, with the sender type of that moment |
| Sms.SmsFraudDetectionPage.constructor | pages/dashboard/SmsFraudDetectionPage.tsx:7-11 | empty text, sender type 'alphanumeric', not loading, no result, no message |
| Sms.SmsFraudDetectionPage.Edit | pages/dashboard/SmsFraudDetectionPage.tsx:81 | the text takes the typed value |
| Sms.SmsFraudDetectionPage.ChooseType | pages/dashboard/SmsFraudDetectionPage.tsx:93 | the sender type takes the selected value |
| Sms.SmsFraudDetectionPage.VerdictDelivered | pages/dashboard/SmsFraudDetectionPage.tsx:23-30 | the verdict for the armed sender type is stored and loading ends |
| Sms.AnalyzeFlow | pages/dashboard/SmsFraudDetectionPage.tsx:13-30 | the verdict depends only on the sender type chosen when the button was pressed, never on the text beyond its being blank |

## Left out

- The generative-model SDK (`generateContent`, `chats.create`, `sendMessage`), the `API_KEY` start-up check, the chat session's hidden history, and `JSON.parse`: the reply is an input and parsing an abstract partial function. The adapter does not check parsed records against the closed label sets, and neither does the model.
- Prompt wording of the image, voice and call analyses and of the trending request: fixed text with no user input in it.
- Browser services: `FileReader`, `Blob`, object URLs, download links, the clipboard, `htmlToImage`, Web Speech recognition and `speechSynthesis`, and OTP focus moves. Their outcomes are parameters (a data URL or a failure, a rendering success flag, a recognised phrase or an error code).
- `sessionStorage` is one optional slot for the one key the client uses.
- Timers and randomness: each `setTimeout` callback is a later event; the OTP draw is any number in 100000..999999 (the floating-point generator is not modelled).
- Concurrency: interleaved `await`s and React's batched updates; every handler is atomic.
- A reply whose `text` is undefined (`NoText`): the analysis adapters fall back, trending falls back, and chat and voice replies pass it on as the empty string.
- The catch branches after a service call cannot be reached, because every adapter catches its own failures: the article page's (ArticleAnalysisPage.tsx:25-27), the audio pages' after the analysis call, the trending page's 'Failed to fetch trending topics.' (TrendingTopicsPage.tsx:42-44), and the templates page's two (AwarenessTemplatesPage.tsx:117-118 and 138-140). Only the file-reader failure is modelled on the audio pages.
- The payload sent when a data URL has no comma is undefined; the request carries `None`, and what the service does with it is part of its reply.
- Strings are sequences of Unicode scalar values, not UTF-16 code units, so lengths and slices of text outside the Basic Multilingual Plane differ from JavaScript's; case mapping is ASCII only.
- JSX presentation, styling and icons; the image-detection page and `constants` are not part of this model; the static pages and the mock insights page.
- TopicParser.MatchFrom: the regular expression is modelled by the first match in backtracking order, derived by hand for this pattern; that shorter whitespace alternatives never succeed where the greedy ones fail is argued, not proved.
- AiVoice.ConfidenceColor: a confidence is a finite real. JSON has no NaN, but a reply whose number overflows to `Infinity`, or whose field is not a number at all (compared as NaN, which puts the bar in red), is outside the typed records of the model.
- TopicParser.ParseTopicLine: the score is the exact value of the digit run; `parseInt` yields a double, which rounds integers above 2^53 (e.g. '12345678901234567891').
- Numbers in the result records (`confidence`, `credibilityScore`) are reals; the trending score and the OTP code are whole numbers, as the code that makes them produces.
- A browser without speech recognition: the assistant's recogniser is assumed present, so closing always requests an abort.
- GeminiService.GetChatbotResponse: a `NoText` reply is passed on as the empty string rather than as `undefined`.

## Findings

| source | as written | input that shows it | evidently intended | confidence | as-written member | corrected member |
|---|---|---|---|---|---|---|
| components/Header.tsx:28-34 (same code at pages/ProfilePage.tsx:18-24) | `names[0][0]` and `names[names.length - 1][0]` are read without checking the parts are non-empty, so an empty first or last part puts the text 'undefined' into the initials | the e-mail 'bob.@example.com' derives the name 'Bob ' (App.tsx:47-51), whose initials become 'BUNDEFINED' | at most two upper-case initials, an empty part contributing nothing | not executed | Header.ReachableUndefinedInitials | Header.Initials |

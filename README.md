# SkillLink job portal: a verified model of its deterministic core

SkillLink is a Flask application with two kinds of users:

- **Workers** log in by phone, build a resume by chatting with a Gemini-backed assistant, get job recommendations and apply to jobs.
- **Employers (organizations)** log in by phone, post jobs, see the ranked workers matched to a job and accept or reject applications.

Most of the "intelligence" is delegated to Gemini. This project models everything the application decides for itself:

- the request handlers of `app.py`, as a state machine over the four tables and the session;
- the validators on the server (`utils/validators.py`) and in the browser (`static/js/validation.js`);
- the environment cleaning of `config.py`;
- the JSON-backed list columns of the `User` and `Job` models;
- the local contracts of the four Gemini wrappers: prompt selection, request projection, fallbacks and the lazily created, cached client;
- the line classifier of the ReportLab resume builder and the template shim of the HTML builder.

Every answer from Gemini, and every other foreign call, is a parameter of the model (an "oracle"). These are:

- `Outcome = Text | Empty | Fail` for a remote call seen from inside a wrapper's `try`;
- `clean` for `bleach.clean`;
- `toInt`/`toFloat` for `int()`/`float()` of request values;
- `matched`/`matcher` for what `match_jobs_for_user` returns.

## Layout

| file | module | models |
|---|---|---|
| wrappers.dfy | Wrappers | `Option`, `Result` |
| pystr.dfy | PyStr | the Python `str` methods the code uses: `strip`, `split`, `join`, `upper`, `isupper`, `in` |
| json.dfy | Json | Python values that come from JSON, truthiness, `d[k]`, `d.get`, iteration, `", ".join`, `d[k] = v`; a self-delimiting text codec for `json.dumps`/`json.loads` with its round trip |
| config.py → config.dfy | Config | `_clean_env_value`, the `or` precedence of `Config` |
| utils/validators.py → validators.dfy | Validators | phone check, `sanitize_input`, required-field listing (a loop) |
| static/js/validation.js → client_validation.dfy | ClientValidation | the browser's phone and e-mail regular expressions |
| column.dfy, user.dfy, job.dfy | JsonColumn, UserModel, JobModel | the rows and their JSON list properties |
| gemini.dfy | Gemini | `get_client` and the module-global `_client` (class `ClientCache`) |
| assistant.dfy, job_matcher.dfy, skill_extractor.dfy, translator.dfy | Assistant, JobMatcher, SkillExtractor, Translator | the wrappers in `utils/` |
| pdf_generator.dfy | PdfGenerator | the shim of `generate_pdf_resume_from_html`, the story of `generate_pdf_resume` |
| records.dfy | Records | organizations, applications, the session, the store's state, handler replies, the `filter_by(...).first()` queries |
| worker_routes.dfy, employer_routes.dfy | WorkerRoutes, EmployerRoutes | the state-changing handlers of `app.py`, as functions from a state to a reply and a state |
| recommendations.dfy, ranking.dfy, matching.dfy | Recommendations, Ranking, Matching | `worker_jobs_recommended` (the id join) and `employer_matches` (the stable descending sort) |
| app.dfy | App | the handlers as one state machine, and the invariants every series of requests keeps |
| store.dfy | Store | class `Store`: the tables and the session as fields; the handlers as methods that update them, with their loops |

The handlers are stated twice. Each is first a function over a `State` value (WorkerRoutes, EmployerRoutes, Recommendations, Matching), where the properties are proved. Each is then a method of `Store.Store`, whose `ensures` ties the reply and the new fields to that function. The loops of `worker_jobs_recommended` and `employer_matches` (building `jobs_data`, `job_matches`, `users_data`, `matches`, and the in-place sort) are `for` loops with invariants in the `Store` methods.

The tables are sequences ordered by id, with id = position + 1. These are SQLite's autoincrement ids, and nothing is ever deleted. A query's `.first()` is therefore the lowest matching position.

## Model

| member | source | states |
|---|---|---|
| Config.CleanEnvValue | config.py:6-9 | no value exactly for `None` or `""`; otherwise a contiguous piece of the input that neither starts nor ends with `'` |
| Config.CleanText | config.py:9 | the three strips leave a contiguous piece of the input that neither starts nor ends with `'` |
| Config.BlankCleansToEmpty | config.py:7-9 | a whitespace-only value cleans to `""`, not to no value |
| Config.CleanQuotedTwice | config.py:9 | the three strips run once each in order: `'"x"'` cleans to `"x"` with its double quotes kept |
| Config.CleanQuoted | config.py:9 | `"x"` cleans to `x` |
| Config.CleanSpacedQuoted | config.py:9 | surrounding blanks go first, then the quotes they hid |
| Config.CleanNotIdempotent | config.py:9 | cleaning twice can differ from cleaning once |
| Config.EnvOr | config.py:12 | `os.environ.get(a) or os.environ.get(b)`: the first variable when set and non-empty, else the second |
| Config.SecretKey | config.py:12-15 | never empty unless the random fallback is; a value taken from the environment is a piece of SECRET_KEY when that is set and non-empty, else of SESSION_SECRET |
| Config.GeminiApiKey | config.py:16 | no key exactly when both GEMINI_API_KEY and GOOGLE_API_KEY are unset or empty; otherwise a piece of GEMINI_API_KEY when that is set and non-empty, else of GOOGLE_API_KEY |
| Config.SecretKeyPrecedence | config.py:12-15 | SECRET_KEY wins over SESSION_SECRET; with neither set, the random fallback is used |
| Config.GeminiKeyPrecedence | config.py:16 | GEMINI_API_KEY wins over GOOGLE_API_KEY; otherwise GOOGLE_API_KEY, cleaned |
| Config.BlankSecretShadowsSessionSecret | config.py:12-15 | a blank SECRET_KEY still hides SESSION_SECRET, so the secret is the random value |
| Validators.AsciiDigitIsPyDigit | utils/validators.py:5 | every ASCII digit is matched by Python's `\d` |
| Validators.PyDigits | utils/validators.py:5 | removing `[^\d]` leaves only digits, never more characters than the input |
| Validators.ValidateIndianPhone | utils/validators.py:4-7 | accepted exactly when ten digits remain and the first is 6 to 9 |
| Validators.PyDigitsConcat | utils/validators.py:5 | the digits of a concatenation are the digits of each part, in order |
| Validators.PyDigitsOfDigits | utils/validators.py:5 | a digit string is kept whole |
| Validators.PyDigitsOfNonDigits | utils/validators.py:5 | a string with no digits contributes nothing |
| Validators.InsertNonDigits | utils/validators.py:5-7 | inserting non-digits anywhere never changes the verdict |
| Validators.AcceptsPlainNumber | utils/validators.py:4-7 | `9876543210` is accepted |
| Validators.AcceptsDashedNumber | utils/validators.py:4-7 | `98765-43210` is accepted |
| Validators.RejectsLeadingOne | utils/validators.py:4-7 | `1234567890` is rejected |
| Validators.RejectsWrongLength | utils/validators.py:4-7 | a string with nine or eleven digits is rejected |
| Validators.SanitizeInput | utils/validators.py:9-12 | a falsy (empty) input gives `""` without calling the cleaner |
| Validators.MissingFields | utils/validators.py:14-19 | every listed field is a required one that is absent or empty, and there are at most as many as required |
| Validators.ValidateRequiredFields | utils/validators.py:14-19 | the loop returns the listing of the missing fields |
| Validators.MissingFieldsMembership | utils/validators.py:14-19 | a field is listed exactly when it is required and absent or empty |
| Validators.MissingFieldsInOrder | utils/validators.py:15-19 | the listing is a subsequence of the required fields, in their order |
| Validators.MissingFieldsEmpty | utils/validators.py:15-19 | nothing is listed exactly when every required field is present and non-empty |
| ClientValidation.JsDigits | static/js/validation.js:2 | `replace(/\D/g, '')` keeps only ASCII digits |
| ClientValidation.ValidatePhoneNumber | static/js/validation.js:1-5 | accepted exactly when ten ASCII digits remain and the first is 6 to 9 |
| ClientValidation.DigitsAgree | static/js/validation.js:2 | on inputs whose digits are all ASCII, both digit filters give the same string |
| ClientValidation.PhoneValidatorsAgree | static/js/validation.js:1-5 | on such inputs the browser and the server give the same verdict |
| ClientValidation.ServerAcceptsDevanagari | utils/validators.py:4-7 | the server accepts a 9 followed by nine Devanagari digits |
| ClientValidation.BrowserRejectsDevanagari | static/js/validation.js:1-5 | the browser refuses that number |
| ClientValidation.PhoneValidatorsDiverge | static/js/validation.js:1-5 | so some number passes the server and fails the browser |
| ClientValidation.JsDigitsOfNonDigits | static/js/validation.js:2 | a string with no ASCII digits leaves nothing |
| ClientValidation.SplitNoSpace | static/js/validation.js:9 | an address split into three `[^\s@]+` parts has no white space |
| ClientValidation.SplitOneAt | static/js/validation.js:9 | such an address has exactly one `@` |
| ClientValidation.EmailPatternHasShape | static/js/validation.js:9 | what the regex accepts has one `@` with a non-empty local part and a `.` that is neither first nor last after it, and no white space |
| ClientValidation.EmailShapeMatches | static/js/validation.js:9 | every address of that shape is accepted by the regex |
| ClientValidation.ValidateEmail | static/js/validation.js:7-10 | `validateEmail` holds exactly for that shape |
| ClientValidation.EmailRejectsSpace | static/js/validation.js:9 | any white space anywhere is refused |
| ClientValidation.AcceptsSimpleAddress | static/js/validation.js:7-10 | `a@b.c` is accepted |
| ClientValidation.RejectsTwoAts | static/js/validation.js:7-10 | `a@b@c.d` is refused |
| Json.LoadsDumps | models/user.py:25-33 | what `json.dumps` writes, `json.loads` reads back as the same value |
| JsonColumn.Read | models/user.py:26-29 | a NULL or empty column reads as `[]` |
| JsonColumn.Write | models/user.py:31-33 | the written text is non-empty and reads back as the value assigned |
| UserModel.NewUser | models/user.py:9-21 | a new worker has the given id and phone, language `'en'` by default, `resume_complete` 0, NULL columns and `[]` lists |
| UserModel.Skills | models/user.py:25-29 | the `skills` getter gives `[]` while the column is NULL or empty |
| UserModel.WorkHistory | models/user.py:35-39 | the same for `work_history` |
| UserModel.ChatHistory | models/user.py:45-49 | the same for `chat_history` |
| UserModel.SetSkills | models/user.py:31-33 | after the setter the getter returns the value assigned; no other column changes |
| UserModel.SetWorkHistory | models/user.py:41-43 | the same for `work_history` |
| UserModel.SetChatHistory | models/user.py:51-53 | the same for `chat_history` |
| UserModel.Bindable | app.py:142 | what `db.commit()` can bind to a plain column: no list, no dict, and an integer only within 64 bits |
| UserModel.BindableEdges | app.py:142 | integers bind from -2^63 to 2^63 - 1 and not one further on either side; floats, texts and NULL always bind; a list never does |
| UserModel.Storable | app.py:132-142 | the six scalar columns the chat merge writes can all be bound |
| JobModel.NewJob | models/job.py:9-31 | a job as posted keeps every given column; its `required_skills` read back as the list given |
| JobModel.RequiredSkills | models/job.py:23-27 | the getter gives `[]` while the column is NULL or empty |
| JobModel.SetRequiredSkills | models/job.py:29-31 | reading back gives the value assigned; no other column changes |
| Gemini.ChosenKey | utils/ai_assistant.py:13-17 | GEMINI_API_KEY when set and non-empty, else GOOGLE_API_KEY when set and non-empty, else the configured key |
| Gemini.ResolveApiKey | utils/ai_assistant.py:13-23 | a key exactly when the chosen value cleans to a non-empty string, and then that string; otherwise the "not configured" error |
| Gemini.ResolvedKeyTrimmed | utils/ai_assistant.py:13-23 | a resolved key is non-empty, a piece of the chosen value, and has no `'` at either end |
| Gemini.GeminiKeyWins | utils/ai_assistant.py:13-17 | a non-empty GEMINI_API_KEY is the value cleaned, whatever GOOGLE_API_KEY and the configured key are |
| Gemini.ConfigKeyLast | utils/ai_assistant.py:13-17 | with neither variable set, the configured key is the value cleaned |
| Gemini.GetClient | utils/ai_assistant.py:9-25 | a cached client is returned as is; otherwise a client is created exactly when the key resolves, holds that key and is cached, and on failure nothing is cached |
| Gemini.CallRemote | utils/ai_assistant.py:124-136 | inside the `try` the wrapper sees the remote outcome when a client exists and the key error otherwise |
| Gemini.ClientCreatedOnce | utils/ai_assistant.py:11-25 | once a client is cached, later calls return it whatever the environment says then |
| Gemini.FailureCachesNothing | utils/ai_assistant.py:20-23 | after a failed call the next call starts from the environment again |
| Gemini.BlankGeminiKeyHidesGoogleKey | utils/ai_assistant.py:13-23 | a blank GEMINI_API_KEY is chosen first, cleans to nothing and fails the call |
| Gemini.ClientCache.constructor | utils/ai_assistant.py:7 | the module global starts with no client |
| Gemini.ClientCache.Call | utils/ai_assistant.py:9-25 | a call updates the global exactly as `get_client` does |
| Assistant.PromptTongue | utils/ai_assistant.py:32-110 | Hindi exactly for `'hi'`, Odia exactly for `'or'`, English for every other code |
| Assistant.SystemPrompt | utils/ai_assistant.py:46 | every system prompt contains the marker `COMPLETE` |
| Assistant.ContentFor | utils/ai_assistant.py:119-120 | a message becomes role `user` exactly when its `role` is `"user"`, else `model`, with its `content`; a missing key raises |
| Assistant.HistoryContents | utils/ai_assistant.py:118-120 | one content per stored message |
| Assistant.ChatContents | utils/ai_assistant.py:117-122 | the history followed by the new message as `user`: length history + 1 |
| Assistant.BuildContents | utils/ai_assistant.py:117-122 | the loop builds exactly those contents or stops at the first unreadable message |
| Assistant.PrefixErrorStops | utils/ai_assistant.py:118-120 | an unreadable message stops the whole build with its error |
| Assistant.HistoryContentsInOrder | utils/ai_assistant.py:118-120 | message `i` becomes content `i` |
| Assistant.HistoryContentsOk | utils/ai_assistant.py:118-120 | the history is readable exactly when every message has `role` and `content` |
| Assistant.ChatRequest | utils/ai_assistant.py:113-122 | a `None` history is sent as just the new message |
| Assistant.ReplyFor | utils/ai_assistant.py:131-136 | the reply is never empty: the response text when non-empty, the fixed line for an empty response, `"Error: "` plus the message for a failure |
| Assistant.ChatReply | utils/ai_assistant.py:112-136 | an empty response gives the fixed line, a failure (the missing key included) gives `"Error: "` plus its message, otherwise the response text |
| Assistant.MissingContentReply | utils/ai_assistant.py:116-136 | a message without `content` gives `"Error: 'content'"` and leaves the cache alone |
| Assistant.Chat | utils/ai_assistant.py:112-136 | the method's reply and cache are those of `ChatReply` |
| Assistant.ExtractedData | utils/ai_assistant.py:156-171 | `{}` for an empty response or any failure; otherwise the parsed value unchecked |
| Assistant.ExtractResumeData | utils/ai_assistant.py:156-171 | the method's result and cache are those of `ExtractedData` |
| JobMatcher.WorkerSummary | utils/job_matcher.py:25-31 | only trade, experience, skills and location are used, with `'N/A'`, 0, `[]`, `'N/A'` for missing keys; the skills join raises outside the `try` |
| JobMatcher.JobInfoFor | utils/job_matcher.py:35-43 | each of the eight fields is the job's value for its key when present, and the default as written (0, `[]`, `None`) when absent |
| JobMatcher.ProjectJobs | utils/job_matcher.py:33-43 | one entry per job, in input order |
| JobMatcher.Matches | utils/job_matcher.py:67-82 | `[]` for an empty response or any failure; otherwise the parsed value, neither capped nor sorted |
| JobMatcher.MatchJobsForUser | utils/job_matcher.py:24-82 | the method's result and cache are those of `Matches`; the job list it projects for the prompt is one `JobInfoFor` entry per job, in order, unless the summary raised first |
| SkillExtractor.CategorizeRequest | utils/skill_extractor.py:26-43 | the prompt carries the trade and the `", "`-joined skills; a non-string skill raises before the `try` |
| SkillExtractor.Fallback | utils/skill_extractor.py:56-60 | the input list unchanged as the technical skills, and two empty lists |
| SkillExtractor.Categorized | utils/skill_extractor.py:45-68 | the fallback for an empty response or any failure; otherwise the parsed value without checking its keys |
| SkillExtractor.ExtractAndCategorizeSkills | utils/skill_extractor.py:25-68 | the method's result and cache are those of `Categorized` |
| Translator.LanguageName | utils/translator.py:27-33 | `hi` is Hindi, `or` is Odia, `en` is English and every other code is Hindi |
| Translator.Translation | utils/translator.py:23-47 | target `en` returns the text with no call; an empty response or any failure returns the text; otherwise the response |
| Translator.TranslateText | utils/translator.py:23-47 | the method's result and cache are those of `Translation`; the prompt is written, from the language name and the text, exactly when the target is not `'en'` |
| Translator.TranslateToDefault | utils/translator.py:23 | without a target the text is translated to Hindi |
| PdfGenerator.UserShim.constructor | utils/pdf_generator.py:21-32 | every attribute is `data.get(key, default)` with the defaults as written |
| PdfGenerator.GeneratePdfResumeFromHtml | utils/pdf_generator.py:6-50 | `True` exactly when the data is a dict and rendering succeeds |
| PdfGenerator.ContactParts | utils/pdf_generator.py:126-132 | the truthy ones of phone, location and trade, in that order: phone first when truthy, location next, trade last |
| PdfGenerator.Header | utils/pdf_generator.py:123-139 | the upper-cased name (default `Resume`), the contact line and the rule; a non-string name raises |
| PdfGenerator.DefaultTitle | utils/pdf_generator.py:123-124 | no name gives the title `RESUME` |
| PdfGenerator.LineItem | utils/pdf_generator.py:143-154 | blank after stripping is a spacer; upper-case or ending in `:` is a heading; a body starting with `-` or `•` becomes `• ` plus the line with its leading `-•` and spaces removed |
| PdfGenerator.DashedLineIsBullet | utils/pdf_generator.py:152-153 | `- weld` becomes the body `• weld` |
| PdfGenerator.UpperLineIsHeading | utils/pdf_generator.py:149-150 | `SKILLS` is a heading |
| PdfGenerator.ColonLineIsHeading | utils/pdf_generator.py:149-150 | `Work:` is a heading |
| PdfGenerator.BlankLineIsSpacer | utils/pdf_generator.py:144-147 | a line of blanks is a spacer |
| PdfGenerator.ClassifyLine | utils/pdf_generator.py:143-154 | one pass of the loop gives the item for that line |
| PdfGenerator.LineItems | utils/pdf_generator.py:142-154 | one item per line, in order |
| PdfGenerator.LineItemsSnoc | utils/pdf_generator.py:143-154 | one more line adds its own item at the end |
| PdfGenerator.Story | utils/pdf_generator.py:123-154 | three header items, then one item per `'\n'`-split line |
| PdfGenerator.ClassifyLines | utils/pdf_generator.py:142-154 | the loop gives one item per line, in order |
| PdfGenerator.BuildStory | utils/pdf_generator.py:122-155 | the loop builds exactly that story |
| PdfGenerator.GeneratePdfResume | utils/pdf_generator.py:71-161 | `True` exactly when the story is built and `doc.build` succeeds |
| Records.First | app.py:40 | `.first()`: the lowest position that matches, and none before it |
| Records.UserByPhone | app.py:40 | the first worker with that phone, or none has it |
| Records.UserById | app.py:113 | the first worker with that id, or none has it |
| Records.OrgByPhone | app.py:359 | the first organization with that phone, or none has it |
| Records.OrgById | app.py:570 | the first organization with that id, or none has it |
| Records.JobById | app.py:534 | the first job with that id, or none has it |
| Records.OwnJob | app.py:449 | a job with that id and that owner, or none |
| Records.ApplicationById | app.py:530 | the first application with that id, or none has it |
| Records.ApplicationFor | app.py:285-288 | an application of that worker for that job, or none |
| WorkerRoutes.WorkerStart | app.py:29-58 | an invalid phone gives "Invalid phone number" and changes nothing; otherwise the session holds that worker, as a worker, with the requested language; only the users table may change; the invariant is kept |
| WorkerRoutes.WorkerStartExisting | app.py:40-49 | a known phone logs in as that worker and only its `language` is written |
| WorkerRoutes.WorkerStartNew | app.py:40-47 | a new phone adds exactly one worker, with the next id, the defaults and the requested language |
| WorkerRoutes.Merge | app.py:130-140 | a present key overwrites each of name, trade, experience, location, education and certifications with its value and an absent one keeps it; skills and work history become the extracted value or `[]`; `resume_complete` becomes 1; id, phone, language and transcript are untouched |
| WorkerRoutes.AppendTurn | app.py:117-123 | the stored transcript, then the worker's message, then the reply |
| WorkerRoutes.ChatMessage | app.py:103-150 | no `user_id` gives Unauthorized; an unknown id gives "User not found"; a turn whose commit cannot bind a scalar column (a list, a dict, an integer wider than 64 bits) gives ServerError; a successful turn returns the reply with `is_complete` exactly when it contains `COMPLETE`; a failure changes nothing; only the users table may change; the invariant is kept |
| WorkerRoutes.Turn | app.py:117-142 | an unreadable transcript or an unbindable merge (a list, a dict, an integer wider than 64 bits) is a failed turn, and a failed turn changes nothing; a successful one rewrites only that worker's row, keeping its id and phone, returns the reply with the marker flag and keeps the invariant |
| WorkerRoutes.Commit | app.py:129-142 | once the transcript is appended: the commit fails when the extraction is not a dict or a merged scalar column holds a list, a dict or an integer wider than 64 bits; a failed commit changes nothing; a successful one rewrites only that row, keeping its id and phone, and keeps the invariant |
| WorkerRoutes.CommitSucceeds | app.py:129-142 | the commit passes exactly when, on the marker, the extraction is a dict whose scalar values can be bound (no list, no dict, no integer wider than 64 bits) |
| WorkerRoutes.TurnCommits | app.py:117-142 | the condition on the row before the turn: the transcript decodes to a list or a falsy value and, on the marker, the extraction is a dict whose merged scalar columns can be bound |
| WorkerRoutes.ChatTurnSucceeds | app.py:113-142 | for a known worker the turn succeeds exactly when the stored transcript is falsy or a list and, on the marker, the extraction is a dict whose scalar values can be bound, 64-bit bound on integers included |
| WorkerRoutes.ChatTurnRecorded | app.py:117-147 | when the turn commits, the reply is returned, the transcript is the earlier one plus the two messages, even for an error reply; `resume_complete` becomes 1 exactly on the marker and otherwise stays; other workers are untouched |
| WorkerRoutes.MergeScalars | app.py:132-137 | whether the merged row can be stored depends only on the six scalar columns it starts from |
| WorkerRoutes.ChatListColumnFails | app.py:137-142 | an extraction whose `certifications` is a list makes the commit fail: a 500 and nothing kept, transcript included |
| WorkerRoutes.ChatOverflowFails | app.py:134-142 | an extraction whose `experience_years` is an integer wider than 64 bits makes the commit raise `OverflowError`: a 500 and nothing kept, transcript included |
| WorkerRoutes.EmptyExtractionWipesLists | app.py:132-139 | an empty extraction `{}` wipes skills and work history but keeps name, trade, location |
| WorkerRoutes.ChatIgnoresUserType | app.py:105 | a session with a `user_id` gets in even when its type says employer |
| WorkerRoutes.Apply | app.py:278-305 | not a worker: Unauthorized; a second application for the same job: "Already applied to this job" with nothing added; otherwise exactly one `'pending'` row added |
| WorkerRoutes.ApplyTwice | app.py:285-291 | the second identical application is refused and adds nothing |
| WorkerRoutes.ApplyToMissingJob | app.py:278-300 | a worker's first application for a job id that names no job succeeds and adds the `'pending'` row all the same |
| WorkerRoutes.WorkerAccountUpdate | app.py:322-346 | not a worker: Unauthorized; an unknown id: "User not found"; a failure changes nothing; only the users table may change; the invariant is kept |
| WorkerRoutes.WorkerAccountUpdateRow | app.py:330-343 | the session's worker takes the cleaned value of each of name, location and trade that is sent non-empty and keeps the others and every other column; no other row changes |
| EmployerRoutes.EmployerStart | app.py:348-373 | an invalid phone changes nothing; a registered phone leaves the organizations as they were; only the organizations table may change |
| EmployerRoutes.EmployerStartNew | app.py:359-373 | an unregistered valid phone appends exactly one organization with the next id, the cleaned name and phone and no profile fields, and logs in as it, as an employer |
| EmployerRoutes.EmployerStartFirstWriteWins | app.py:359-367 | a registered phone logs in as that organization and its stored name is kept, whatever name is sent |
| EmployerRoutes.SkillPieces | app.py:411 | the stripped, non-empty pieces: none blank and none with white space at either end |
| EmployerRoutes.SkillsOf | app.py:411 | the comma-split skills: non-empty, trimmed, with no comma |
| EmployerRoutes.SkillsNoComma | app.py:411 | no piece of a comma split contains a comma |
| EmployerRoutes.SplitAtFirst | app.py:411 | splitting cuts at the first comma |
| EmployerRoutes.SkillPiecesConcat | app.py:411 | the pieces of two lists are the pieces of each, in order |
| EmployerRoutes.SkillsOfCons | app.py:411 | the first comma-separated piece is its own skill when not blank, then the skills of the rest |
| EmployerRoutes.SkillsOfSingle | app.py:411 | a value without commas is one trimmed skill, or none when blank |
| EmployerRoutes.PostJob | app.py:401-440 | not an employer: redirect; a missing field: BadRequest listing it; success exactly when all four fields are given, the numbers parse and the experience fits 64 bits, adding one job after the others; a failure changes nothing |
| EmployerRoutes.Experience | app.py:427 | `experience_required` defaults to 0 when absent; otherwise it is `int()` of the sent text |
| EmployerRoutes.Salary | app.py:429-430 | a salary defaults to `0.0` when absent; otherwise it is `float()` of the sent text |
| EmployerRoutes.Commits | app.py:427-435 | the commit binds the row exactly when the parsed experience lies within 64 bits; the salaries are floats and always bind |
| EmployerRoutes.PostedJob | app.py:418-431 | the new job has the next id, status `'active'`, the session's organization, the sanitised title, trade, description and location, the comma-split skills, the parsed experience and the two parsed salaries |
| EmployerRoutes.PostJobOverflowFails | app.py:427-435 | an `experience_required` that `int()` turns into an integer wider than 64 bits fails at the commit and adds no job |
| EmployerRoutes.Strings | app.py:411 | the skills as JSON strings, one each |
| EmployerRoutes.PostJobNeedsField | app.py:412-416 | leaving out any one of title, trade, description, location posts nothing |
| EmployerRoutes.UpdateApplication | app.py:517-544 | not an employer: Unauthorized; a status outside pending/approved/rejected: "Invalid status" and no change; an unknown application: "Application not found"; success changes only that application's status |
| EmployerRoutes.UpdateOwnApplication | app.py:528-541 | a valid status for an application of one of the organization's own jobs succeeds and sets exactly that status on exactly that row |
| EmployerRoutes.UpdateForeignApplication | app.py:530-536 | an application whose job belongs to another organization is Forbidden and changes nothing |
| EmployerRoutes.EmployerAccountUpdate | app.py:561-589 | not an employer: Unauthorized; an unknown organization: "Organization not found"; ids and phones are kept, rows other than the session's are unchanged, and only the organizations table may change; the invariant is kept |
| EmployerRoutes.EmployerAccountUpdateRow | app.py:570-586 | the session's organization takes the cleaned value of each of the five fields sent non-empty and keeps the others, its id and its phone; no other row changes |
| Recommendations.ActiveJobs | app.py:239 | only active jobs, taken from the table |
| Recommendations.ActiveJobsComplete | app.py:239 | every active job is listed |
| Recommendations.JobView | app.py:243-254 | the job's dict carries its id; none when its skills do not decode |
| Recommendations.JobViews | app.py:241-254 | one dict per job, in order |
| Recommendations.Ids | app.py:267 | the ids of the listed jobs, in order |
| Recommendations.FindJob | app.py:267 | the first dict whose id equals the entry's `job_id`, or none; a missing `job_id` raises |
| Recommendations.JoinOne | app.py:267-271 | one pass writes only the two match keys and lists at most one more job |
| Recommendations.Join | app.py:265-271 | the loop writes only the two match keys and lists at most one job per entry |
| Recommendations.JoinPrefixErr | app.py:266-270 | an entry that raises makes the whole loop raise |
| Recommendations.Render | app.py:271 | `job_matches` is each listed dict as the loop left it |
| Recommendations.JoinDropsOrphan | app.py:268 | an entry naming no job is dropped and changes nothing |
| Recommendations.JoinAppendsNamed | app.py:267-271 | an entry naming a job lists it once more, after everything listed so far, with the entry's score and reasoning |
| Recommendations.JoinSharesDict | app.py:267-271 | a job named twice is listed twice as the same dict, carrying the later entry's score |
| Recommendations.JoinKeepsAll | app.py:265-271 | when every entry names a job, one job is listed per entry, in matcher order: there is no local cap |
| Recommendations.RenderListsOnly | app.py:265-271 | every job listed is one of the active jobs |
| Recommendations.Recommended | app.py:228-276 | not a worker: redirect to index; no finished resume: redirect to the chat; a success lists only active jobs |
| Ranking.Insert | app.py:483 | inserting adds exactly one row (its position is stated by the lemmas below) |
| Ranking.SortDesc | app.py:483 | the sort keeps the number of rows |
| Ranking.InsertBound | app.py:483 | inserting under a bound keeps every score under it |
| Ranking.InsertDescending | app.py:483 | inserting into a descending sequence keeps it descending |
| Ranking.InsertPermutation | app.py:483 | inserting adds exactly that row |
| Ranking.SortDescDescending | app.py:483 | the result is in descending order of score |
| Ranking.SortDescPermutation | app.py:483 | the result holds the same rows |
| Ranking.WithScoreConcat | app.py:483 | the rows of one score in a concatenation are those of each part |
| Ranking.WithScoreBelow | app.py:483 | a descending sequence starting below a score holds no row of it |
| Ranking.InsertStable | app.py:483 | inserting puts the row after the rows of its own score |
| Ranking.SortDescStable | app.py:483 | rows with equal scores keep their order (Python's sort is stable) |
| Ranking.Items | app.py:483 | the rows without their keys, one each |
| Ranking.ItemsConcat | app.py:483 | dropping the keys distributes over concatenation |
| Ranking.InsertItems | app.py:483 | inserting adds exactly that row's item |
| Ranking.SortDescItems | app.py:483 | sorting only reorders the items |
| Matching.Candidates | app.py:453 | only workers with `resume_complete` 1, taken from the table |
| Matching.CandidatesComplete | app.py:453 | every worker with a finished resume is a candidate |
| Matching.UserView | app.py:457-464 | the worker's dict carries its id and its skills |
| Matching.UserViews | app.py:455-464 | one dict per worker, in order |
| Matching.JobData | app.py:466-473 | a one-element list holding the job's dict |
| Matching.Head | app.py:479 | `match_result[0]`: the first item of a non-empty list; an empty list, a dict or a non-sequence raises |
| Matching.Annotated | app.py:478-481 | a falsy result skips the worker; otherwise the dict gets the first entry's score and reasoning, and no other key changes |
| Matching.Collect | app.py:475-481 | at most one row per worker, each with a `match_score` |
| Matching.CollectNext | app.py:476-481 | one more worker extends the rows by its annotation, or stops at its error |
| Matching.CollectPrefixErr | app.py:476-481 | a worker whose answer raises makes the whole loop raise |
| Matching.CollectSkipsFalsy | app.py:478 | a worker with a falsy result is left out and changes nothing |
| Matching.CollectAppends | app.py:478-481 | a worker with a usable result is appended last |
| Matching.Keyed | app.py:483 | each row paired with its score as key, in order |
| Matching.Rank | app.py:483 | the sort succeeds exactly when there is at most one row or every score is a number, and keeps the count |
| Matching.TaggedPermutation | app.py:483 | a permutation of rows keyed by their own score is still keyed so |
| Matching.ItemsOfKeyed | app.py:483 | dropping the keys gives the rows back |
| Matching.ScoredRowsOfItems | app.py:483 | the rows of one score are the items of the keyed rows of that score |
| Matching.RankPermutation | app.py:483 | the ranking holds the same rows |
| Matching.RankByScore | app.py:483 | the ranking puts the highest score first |
| Matching.RankStable | app.py:483 | workers with the same score keep the order in which they were listed |
| Matching.MatchesPage | app.py:442-488 | not an employer: redirect; a job not owned: "Job not found"; a success shows an owned job |
| Matching.MatchesPageRanked | app.py:453-483 | a successful page holds exactly the rows collected, by score, with ties in listing order |
| Matching.UnfinishedNotOffered | app.py:453 | a worker whose resume is not finished is never a candidate |
| App.LogoutState | app.py:591-594 | `session.clear()` empties the session and touches no table |
| App.StepValid | app.py:29-594 | every handler keeps the store's invariant (ids follow positions; unique phones; one application per worker and job) |
| App.RunValid | app.py:29-594 | so does every series of requests from the empty store |
| App.GrowsTransitive | app.py:29-594 | the "only grows" relation between stores composes |
| App.WorkerStartGrows | app.py:29-58 | `worker_start` grows the store |
| App.ChatGrows | app.py:103-150 | a chat turn grows the store |
| App.ApplyGrows | app.py:278-305 | `worker_apply` grows the store |
| App.WorkerAccountUpdateGrows | app.py:322-346 | `worker_account_update` grows the store |
| App.EmployerStartGrows | app.py:348-373 | `employer_start` grows the store |
| App.PostJobGrows | app.py:401-440 | `employer_post_job` grows the store |
| App.UpdateApplicationGrows | app.py:517-544 | `employer_update_application` grows the store |
| App.EmployerAccountUpdateGrows | app.py:561-589 | `employer_account_update` grows the store |
| App.SameGrows | app.py:29-594 | a request that changes nothing grows the store |
| App.StepGrows | app.py:29-594 | rows are never removed, ids and phones never change, posted jobs never change, applications change only in status, and `resume_complete` only ever becomes 1 |
| App.RunGrows | app.py:29-594 | the same across any series of requests: a finished resume is never reopened |
| App.WorkerStartLogsIn | app.py:32-53 | a successful `worker_start` logs in as a worker whose phone is the one sent |
| App.LogoutLocksOut | app.py:591-594 | after logout the chat, apply and status-update handlers answer Unauthorized |
| App.LockedOut | app.py:104-106 | with an empty session the chat handler answers Unauthorized, and so do `worker_apply` (app.py:280-281) and `employer_update_application` (app.py:519-520) |
| Store.Store.constructor | app.py:29-594 | an empty database and an empty session |
| Store.Store.WorkerStart | app.py:29-58 | updates the fields as `WorkerRoutes.WorkerStart` says |
| Store.Store.ChatMessage | app.py:103-150 | updates the fields as `WorkerRoutes.ChatMessage` says: nothing is written when a scalar value is a list, a dict or an integer wider than 64 bits |
| Store.Store.Turn | app.py:117-142 | updates the fields as `WorkerRoutes.Turn` says, failing on the same unbindable values |
| Store.Store.Commit | app.py:129-142 | updates the fields as `WorkerRoutes.Commit` says: the row is written only when the commit binds it, 64-bit bound included |
| Store.Store.Apply | app.py:278-305 | updates the fields as `WorkerRoutes.Apply` says |
| Store.Store.WorkerAccountUpdate | app.py:322-346 | updates the fields as `WorkerRoutes.WorkerAccountUpdate` says |
| Store.Store.JobsRecommended | app.py:228-276 | writes nothing; its two loops give the page `Recommendations.Recommended` describes |
| Store.Store.JobViewsLoop | app.py:241-254 | the `jobs_data` loop builds `JobViews` |
| Store.Store.JoinLoop | app.py:265-271 | the `job_matches` loop succeeds exactly when `Join` does, with the same result |
| Store.Store.EmployerStart | app.py:348-373 | updates the fields as `EmployerRoutes.EmployerStart` says |
| Store.Store.PostJob | app.py:401-440 | updates the fields as `EmployerRoutes.PostJob` says: no job is added when the experience does not fit 64 bits |
| Store.Store.EmployerMatches | app.py:442-488 | writes nothing; its loops and sort give the page `Matching.MatchesPage` describes |
| Store.Store.UserViewsLoop | app.py:455-464 | the `users_data` loop builds `UserViews` |
| Store.Store.CollectLoop | app.py:475-481 | the `matches` loop builds `Collect` |
| Store.Store.SortLoop | app.py:483 | the sort gives `Rank` |
| Store.Store.UpdateApplication | app.py:517-544 | updates the fields as `EmployerRoutes.UpdateApplication` says |
| Store.Store.EmployerAccountUpdate | app.py:561-589 | updates the fields as `EmployerRoutes.EmployerAccountUpdate` says |
| Store.Store.Logout | app.py:591-594 | clears the session and nothing else |

## Left out

- Flask plumbing is not modelled: routing, templates, `redirect`/`jsonify` bodies, status codes beyond the reply kind, and cookies. The session holds only `user_id`, `org_id`, `user_type` and `language`.
- The read-only pages are not modelled: the dashboards, `worker_chat` GET, the account pages, `employer_applicants`, the resume preview and download, and the GET of `employer_post_job`. They only read the tables.
- Request bodies are maps from strings to strings. Non-string JSON values in a request are not modelled.
- `bleach.clean` is a parameter. Only the falsy branch of `sanitize_input` is stated.
- `int()` and `float()` of request values are parameters returning no value when they raise. Floating point, salary formatting and `salary_range` text are not modelled: a salary is kept as the JSON value.
- SQLAlchemy's session and models/database.py are not modelled as such. The tables are sequences with id = position + 1, not identity-mapped objects, and an ORM object's in-place update is a sequence update. Of a transaction only the binding done by `db.commit()` is modelled. In the chat handler it fails, and nothing of the request is kept, when a scalar column is given a list, a dict or an integer outside the signed 64-bit range. In `employer_post_job` it fails when `experience_required` parses to an integer outside that range.
- WorkerRoutes.Apply / EmployerRoutes.UpdateApplication / Matching.MatchesPage: an id taken from the URL (`<int:job_id>`, `<int:application_id>`) is any natural number. Flask's converter accepts one wider than 64 bits, and the query then raises `OverflowError` when it binds it, a 500. The model treats such an id as one that matches no row, and so answers as for a missing row: Apply stores the application, UpdateApplication answers "Application not found" and MatchesPage "Job not found". The Store methods of the same names inherit this.
- WorkerRoutes.Merge / WorkerRoutes.ChatMessage: SQLite's column affinity is not modelled. A number stored in a `String` or `Text` column (`name`, `trade`, `location`, `education`, `certifications`) or a numeric string stored in the INTEGER column `experience_years` is kept as the JSON value extracted, not converted to the column's type. Only the binding failures are modelled: a list, a dict, or an integer outside 64 bits. The `String(n)` lengths are not modelled either; SQLite does not enforce them.
- `created_at`/`updated_at` timestamps are not modelled, nor the unused `match_score`/`match_reasoning` columns of applications.
- The getters' "fresh copy" is automatic in a value model: a getter returns a value, and the stored column changes only through the setter.
- The Gemini calls and all prompt wording are oracles. Of each system prompt only the sentence naming the marker is kept.
- `json.dumps`/`json.loads` are modelled by a self-delimiting text codec with the same round trip, not by real JSON syntax. Malformed response text is the `Fail` outcome.
- Python's `\d` is modelled by the decimal-digit blocks of the Basic Multilingual Plane only. The supplementary-plane digits are not included.
- `str.upper`/`isupper` are modelled on ASCII letters only. JavaScript's `\s` is modelled by the common white-space characters.
- Exception messages for `TypeError`s are approximate texts. Only whether a handler fails, and the `KeyError` texts, are stated exactly.
- Matching.Rank: with two or more rows and some `match_score` that is not a number, the model fails the sort. Python would still sort when every score is a string, and would compare mixed numbers and booleans too. Only all-numeric (and boolean) scores are sorted.
- Recommendations.Recommended: what `match_jobs_for_user` returns is a parameter, so the model does not tie it to the worker summary built at app.py:256-263.
- utils/resume_generator.py is not part of this model. Its output is an oracle string in the pages that use it.
- WeasyPrint and ReportLab rendering, the reportlab imports outside the `try` (utils/pdf_generator.py:64-69), the file system and `datetime`-based file names are not modelled.
- The random `SECRET_KEY` fallback is a parameter.
- static/js/voice.js and static/js/chat.js are not part of this model: they are browser speech and DOM code.
- Concurrent requests are not modelled: each request runs alone, after the previous ones.

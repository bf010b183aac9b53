# KeepItFit core, modelled in Dafny

KeepItFit is a health and fitness app. It has two halves:

- a FastAPI backend: accounts with bcrypt-hashed passwords and JWT bearer tokens, a plan generator (BMR, TDEE, calorie goal, weekly meal and workout tables, with an optional Gemini plan), a wellness score, activity statistics, image upload to MinIO with a Gemini meal analysis, and a chat route;
- a React Native client: an authentication context, an axios client with two interceptors, a language context over English and Arabic string tables, a chat panel, and the login, sign-up and root screens.

This project models the rules of both halves:

- **Backend routes are functions and methods over an in-memory database.** Models.Database is a class whose tables are sequences of rows. The LLM, `json.loads`, bcrypt, JWT and the clock are parameters.
- **Client components are classes.** Their methods take the outcome of each storage call and request as a parameter: `fails` flags, the fetched profile, the server's answer.

One module per source file:

| module | file | models |
|---|---|---|
| Common | common.dfy | Option, Result, HttpError, truthiness, decimal rendering |
| Models | models.dfy | rows, JSON values, the database |
| ObjectStorage | storage.dfy | the MinIO bucket and object URLs |
| LlmReply | llm_reply.dfy | fence stripping, the `{…}` candidate, trying the models in order |
| AuthUtils | auth_utils.dfy | UTF-8, the 72-byte truncation, token claims |
| AuthRoutes | auth_routes.dfy | the `/auth` routes |
| ActivityRoutes | activity.dfy | the `/activity` routes |
| Plan | plan.dfy | the `/plan` routes |
| Upload | upload.dfy | `/upload` |
| Chat | chat.dfy | `/chat/message` |
| SecureStore | secure_store.dfy | expo-secure-store |
| Api | api.dfy | `api.ts` |
| AuthSession | auth_session.dfy | `AuthContext.tsx` |
| IndexRoute | index_route.dfy | `index.tsx` |
| Translations | translations.dfy | `translations.ts` |
| LanguageContext | language_context.dfy | `LanguageContext.tsx` |
| ChatPanel | chat_panel.dfy | `ChatAssistant.tsx` |
| ScreenAlert | screen_alert.dfy | the alert state the two form screens share |
| LoginScreen | login.dfy | `login.tsx` |
| SignupScreen | signup.dfy | `signup.tsx` |

The client's `parseInt` and `String.prototype.trim` are written out in JsText (js_text.dfy).

Modelling choices:

- The wellness score's clamp to 100 is kept as written, and `WellnessBounds` shows it never changes the score.
- The session stores its token under "userToken", but the request interceptor reads "token". They are two keys of one store, and `SecureStore.TokenKeysDistinct` shows that signing in never changes what the interceptor reads.

## Model

| member | source | states |
|---|---|---|
| Models.FindByEmail | backend/app/routes/auth.py:43-44 | the first row whose email matches, or none when no row matches |
| Models.FindByUsername | backend/app/routes/auth.py:46-47 | a row with that username, or none when no row has it |
| Models.OwnedActivities | backend/app/routes/activity.py:81-83 | exactly the caller's activities, no others |
| Models.Database.constructor | backend/app/models.py:8-49 | empty tables, ids starting at 1, uniqueness invariant holds |
| ObjectStorage.Format | backend/app/routes/upload.py:54-55 | an f-string renders a missing setting as "None" and a present one as itself |
| ObjectStorage.ObjectUrl | backend/app/routes/upload.py:54-55 | "http://" + public endpoint when truthy, else endpoint, + "/" + bucket + "/" + name |
| ObjectStorage.ObjectUrlInjective | backend/app/routes/upload.py:54-55 | with one configuration, distinct object names give distinct URLs |
| ObjectStorage.Store.constructor | backend/app/routes/upload.py:19-36 | the bucket starts empty |
| ObjectStorage.Store.PutObject | backend/app/routes/upload.py:44-50 | a successful put stores exactly that object with that content type; a failed put changes nothing and reports its error |
| LlmReply.FirstAccepted | backend/app/routes/chat.py:61-73 | the index of the first model that succeeds: every earlier one failed |
| LlmReply.FirstAcceptedAt | backend/app/routes/chat.py:61-73 | a successful model with only failures before it is the one chosen |
| LlmReply.TryModels | backend/app/routes/upload.py:87-122 | the loop that stops at the first model returning without raising picks exactly FirstAccepted |
| LlmReply.ParsedReply | backend/app/routes/plan.py:182-187 | a parsed plan comes from a reply whose stripped text has a candidate, and it is that candidate's parse |
| LlmReply.FirstParsed | backend/app/routes/plan.py:171-203 | the first model whose reply parses, or the end of the list |
| LlmReply.LeadingSpace | backend/app/routes/upload.py:105 | the length of the maximal run of Python whitespace at the start |
| LlmReply.TrailingSpace | backend/app/routes/upload.py:106 | the length of the maximal run of Python whitespace at the end |
| LlmReply.FirstIndexOf | backend/app/routes/upload.py:107 | the first "{": none before it, or none at all |
| LlmReply.LastIndexOf | backend/app/routes/upload.py:107 | the last "}": none after it, or none at all |
| LlmReply.ExtractCandidate | backend/app/routes/upload.py:107 | a candidate is at least two characters, starts with "{" and ends with "}" |
| LlmReply.CandidateIsOutermostBraces | backend/app/routes/upload.py:107 | the candidate is the substring from the first "{" to the last "}" |
| LlmReply.NoCandidateIff | backend/app/routes/upload.py:107-117 | no candidate exactly when no "{" is followed anywhere later by "}" |
| LlmReply.LeadingSpaceOfSpaces | backend/app/routes/upload.py:105 | whitespace followed by non-whitespace is measured exactly |
| LlmReply.TrailingSpaceOfSpaces | backend/app/routes/upload.py:106 | the mirror case at the end |
| LlmReply.StripOpeningFence | backend/app/routes/upload.py:105 | defined as `re.sub(r'^```json\s*', '', text)`: a leading "```json" and the whole whitespace run after it are removed, any other text is kept; StripFencedReply and StripUnfenced state it |
| LlmReply.StripClosingFence | backend/app/routes/upload.py:106 | defined as `re.sub(r'\s*```$', '', text)`: a "```" at the end (or before a final newline), with the whitespace run before it, is removed; StripFencedReply, StripUnfenced and StripClosingIsPrefix state it |
| LlmReply.StripFencedReply | backend/app/routes/upload.py:105-106 | a "```json" fence, whitespace, a body, whitespace and "```" strip to exactly the body |
| LlmReply.StripUnfenced | backend/app/routes/upload.py:105-106 | text with neither fence is left unchanged |
| LlmReply.StripClosingIsPrefix | backend/app/routes/upload.py:106 | stripping the closing fence keeps a prefix of the text, plus the final newline that `$` leaves in place |
| AuthUtils.CharBytes | backend/app/auth_utils.py:30 | a character's UTF-8 encoding is 1 to 4 bytes |
| AuthUtils.ValidRun | backend/app/auth_utils.py:30 | the longest run of valid continuation bytes after a lead byte |
| AuthUtils.GetPasswordHash | backend/app/auth_utils.py:28-31 | a password that survives truncation is hashed as given |
| AuthUtils.FitChars | backend/app/auth_utils.py:30 | how many whole characters fit in k bytes, at most the string's length |
| AuthUtils.Encode | backend/app/auth_utils.py:30 | defined as `s.encode("utf-8")`: the UTF-8 bytes of each character in turn; EncodeAppend and DecodeEncode state it |
| AuthUtils.DecodeIgnore | backend/app/auth_utils.py:30 | defined as `decode("utf-8", errors="ignore")`: each complete well-formed sequence becomes its character and every other byte is dropped; DecodeEncode, DecodeCharBytes and DecodeCutChar state it |
| AuthUtils.TruncatePassword | backend/app/auth_utils.py:30 | defined as the first 72 bytes of the encoding, decoded with errors="ignore"; TruncatePasswordPrefix, TruncateShortPassword, TruncateIdempotent and TruncateDropsOnlyCutChar state it |
| AuthUtils.EncodeAppend | backend/app/auth_utils.py:30 | encoding distributes over concatenation |
| AuthUtils.CharBytesShape | backend/app/auth_utils.py:30 | every encoded character is a well-formed UTF-8 sequence |
| AuthUtils.ScalarOfCharBytes | backend/app/auth_utils.py:30 | decoding a character's bytes gives the character back |
| AuthUtils.DecodeCharBytes | backend/app/auth_utils.py:30 | an encoded character followed by more bytes decodes to that character, then the rest |
| AuthUtils.DecodeCutChar | backend/app/auth_utils.py:30 | a cut-off character decodes to nothing under errors="ignore" |
| AuthUtils.DecodeEncodedPrefix | backend/app/auth_utils.py:30 | decoding the first k bytes keeps exactly the characters that fit in k bytes |
| AuthUtils.FitCharsBound | backend/app/auth_utils.py:30 | the characters kept fit in k bytes, and one more would not |
| AuthUtils.FitCharsWhole | backend/app/auth_utils.py:30 | if every character fits, the whole encoding fits |
| AuthUtils.FitCharsAll | backend/app/auth_utils.py:30 | if the whole encoding fits, every character is kept |
| AuthUtils.TruncatePasswordPrefix | backend/app/auth_utils.py:30 | the truncated password is a prefix, its bytes are a prefix of the original's, it is at most 72 bytes, and the next character would pass 72 |
| AuthUtils.TruncateShortPassword | backend/app/auth_utils.py:30-31 | a password of at most 72 bytes is unchanged |
| AuthUtils.TruncateIdempotent | backend/app/auth_utils.py:30 | truncating twice is truncating once |
| AuthUtils.TruncateDropsOnlyCutChar | backend/app/auth_utils.py:30 | past 72 bytes the first 72 bytes are the kept text plus part of the one character that is dropped |
| AuthUtils.DecodeEncode | backend/app/auth_utils.py:30 | decoding with errors="ignore" inverts encoding |
| AuthUtils.CreateAccessToken | backend/app/auth_utils.py:52-56 | the payload is the caller's claims plus "exp"; exp is now + the delta, or now + 30 minutes with no delta |
| AuthUtils.GetCurrentUser | backend/app/auth_utils.py:33-50 | the token resolves exactly when it decodes, has a string "sub" and matches a user's email, to that user's row; every refusal, a non-string "sub" included, is the one 401 |
| AuthUtils.MissingSubjectAndUnknownUserAlike | backend/app/auth_utils.py:41-49 | a payload without "sub" and an unknown email give the identical 401 |
| AuthUtils.CreatedTokenAuthenticates | backend/app/auth_utils.py:33-56 | a token made for a user's email resolves to that user |
| AuthRoutes.TokenFor | backend/app/routes/auth.py:67-81 | the token names the user's email, expires in 30 minutes and has type "bearer" |
| AuthRoutes.RegisterUser | backend/app/routes/auth.py:41-81 | checks email first, then username; on success adds exactly one row with the profile and the hash of the truncated password; on refusal changes nothing |
| AuthRoutes.RegisteredUserAuthenticates | backend/app/routes/auth.py:50-81 | after registration the table stays unique and the returned token resolves to the new row |
| AuthRoutes.Login | backend/app/routes/auth.py:83-116 | 400 exactly for a missing field, before any lookup; success exactly for a known email with a verifying password; otherwise 401 |
| AuthRoutes.LoginRefusalsAlike | backend/app/routes/auth.py:94-100 | an unknown email and a wrong password give the identical 401 |
| AuthRoutes.ApplyItem | backend/app/routes/auth.py:124-125 | one more set field applies one more assignment |
| AuthRoutes.NewUser | backend/app/routes/auth.py:50-62 | defined as the row `register_user` adds: the request's email, username and profile fields, the hash of the truncated password, and no picture |
| AuthRoutes.SetItems | backend/app/routes/auth.py:124 | defined as `profile.dict(exclude_unset=True).items()`: one assignment per given field, in declaration order |
| AuthRoutes.ApplyAll | backend/app/routes/auth.py:124-125 | defined as the `setattr` calls performed in order |
| AuthRoutes.Merge | backend/app/routes/auth.py:124-125 | defined as the field-wise merge: each given field takes its new value, every other field and the id, email, username and hash keep theirs; SetItemsMerge equates it with ApplyAll of SetItems |
| AuthRoutes.SetItemsMerge | backend/app/routes/auth.py:124-125 | the `setattr` loop over the set fields equals the field-wise merge |
| AuthRoutes.UpdateUserProfile | backend/app/routes/auth.py:118-128 | only the caller's row changes, to the merge of the update |
| AuthRoutes.MergeChangesOnlyGivenFields | backend/app/routes/auth.py:124-125 | fields not set in the request keep their values; an empty update changes nothing |
| AuthRoutes.ProfileObjectName | backend/app/routes/auth.py:150 | "profile_" + id + "_" followed by exactly the rendered filename |
| AuthRoutes.ProfileObjectNamesDistinct | backend/app/routes/auth.py:150 | two uploads get the same object name exactly when the user ids and the rendered filenames are equal, so no user overwrites another's picture |
| AuthRoutes.UploadProfilePicture | backend/app/routes/auth.py:138-170 | 500 and no change without storage; "Upload failed: " and no change when the put fails; otherwise stores the picture and saves the returned URL on the user |
| ActivityRoutes.InsertDesc | backend/app/routes/activity.py:36 | insertion into a newest-first list keeps it sorted and is a permutation plus the element |
| ActivityRoutes.SortDesc | backend/app/routes/activity.py:36 | `order_by(date.desc())` is sorted and a permutation |
| ActivityRoutes.NewestFirst | backend/app/routes/activity.py:36 | defined as `order_by(date.desc()).limit(n)`: the first n rows of SortDesc; NewestFirstProperties and NewestFirstKeepsRows state it |
| ActivityRoutes.NewestOf | backend/app/routes/activity.py:36 | the predicate of what `.limit(n)` after a descending sort returns: at most n rows, sorted newest first, a sub-multiset of the input, no row left out newer than a row kept, and every row when at most n exist |
| ActivityRoutes.NewestFirstProperties | backend/app/routes/activity.py:36 | at most the limit, sorted, a sub-multiset, nothing left out is newer than a row kept, all rows kept when they fit, and exactly the limit when they do not |
| ActivityRoutes.RecentActivities | backend/app/routes/activity.py:31-37 | at most 10 of the caller's own activities, newest first; no left-out activity of the caller is newer than a kept one; all of them when the caller has at most 10, and exactly 10 when the caller has more |
| ActivityRoutes.OwnedMeals | backend/app/routes/activity.py:60 | exactly the caller's meal analyses |
| ActivityRoutes.MealInsights | backend/app/routes/activity.py:55-61 | at most 20 of the caller's own analyses, newest first; no left-out analysis of the caller is newer than a kept one; all of them when the caller has at most 20, and exactly 20 when the caller has more |
| ActivityRoutes.TrackActivity | backend/app/routes/activity.py:15-29 | adds exactly one record with the given activity, duration, time and owner; nothing else changes |
| ActivityRoutes.SaveMealAnalysis | backend/app/routes/activity.py:39-53 | adds exactly one analysis owned by the caller; nothing else changes |
| ActivityRoutes.WeekActivities | backend/app/routes/activity.py:69-73 | exactly the caller's activities dated within the last seven days; WeekActivitiesCounts adds that each comes out as often as it is in the table |
| ActivityRoutes.WeekActivitiesCounts | backend/app/routes/activity.py:70-76 | every row of the caller dated in the last seven days is kept as often as the table holds it, and no other row is kept, so `len` and `sum` at lines 75-76 count each row once |
| ActivityRoutes.SumDurations | backend/app/routes/activity.py:75 | defined as `sum(a.duration for a in activities)`; SumDurationsAppend states it |
| ActivityRoutes.SumDurationsAppend | backend/app/routes/activity.py:75 | the total of two runs of activities is the sum of their totals |
| ActivityRoutes.Days | backend/app/routes/activity.py:88 | each activity's calendar day |
| ActivityRoutes.StreakFrom | backend/app/routes/activity.py:85-96 | the streak never exceeds the number of activities |
| ActivityRoutes.StreakIsLongestChain | backend/app/routes/activity.py:85-96 | the streak is the longest prefix where each day is the same as or one before the previous, starting today or yesterday |
| ActivityRoutes.StreakCountsActivities | backend/app/routes/activity.py:88-94 | k activities dated today give a streak of k, for every k: activities are counted, not days |
| ActivityRoutes.StreakNeedsRecentHead | backend/app/routes/activity.py:85-96 | a newest activity before yesterday or in the future gives streak 0 |
| ActivityRoutes.Streak | backend/app/routes/activity.py:85-96 | the loop with its `break` computes StreakFrom |
| ActivityRoutes.ActivityStats | backend/app/routes/activity.py:63-103 | minutes and count of the week, calories = 6 × minutes, and the streak over the caller's activities newest first, bounded by their number |
| Plan.CalculateBmr | backend/app/routes/plan.py:17-22 | defined as the Mifflin-St Jeor formula 10w + 6.25h − 5a, +5 for "male" and −161 for any other gender, "male" by default, computed exactly; BmrInQuarters and BmrMonotone state it |
| Plan.CalculateTdee | backend/app/routes/plan.py:25-34 | defined as `int(bmr * multiplier)` with the floating-point product and truncation as a parameter; UnknownLevelIsModerate and MultipliersOrdered state it |
| Plan.AdjustCaloriesForGoal | backend/app/routes/plan.py:37-44 | defined as −500 for "lose", +300 for "gain", unchanged otherwise; GoalAdjustment states it |
| Plan.MealPlanByDiet | backend/app/routes/plan.py:47-78 | defined as the vegan or keto table, or the balanced one for any other diet; MealPlanProperties states it |
| Plan.WorkoutPlan | backend/app/routes/plan.py:81-113 | defined as the lose or gain table, or the maintain one for any other goal; WorkoutPlanProperties states it |
| Plan.BmrInQuarters | backend/app/routes/plan.py:17-22 | BMR is exactly (40w + 25h − 20a + 20)/4 for "male", and 166 less for any other gender |
| Plan.BmrMonotone | backend/app/routes/plan.py:17-22 | BMR grows with weight and height and falls with age |
| Plan.Multiplier | backend/app/routes/plan.py:27-34 | the table's multiplier, or 1.55 for an unknown level |
| Plan.UnknownLevelIsModerate | backend/app/routes/plan.py:34 | an unknown level gives the same TDEE as "moderate" |
| Plan.MultipliersOrdered | backend/app/routes/plan.py:27-33 | the five multipliers increase from sedentary to extra_active, all within 1.2 to 1.9 |
| Plan.GoalAdjustment | backend/app/routes/plan.py:37-44 | −500 for lose, +300 for gain, unchanged otherwise; lose is never above another goal |
| Plan.MealPlanProperties | backend/app/routes/plan.py:47-78 | seven days 1..7 in order; unknown diets get "balanced"; the goal is ignored |
| Plan.WorkoutPlanProperties | backend/app/routes/plan.py:81-113 | seven days 1..7 with non-negative durations; goals other than lose and gain get the maintain table; the activity level is ignored |
| Plan.TruncToInt | backend/app/routes/plan.py:191 | `int()` truncates toward zero |
| Plan.GeneratePlan | backend/app/routes/plan.py:116-230 | the guard, the first model plan that parses, else the static plan |
| Plan.ExpectedPlan | backend/app/routes/plan.py:116-230 | defined as the plan without its loop: the 400 guard, then the plan of the first model whose reply parses, else the static tables; GeneratePlan computes it and PlanRefusedIffIncomplete, PlanCalories and PlanFallback state it |
| Plan.PlanRefusedIffIncomplete | backend/app/routes/plan.py:121-125 | refused with 400 exactly when age, weight or height is missing or zero |
| Plan.PlanCalories | backend/app/routes/plan.py:127-130 | daily calories = adjust(TDEE, goal); goal defaults to "maintain" and diet to "balanced" |
| Plan.PlanFallback | backend/app/routes/plan.py:208-230 | not AI-generated exactly when there is no client or no model plan parses, and then the content is the static tables |
| Plan.ProfileFieldsSet | backend/app/routes/plan.py:239-253 | at most six fields count |
| Plan.RecentCount | backend/app/routes/plan.py:255-258 | the query limit keeps n ≤ 7 |
| Plan.ProfilePoints | backend/app/routes/plan.py:239-253 | the six `+= 5` steps give 5 × the number of truthy fields |
| Plan.WellnessScore | backend/app/routes/plan.py:233-275 | score = min(100, profile points + min(5n, 40) + bonus), and profile_complete is total ≥ 30 |
| Plan.WellnessBounds | backend/app/routes/plan.py:239-273 | the total is at most 95, so the clamp never fires; five recent activities or a full profile make it complete |
| Plan.ProfileCompleteIsTotal | backend/app/routes/plan.py:270-273 | with no profile fields but five activities the profile counts as complete |
| Plan.GenerateRecipe | backend/app/routes/plan.py:278-366 | the recipe route as written: 400 without ingredients, the first parsed reply, else "Recipe generation failed" |
| Plan.ExpectedRecipe | backend/app/routes/plan.py:278-366 | defined as 400 without truthy ingredients, else the first parsed reply, else the given error; GenerateRecipe computes it with "Recipe generation failed" and GenerateRecipeIntended with "Unable to generate recipe. Please try again." |
| Plan.RecipeDetailSwallowed | backend/app/routes/plan.py:362-366 | with ingredients and no parsed reply, the answer is "Recipe generation failed", never "Unable to generate recipe" |
| Plan.GenerateRecipeIntended | backend/app/routes/plan.py:362 | 500 exactly when ingredients are given and no reply parses, and then it is "Unable to generate recipe. Please try again." |
| Upload.ObjectName | backend/app/routes/upload.py:43 | the filename, or "upload.bin" when it is missing or empty; never empty |
| Upload.SidecarName | backend/app/routes/upload.py:149 | the object name followed by ".analysis.json" |
| Upload.SidecarNamesDistinct | backend/app/routes/upload.py:149 | distinct objects have distinct sidecars, and no sidecar overwrites its own image |
| Upload.Note | backend/app/routes/upload.py:132 | a note is a non-empty analysis |
| Upload.Missing | backend/app/routes/upload.py:134-136 | nothing is missing exactly when the SDK is present and the key is truthy |
| Upload.MissingNote | backend/app/routes/upload.py:134-138 | "Gemini SDK" comes before "GEMINI_API_KEY", joined by ", " |
| Upload.ReplyAnalysis | backend/app/routes/upload.py:103-117 | the parsed candidate, or {"text": stripped text} when there is no candidate or the parse fails |
| Upload.ExpectedAnalysis | backend/app/routes/upload.py:87-122 | defined as the analysis without its loop: the "Missing: " note, the client error note, else the first answering model's parsed reply, or the failure note naming the last error when it is empty; AnalyseMeal computes it and AnalysisNeverEmpty, FirstAnswerWins and BracelessReplyIsText state it |
| Upload.AnalyseMeal | backend/app/routes/upload.py:57-143 | the analysis loop computes ExpectedAnalysis |
| Upload.UploadImage | backend/app/routes/upload.py:38-157 | "Upload failed: " with no change when the put fails; otherwise the URL, name and analysis, the image stored, and the sidecar stored unless its put fails |
| Upload.AnalysisNeverEmpty | backend/app/routes/upload.py:130-132 | the returned analysis is never empty |
| Upload.EmptyObjectReplyIsFailure | backend/app/routes/upload.py:130-132 | a first reply of "{}" gives the note "AI analysis failed: None" |
| Upload.FirstAnswerWins | backend/app/routes/upload.py:87-122 | the first model that answers decides the analysis, whatever it replies: its object, or the failure note with the previous model's error ("None" for the first model) when that object is empty; later models are not asked |
| Upload.BracelessReplyIsText | backend/app/routes/upload.py:105-122 | a first answer with no braces becomes `{"text": ...}` of the fence-stripped reply |
| Chat.ChatFailed | backend/app/routes/chat.py:78-80 | a 500 whose detail starts "Chat failed: " |
| Chat.ReadEntry | backend/app/routes/chat.py:45-49 | a KeyError exactly when the role, or a known role's content, is missing; skipped exactly for another role |
| Chat.HistoryLines | backend/app/routes/chat.py:44-49 | defined as the line of each user or assistant entry in order, the other roles skipped, or the "Chat failed: " 500 for the first entry missing a key; ConversationLines computes it and HistoryFailuresAreChatFailed, OtherRolesSkipped and PrependAppend state it |
| Chat.FullPrompt | backend/app/routes/chat.py:52-55 | defined as the system prompt, a blank line, the lines and "User: " + message joined by newlines, and "\n\nAssistant:"; PromptShape states it |
| Chat.ModelsReply | backend/app/routes/chat.py:58-76 | defined as the reply of the first model that answers, else a "Chat failed: " 500 with the last model's error; AskModels computes it |
| Chat.ExpectedReply | backend/app/routes/chat.py:19-80 | defined as the route without its loops: the SDK and key guards, a failing client, the last ten history entries, the prompt and the models in order; ChatMessage computes it and GuardOrder, FailuresAreChatFailed and OnlyLastTenCount state it |
| Chat.ConversationLines | backend/app/routes/chat.py:44-49 | the loop over the history computes HistoryLines |
| Chat.AskModels | backend/app/routes/chat.py:58-76 | the model loop computes ModelsReply |
| Chat.ChatMessage | backend/app/routes/chat.py:19-80 | the route computes ExpectedReply: the guards, the history lines, the prompt and the models in order |
| Chat.PrependNothing | backend/app/routes/chat.py:44-49 | prepending no lines changes nothing |
| Chat.PrependAppend | backend/app/routes/chat.py:44-49 | prepending lines one at a time is prepending them all |
| Chat.OnlyLastTenCount | backend/app/routes/chat.py:45 | entries older than the last ten do not change the prompt |
| Chat.OtherRolesSkipped | backend/app/routes/chat.py:46-49 | an entry with another role contributes nothing |
| Chat.JoinLast | backend/app/routes/chat.py:55 | joining with one more part appends the separator and that part |
| Chat.PromptShape | backend/app/routes/chat.py:52-55 | system prompt + "\n\n" + the lines joined by "\n" + "\n\nAssistant:", with "User: " + message last |
| Chat.GuardOrder | backend/app/routes/chat.py:26-30 | a missing SDK is reported before a missing key |
| Chat.FailuresAreChatFailed | backend/app/routes/chat.py:32-80 | past the guards every failure is a 500 starting "Chat failed: " |
| Chat.HistoryFailuresAreChatFailed | backend/app/routes/chat.py:45-49 | a malformed history entry is also a "Chat failed: " 500 |
| SecureStore.Lookup | mobile/components/AuthContext.tsx:32 | the stored value exactly when the key is present |
| SecureStore.Store.constructor | mobile/components/AuthContext.tsx:32 | the store holds the given items |
| SecureStore.Store.GetItem | mobile/components/AuthContext.tsx:32 | the stored value for the key, or a rejection |
| SecureStore.Store.SetItem | mobile/components/AuthContext.tsx:59 | a successful write sets exactly that key; a failed one changes nothing |
| SecureStore.Store.DeleteItem | mobile/components/AuthContext.tsx:71 | a successful delete removes exactly that key; a failed one changes nothing |
| SecureStore.TokenKeysDistinct | mobile/utils/api.ts:23 | "userToken" and "token" differ, so writing or deleting the session's key leaves the interceptor's key alone |
| Api.Client.constructor | mobile/utils/api.ts:11-17 | no default Authorization header |
| Api.RequestConfig.constructor | mobile/utils/api.ts:21 | a request with its URL and header |
| Api.BearerFor | mobile/utils/api.ts:23-26 | a header exactly when the read succeeds with a non-empty token, and then "Bearer " + token |
| Api.InterceptRequest | mobile/utils/api.ts:20-36 | the same config comes back; it gets "Bearer <t>" exactly when "token" holds a non-empty t, and is otherwise unchanged |
| Api.Detail | mobile/app/login.tsx:59 | the response's `detail`, when its data is an object that has one |
| Api.TruthyDetail | mobile/app/login.tsx:59 | `err?.response?.data?.detail` when it is truthy, and none otherwise |
| Api.ApiError.constructor | mobile/utils/api.ts:51 | an error with its code, message and response |
| Api.RewrittenMessage | mobile/utils/api.ts:53-57 | the timeout text for ECONNABORTED, checked first; "Cannot connect to server…" for ERR_NETWORK or "Network Error"; otherwise the message unchanged |
| Api.InterceptError | mobile/utils/api.ts:51-73 | the same error object is rejected with its message rewritten and its code and response untouched |
| Api.InterceptResponse | mobile/utils/api.ts:44-50 | successful responses pass through unchanged |
| Api.RewriteIdempotent | mobile/utils/api.ts:53-57 | rewriting twice is rewriting once |
| AuthSession.Session.constructor | mobile/components/AuthContext.tsx:22-24 | token and user null, isLoading true |
| AuthSession.Session.SignOut | mobile/components/AuthContext.tsx:69-78 | a successful delete clears token, user, header and the stored key; a failed delete changes nothing and does not throw |
| AuthSession.Session.FetchUser | mobile/components/AuthContext.tsx:45-55 | a fetched profile becomes the user; a failed fetch signs out |
| AuthSession.Session.LoadToken | mobile/components/AuthContext.tsx:30-43 | isLoading ends false in every case; with no stored token or a failed read nothing else changes and no fetch is made; a stored token sets token and header and fetches the user |
| AuthSession.Session.SignIn | mobile/components/AuthContext.tsx:57-67 | throws exactly when the write fails, and then nothing changes; otherwise sets token and header and fetches, signing out when the fetch fails; the interceptor's key is untouched; `SignedIn` restates this effect against the values before the call |
| IndexRoute.Index | mobile/app/index.tsx:6-22 | exactly one of spinner (loading), home (truthy token) and welcome |
| IndexRoute.Href | mobile/app/index.tsx:17-21 | defined as the redirect target: "/(authenticated)/home" for the home view and "/welcome" for the welcome view |
| Translations.Code | mobile/utils/translations.ts:181 | a language's code is "en" or "ar" |
| Translations.Lookup | mobile/utils/translations.ts:2-179 | an entry with the key when one exists, and none exactly when none does |
| Translations.AgreeConcat | mobile/utils/translations.ts:3-178 | agreeing sections concatenate to agreeing tables |
| Translations.AuthScreensAgree | mobile/utils/translations.ts:4-19 | the two auth-screen sections have the same keys and no empty text |
| Translations.ProfileFieldsAgree | mobile/utils/translations.ts:20-39 | the same for the profile fields |
| Translations.ScreenSectionsAgree | mobile/utils/translations.ts:40-70 | the same for navigation, home, plan and activity |
| Translations.OtherSectionsAgree | mobile/utils/translations.ts:71-90 | the same for profile, common and language |
| Translations.TablesAgree | mobile/utils/translations.ts:3-178 | the en and ar tables have the same keys, and no value is empty |
| Translations.LookupAgrees | mobile/utils/translations.ts:181-182 | a key is in one table exactly when it is in the other, with non-empty text in both |
| Translations.Table | mobile/utils/translations.ts:2-179 | defined as `translations[language]`: the en or the ar table; TablesAgree states it |
| Translations.TextOr | mobile/components/LanguageContext.tsx:63 | `entry \|\| key`: the entry when non-empty, else the key |
| Translations.Translate | mobile/components/LanguageContext.tsx:62-64 | defined as `t(key)`: the table's non-empty text for the key, else the key; TranslateDeclared states it |
| Translations.DefaultTranslate | mobile/components/LanguageContext.tsx:16 | the default context's t is the identity |
| Translations.TextOrOfAgreeing | mobile/components/LanguageContext.tsx:63 | over agreeing tables, t falls back to the key in both languages or in neither |
| Translations.TranslateDeclared | mobile/components/LanguageContext.tsx:62-64 | a declared key gets its own table's text in each language; any other key comes back as itself |
| Translations.LookupConcat | mobile/utils/translations.ts:3-90 | a later section's entry wins over an earlier one |
| Translations.AbsentConcat | mobile/utils/translations.ts:3-90 | a key absent from two sections is absent from both together |
| Translations.OnlyInHead | mobile/utils/translations.ts:3-90 | a key only in the first section has that section's text |
| Translations.WelcomeTitleOnlyInAuthScreens | mobile/utils/translations.ts:5 | "welcomeTitle" is in no section but the first |
| Translations.WelcomeTitleUntranslated | mobile/utils/translations.ts:5 | welcomeTitle is "keepItFit" in both languages |
| Translations.LanguageLabelsShared | mobile/utils/translations.ts:88-89 | "english" and "arabic" have the same labels in both tables |
| LanguageContext.FromCode | mobile/components/LanguageContext.tsx:36 | a language exactly for a stored "en" or "ar", and it is the one stored |
| LanguageContext.CodeRoundTrip | mobile/components/LanguageContext.tsx:36-47 | what setLanguage stores, loadLanguage reads back |
| LanguageContext.TOfDeclaredKey | mobile/components/LanguageContext.tsx:62-64 | t of a declared key is the current table's entry |
| LanguageContext.LanguageState.T | mobile/components/LanguageContext.tsx:62-64 | defined as `t(key)` for the current language; TOfDeclaredKey states it |
| LanguageContext.LayoutManager.constructor | mobile/components/LanguageContext.tsx:53 | the platform direction, with no request yet |
| LanguageContext.LayoutManager.ForceRTL | mobile/components/LanguageContext.tsx:54 | records the request and leaves the current direction |
| LanguageContext.LanguageState.constructor | mobile/components/LanguageContext.tsx:25-26 | "en", left to right |
| LanguageContext.LanguageState.LoadLanguage | mobile/components/LanguageContext.tsx:33-43 | a stored "en" or "ar" becomes the language; anything else, or a failed read, keeps the state; isRTL == (language == ar) is kept |
| LanguageContext.LanguageState.SetLanguage | mobile/components/LanguageContext.tsx:45-60 | a failed write changes nothing; otherwise stores and sets the language and requests forceRTL only when the platform direction differs |
| ChatPanel.HistoryEntry | mobile/components/ChatAssistant.tsx:61-64 | an entry with exactly the role and content keys |
| ChatPanel.SentHistory | mobile/components/ChatAssistant.tsx:61-64 | the last at most ten messages, each reduced to role and content |
| ChatPanel.ErrorText | mobile/components/ChatAssistant.tsx:77-87 | the first match in order: no connection, timeout, status 500, the server's detail, the generic text |
| ChatPanel.ReplyContent | mobile/components/ChatAssistant.tsx:67-95 | a truthy `response` is shown as is; another answer gives "I'm here to help!"; null data and errors give the error text |
| ChatPanel.Panel.constructor | mobile/components/ChatAssistant.tsx:26-35 | one assistant greeting, empty input, not loading |
| ChatPanel.Panel.Type | mobile/components/ChatAssistant.tsx:34 | sets the input only |
| ChatPanel.Panel.SendMessage | mobile/components/ChatAssistant.tsx:44-99 | no-op for blank input or while loading; otherwise sends the trimmed text with the history from before the send, appends exactly the user message then the reply, clears the input and ends not loading |
| ChatPanel.ErrorTextAfterInterceptor | mobile/components/ChatAssistant.tsx:79-80 | after the interceptor, a network failure shown by code or by "Network Error" is classified as no connection |
| ChatPanel.SentEntriesAreLines | mobile/components/ChatAssistant.tsx:61-64 | the panel's history entries are all read as lines by the chat route |
| ChatPanel.LinesAccepted | mobile/components/ChatAssistant.tsx:59-65 | the chat route accepts the whole history the panel sends, one line per entry |
| JsText.TrimStart | mobile/components/ChatAssistant.tsx:45 | a suffix of the text, starting at a non-space, with only JavaScript whitespace removed |
| JsText.TrimEnd | mobile/components/ChatAssistant.tsx:45 | a prefix of the text, ending at a non-space, with only JavaScript whitespace removed |
| JsText.TrimProperties | mobile/components/ChatAssistant.tsx:45 | `trim()` is a slice of the text with only whitespace around it, and starts and ends with a non-space |
| JsText.TrimEmptyIff | mobile/components/ChatAssistant.tsx:45 | `!input.trim()` exactly when the input is all whitespace |
| JsText.TrimStartOfTrimmed | mobile/components/ChatAssistant.tsx:45 | text starting with a non-space is kept by TrimStart |
| JsText.TrimEndOfTrimmed | mobile/components/ChatAssistant.tsx:45 | text ending with a non-space is kept by TrimEnd |
| JsText.TrimIdempotent | mobile/components/ChatAssistant.tsx:50 | trimming twice is trimming once, so the text sent equals the message shown |
| JsText.LeadingDigits | mobile/app/signup.tsx:61 | the maximal run of digits at the start |
| JsText.ParseInt | mobile/app/signup.tsx:61-63 | NaN exactly when, past leading whitespace and one sign, no digit follows |
| JsText.ParseSigned | mobile/app/signup.tsx:61-63 | NaN exactly when, past one sign, no digit follows |
| JsText.DigitsValueOfNat | mobile/app/signup.tsx:61 | the digits of a rendered number read back as that number |
| JsText.LeadingDigitsOfDigits | mobile/app/signup.tsx:61 | digits followed by a non-digit are taken exactly |
| JsText.NoSpaceBeforeDigit | mobile/app/signup.tsx:61 | text starting with a digit or "-" has no leading whitespace |
| JsText.ParseIntUnsigned | mobile/app/signup.tsx:61 | leading digits parse to their value |
| JsText.ParseIntNegative | mobile/app/signup.tsx:61 | "-" and digits parse to the negated value |
| JsText.ParseIntOfDigits | mobile/app/signup.tsx:61 | digits followed by any non-digit text parse to their value |
| JsText.ParseIntOfNegative | mobile/app/signup.tsx:61 | "-", digits and non-digit text parse to the negated value |
| JsText.ParseIntOfDecimal | mobile/app/signup.tsx:61 | `parseInt(String(n) + rest, 10) == n` when rest does not start with a digit |
| JsText.TrimStartSkipsSpace | mobile/app/signup.tsx:61 | leading whitespace does not change TrimStart |
| JsText.ParseIntSkipsSpace | mobile/app/signup.tsx:61 | leading whitespace does not change the parse |
| ScreenAlert.FailureMessage | mobile/app/login.tsx:58-60 | the server's detail when truthy, else the screen's text |
| ScreenAlert.FailureAlert | mobile/app/login.tsx:55-62 | a visible error alert with the title and that message |
| LoginScreen.Login.constructor | mobile/app/login.tsx:21-34 | empty fields, not loading, the alert hidden |
| LoginScreen.Login.TypeEmail | mobile/app/login.tsx:81 | sets the email only |
| LoginScreen.Login.TypePassword | mobile/app/login.tsx:89 | sets the password only |
| LoginScreen.Login.HandleLogin | mobile/app/login.tsx:36-66 | an empty field gives the warning, sends nothing and leaves loading; otherwise sends {username: email, password}, shows the detail or "Invalid credentials…" on failure, goes home only after signIn returns, and ends not loading; after an issued token the session's token and user, the client's header and the stored items are exactly what signIn leaves (`SignedIn`): unchanged on a failed write, the fetched profile and bearer header on success, signed out after a failed fetch |
| LoginScreen.ScreenCheckMatchesRoute | mobile/app/login.tsx:37 | the screen holds back exactly the requests the login route would refuse as missing a field |
| SignupScreen.Form.With | mobile/app/signup.tsx:99-143 | one field changes, the others keep their text |
| SignupScreen.CompleteIffNoneEmpty | mobile/app/signup.tsx:45 | the check passes exactly when no field is empty |
| SignupScreen.NumberValue | mobile/app/signup.tsx:61-63 | `parseInt(text, 10)` as sent: the number, or null for NaN |
| SignupScreen.DecimalSentAsNumber | mobile/app/signup.tsx:61-63 | a typed decimal, even followed by text, is sent as that number |
| SignupScreen.Signup.constructor | mobile/app/signup.tsx:22-42 | empty fields; pickers on maintain, balanced and moderate |
| SignupScreen.Signup.Body | mobile/app/signup.tsx:57-67 | the body's fields, with the numbers parsed and the level under activity_level |
| SignupScreen.Signup.Type | mobile/app/signup.tsx:99-143 | one field changes, nothing else |
| SignupScreen.Signup.PickGoal | mobile/app/signup.tsx:148-166 | sets the goal to a picker value |
| SignupScreen.Signup.PickDiet | mobile/app/signup.tsx:170-188 | sets the diet to a picker value |
| SignupScreen.Signup.PickActivityLevel | mobile/app/signup.tsx:192-210 | sets the activity level to a picker value |
| SignupScreen.Signup.Submit | mobile/app/signup.tsx:68-81 | after the post: home after signIn returns, else the detail or "Unable to create account…"; after an issued token the token, user, header and stored items are exactly what signIn leaves (`SignedIn`); the pickers stay valid |
| SignupScreen.Signup.HandleSignup | mobile/app/signup.tsx:44-85 | an empty field gives the warning and sends nothing; otherwise sends the form's body, handles the outcome as Submit, including what signIn leaves in the session, header and store (`SignedIn`), and ends not loading; the form and pickers are kept |
| SignupScreen.BodyChoicesArePickerValues | mobile/app/signup.tsx:28-30 | every body names picker values and sends numbers or null |

## Left out

- LLM calls, `json.loads`, bcrypt, JWT encoding and the MinIO client are parameters of the model, not modelled code (foreign libraries and network). The same goes for `generate_content` and `files.upload`.
- The wall clock (`datetime.utcnow`, `Date.now`) is a parameter.
- TDEE's float multiplication and `int()` are an abstract function. Properties that hold whatever the rounding are stated; exact values are not.
- SQLAlchemy sessions are in-memory sequences. Concurrent requests, commits and refreshes are not modelled.
- The startup configuration checks of upload.py and auth.py, and the bucket creation, are not modelled; they are I/O at import time. `UploadImage` requires a configured store, as that route is only reached when the client was built.
- The upload's temporary file and its deletion are not modelled; they are local file I/O.
- `/auth/me` returns the caller and is not modelled separately.
- AuthRoutes.RegisterUser: its `req` stands for the `UserCreate` pydantic has already validated. Its email is declared `EmailStr` (backend/app/schemas/user.py:5), so an invalid address is a 422 before the handler runs, and a valid one arrives normalized: surrounding whitespace stripped and the domain lowercased. The model takes the email as given and does not model that validation or normalization. Login (backend/app/routes/auth.py:93) compares the raw `username` field with the stored, normalized email, so in the source registering "ann@Gmail.COM" and then logging in with that same text is a 401.
- The other schemas declare plain field types, which the model's datatypes carry. main.py, the presentation components, welcome.tsx and the layouts are not part of this model: they wire routes and draw views.
- A password holding a lone surrogate (the JSON string "\ud800", which `json.loads` accepts) makes `password.encode("utf-8")` (backend/app/auth_utils.py:30) or passlib in `verify_password` (:26) raise, and the request ends in a 500. Dafny's `char` cannot hold a surrogate, so this path is not modelled.
- Asynchrony is not modelled. Each async handler is one sequential method, so the `loading` flag while a request is in flight cannot be observed. Only its value before and after is stated.
- React re-renders, effects and stale closures are not modelled, apart from the history slice taken before the send. The `I18nManager` restart is not modelled either.
- Logging (`print`, `console.*`) is not modelled.
- LoginScreen.Login.HandleLogin: a success response without `access_token` is not modelled. The server's answer is either a token or an error.
- SignupScreen.Signup.HandleSignup: a success response without `access_token` is not modelled, for the same reason.
- ChatPanel.ErrorTextAfterInterceptor: the timeout case is not stated. It would need to show that the interceptor's timeout text does not contain "Cannot connect". `ErrorText`'s own contract covers that case given an arbitrary message.
- ChatPanel.Message: `timestamp` is not modelled; only ids derived from the clock are.
- JsText.ParseInt: models base 10 only, the only base the screens use. The number is unbounded, not a double.
- AuthRoutes.Login: the credentials are modelled as optional strings. A non-string JSON value in the request body, which the source passes on to the query and to passlib, is not modelled.
- Chat: a reply whose `.text` is `None` is not modelled. `ModelOutcome.Replied` always carries a string, so the `None` that `generate_content` can give for a blocked reply is not represented here or in the other routes that ask models.
- Translations: the tables are sequences of entries, one list per commented section, rather than one object literal.

## Findings

| source | as written | input that shows it | evidently intended | confidence | as-written member | corrected member |
|---|---|---|---|---|---|---|
| backend/app/routes/plan.py:362-366 | the `HTTPException(500, "Unable to generate recipe. Please try again.")` raised inside the `try` is caught by `except Exception` and replaced with "Recipe generation failed" | truthy ingredients and no model reply that parses | the client receives "Unable to generate recipe. Please try again." | not executed | Plan.RecipeDetailSwallowed | Plan.GenerateRecipeIntended |

# Jainn AI — a Dafny model of the chat client's handlers

Jainn AI is a React chat client. A user signs in by e-mail, by Google or as a
guest, and chats with one model (Gemini, LLaMA or Mistral). A paid user can
also ask all three models at once ("multi-agent mode") and crown a winning
answer. The client also accepts file attachments, generates images, offers a
checkout with coupon codes, keeps a sidebar of saved chat sessions, and lets
the user edit their profile.

Almost all of this is markup around hosted services. This project models the
decision logic inside the handlers, as sequential state machines and pure
functions:

- every network, SDK, storage, timer and browser-dialog call is an outcome
  passed in as a parameter;
- a component's state is a Dafny `class` whose methods are the handlers;
- each method's `ensures` gives the whole new state;
- pure computations (prices, initials, request shapes, reply texts) are
  functions, with lemmas stating what the code promises about them.

| file | module | models |
|---|---|---|
| `wrappers.dfy` | `Wrappers` | `Option` and `Result` |
| `text.dfy` | `Text` | the JavaScript string operations the handlers use (`trim` over the full JavaScript white-space set, ASCII case mapping, `startsWith`, `includes`, `split`, `substring`, `length` in UTF-16 code units), and string truthiness |
| `types.dfy` | `Types` | `types.ts`: tiers, modes, models, the user, message and session records |
| `gemini.dfy` | `Gemini` | `services/gemini.ts`: routing, request shaping, reply normalisation, the referee prompt, image generation with its fallback |
| `chat.dfy` | `Chat` | `pages/ChatPage.tsx`: mode switch, the send gates and replies, winner selection, feature locks |
| `payment.dfy` | `Payment` | `pages/PaymentPage.tsx`: coupons, prices in paise, GST, the free branch of payment |
| `upload.dfy` | `Upload` | `components/FileUpload.tsx`: the bounded attachment list |
| `auth.dfy` | `Auth` | `pages/AuthPage.tsx`: password strength, the e-mail form, the signed-in and guest user records |
| `profile.dfy` | `Profile` | `components/ProfileSettings.tsx`: the edit form, initials, usage caps |
| `app.dfy` | `App` | `App.tsx`: theme, start-up route, session and profile load, guest restore, login, logout, render guard |
| `history.dfy` | `History` | `lib/chatHistory.tsx`: the session list with rename and delete |
| `callback.dfy` | `Callback` | `pages/AuthCallback.tsx` and the older root `AuthCallback.tsx` |

Where a handler awaits and other handlers may run in between, it is split in
two methods at the `await`: `Chat.ChatPage.BeginSend` / `CompleteSend`,
`History.ChatHistory.BeginDelete` / `CompleteDelete`, and
`Upload.Attachments.BeginFileSelect` / `CompleteFileSelect`. The file picker
is disabled while files are read, but clear-all and remove stay enabled; the
read then stores the list it began from followed by the new files, so a file
removed or cleared in between comes back. `Promise.all` is an
order-preserving map over given per-model or per-file outcomes. `setTimeout`
is an immediate transition; a scheduled redirect is recorded together with
its delay.

Where the written description of the system and the code disagree, the model
follows the code:

- the referee is handed every model's answer, failed ones included, not only
  the successful ones;
- image generation falls back to the second model whenever the first one
  throws, whatever the error;
- `initializeAuth` in `App.tsx` restores a saved guest even over a signed-in
  session user. Its "no user yet" test reads the `user` captured when the
  page mounted, and that is always null. `App.AppState.InitializeAuth`
  states this outright.

## Model

| member | source | states |
|---|---|---|
| `Types.TierFromTag` | types.ts:1-6 | a tier tag is recognised exactly when it is one of free, pro, ultra, guest, and the recognised tier's tag is the text read |
| `Types.ModelLabelInjective` | types.ts:13-17 | distinct models have distinct non-empty upper-cased panel labels, which winner matching relies on |
| `Types.ModelLabels` | types.ts:13-17 | the panel labels are GEMINI, LLAMA and MISTRAL |
| `Text.Trim` | lib/chatHistory.tsx:41 | the trimmed text is a slice of the input with only white space cut at either end, none left at either end, and it is empty exactly for a blank input |
| `Text.Utf16Length` | pages/AuthPage.tsx:78 | a text's `length` counts one unit per character of the Basic Multilingual Plane and two per other character, so it lies between the character count and twice that |
| `Text.Utf16LengthBmp` | pages/AuthPage.tsx:78 | a text of Basic Multilingual Plane characters has its character count as `length` |
| `Text.Utf16LengthAstral` | pages/AuthPage.tsx:78 | a text of characters beyond that plane (emoji) has twice its character count as `length` |
| `Gemini.OpenRouterModel` | services/gemini.ts:12-15 | a model has an OpenRouter model id exactly when it is not Gemini (the ids themselves are fixed by `RespondRouting`) |
| `Gemini.GeminiContents` | services/gemini.ts:84-97 | the contents start with the prompt's text part, followed by at most one inline-data part per file, each with non-empty data |
| `Gemini.InlinePartsAppend` | services/gemini.ts:86-96 | the file parts of a concatenation are the parts of each half in order, so file order is kept |
| `Gemini.InlinePartsShape` | services/gemini.ts:86-96 | there is no more than one inline part per file, each one inline data with non-empty base64 |
| `Gemini.BuildContents` | services/gemini.ts:84-97 | the `forEach`/`push` loop builds exactly the contents specified by `GeminiContents` |
| `Gemini.OpenRouterMessages` | services/gemini.ts:46-49 | the message list has a system message first exactly when an instruction is given, and always ends with the one user message |
| `Gemini.CallOpenRouter` | services/gemini.ts:21-66 | a missing key or an unmapped model gives an error without any request; otherwise one request with the bearer key, the mapped model and the messages; failures carry a non-empty message and answers are non-empty |
| `Gemini.GenerateResponse` | services/gemini.ts:71-128 | the try/catch procedure sends what `Respond` sends and returns its reply text, so it never throws |
| `Gemini.RespondRouting` | services/gemini.ts:78-116 | Gemini goes to the SDK model gemini-2.5-flash, LLaMA and Mistral to OpenRouter with their mapped ids, and nothing is sent exactly when the model's key is missing |
| `Gemini.DefaultInstructionUsed` | services/gemini.ts:103-114 | with no instruction each model gets its own default one, as the SDK system instruction or as the first OpenRouter message |
| `Gemini.MissingKeyWarns` | services/gemini.ts:21-128 | a missing key sends nothing and the reply is the warning line naming the missing variable |
| `Gemini.ReplyTextShape` | services/gemini.ts:120-127 | the reply text is never empty; an answer passes through unchanged and a failure becomes a warning or an error line |
| `Gemini.AnswerPassesThrough` | services/gemini.ts:60-107 | a model's answer reaches the caller verbatim, and an empty answer becomes "No response generated." |
| `Gemini.StatusReported` | services/gemini.ts:55-58 | an HTTP error without a message is reported with its status code |
| `Gemini.ResponseBlocks` | services/gemini.ts:142-155 | there is one "[model]: text" block per answer, in input order |
| `Gemini.RefereePromptListsAnswers` | services/gemini.ts:142-155 | each answer's block appears in the referee prompt at its offset, in input order |
| `Gemini.RefereePromptSeparatesAnswers` | services/gemini.ts:142-155 | consecutive blocks in the referee prompt are separated by a blank line |
| `Gemini.RefereeAnalysis` | services/gemini.ts:133-166 | with no key, nothing is sent and the reply is "Referee unavailable (No API Key)."; otherwise the prompt is sent, and a throw gives "Referee system offline." and an empty answer its fallback text |
| `Gemini.DataUrl` | services/gemini.ts:195-224 | image bytes become "data:image/jpeg;base64," followed by the bytes, and no bytes give null |
| `Gemini.ImageAttempts` | services/gemini.ts:172-217 | with a key the primary model is tried first, and the fallback model is tried once, only when the primary throws |
| `Gemini.ImageResult` | services/gemini.ts:172-229 | a missing key is an error; returned primary bytes are the result; when the primary throws, the fallback's bytes become the data URL, and a fallback throw surfaces its message (or the generic failure text when it has none); an error occurs only when the key is missing or both models throw |
| `Gemini.GenerateImage` | services/gemini.ts:172-229 | the procedure with its mutable `imageUrl` makes exactly the attempts of `ImageAttempts` and returns `ImageResult` |
| `Chat.SendGateDecides` | pages/ChatPage.tsx:130-152 | the gates run in order: blank or typing is ignored; a guest with at least ten messages, replies counted, is refused; an image command is refused outside single mode or for a model other than Gemini; anything else is accepted as an image, single or multi job |
| `Chat.AgentResponses` | pages/ChatPage.tsx:193-199 | there are three responses, in the fixed Gemini, LLaMA, Mistral order, whatever order they complete in |
| `Chat.AskAgents` | pages/ChatPage.tsx:193-199 | the sequential stand-in for `Promise.all` yields exactly `AgentResponses` |
| `Chat.Panels` | pages/ChatPage.tsx:201-205 | there is one panel per response, in order |
| `Chat.MultiReplyPanels` | pages/ChatPage.tsx:193-215 | a multi-agent reply has exactly three panels labelled GEMINI, LLAMA, MISTRAL in order, none a winner, each holding its model's non-empty text |
| `Chat.ReplyKinds` | pages/ChatPage.tsx:165-231 | the generic error reply comes exactly when an image job produced no image; a single reply carries its model's label and non-empty text; an image reply is a data URL |
| `Chat.OnlyImagesFail` | pages/ChatPage.tsx:181-231 | single and multi sends never end in the error reply, because model failures become text |
| `Chat.AwaitReply` | pages/ChatPage.tsx:165-231 | the awaited part of the send produces `ReplyMessage` and the referee verdict `RefereeOf` |
| `Chat.RefereeOf` | pages/ChatPage.tsx:217-219 | the detached referee call is made exactly for multi-agent turns |
| `Chat.Crown` | pages/ChatPage.tsx:240-244 | panels keep label and content, and `isWinner` becomes true exactly for the panels with the chosen label |
| `Chat.SelectWinner` | pages/ChatPage.tsx:235-249 | only messages with the id that have panels change: they record the winner and crown their panels; the length and all other messages stay |
| `Chat.RawSelectionOverwrites` | pages/ChatPage.tsx:235-249 | the raw handler does not keep a first choice: selecting again overwrites it |
| `Chat.ClickWinner` | pages/ChatPage.tsx:462-464 | a click on the winner button of a message that already has a winner changes nothing; otherwise a multi-agent message records the clicked model, messages with other ids stay and the length is kept |
| `Chat.FirstSelectionFinal` | pages/ChatPage.tsx:464 | with the winner button disabled after a selection, the first selection is final |
| `Chat.WinnerUnique` | pages/ChatPage.tsx:201-244 | choosing a model's label crowns exactly that model's panel of a multi-agent reply |
| `Chat.MultiModeGates` | pages/ChatPage.tsx:272-280 | multi-agent is locked for free users and guests, the custom theme for all but Ultra, and nothing else is locked; the mode handler's refusal of free users agrees with the lock |
| `Chat.ChatPage.constructor` | pages/ChatPage.tsx:20-40 | the page starts with empty input, single mode, Gemini, no messages, not typing |
| `Chat.ChatPage.SetInput` | pages/ChatPage.tsx:526 | typing sets the input and nothing else changes |
| `Chat.ChatPage.SetModel` | pages/ChatPage.tsx:401-403 | the model menu sets the current model and nothing else changes |
| `Chat.ChatPage.CloseNotice` | pages/ChatPage.tsx:292 | closing the notice removes it and nothing else changes |
| `Chat.ChatPage.ModeSwitch` | pages/ChatPage.tsx:79-93 | free to multi is refused with the upgrade warning and nothing else changes; a permitted switch to a different mode sets it and clears the messages; switching to the current mode changes nothing |
| `Chat.ChatPage.BeginSend` | pages/ChatPage.tsx:130-163 | an ignored or refused send changes nothing but the notice; an accepted one appends the user message, clears the input and sets typing |
| `Chat.ChatPage.CompleteSend` | pages/ChatPage.tsx:165-232 | exactly one reply is appended and typing is cleared; the verdict is only returned, never stored |
| `Chat.ChatPage.Send` | pages/ChatPage.tsx:130-233 | an accepted send grows the conversation by the user message and exactly one reply and ends with typing off; a refused send appends nothing |
| `Chat.ChatPage.SelectWinnerOf` | pages/ChatPage.tsx:235-249 | the page's messages become `SelectWinner` of the old ones, and nothing else changes |
| `Payment.CodeNormalisation` | pages/PaymentPage.tsx:70 | the typed code is read upper-cased and trimmed, so " jainn50 " finds JAINN50 |
| `Payment.FinalPrice` | pages/PaymentPage.tsx:93-103 | the final price never exceeds the plan price, and with no coupon it is the plan price |
| `Payment.Savings` | pages/PaymentPage.tsx:106 | savings and final price add up to the plan price |
| `Payment.Gst` | pages/PaymentPage.tsx:107 | GST is 18% of the amount rounded down |
| `Payment.Total` | pages/PaymentPage.tsx:108 | the total is at least the final price |
| `Payment.FreeExactlyWithFullDiscount` | pages/PaymentPage.tsx:23-109 | the checkout is free exactly with EARLY100 or FREEPRO, and then final price and GST are zero and the savings the whole price |
| `Payment.HalfPricePro` | pages/PaymentPage.tsx:23-108 | JAINN50 on Pro gives 9950 paise, 1791 GST and a total of 11741 |
| `Payment.NoCouponTotal` | pages/PaymentPage.tsx:93-109 | without a coupon the total is price plus its GST, and never free |
| `Payment.Checkout.constructor` | pages/PaymentPage.tsx:17-21 | the page starts on the given plan with no code, coupon, error or processing, and keeps its invariant |
| `Payment.Checkout.TypeCouponCode` | pages/PaymentPage.tsx:276 | the code field holds the typed text upper-cased, and nothing else changes |
| `Payment.Checkout.PickSuggestedCode` | pages/PaymentPage.tsx:293-296 | a suggested code fills the code field, and nothing else changes |
| `Payment.Checkout.ApplyCoupon` | pages/PaymentPage.tsx:68-85 | an empty or unknown code sets its error and keeps the applied coupon; a known code is applied with the table's discount and kind and clears the error; the coupon stays a table entry |
| `Payment.Checkout.RemoveCoupon` | pages/PaymentPage.tsx:87-91 | coupon, code and error are cleared |
| `Payment.Checkout.SelectPlan` | pages/PaymentPage.tsx:208-211 | choosing a plan selects it and clears the applied coupon and the code |
| `Payment.Checkout.HandlePayment` | pages/PaymentPage.tsx:111-120 | a free checkout reports success with wasFree and never reaches the gateway; otherwise the gateway is started for the positive total |
| `Upload.Base64Of` | components/FileUpload.tsx:68 | there is a base64 text exactly when the data URL has a comma, and it is the text between the first comma and the next one (or the end) |
| `Upload.Processed` | components/FileUpload.tsx:60-83 | a successful read of a selection yields one entry per file |
| `Upload.ProcessedAllOrNothing` | components/FileUpload.tsx:60-91 | the read succeeds exactly when every file is read, and then entry k is file k's upload, in selection order |
| `Upload.ReadAll` | components/FileUpload.tsx:60-83 | the read loop, stopping at the first failure, yields exactly `Processed` |
| `Upload.ProcessedSplit` | components/FileUpload.tsx:60-83 | a failed read of any file fails the whole selection, and a successful one extends the prefix's result |
| `Upload.ProcessedSnoc` | components/FileUpload.tsx:60-83 | reading one more file that succeeds appends its upload to the result |
| `Upload.WithoutId` | components/FileUpload.tsx:102 | the filter keeps exactly the entries with another id and never lengthens the list |
| `Upload.WithoutIdIdempotent` | components/FileUpload.tsx:97-105 | removing the same id twice is removing it once |
| `Upload.WithoutIdAppend` | components/FileUpload.tsx:102 | the filter keeps the order of the list, part by part |
| `Upload.IconFor` | components/FileUpload.tsx:28-40 | image types get the image icon; other types containing pdf or document get the document icon |
| `Upload.FormatFileSize` | components/FileUpload.tsx:42-46 | below 1024 the size is the byte count followed by " B"; above, KB below one megabyte and MB beyond |
| `Upload.SmallFileLabel` | components/FileUpload.tsx:43 | 512 bytes read "512 B" |
| `Upload.Attachments.constructor` | components/FileUpload.tsx:21-25 | the list starts empty and within the limit |
| `Upload.Attachments.PickerEnabled` | components/FileUpload.tsx:122-127 | the picker is closed while disabled or reading, and at the file limit; when it is open the list has room for one more file |
| `Upload.Attachments.BeginFileSelect` | components/FileUpload.tsx:48-60 | an empty selection changes nothing; one over the limit is refused whole with an alert; otherwise processing starts, remembering the list as it is now and the picked files, within the limit |
| `Upload.Attachments.CompleteFileSelect` | components/FileUpload.tsx:60-94 | a successful read stores and reports the remembered list followed by the new files in order, whatever was removed meanwhile; a failed read adds an alert; processing ends either way |
| `Upload.Attachments.FileSelect` | components/FileUpload.tsx:48-95 | an empty selection changes nothing; one over the limit is refused whole with an alert; otherwise all files are appended in order and the new list reported, or on a failed read the list stays and an alert is shown; the limit is kept |
| `Upload.Attachments.RemoveFile` | components/FileUpload.tsx:97-105 | the list loses exactly the entries with the id and the new list is reported |
| `Upload.Attachments.ClearAll` | components/FileUpload.tsx:107-111 | the list is emptied and the empty list is reported |
| `Auth.MetCount` | pages/AuthPage.tsx:76-82 | the count is at most the number of criteria, is full exactly when all are met, and zero exactly when none is |
| `Auth.StrengthSum` | pages/AuthPage.tsx:76-82 | strength is one point each for length over 7, an A-Z letter, a digit and a non-alphanumeric character |
| `Auth.TestClass` | pages/AuthPage.tsx:78-80 | the regular-expression test finds a character of the class exactly when the password has one |
| `Auth.PasswordStrength` | pages/AuthPage.tsx:75-82 | the counter procedure computes the strength, which is at most 4 |
| `Auth.StrengthExtremes` | pages/AuthPage.tsx:75-82 | strength is 4 exactly when all four criteria are met, and 0 exactly when none is |
| `Auth.StrongExample` | pages/AuthPage.tsx:75-82 | "Passw0rd!" scores 4 |
| `Auth.WeakExample` | pages/AuthPage.tsx:75-82 | "password" scores 1 |
| `Auth.AstralPasswordLength` | pages/AuthPage.tsx:78 | four emoji count as length 8 and so meet the length rule |
| `Auth.AccountDisplayName` | pages/AuthPage.tsx:161 | the display name is the e-mail before '@', or "User" when that is empty or missing |
| `Auth.SignedInUser` | pages/AuthPage.tsx:154-162 | a signed-in user is FREE with zero counters, #3B82F6, no avatar and a non-empty display name |
| `Auth.GuestUser` | pages/AuthPage.tsx:201-210 | a guest has id "guest_" followed by the timestamp, tier GUEST, e-mail guest@jainn.ai, zero counters and the name "Guest User" |
| `Auth.GuestIdsDiffer` | pages/AuthPage.tsx:203 | guests created at different times get different ids |
| `Text.NatToStringInjective` | pages/AuthPage.tsx:203 | distinct timestamps have distinct decimal texts |
| `Auth.AuthForm.constructor` | pages/AuthPage.tsx:58-68 | the form starts in login mode with empty fields, no error, no modal |
| `Auth.AuthForm.SetEmail` | pages/AuthPage.tsx:279 | typing sets the e-mail and nothing else changes |
| `Auth.AuthForm.SetPasswords` | pages/AuthPage.tsx:294-331 | typing sets the password and its confirmation and nothing else changes |
| `Auth.AuthForm.SwitchMode` | pages/AuthPage.tsx:86-95 | switching mode clears the error, the password and its confirmation, and keeps the e-mail |
| `Auth.AuthForm.CloseModal` | pages/AuthPage.tsx:219 | the modal is closed and nothing else changes |
| `Auth.AuthForm.EmailAuth` | pages/AuthPage.tsx:102-171 | no client sets its error and makes no call; on sign-up a mismatch is reported before the length rule, and neither makes a call; a successful sign-up returns to login mode with the e-mail notice; a sign-in logs in the signed-in user; a thrown error's message becomes the error; loading is over at the end |
| `Auth.AuthForm.GoogleAuth` | pages/AuthPage.tsx:174-199 | no client sets its error and makes no call; a failure shows its message or the fallback; a started redirect keeps loading |
| `Profile.NameInitialsAsWritten` | components/ProfileSettings.tsx:47-52 | a name without a space gives its first two characters upper-cased |
| `Profile.TrailingSpaceAsWritten` | components/ProfileSettings.tsx:47-50 | one word followed by a space gives its first letter followed by UNDEFINED, ten characters |
| `Profile.LoneSpaceAsWritten` | components/ProfileSettings.tsx:47-50 | a name of one space throws |
| `Profile.NameInitials` | components/ProfileSettings.tsx:46-58 | the corrected initials have at most two characters, exactly two for a name of two words or more, and are never empty for a name that is not blank |
| `Profile.InitialsCorrectionAgrees` | components/ProfileSettings.tsx:47-50 | whenever the first two parts of the split are non-empty, the code as written and the corrected function agree |
| `Profile.TwoWordInitials` | components/ProfileSettings.tsx:47-50 | a name starting with two words separated by one space, and ending there or going on after a space, gives the two first letters upper-cased, as written and corrected |
| `Profile.SpacedWordInitials` | components/ProfileSettings.tsx:47-50 | the corrected initials are the first letters of the first two words whatever spaces lead or separate them |
| `Profile.TrailingSpaceCorrected` | components/ProfileSettings.tsx:52 | the corrected function reads one word and a trailing space as that one word |
| `Profile.UserInitials` | components/ProfileSettings.tsx:46-58 | a profile name, when present, gives its (corrected) name initials; otherwise the display name's, then the e-mail's first two characters, upper-cased; never more than two |
| `Profile.InitialEditName` | components/ProfileSettings.tsx:13 | the edit box starts from the display name, or else the e-mail before '@' |
| `Profile.CapsRiseWithTier` | components/ProfileSettings.tsx:209-224 | the caps are 5,000/3 for free, 50,000/20 for pro, unlimited/30 for ultra and limited/0 for guests: only guests get no images, and only Ultra has no token cap |
| `Profile.ProfileEditor.constructor` | components/ProfileSettings.tsx:12-15 | the form starts out of edit mode with the initial edit name and the user's colour |
| `Profile.ProfileEditor.StartEdit` | components/ProfileSettings.tsx:106 | the edit button enters edit mode and keeps the name, colour and saving flag |
| `Profile.ProfileEditor.TypeName` | components/ProfileSettings.tsx:141 | typing sets the edited name and nothing else changes |
| `Profile.ProfileEditor.PickColor` | components/ProfileSettings.tsx:152-156 | a palette colour becomes the selected one |
| `Profile.ProfileEditor.Save` | components/ProfileSettings.tsx:28-38 | the edited name and colour are handed over; edit mode ends only on success, and saving is over either way |
| `Profile.ProfileEditor.Cancel` | components/ProfileSettings.tsx:40-44 | name and colour return to the user's and edit mode ends |
| `App.DarkFromStored` | App.tsx:57-63 | the theme is light exactly when "light" is stored |
| `App.ThemeRoundTrip` | App.tsx:179-188 | a stored theme reads back as the theme that was stored |
| `App.DefaultProfile` | App.tsx:150-161 | a first-time profile is free with zero counters, #3B82F6, and as name the e-mail up to (not including) its first '@', the whole e-mail when it has none |
| `App.UserOf` | App.tsx:163-171 | a profile row becomes a user with the same fields and no avatar |
| `App.ProfileRoundTrip` | App.tsx:163-171 | the mapping between rows and users is one-to-one |
| `App.DefaultProfileMatchesSignIn` | App.tsx:150-171 | a created profile loads as the same user record that the sign-in form builds |
| `App.AppState.Render` | App.tsx:229-298 | the chat page is shown exactly when the page is chat, loading and boot are over, and there is a user; the fallback exactly when there is no user |
| `App.AppState.Startup` | App.tsx:57-73 | the stored light theme turns dark off; the callback path or an access token in the hash opens the callback page and skips the session check |
| `App.AppState.LoadUserProfile` | App.tsx:146-176 | the fetched profile, or else the created default one, becomes the user; with neither the user is kept |
| `App.AppState.InitializeAuth` | App.tsx:79-142 | a session user's profile is loaded and chat opened; a saved guest is then restored and chat opened, even over the session user; an unparseable entry is removed; with a session but neither a fetched nor a created profile the user stays as it was (none at mount, so the no-session fallback shows); loading is over |
| `App.AppState.ToggleTheme` | App.tsx:179-188 | the theme flips and the matching tag is stored, so two toggles restore the theme |
| `App.AppState.Login` | App.tsx:190-198 | the user is set and the chat page renders once loading is over |
| `App.AppState.Logout` | App.tsx:200-217 | whether or not sign-out fails, the saved user and the user are gone and the landing page shows |
| `App.AppState.Navigate` | App.tsx:219-222 | the page is set and nothing else changes |
| `App.AppState.UpdateUser` | App.tsx:224-226 | the user is replaced and nothing else changes |
| `History.ChatHistory.constructor` | lib/chatHistory.tsx:13-17 | the sidebar starts loading with no sessions and no edit or delete in progress |
| `History.ChatHistory.LoadSessions` | lib/chatHistory.tsx:23-33 | sessions are replaced only by a successful load, and loading is over either way |
| `History.ChatHistory.TypeTitle` | lib/chatHistory.tsx:108 | typing sets the edited title and nothing else changes |
| `History.ChatHistory.StartEdit` | lib/chatHistory.tsx:35-38 | the edit state takes the session's id and title |
| `History.ChatHistory.SaveEdit` | lib/chatHistory.tsx:40-52 | a blank title does nothing; otherwise the trimmed title is sent, and a success reloads and clears the edit state while a failure alerts and keeps it |
| `History.ChatHistory.CancelEdit` | lib/chatHistory.tsx:54-57 | the edit state is cleared |
| `History.ChatHistory.DeleteDisabled` | lib/chatHistory.tsx:162 | a row's delete button is disabled only while that row is being deleted, so never two at once and none when nothing is |
| `History.ChatHistory.BeginDelete` | lib/chatHistory.tsx:59-64 | a declined confirmation deletes nothing; a confirmed one marks the session, whose button is then disabled |
| `History.ChatHistory.CompleteDelete` | lib/chatHistory.tsx:64-74 | a success reloads, a failure alerts, and no session is being deleted afterwards |
| `Callback.LiveSessionRequest` | pages/AuthCallback.tsx:14-46 | the live page sets a session exactly with a client, no error parameter and both tokens |
| `Callback.RootSessionRequest` | AuthCallback.tsx:23-36 | the root page sets a session with no error parameter and an access token alone, the refresh token defaulting to empty |
| `Callback.TokenRulesCompared` | AuthCallback.tsx:31-36 | whenever the live page sets a session the root page sets the same one, and only the root page accepts a missing refresh token |
| `Callback.CallbackPage.HandleCallback` | pages/AuthCallback.tsx:14-71 | no client, then an error parameter, then the tokens decide, with the messages of each case; every path schedules one redirect home |
| `Callback.RootCallbackPage.Mount` | AuthCallback.tsx:23-74 | an error parameter decides first; an access token alone sets the session; a missing client becomes the unexpected error; every path redirects home, and the fallback is scheduled |
| `Callback.RootCallbackPage.Unmount` | AuthCallback.tsx:74 | leaving the page cancels the fallback redirect |
| `Callback.RootCallbackPage.FallbackFires` | AuthCallback.tsx:68-71 | the fallback redirects home after ten seconds |

## Left out

- Markup, styling and animation, and the purely presentational files (landing, policy and payment-success pages, modal, button, logo, entry point, message actions).
- Network and SDK calls (OpenRouter, the Gemini SDK, Supabase, Razorpay loading and checkout): their results are parameters.
- Browser services (local storage beyond the two entries `App.AppState` keeps, `window.location`, object URLs, `FileReader`, `confirm`, `alert` beyond the recorded alert texts) are parameters or recorded values.
- Concurrency: `Promise.all` is a sequential order-preserving map, the `Promise.race` time-out of the session check is the `CheckFailed` outcome, and the detached referee call returns a verdict that changes no state.
- Timers: every `setTimeout` is an immediate transition; redirects record their delay.
- `Date.now()` and random ids: timestamps are `nat` parameters; a file's id and object URL come with the result of its read (`ReadResult`), since the code makes them while reading the file; uniqueness is not guaranteed by the source and is not modelled.
- Unicode case mapping: `Text.Upper` and `Text.Lower` map ASCII letters only.
- Profile.NameInitials: `substring(0, 2)` and `[0]` count UTF-16 code units in the code, and the model takes characters; they differ only for characters beyond the Basic Multilingual Plane, where the code can cut a surrogate pair in half. The password length rule does count code units (`Text.Utf16Length`).
- Profile.UserInitials: the display-name and e-mail branches take two characters where the code takes two UTF-16 code units, as for `Profile.NameInitials`.
- Floating point: GST is stated as an integer floor of 18% of the amount in paise, standing for `Math.floor(finalPrice * 0.18)`. `toFixed` display strings are not modelled.
- Upload.FormatFileSize: for sizes from 1024 bytes up it states only the unit, because the one-decimal `toFixed` text is floating point.
- Parsing of the callback URL fragment (`URLSearchParams`): the parameters are given already parsed.
- The `tier` column of a profile row is taken to be a valid tier tag; the cast of an unknown text is not modelled.
- The guest entry that `handleGuest` writes to local storage is not modelled on the form; `App.RestoresGuest` reads such an entry.
- `handleSaveProfile` on the chat page, the profile load on the chat page and the settings tabs are not modelled; the profile name the initials use is a parameter.
- The module-level `useState` call at the top of the chat page is an invalid hook call outside the component and is ignored.
- Chat.ChatPage.ModeSwitch: the upgrade notice is modelled as the notice shown; the modal's open flag and its separate fields are one `Option<Notice>`.

## Findings

| source | as written | input that shows it | evidently intended | confidence | as-written member | corrected member |
|---|---|---|---|---|---|---|
| components/ProfileSettings.tsx:47-50 (the same code at pages/ChatPage.tsx:253-257) | `name.split(' ')` keeps empty words, and `names[k][0]` of an empty word is `undefined`, which concatenates as the text "undefined"; two empty words add up to `NaN`, whose `toUpperCase` throws | the profile name "Ann " gives "AUNDEFINED"; the name " " throws | the first letters of the first two words, or the first two characters of a single word | not executed | `Profile.TrailingSpaceAsWritten` (and `Profile.LoneSpaceAsWritten`) | `Profile.NameInitials` (with `Profile.TrailingSpaceCorrected`) |

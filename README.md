# YouTube Virtual Manager — a Dafny model of its core

YouTube Virtual Manager is an Electron desktop application that signs a
creator into their YouTube account, reads channel and video statistics,
edits video metadata, and answers AI "optimization" suggestions. This
project models the application's core and proves properties about it:

- **ElectronMain** (`electron_main.dfy`): the main process's persistent
  key-value store behind the `store:get` and `store:set` IPC handlers, and
  the answer of `select-directory`. One `Store` object is shared by
  everything that persists state.
- **Environment** (`environment.dfy`): the `env` object read from the
  process environment, with its defaults, `validate` and
  `checkEnvironment`. The report of missing variables is proved against a
  recursive reference definition `Missing`.
- **Auth** (`auth_service.dfy`): `AuthService`. It covers the
  authorization-code exchange (section 4.1.3 of RFC 6749), the five-minute
  refresh rule with a refresh token (section 6 of RFC 6749), logout,
  `getOAuth2Client`, and restoring the saved session at startup. The
  session is saved under 'auth_state' as a store value. Two lemmas prove
  the encoding round-trips both ways, and that is what lets startup adopt
  the saved session.
- **AuthContext** (`use_auth.dfy`): the renderer's `AuthProvider`. It
  holds three pieces of state tied to the store key 'youtube_auth_token',
  and the default context outside any provider.
- **YouTube** (`youtube_service.dfy`): `YouTubeService`. It covers lazy
  initialisation from the authentication service's OAuth client, the
  integer channel statistics, the mapping of API video items, and the
  snippet merge of `updateVideo`.
- **AI** (`ai_service.dfy`): `AIService`. Every operation goes through the
  `ensureInitialized` guard. The title and description templates are
  built from the input; the other four answers are fixed.
- **Settings** (`settings.dfy`): the Settings page. It covers the
  notification switches, the masked API-key field and its Change/Cancel
  toggle, and the settings record it saves under 'settings'.

`Wrappers` holds `Option`, `Result` and `Outcome`. `Values` holds the
JavaScript values kept in the store, with JavaScript truthiness
(`Truthy`, plus `Present` and `PresentNum` for optional properties read
with `||`).

Calls into code outside the model become method parameters: the Google
OAuth library, the YouTube Data API, the IPC bridge and the clock.

- An API or library call that can throw is given as an `Option` answer,
  where `None` means the call threw.
- A store call through the IPC bridge that the renderer awaits (the
  provider's mount check and `login`) is given a failure flag.
- A store write that the authentication context's `logout` and the
  settings save do not await is given a `BridgeCall`. The write can
  complete. It can throw at once, which stops the caller there. Or its
  promise can be rejected later, after the caller has carried on, and
  then nothing is stored.
- The current time is `now`, in milliseconds.

Every asynchronous operation is modelled as one sequential step.

## Model

| member | source | states |
|---|---|---|
| ElectronMain.Lookup | electron/main.ts:70-72 | `store:get` answers the stored value when the key is present and `null` otherwise |
| ElectronMain.Store.constructor | electron/main.ts:14-15 | on first launch the store holds no entries, so every key reads as null; a relaunch reuses the existing store instead |
| ElectronMain.Store.Get | electron/main.ts:70-72 | the handler's answer is `Lookup` of the current entries |
| ElectronMain.Store.Set | electron/main.ts:74-77 | the entries become the old entries with `key` mapped to `value`; the answer is always true |
| ElectronMain.LookupAfterSet | electron/main.ts:70-77 | reading a key just written gives the value written; every other key reads as before |
| ElectronMain.SetTwice | electron/main.ts:74-77 | last write wins |
| ElectronMain.SelectDirectory | electron/main.ts:79-87 | a cancelled dialog gives no path; otherwise the first selected path, which is one of the selected paths |
| ElectronMain.SetThenGet | electron/main.ts:70-77 | a write followed by a read of the same key reads the value written and leaves other keys unchanged |
| Environment.VarOr | src/utils/environment.ts:9-15 | `process.env[name] \|\| fallback`: an unset or empty variable gives the fallback, any other gives its value |
| Environment.LoadEnv | src/utils/environment.ts:7-19 | unset keys are '', the redirect URI defaults to the local callback and is never empty, `isProduction` iff NODE_ENV is 'production', `isDevelopment` is its negation |
| Environment.MissingMembers | src/utils/environment.ts:22-34 | a name is reported iff it is one of the names checked and its setting is empty |
| Environment.MissingIsSubsequence | src/utils/environment.ts:22-34 | the report keeps the order of the names checked and is no longer than them |
| Environment.SkipHead | src/utils/environment.ts:22-34 | a subsequence of a tail is a subsequence of the whole list (used for the order proof) |
| Environment.DropHead | src/utils/environment.ts:22-34 | dropping the first element of a subsequence leaves a subsequence (used for the order proof) |
| Environment.MissingNoDuplicates | src/utils/environment.ts:22-34 | checking distinct names reports each at most once |
| Environment.MissingRequired | src/utils/environment.ts:26-31 | on the four required names the report is one optional entry per name, in the fixed order |
| Environment.Validate | src/utils/environment.ts:22-34 | the four `if … push` steps produce exactly the reference report `Missing(e, RequiredVars)` |
| Environment.ValidateReport | src/utils/environment.ts:22-34 | the report is empty iff all four variables are set; it lists exactly the empty ones, in order, each once, at most four, and never the redirect URI |
| Environment.MissingIgnoresOtherSettings | src/utils/environment.ts:22-34 | the report depends only on the four required settings |
| Environment.CheckEnvironment | src/utils/environment.ts:38-50 | true iff all four required variables are non-empty |
| Auth.DecideRefresh | src/services/authService.ts:116-153 | no tokens gives false; five minutes or more left gives true with nothing done; otherwise true iff the refresh answered an access token and an expiry, and the renewed tokens keep the old refresh token when none is sent |
| Auth.RefreshKeepsSession | src/services/authService.ts:116-153 | a refresh changes neither the authenticated flag nor the user, and changes nothing unless it renewed the tokens |
| Auth.RefreshOkMeansUsableTokens | src/services/authService.ts:116-153 | a refresh that reports true leaves tokens that are either not due or were just issued by the server |
| Auth.RefreshSettles | src/services/authService.ts:125-139 | after a refresh that was granted five minutes or more, a second check at the same instant does not refresh again |
| Auth.ExchangedTokens | src/services/authService.ts:64-68 | the kept tokens carry the response's access token and expiry, and its refresh token or '' when it sends none |
| Auth.RenewedTokens | src/services/authService.ts:134-139 | the renewed tokens carry the response's access token and expiry, and its refresh token or the current one when it sends none |
| Auth.AfterRefresh | src/services/authService.ts:134-139 | a refresh never changes the flag or the user; the tokens become the renewed ones exactly when a refresh succeeded, and otherwise nothing changes |
| Auth.EncodeState | src/services/authService.ts:187-194 | the saved record has exactly the fields isAuthenticated, user and tokens, carrying the session's flag and user, with tokens null iff the session has none |
| Auth.DecodeState | src/services/authService.ts:197-211 | a value reads as a session only if it is such a record, and then the session's flag, user and presence of tokens are those the record carries |
| Auth.DecodeEncode | src/services/authService.ts:187-211 | a saved session reads back as itself |
| Auth.EncodeDecode | src/services/authService.ts:187-211 | every stored value that reads as a session is exactly that session's saved form |
| Auth.AuthService.constructor | src/services/authService.ts:21-25 | the service starts signed out, with no user and no tokens |
| Auth.AuthService.IsAuthenticated | src/services/authService.ts:90-92 | authenticated only with tokens, and never when the flag is false |
| Auth.AuthService.SaveAuthState | src/services/authService.ts:187-194 | the session is written under 'auth_state' and nothing else in the store changes |
| Auth.AuthService.ExchangeCodeForTokens | src/services/authService.ts:56-87 | fails iff the token call threw or answered without an access token or expiry, and then changes nothing; on success the session is authenticated with the fetched user and the returned tokens (a missing refresh token becomes ''), the client holds the answered tokens, and the session is saved |
| Auth.AuthService.Logout | src/services/authService.ts:105-113 | the session is signed out and saved as such; the OAuth client is untouched |
| Auth.AuthService.RefreshTokenIfNeeded | src/services/authService.ts:116-153 | the answer and the new session are `DecideRefresh`/`AfterRefresh`; the client is given the refresh token exactly when a refresh was due; the store is written exactly when the tokens were renewed; a saved session stays saved |
| Auth.AuthService.GetOAuth2Client | src/services/authService.ts:156-168 | the refresh step, then the client holds exactly the session's tokens when there are some, and is returned |
| Auth.AuthService.LoadAuthState | src/services/authService.ts:197-223 | a failed read signs out; a stored value that is not a session with tokens changes nothing; a saved session with tokens is adopted and then refreshed, and the service signs out when the refresh fails; afterwards the store holds the session |
| Auth.LogoutTwice | src/services/authService.ts:105-113 | logging out twice leaves the same session and store as once |
| Auth.SignInThenRestore | src/services/authService.ts:197-218 | a session saved by a sign-in and not yet due is restored exactly, and authenticated, by a later startup |
| AuthContext.TokenUser | src/hooks/useAuth.tsx:36 | the user `{ token }` holds the token and is truthy |
| AuthContext.DefaultContext | src/hooks/useAuth.tsx:12-18 | outside a provider: not authenticated, loading, no user |
| AuthContext.DefaultLogin | src/hooks/useAuth.tsx:15 | the default `login` answers false |
| AuthContext.AuthProvider.constructor | src/hooks/useAuth.tsx:22-24 | a provider starts as the default context: signed out, loading, no user |
| AuthContext.AuthProvider.CheckAuth | src/hooks/useAuth.tsx:28-43 | loading ends; a truthy stored token signs in with user `{ token }`; a failed read or a falsy token changes nothing else |
| AuthContext.AuthProvider.Login | src/hooks/useAuth.tsx:49-64 | answers true iff the write succeeded; then 'sample_token' is stored and the user is `{ token: 'sample_token' }`; otherwise nothing changes; loading ends either way |
| AuthContext.AuthProvider.Logout | src/hooks/useAuth.tsx:67-71 | a completed write nulls the stored token; a write that throws at once changes nothing, and any other write leaves the store as it was; unless the write threw at once, the provider is signed out with no user; loading is untouched |
| AuthContext.Mount | src/hooks/useAuth.tsx:27-46 | after mounting, the provider is signed in iff the read succeeded and found a truthy token, with that token's user, and otherwise has no user |
| AuthContext.LoginSurvivesRemount | src/hooks/useAuth.tsx:49-71 | a login is seen by the next mount, and so is a logout |
| AuthContext.RejectedLogoutReturnsOnRemount | src/hooks/useAuth.tsx:27-71 | a logout whose write is rejected shows the provider signed out, but the next mount finds the token and signs in again |
| YouTube.CountOrZero | src/services/youtubeService.ts:87-90 | a missing count is 0, a present one is kept |
| YouTube.ChannelStatsFrom | src/services/youtubeService.ts:78-90 | fails iff the channel list is empty; otherwise the four counts of the first channel, each 0 when missing |
| YouTube.ToVideoData | src/services/youtubeService.ts:122-132 | id, title, description, date and thumbnail are copied; missing counts are 0 and missing tags are [] |
| YouTube.VideosFrom | src/services/youtubeService.ts:122-132 | one `VideoData` per API item, in the same order |
| YouTube.VideoIdsPreserved | src/services/youtubeService.ts:122-123 | the mapped videos carry the items' ids in order |
| YouTube.MergeSnippet | src/services/youtubeService.ts:188-194 | a non-empty title or description replaces the current one; given tags (even empty) replace the current ones; the category and every other field are kept |
| YouTube.EmptyPatchFields | src/services/youtubeService.ts:190-192 | an empty title or description keeps the current one, but an empty tag list clears the tags |
| YouTube.MergeIdempotent | src/services/youtubeService.ts:188-194 | applying the same update twice is applying it once |
| YouTube.UpdateRequestFor | src/services/youtubeService.ts:176-194 | fails iff the video list is empty; otherwise the request carries the video id and the merged snippet |
| YouTube.YouTubeService.constructor | src/services/youtubeService.ts:38-41 | the service starts without a client |
| YouTube.YouTubeService.IsInitialized | src/services/youtubeService.ts:63-65 | false means there is no client; a true answer in a valid service means the client is bound to the authentication service's OAuth client |
| YouTube.YouTubeService.Initialize | src/services/youtubeService.ts:44-60 | once initialised nothing changes; otherwise the OAuth client is obtained, with its refresh step, and the API client is bound to it |
| YouTube.YouTubeService.GetChannelStats | src/services/youtubeService.ts:68-97 | initialises first; fails when the call threw; otherwise `ChannelStatsFrom` of the answer |
| YouTube.YouTubeService.GetRecentVideos | src/services/youtubeService.ts:100-137 | initialises first; fails when a call threw; otherwise the mapped videos of the answer |
| YouTube.YouTubeService.UpdateVideo | src/services/youtubeService.ts:171-203 | initialises first; fails when a call threw or the video is not listed; otherwise sends `UpdateRequestFor` of the listed snippet |
| AI.ToLower | src/services/aiService.ts:166 | same length, each character lower-cased |
| AI.ToLowerIdempotent | src/services/aiService.ts:166 | lower-casing twice is lower-casing once |
| AI.TitleSuggestions | src/services/aiService.ts:158-174 | three suggestions for the title: the title followed by " (Ultimate Guide 2024)", "How I " + the lower-cased title + " (And How You Can Too!)", and "The SECRET to " + the title + " Nobody Tells You" |
| AI.TitleSuggestionsDistinguishTitles | src/services/aiService.ts:158-174 | different titles give different first and third suggestions |
| AI.Prefix | src/services/aiService.ts:206 | `substring(0, n)`: the first n characters, or the whole string when shorter |
| AI.DescriptionSuggestionFor | src/services/aiService.ts:204-232 | the suggestion is the fire-emoji heading, the first 50 characters of the description, "...", then the fixed tutorial text, each at its offset |
| AI.DescriptionDependsOnExcerpt | src/services/aiService.ts:206 | descriptions that agree on their first 50 characters get the same suggestion |
| AI.KeywordSuggestions | src/services/aiService.ts:104-126 | three keyword suggestions |
| AI.ThumbnailFeedbackFor | src/services/aiService.ts:256-274 | three strengths, three weaknesses, four suggestions |
| AI.UploadScheduleFor | src/services/aiService.ts:300-304 | three days and two times |
| AI.ContentIdeasFor | src/services/aiService.ts:341-363 | three content ideas |
| AI.KeywordSuggestionsIgnoreInput | src/services/aiService.ts:104-126 | the keyword answer does not depend on the keywords |
| AI.ThumbnailFeedbackIgnoresUrl | src/services/aiService.ts:256-274 | the thumbnail answer does not depend on the URL |
| AI.UploadScheduleIgnoresAnalytics | src/services/aiService.ts:300-304 | the schedule does not depend on the analytics |
| AI.ContentIdeasIgnoreInput | src/services/aiService.ts:341-363 | the content ideas depend neither on the topic nor on the recent videos |
| AI.AfterEnsure | src/services/aiService.ts:69-77 | an existing client is kept; otherwise one is created from a non-empty environment key; none remains iff there was none and the key is empty |
| AI.EnsureSettles | src/services/aiService.ts:69-77 | the guard never drops a client, and a second guard changes nothing |
| AI.AIService.constructor | src/services/aiService.ts:49-54 | a client exists iff the environment key is non-empty |
| AI.AIService.IsInitialized | src/services/aiService.ts:64-66 | true means the guard of every operation passes and keeps the client; false means the guard passes iff the environment key is non-empty |
| AI.AIService.Initialize | src/services/aiService.ts:57-61 | the client is (re)created with the given key |
| AI.AIService.EnsureInitialized | src/services/aiService.ts:69-77 | fails iff there was no client and the environment key is empty; after passing there is a client |
| AI.AIService.OptimizeKeywords | src/services/aiService.ts:80-131 | the guard, then the keyword answer |
| AI.AIService.SuggestTitles | src/services/aiService.ts:134-179 | the guard, then `TitleSuggestions` of the title |
| AI.AIService.OptimizeDescription | src/services/aiService.ts:182-237 | the guard, then `DescriptionSuggestionFor` of the description |
| AI.AIService.AnalyzeThumbnail | src/services/aiService.ts:240-278 | the guard, then the thumbnail answer |
| AI.AIService.SuggestUploadSchedule | src/services/aiService.ts:281-309 | the guard, then the schedule answer |
| AI.AIService.GenerateContentIdeas | src/services/aiService.ts:312-368 | the guard, then the content ideas |
| AI.GuardStaysOpen | src/services/aiService.ts:69-77 | once an operation has passed the guard the service stays initialised, so every later operation passes the guard (a description suggestion after a title suggestion is shown directly); one fails iff the other does |
| Settings.InitialFlags | src/pages/Settings.tsx:10-16 | every switch starts on except comment notifications |
| Settings.Toggle | src/pages/Settings.tsx:49-54 | flag k is negated and every other flag is kept |
| Settings.FlagAfterToggle | src/pages/Settings.tsx:49-54 | after a toggle of k, a flag differs from before iff it is k |
| Settings.ToggleTwice | src/pages/Settings.tsx:49-54 | toggling the same switch twice restores the record |
| Settings.TogglesCommute | src/pages/Settings.tsx:49-54 | toggles of two switches commute |
| Settings.NotificationsRoundTrip | src/pages/Settings.tsx:29-35 | the saved notification record reads back as the switches saved |
| Settings.SavedApiKey | src/pages/Settings.tsx:31 | the typed key while it is being edited, the 26-bullet mask otherwise |
| Settings.SettingsValue | src/pages/Settings.tsx:29-35 | the saved record has exactly the keys aiModel, apiKey, notificationSettings, dataExportFormat and autoOptimize |
| Settings.SettingsValueCarriesChoices | src/pages/Settings.tsx:29-35 | the saved record carries the model, the switches, the export format and the auto-optimize flag unchanged |
| Settings.SavedRecordHidesKey | src/pages/Settings.tsx:31 | when not editing, the saved record holds the mask and does not depend on the typed key |
| Settings.SavedRecordRevealsEditedKey | src/pages/Settings.tsx:31 | when editing, the saved record holds the typed key, and different keys give different records |
| Settings.SettingsPage.constructor | src/pages/Settings.tsx:6-20 | the page starts with GPT-4, the masked key, not editing, the initial switches, CSV, auto-optimize off, not loading, nothing saved |
| Settings.SettingsPage.HandleNotificationChange | src/pages/Settings.tsx:49-54 | the switches become `Toggle` of the old ones; nothing else on the page changes |
| Settings.SettingsPage.ToggleEditingApiKey | src/pages/Settings.tsx:141 | `editingApiKey` is negated; nothing else changes |
| Settings.SettingsPage.TypeApiKey | src/pages/Settings.tsx:136-137 | the key field changes only while it is being edited |
| Settings.SettingsPage.ToggleAutoOptimize | src/pages/Settings.tsx:157 | `autoOptimize` is negated; nothing else changes |
| Settings.SettingsPage.HandleSaveSettings | src/pages/Settings.tsx:23-46 | only a completed write stores the current settings record under 'settings'; if the write throws at once, loading stays true and the notice and key editing are as before; otherwise loading is false, saved is true and key editing has ended; the choices are kept either way |
| Settings.SettingsPage.ExpireSavedNotice | src/pages/Settings.tsx:42-44 | the saved notice goes away; nothing else changes |
| Settings.SecondSaveHidesKey | src/pages/Settings.tsx:29-39 | the first record saved while editing carries the typed key; a second save stores the mask, because the first save ended editing |

## Left out

- Network, library and SDK calls are not modelled. Their answers are parameters: the token endpoint, the user-info request, token refresh, the YouTube Data API calls, the IPC bridge's failures and the clock.
- The OpenAI client is not modelled, and neither are the prompts each AI operation builds and never sends. A client is represented by the API key it was created with.
- `getAuthUrl` is left out. Building the consent URL is a library call.
- `getUser` and `getTokens` are left out. They read `state.user` and `state.tokens` directly.
- `fetchUserInfo` is the `userInfo` parameter of `ExchangeCodeForTokens`, with `Null` when the request failed.
- The OAuth library refreshes its own credentials inside `refreshAccessToken`. That internal update is not modelled; `credentials` records only what the service itself sets.
- YouTube.YouTubeService.GetChannelStats: does not compute `averageEngagement`, because that figure is floating-point arithmetic. The four integer counts are modelled.
- `getVideoAnalytics` is left out. It answers random mock data from `Math.random`.
- YouTube.YouTubeService.GetRecentVideos: the search call and its `maxResults` argument collapse into the `videos` parameter. That parameter answers the video list for the ids the search found.
- API counts arrive as `Option<nat>`, so the decimal parsing that `parseInt` does on the API's count strings is not modelled.
- A video item without a snippet or a high thumbnail would throw in the source. Every modelled item has both.
- ElectronMain.SelectDirectory: a dialog that is not cancelled but selected nothing answers `undefined` in the source. The model answers `None` for it, the same as for a cancelled dialog.
- electron-store treats dotted keys as paths. None of the keys used contains a dot, so the store is a flat map.
- Auth.AuthService.SaveAuthState: the store write always completes in the model. The source checks first that the bridge exists, so the write cannot fail for want of a bridge. A rejected write is not awaited, so nothing in the service sees it. What the model leaves out is a write that throws at once, for instance on a session the bridge cannot clone. In the source that throw would escape from `exchangeCodeForTokens` and `logout` after the new session was set, and would make `refreshTokenIfNeeded` answer false after the tokens were replaced.
- The `localStorage` fallback of `saveAuthState` and `loadAuthState`, used when there is no IPC bridge, is not modelled: the services are taken to run in the Electron renderer, where the bridge exists.
- Auth.DecodeState: reads back only values of the exact shape `saveAuthState` writes. A stored value of another shape is treated as absent, although the source would adopt any object whose `tokens` is truthy.
- The `AuthService` constructor starts `loadAuthState` without awaiting it. Here the constructor and `LoadAuthState` are separate steps.
- Asynchronous interleaving, `setTimeout` delays and React's batching of state updates are not modelled. Each operation is one sequential step.
- Settings.SettingsPage.HandleSaveSettings: the spinner shown between the click and the delayed write is not observable, because the whole save is one step.
- AI.ToLower: lower-cases ASCII letters only. JavaScript's `toLowerCase` also maps non-ASCII letters.
- AI.Prefix: counts Unicode characters. JavaScript's `substring` counts UTF-16 code units, so the two differ on characters outside the Basic Multilingual Plane.
- AuthContext.AuthProvider.Login: a store write that fails is modelled as leaving the store unchanged.
- The default context's `logout` does nothing. There is no state for it to act on.
- `apiKeySaved` on the Settings page is never read, so it is not modelled.
- The plain setters of the Settings page, `setAiModel` and `setDataExportFormat`, are not modelled as methods. Each replaces one field with the chosen option.
- The rest of the user interface is not modelled: pages, sidebar and rendering.

# Cyberseed core, modelled and verified in Dafny

Cyberseed is a desktop application made of three layers, and this project models the logic of each:

- **Desktop shell** (Tauri, Rust). It finds a Python 3.11+ interpreter, probes and installs the backend's requirements, and starts and stops the backend process (`backend_process.dfy`, `tauri_commands.dfy`).
- **Web view** (React, TypeScript). It contains:
  - the first-run setup screen and the hooks that drive it (`tauri_hooks.dfy`, `setup_screen.dfy`);
  - the HTTP client and its token storage (`web_storage.dfy`, `api_client.dfy`);
  - the authentication and soul-selection contexts (`auth_provider.dfy`, `soul_provider.dfy`);
  - the request hooks and the health indicator (`use_api.dfy`, `health_status.dfy`);
  - the chat forms (`chat_input.dfy`, `chat_interface.dfy`);
  - the persisted model choice and the model picker (`model_store.dfy`, `model_selector.dfy`);
  - the event log with its filter and pagination (`event_filter.dfy`, `events_content.dfy`).
- **Backend** (FastAPI, Python). It contains:
  - the error vocabulary (`exceptions.dfy`);
  - settings read from the environment (`security_config.dfy`);
  - request validation (`schemas.dfy`);
  - token issue and checking (`auth.dfy`);
  - per-owner, per-soul file storage over a directory tree (`file_tree.dfy`, `scoped_storage.dfy`);
  - the placeholder retrieval index (`scoped_rag.dfy`);
  - the endpoints (`app.dfy`);
  - deferred imports (`lazy_init.dfy`);
  - the model registry, router and Ollama client (`model_registry.dfy`, `llm_router.dfy`, `local_ollama.dfy`).

`common.dfy` holds the shared vocabulary: `Option`, `Result`, what a JavaScript `catch` receives, and the trimming and splitting each language does in its own way.

Each module models one source file. The form follows the source:

- Code that computes values becomes functions with lemmas.
- Objects and React state that change step by step become classes with `modifies` clauses.
  - `localStorage` is one such class.
  - So is the backend manager's process slot.
  - So is the directory tree, which is an ordered log of entries.
- Whatever the code asks of the outside world is a parameter. This covers:
  - what a `fetch` or a Tauri command resolved to;
  - what the operating system answered;
  - what Python's import machinery would give;
  - what the Ollama server replied;
  - the clock reading.

Async handlers are atomic methods over those answers.

## Behaviour worth noting

- **Setup screen, the `Error` phase.** `SetupScreen.tsx` re-derives the phase on every evaluation, so `error` does not last until the user retries. With Python present and the requirements still missing, a failed install becomes `installing` again and the auto-install fires again. `SetupScreen.InstallFailureIsRederived` shows this.
- **Setup screen, the stored step.** The component stores the step in state. When no derivation rule applies, the stored step is kept (`SetupScreen.Derive`).
- **Event log, the page after a filter change.** `EventsContent.tsx` keeps `currentPage` when the filter changes. A page beyond the filtered range then shows nothing. `EventsContent.StalePageAfterFilter` shows this.
- **Settings, `ENVIRONMENT`.** The settings class does not re-validate the values its field factories return. So `environment` holds any text, and both `is_development` and `is_production` can be false.
- **Model picker.** The frontend's `ModelsResponse` type is served by no endpoint of `app_v2.py`. The model picker is modelled from the frontend's side only.
- **Shell messages quote paths with Rust's `Debug` format.** A backslash is doubled and a quote of either kind escaped, so a Windows path appears with `\\` separators in "Backend directory not found: …" and the other not-found messages (`BackendProcess.DebugWindowsPath`).
- **Storage joins names as given.** `scoped_storage.py` joins the owner, soul, category and file names without checking them. The isolation lemmas therefore hold for plain names only (`Storage.PlainName`).
- **Token expiry depends on the server's zone.** The endpoints authenticate with the expiry check as written, on a server whose UTC offset is a parameter (`App.Authorize`). West of UTC by more than the access lifetime, every fresh token is refused (`App.WestOfUtcLocksOut`); see "## Findings".

## Model

| member | source | states |
|---|---|---|
| SetupScreen.Rule | src/components/SetupScreen.tsx:53-64 | the priority chain: `checking` whenever the check is running; `error` iff the check is done and Python is missing; `installing`, `starting`, `ready` each iff its own guard holds and no earlier rule fires; no rule iff none of the guards holds |
| SetupScreen.Derive | src/components/SetupScreen.tsx:49-72 | the derived step is the rule's step, or the current step when no rule fires; the message becomes the Python-missing text exactly when the rule gives `error`, and is kept otherwise |
| SetupScreen.DeriveIdempotent | src/components/SetupScreen.tsx:49-72 | re-running the derivation effect on its own output with unchanged inputs changes nothing, so the effect settles after one update |
| SetupScreen.DeriveIgnoresCurrentStep | src/components/SetupScreen.tsx:50-64 | when a rule fires, the derived step does not depend on the current step |
| SetupScreen.DerivedStepsFireTheirAction | src/components/SetupScreen.tsx:58-98 | a derived `installing` step satisfies the auto-install guard and a derived `starting` step the auto-start guard |
| SetupScreen.ProgressPercent | src/components/SetupScreen.tsx:172-175 | the bar width is 25, 50, 75 or 100 for checking, installing, starting and ready, never above 100, and 0 exactly for `error` |
| SetupScreen.Controller.constructor | src/components/SetupScreen.tsx:21-25 | the screen starts in `checking` with an empty message, no retries, no pending completion timer and no completion |
| SetupScreen.Controller.SetStep | src/components/SetupScreen.tsx:66-82 | a change of step re-runs the ready effect: the completion timer is pending iff the new step is `ready`; setting the same step leaves the timer alone |
| SetupScreen.Controller.Evaluate | src/components/SetupScreen.tsx:49-72 | one run of the derivation effect stores exactly `Derive` of the inputs, step and message it read, and re-arms the timer only on a step change |
| SetupScreen.Controller.HandleInstallDependencies | src/components/SetupScreen.tsx:28-36 | the message is cleared, the install runs through the dependencies hook, and a failed install (or failed re-check) sets `error` with "Failed to install dependencies: " and the rendered error |
| SetupScreen.Controller.HandleStartBackend | src/components/SetupScreen.tsx:38-46 | the message is cleared, the start runs through the backend hook, and a failure sets `error` with "Failed to start backend: " and the rendered error |
| SetupScreen.Controller.HandleRetry | src/components/SetupScreen.tsx:100-109 | the retry count goes up by one, the step returns to `checking`, the dependencies are re-checked, and the message is "" on success or "Retry failed: " and the error |
| SetupScreen.Controller.TimerElapsed | src/components/SetupScreen.tsx:76-79 | `onSetupComplete` fires once when the one-second timer is still pending, and the timer is then no longer pending |
| SetupScreen.Controller.Unmount | src/components/SetupScreen.tsx:80 | unmounting clears a pending completion timer |
| SetupScreen.InstallFailureIsRederived | src/components/SetupScreen.tsx:28-72 | with Python present and requirements missing, a failed install shows `error`, and the next evaluation is `installing` again with the auto-install firing and the failure message kept |
| SetupScreen.HappyPath | src/components/SetupScreen.tsx:28-82 | checking, install, start: the screen ends `ready` with the completion timer armed |
| SetupScreen.CompletesOnce | src/components/SetupScreen.tsx:66-82 | a second evaluation in `ready` does not re-arm the timer, so the completion callback fires once |
| SetupScreen.UnmountBeforeDelay | src/components/SetupScreen.tsx:74-82 | unmounting before the delay elapses means the completion callback never fires |
| SetupScreen.RetryTwice | src/components/SetupScreen.tsx:100-109 | a retry with Python missing ends in `error` with the Python-missing text; a second one counts 2 retries and clears the message |
| TauriHooks.StatusAfterCheck | src/hooks/useTauri.ts:32-41 | a check that reads both answers replaces the status and drops any earlier error; a failing check keeps running flag and port and records `String(err)` of the first command that threw |
| TauriHooks.DependenciesAfterCheck | src/hooks/useTauri.ts:119-132 | a settled check is never `checking`; success copies both flags with no error, failure reports neither Python nor requirements and records `String(err)` |
| TauriHooks.BackendStatusHook.constructor | src/hooks/useTauri.ts:26-30 | the hook starts not running, on port 8000, with no error and not loading |
| TauriHooks.BackendStatusHook.CheckStatus | src/hooks/useTauri.ts:32-41 | the new status is `StatusAfterCheck` of the old status and the two command answers |
| TauriHooks.BackendStatusHook.StartBackend | src/hooks/useTauri.ts:43-65 | the command receives the given Python path and the given directory or, when it is empty or absent, the default one; a success re-checks the status, a failure records the error and rethrows; loading is off afterwards |
| TauriHooks.BackendStatusHook.StopBackend | src/hooks/useTauri.ts:67-80 | the outcome is the stop command's; only a success re-checks the status, a failure leaves it as it was; loading is off afterwards |
| TauriHooks.DependenciesHook.constructor | src/hooks/useTauri.ts:101-106 | the hook starts with neither Python nor requirements, `checking` set, and not installing |
| TauriHooks.DependenciesHook.CheckDependencies | src/hooks/useTauri.ts:108-135 | the command receives the requirements path or the default "./backend/requirements.txt"; the state becomes `DependenciesAfterCheck` of the answer, and the answer (or its error) is passed on |
| TauriHooks.DependenciesHook.InstallRequirements | src/hooks/useTauri.ts:137-154 | the install receives the same default path; a success re-checks with the caller's arguments and fails if the re-check fails; a failed install leaves the dependencies unchanged; installing is off afterwards |
| EventFilter.Without | src/components/EventFilter.tsx:26 | filtering out a type removes every copy of it and keeps every other type, never grows the list, and leaves a list without it unchanged |
| EventFilter.WithoutCounts | src/components/EventFilter.tsx:26 | the removed type occurs no more, and every other type occurs exactly as often as before |
| EventFilter.WithoutIsSubsequence | src/components/EventFilter.tsx:26 | the remaining types keep the order in which they were selected |
| EventFilter.WithoutKeepsDistinct | src/components/EventFilter.tsx:26 | filtering a duplicate-free selection leaves it duplicate-free |
| EventFilter.ToggleType | src/components/EventFilter.tsx:24-30 | after a toggle the type is selected iff it was not before, every other type keeps its membership, and an unselected type is appended at the end |
| EventFilter.ToggleTwice | src/components/EventFilter.tsx:24-30 | toggling the same type twice restores the original membership |
| EventFilter.ToggleKeepsDistinct | src/components/EventFilter.tsx:24-30 | a toggle keeps a duplicate-free selection duplicate-free |
| EventFilter.ClearFilters | src/components/EventFilter.tsx:32-35 | the cleared selection and date range have no active filter |
| EventFilter.HasActiveFilters | src/components/EventFilter.tsx:37 | the filters are inactive exactly when no type is selected and both date bounds are "" |
| EventFilter.InactiveIffCleared | src/components/EventFilter.tsx:32-37 | the filters are inactive exactly when the selection is empty and both dates are "", the state `clearFilters` hands back |
| EventFilter.WithStart | src/components/EventFilter.tsx:126 | editing the start date sets the start and keeps the end |
| EventFilter.WithEnd | src/components/EventFilter.tsx:135 | editing the end date sets the end and keeps the start |
| EventsContent.StrLeTotal | src/components/EventsContent.tsx:120-121 | the string comparison the date bounds use is total |
| EventsContent.StrLeTransitive | src/components/EventsContent.tsx:120-121 | the string comparison is transitive |
| EventsContent.StrLeAntisymmetric | src/components/EventsContent.tsx:120-121 | the string comparison is antisymmetric, so `<=` both ways means equal dates |
| EventsContent.Filtered | src/components/EventsContent.tsx:118-123 | an event is shown iff it is in the list and its type is selected (or none is) and its date is within each set bound; the list never grows |
| EventsContent.FilteredIsSubsequence | src/components/EventsContent.tsx:118-123 | the filtered events keep their original order |
| EventsContent.FilteredCounts | src/components/EventsContent.tsx:118-123 | each event that passes the filter is shown as many times as it occurs in the list, any other not at all |
| EventFilter.SubsequenceSkip | src/components/EventsContent.tsx:118-123 | a subsequence stays one when the longer list gains a first element |
| EventFilter.SubsequenceTail | src/components/EventsContent.tsx:118-123 | dropping the first element of a subsequence leaves a subsequence |
| EventsContent.NoFilterKeepsAll | src/components/EventsContent.tsx:112-123 | with the initial filters (no type, both bounds "") every event is shown, in order |
| EventsContent.NothingKept | src/components/EventsContent.tsx:118-123 | when no event passes the filter the list is empty |
| EventsContent.InvertedRangeIsEmpty | src/components/EventsContent.tsx:120-121 | a start bound after the end bound shows nothing |
| EventsContent.TotalPages | src/components/EventsContent.tsx:115-126 | the page count is the least count whose pages of ten hold all events, and zero exactly when there are none |
| EventsContent.PageSlice | src/components/EventsContent.tsx:127-128 | page p shows at most ten events, namely events (p-1)·10 onwards in order, and nothing past the last page |
| EventsContent.PagesCoverItems | src/components/EventsContent.tsx:126-128 | pages 1 to p read in order are the first p·10 events |
| EventsContent.AllPagesAreTheList | src/components/EventsContent.tsx:126-128 | all pages together are exactly the filtered list |
| EventsContent.PrevPage | src/components/EventsContent.tsx:269 | Previous goes back one page and never below 1 |
| EventsContent.NextPage | src/components/EventsContent.tsx:299 | Next goes forward one page and never past the last |
| EventsContent.FooterOf | src/components/EventsContent.tsx:262 | the footer's first index is (page-1)·10+1, the last is capped by the count and by the page size, and first ≤ last exactly on an existing page |
| EventsContent.FooterCountsPage | src/components/EventsContent.tsx:262 | on an existing page the footer's range counts exactly the events the page shows |
| EventsContent.ShowsPagination | src/components/EventsContent.tsx:254 | the pagination bar is shown iff more than ten events pass the filter |
| EventsContent.EventsPage.constructor | src/components/EventsContent.tsx:112-114 | the page starts with no type selected, both bounds unset and page 1 |
| EventsContent.EventsPage.Visible | src/components/EventsContent.tsx:118-128 | the rows shown are at most ten, each a listed event that passes the filter |
| EventsContent.EventsPage.SetSelectedTypes | src/components/EventsContent.tsx:112-196 | a new type selection is stored and the page number is not reset |
| EventsContent.EventsPage.SetDateRange | src/components/EventsContent.tsx:113-198 | a new date range is stored and the page number is not reset |
| EventsContent.EventsPage.Previous | src/components/EventsContent.tsx:269 | the page becomes `PrevPage` of the old one |
| EventsContent.EventsPage.Next | src/components/EventsContent.tsx:299 | the page becomes `NextPage` of the old one and the page count |
| EventsContent.EventsPage.GoTo | src/components/EventsContent.tsx:276-281 | a numbered button selects an existing page, which shows at least one event |
| EventsContent.StalePageAfterFilter | src/components/EventsContent.tsx:112-128 | on page 2 of fifteen events, selecting a type none has keeps page 2, which shows no rows |
| ChatInput.CharacterCount | src/components/ChatInput.tsx:88 | the counter shows 0 exactly for an empty draft, and then Send is disabled |
| ChatInput.SendDisabled | src/components/ChatInput.tsx:70 | the Send button is disabled exactly for drafts made only of whitespace |
| ChatInput.Composer.constructor | src/components/ChatInput.tsx:12 | the draft starts empty |
| ChatInput.Composer.Edit | src/components/ChatInput.tsx:40 | editing replaces the draft with the text area's value |
| ChatInput.Composer.HandleSend | src/components/ChatInput.tsx:14-19 | a draft with a non-whitespace character, while nothing is generating, goes out untrimmed and the draft is cleared; otherwise nothing is sent and the draft is kept |
| ChatInput.Composer.HandleKeyPress | src/components/ChatInput.tsx:21-26 | the default is prevented iff the key is Enter without Shift, and then the draft is sent as by `handleSend`; any other key sends nothing and keeps the draft |
| ChatInput.DisabledMeansNoSend | src/components/ChatInput.tsx:15-70 | while nothing is generating, the button is disabled exactly when a send would do nothing |
| ChatInput.SentIsNeverBlank | src/components/ChatInput.tsx:14-19 | whatever `onSend` receives has a non-whitespace character |
| ChatInterface.Form.constructor | src/components/ChatInterface.tsx:8-11 | the form starts with an empty query, no response, not loading and no error |
| ChatInterface.Form.HandleSubmit | src/components/ChatInterface.tsx:13-34 | a blank query sends nothing and changes nothing; otherwise the trimmed query goes out with top_k 5, max_tokens 512 and sources; success stores the response and empties the box, failure keeps box and old response and shows the error's message or "Chat failed"; loading ends false |
| ChatInterface.SentQueryIsTrimmed | src/components/ChatInterface.tsx:15-21 | a query that gets sent is non-empty and neither starts nor ends with whitespace |
| WebStorage.Item | src/lib/api.ts:9 | reading a key gives its stored value, and null exactly when the key is absent |
| WebStorage.Store.constructor | src/lib/api.ts:8-20 | the storage holds the given items |
| WebStorage.Store.GetItem | src/lib/api.ts:9 | `getItem` gives the stored value, or null for an absent key, and changes nothing |
| WebStorage.Store.SetItem | src/lib/api.ts:13-14 | `setItem` stores the value under the key and leaves every other key alone |
| WebStorage.Store.RemoveItem | src/lib/api.ts:18-19 | `removeItem` drops the key, and removing an absent key changes nothing |
| ApiClient.Assign | src/lib/api.ts:24-28 | assigning a header sets its value and leaves every other header's value as it was |
| ApiClient.Spread | src/lib/api.ts:24-28 | after spreading, each header has the value of its last occurrence in the spread object, or its earlier value when the spread does not name it |
| ApiClient.Bearer | src/lib/api.ts:27-94 | the only header added is `Authorization: Bearer <token>`, and only for a non-empty token |
| ApiClient.RequestHeaders | src/lib/api.ts:23-28 | Content-Type is the caller's or "application/json"; Authorization is the bearer token when one is stored (overriding the caller's), else the caller's; every other header is the caller's |
| ApiClient.ApiResultCases | src/lib/api.ts:32-41 | a result comes only from a 2xx response; among failed statuses exactly a 401 gives "Unauthorized - please login again"; any other failed status gives "API error <status>: …"; a rejected fetch propagates |
| ApiClient.TokenStoreRoundTrip | src/lib/api.ts:8-27 | stored tokens read back as stored and the next request carries the new non-empty access token; after clearing, both keys are gone and the request carries only what the caller passed; no other key is touched |
| ApiClient.ClearedIdempotent | src/lib/api.ts:17-66 | logging out twice is the same as logging out once |
| ApiClient.ListFilesPath | src/lib/api.ts:102-105 | the URL is /souls/<owner>/<soul>/files, followed by `?category=<category>` exactly when the category is non-empty |
| ApiClient.Api.constructor | src/lib/api.ts:4 | the base URL is the configured one when it is set, even to "", and http://127.0.0.1:8000 only when it is unset |
| ApiClient.Api.GetToken | src/lib/api.ts:8-10 | the token is what storage holds under cyberseed_token |
| ApiClient.Api.SetTokens | src/lib/api.ts:12-15 | both tokens are stored under their two keys |
| ApiClient.Api.ClearToken | src/lib/api.ts:17-20 | both token keys are removed |
| ApiClient.Api.Logout | src/lib/api.ts:64-66 | logging out removes both token keys |
| ApiClient.Api.ApiFetch | src/lib/api.ts:22-42 | the request goes to base URL + path with `RequestHeaders`; the result is `ApiResult`; only a 401 changes storage, by dropping both tokens |
| ApiClient.Api.Login | src/lib/api.ts:44-51 | posts the credentials to /auth/login; the returned pair is stored only after success, and a failure leaves storage as `apiFetch` left it |
| ApiClient.Api.RefreshToken | src/lib/api.ts:53-62 | with no non-empty refresh token it fails with "No refresh token" before any request; otherwise it posts that token to /auth/refresh and, on success, replaces both tokens |
| ApiClient.Api.GetHealth | src/lib/api.ts:68-70 | a GET of /health through `apiFetch` |
| ApiClient.Api.ListFiles | src/lib/api.ts:102-105 | a GET of `ListFilesPath` through `apiFetch` |
| ApiClient.Api.UploadFiles | src/lib/api.ts:87-100 | a multipart POST with only the bearer header; any failed status, 401 included, gives "Upload failed: <status>", and the tokens stay in place |
| AuthProvider.Auth.constructor | src/providers/AuthProvider.tsx:17-20 | the provider starts unauthenticated and loading, with no user and no error |
| AuthProvider.Auth.Mount | src/providers/AuthProvider.tsx:22-37 | with a non-empty stored token it probes /health with that bearer token: success logs the dev user in, failure drops both tokens; without a token only loading ends; the error is never touched |
| AuthProvider.Auth.Login | src/providers/AuthProvider.tsx:39-52 | success stores the pair and logs the user in as the owner of their own id with no error; failure records the message or "Login failed", rethrows, and leaves the authentication state alone; loading ends false |
| AuthProvider.Auth.Logout | src/providers/AuthProvider.tsx:54-58 | logging out drops both tokens, the user and the authenticated flag, and keeps loading flag and error |
| AuthProvider.LoginLogoutMount | src/providers/AuthProvider.tsx:22-58 | after a login and a logout the next mount finds no token and makes no request |
| SoulProvider.Initial | src/providers/SoulProvider.tsx:13-14 | the id starts as the stored one unless it is missing or empty, and otherwise as "dev" or "default" |
| SoulProvider.Soul.constructor | src/providers/SoulProvider.tsx:13-14 | owner and soul ids are `Initial` of the storage under cyberseed_owner and cyberseed_soul |
| SoulProvider.Soul.SetOwnerId | src/providers/SoulProvider.tsx:16-19 | the owner id and its storage key take the new value; the soul id and its key are untouched |
| SoulProvider.Soul.SetSoulId | src/providers/SoulProvider.tsx:21-24 | the soul id and its storage key take the new value; the owner id and its key are untouched |
| SoulProvider.ReloadAfterSet | src/providers/SoulProvider.tsx:13-24 | a provider mounted after both setters reads back the ids set, except that an empty id falls back to its default |
| UseApi.ScopedRequest.Chat | src/hooks/useApi.ts:5-22 | `useChat` starts idle with no error and "Failed to send message" as its fallback |
| UseApi.ScopedRequest.Upload | src/hooks/useApi.ts:35-52 | `useFileUpload` starts idle with no error and "Failed to upload files" as its fallback |
| UseApi.ScopedRequest.Train | src/hooks/useApi.ts:65-81 | `useTrainSoul` starts idle with no error and "Failed to train soul" as its fallback |
| UseApi.ScopedRequest.Run | src/hooks/useApi.ts:9-87 | the call is made iff both ids are non-empty; otherwise the error is "Owner ID and Soul ID are required" and null is returned; a success returns the response with no error, a failure returns null with the error's message or the fallback; loading ends false |
| UseApi.Health.constructor | src/hooks/useApi.ts:93-95 | `useHealth` starts idle, with no error and health unknown (null) |
| UseApi.Health.CheckHealth | src/hooks/useApi.ts:97-110 | healthy iff the reply's status is "ok"; a failure marks unhealthy and records the message or "Health check failed"; loading ends false |
| HealthStatus.StatusColor | src/components/HealthStatus.tsx:17-21 | yellow while loading; green iff not loading, no non-empty error and healthy is true; red otherwise, including an unknown (null) health |
| HealthStatus.StatusText | src/components/HealthStatus.tsx:23-28 | "Checking..." while loading, "Disconnected" for a non-empty error, "Connected" iff healthy with no error, "Unknown" otherwise |
| HealthStatus.ColorMatchesText | src/components/HealthStatus.tsx:17-28 | the indicator is green exactly when the label is "Connected" and yellow exactly when it is "Checking..." |
| HealthStatus.IndicatorAfterCheck | src/components/HealthStatus.tsx:8-28 | after one check an "ok" reply shows green "Connected" and any other reply red "Unknown"; a failure shows red, labelled "Disconnected" unless the thrown message was empty |
| ModelStore.Escape | src/stores/modelStore.ts:18 | the JSON escaping of the saved selection never shortens it |
| ModelStore.UnescapeEscape | src/stores/modelStore.ts:18 | reading an escaped string back gives the original string |
| ModelStore.DecodeEncode | src/stores/modelStore.ts:12-20 | whatever selection is saved under "model-storage" reads back unchanged |
| ModelStore.EscapeUnescape | src/stores/modelStore.ts:18 | unescaping accepts only what escaping writes: the text read back escapes to the same text |
| ModelStore.Encode | src/stores/modelStore.ts:12-20 | the saved text has the persisted JSON's prefix and suffix around the selection |
| ModelStore.Decode | src/stores/modelStore.ts:12-20 | only text the store writes reads back: a selection read from saved text encodes to exactly that text |
| ModelStore.Rehydrated | src/stores/modelStore.ts:12-20 | the starting selection is "local-llama" or one whose encoding is exactly the text saved under "model-storage"; a readable saved text always wins |
| ModelStore.Models.constructor | src/stores/modelStore.ts:12-20 | a new store starts with the saved selection when a readable one exists, and with "local-llama" when nothing is saved |
| ModelStore.Models.SetSelectedModel | src/stores/modelStore.ts:16 | the selection becomes exactly the given model and its encoding is saved under "model-storage"; no other key changes |
| ModelStore.SetTwice | src/stores/modelStore.ts:16 | setting the same model twice leaves the same state and storage as setting it once |
| ModelStore.ReloadKeepsSelection | src/stores/modelStore.ts:12-20 | a store created after a selection was set starts with that selection |
| ModelSelector.Synced | src/components/ModelSelector.tsx:15-18 | only the untouched fallback "local-llama" is replaced, by the backend's default; any other selection is kept |
| ModelSelector.SyncSettles | src/components/ModelSelector.tsx:11-22 | once the sync rule has run, a later fetch with any default leaves the selection alone |
| ModelSelector.Ids | src/components/ModelSelector.tsx:33-37 | one option id per table entry, in table order |
| ModelSelector.Render | src/components/ModelSelector.tsx:24-39 | the loading text while loading, nothing after a failed fetch, otherwise one option per model id in table order |
| ModelSelector.Selector.constructor | src/components/ModelSelector.tsx:8-9 | the picker starts loading with no table |
| ModelSelector.Selector.FetchSettled | src/components/ModelSelector.tsx:11-22 | a successful fetch shows the table and applies `Synced`, saving only when the selection changed; a failed fetch changes nothing but the loading flag |
| ModelSelector.FirstLoad | src/components/ModelSelector.tsx:11-22 | on a fresh install the picker adopts the backend's default, and the re-run this triggers leaves it there whatever that fetch reports |
| BackendProcess.ParseU32 | Seed/src-tauri/src/backend_manager.rs:271-272 | `parse::<u32>()` succeeds only on an optional '+' followed by digits, and its value never exceeds `u32::MAX` |
| BackendProcess.ParseU32Decimal | Seed/src-tauri/src/backend_manager.rs:271-272 | every `u32` value parses back from its decimal text, with or without a leading '+' |
| BackendProcess.ParseU32Overflow | Seed/src-tauri/src/backend_manager.rs:271-272 | a number above `u32::MAX` is rejected, not wrapped |
| BackendProcess.LeadingDigits | Seed/src-tauri/src/backend_manager.rs:277-279 | `take_while(is_ascii_digit)` yields the longest all-digit prefix: the next character, if any, is not a digit |
| BackendProcess.LeadingDigitsOfTagged | Seed/src-tauri/src/backend_manager.rs:273-283 | a patch field such as "5rc1" contributes exactly its digits "5" |
| BackendProcess.ParsePythonVersion | Seed/src-tauri/src/backend_manager.rs:261-292 | a parse succeeds only on trimmed text starting "Python " with at least two dot fields whose first two parse as `u32`; the result keeps the path and the text after the prefix, and the patch defaults to 0 |
| BackendProcess.TrimVersionOutput | Seed/src-tauri/src/backend_manager.rs:263 | trimming the interpreter's output drops only the final newline |
| BackendProcess.NoDotInDigits | Seed/src-tauri/src/backend_manager.rs:266 | a run of digits holds no '.', so a number stays one field of the split |
| BackendProcess.SplitThree | Seed/src-tauri/src/backend_manager.rs:266 | splitting `a.b.c` on '.' gives back the three fields when none holds a dot |
| BackendProcess.SplitVersionNumber | Seed/src-tauri/src/backend_manager.rs:266 | a version "a.b.c<tag>" splits into major, minor and patch-with-tag |
| BackendProcess.TrimVersionOutputOf | Seed/src-tauri/src/backend_manager.rs:263-264 | the trimmed output of `python --version` is "Python " followed by the version text |
| BackendProcess.ParseVersionNumbers | Seed/src-tauri/src/backend_manager.rs:266-291 | the text after "Python " succeeds exactly when it has two or more dot fields and the first two parse as `u32`; patch is read leniently from the third, 0 without one |
| BackendProcess.ParseVersionOutput | Seed/src-tauri/src/backend_manager.rs:261-292 | parsing what `python --version` prints recovers major, minor, patch, the version text and the path (round trip) |
| BackendProcess.IsPython311OrHigher | Seed/src-tauri/src/backend_manager.rs:295-299 | the gate holds only for text that parses as "Python 3.<minor>…" with a minor version of 11 or more; unparsable text is refused |
| BackendProcess.GateOnVersionOutput | Seed/src-tauri/src/backend_manager.rs:295-299 | `is_python_311_or_higher` holds exactly for 3.11 and later 3.x releases; 3.10 and 4.0 are refused |
| BackendProcess.SplitCommand | Seed/src-tauri/src/backend_manager.rs:223-228 | a command without a space is run as it is, with no arguments |
| BackendProcess.SplitCommandWords | Seed/src-tauri/src/backend_manager.rs:223-225 | a command with a space becomes its whitespace-separated words: a non-empty program, then the arguments |
| BackendProcess.TakeWordAll | Seed/src-tauri/src/backend_manager.rs:224 | a string without whitespace is one whole word |
| BackendProcess.WordsOfWord | Seed/src-tauri/src/backend_manager.rs:224 | a single word, with or without a leading space, splits into itself alone |
| BackendProcess.LeadingSpaceDropped | Seed/src-tauri/src/backend_manager.rs:224 | leading whitespace does not change `split_whitespace` |
| BackendProcess.LauncherSplit | Seed/src-tauri/src/backend_manager.rs:173-175 | the Windows launcher candidates "py -3.x" are run as program "py" with the single flag |
| BackendProcess.VersionText | Seed/src-tauri/src/backend_manager.rs:243-255 | the version text is stdout when it mentions "Python", else stderr when that does, else there is none |
| BackendProcess.GetPythonInfo | Seed/src-tauri/src/backend_manager.rs:221-258 | a detected interpreter's info records the command that was probed |
| BackendProcess.ProbeReadsVersion | Seed/src-tauri/src/backend_manager.rs:221-258 | an interpreter printing its version on stdout or on stderr is read correctly either way |
| BackendProcess.FailedProbeFindsNothing | Seed/src-tauri/src/backend_manager.rs:236-240 | a probe that cannot spawn or exits unsuccessfully finds nothing |
| BackendProcess.Candidates | Seed/src-tauri/src/backend_manager.rs:162-176 | every candidate command (launcher forms first on Windows) can be probed without panicking |
| BackendProcess.NonSpaceStartSplittable | Seed/src-tauri/src/backend_manager.rs:223-225 | a command starting with a non-space character splits into at least one word |
| BackendProcess.CandidatesSplittable | Seed/src-tauri/src/backend_manager.rs:162-176 | both candidate lists consist of probe-safe commands |
| BackendProcess.FirstPassing | Seed/src-tauri/src/backend_manager.rs:178-184 | the index found is the first candidate that passes, or the length when none does |
| BackendProcess.FirstPassingOr | Seed/src-tauri/src/backend_manager.rs:178-191 | the command chosen is the first passing candidate with all earlier ones failing, or the fallback when all fail |
| BackendProcess.DetectedPython | Seed/src-tauri/src/backend_manager.rs:142-192 | the embedded interpreter wins when it meets 3.11+, else the first candidate that does, else "python"/"python3" |
| BackendProcess.ProbeCandidates | Seed/src-tauri/src/backend_manager.rs:178-191 | the probing loop returns exactly the first passing candidate or the fallback |
| BackendProcess.DetectPython | Seed/src-tauri/src/backend_manager.rs:142-192 | `detect_python` returns the command `DetectedPython` specifies |
| BackendProcess.ResolvedPython | Seed/src-tauri/src/backend_manager.rs:303 | the caller's path unchanged, else the detected one; the detected one, and a caller's path that `PathSplittable` admits, can be probed without panicking |
| BackendProcess.CheckPythonAvailable | Seed/src-tauri/src/backend_manager.rs:302-321 | Ok exactly when the resolved interpreter meets 3.11+, never Ok(false); an undetected one gives "Could not detect Python version for: <cmd>", an old one "Python version <v> found, but version 3.11 or higher is required" |
| BackendProcess.Get | Seed/src-tauri/src/backend_manager.rs:333-348 | a field read from a JSON value is a field of that object |
| BackendProcess.Lookup | Seed/src-tauri/src/backend_manager.rs:333-348 | a lookup returns a field with the key, or none when no field has it |
| BackendProcess.LookupFirst | Seed/src-tauri/src/backend_manager.rs:333-348 | a lookup finds the first field carrying the key |
| BackendProcess.DetailsOf | Seed/src-tauri/src/backend_manager.rs:331-341 | the details of a detected interpreter carry its version, whether it meets 3.11+, "3.11+" as the requirement, and no error |
| BackendProcess.UndetectedDetails | Seed/src-tauri/src/backend_manager.rs:343-348 | the details of an undetected interpreter carry the error text, meets_requirements false and "3.11+" |
| BackendProcess.GetPythonDetails | Seed/src-tauri/src/backend_manager.rs:324-350 | always Ok; meets_requirements is whether the interpreter meets 3.11+, and an error field appears exactly when none was detected |
| BackendProcess.CheckRequirements | Seed/src-tauri/src/backend_manager.rs:353-376 | a missing requirements file is the error "Requirements file not found: " and the path as `{:?}` prints it; with the file present, a spawn failure `e` is "Failed to check requirements: " + e and an exited import check is `Ok` of its success, so Ok(true) holds exactly when the file exists and `import fastapi, uvicorn` succeeds |
| BackendProcess.Hex | Seed/src-tauri/src/backend_manager.rs:56-65 | a code point below 0x100 is one or two lower-case hex digits, with no closing brace among them |
| BackendProcess.DebugChar | Seed/src-tauri/src/backend_manager.rs:56-65 | a character is printed as itself exactly when it is not a quote of either kind, a backslash or an ASCII control character; otherwise its escape starts with a backslash |
| BackendProcess.DebugPath | Seed/src-tauri/src/backend_manager.rs:56-65 | the printed path sits between double quotes, and the text between them reads back to the path |
| BackendProcess.DebugRoundTrip | Seed/src-tauri/src/backend_manager.rs:56-65 | the `{:?}` escaping of a path loses nothing: reading the escapes back gives the path |
| BackendProcess.DebugPlain | Seed/src-tauri/src/backend_manager.rs:56-65 | a path with no double quote, single quote, backslash or ASCII control character is printed as it is |
| BackendProcess.DebugConcat | Seed/src-tauri/src/backend_manager.rs:56-65 | the escaping goes character by character, so it distributes over concatenation |
| BackendProcess.DebugWindowsPath | Seed/src-tauri/src/backend_manager.rs:56-65 | a Windows path `a\\b` whose parts hold no quote of either kind, backslash or control character appears in the messages with its separator doubled |
| BackendProcess.DebugCharBack | Seed/src-tauri/src/backend_manager.rs:56-65 | each escaped character reads back from the front of any text |
| BackendProcess.UnicodeEscapeBack | Seed/src-tauri/src/backend_manager.rs:56-65 | a `\\u{..}` escape of an ASCII control character reads back to that character |
| BackendProcess.InstallRequirements | Seed/src-tauri/src/backend_manager.rs:379-408 | a missing file gives the same `{:?}`-quoted error; with the file present, a spawn failure `e` is "Failed to install requirements: " + e and a pip run that exits unsuccessfully is "Failed to install requirements: " + its stderr; Ok exactly when the file exists and `pip install -r` exits successfully, with the fixed success message |
| BackendProcess.JoinPath | Seed/src-tauri/src/backend_manager.rs:62 | `dir.join(name)` starts with `dir`, ends with `name`, and puts exactly one separator between them unless `dir` already ends in one |
| BackendProcess.Parent | Seed/src-tauri/src/backend_manager.rs:68-71 | `Path::parent` gives a proper leading part of the path, or none at the root or for the empty path |
| BackendProcess.ProjectRoot | Seed/src-tauri/src/backend_manager.rs:68-71 | the project root is a leading part of the backend directory, and differs from it exactly when the directory has a parent |
| BackendProcess.ParentIgnoresTrailingSlash | Seed/src-tauri/src/backend_manager.rs:68-71 | a trailing separator does not change the parent, as `Path::parent` ignores it |
| BackendProcess.ParentOfChild | Seed/src-tauri/src/backend_manager.rs:68-71 | the parent of `dir/name` is `dir`, less trailing separators and `.` components |
| BackendProcess.ParentOfRootChild | Seed/src-tauri/src/backend_manager.rs:68-71 | the parent of `/name` is the root |
| BackendProcess.ParentOfJoin | Seed/src-tauri/src/backend_manager.rs:62-71 | the parent of `dir.join(name)` is `dir`, whether or not `dir` ends in a separator |
| BackendProcess.TrailingSlashProjectRoot | Seed/src-tauri/src/backend_manager.rs:68-71 | a backend directory given as `root/name/` still has `root` as its project root |
| BackendProcess.StartCheckFailure | Seed/src-tauri/src/backend_manager.rs:48-65 | start-up proceeds exactly when the interpreter runs, the backend directory exists and app_v2.py is in it; the first failing check names the error, quoting the directory or script path as `{:?}` prints it |
| BackendProcess.BackendManager.constructor | Seed/src-tauri/src/backend_manager.rs:22-27 | a new manager holds no process and keeps the port |
| BackendProcess.BackendManager.StartBackend | Seed/src-tauri/src/backend_manager.rs:30-102 | a running backend is left alone; otherwise the slot is filled exactly when the checks pass and the spawn succeeds; a failed spawn names the interpreter and the project root (the directory's `Path::parent`, a trailing separator ignored) as `{:?}` prints it |
| BackendProcess.BackendManager.StopBackend | Seed/src-tauri/src/backend_manager.rs:116-130 | the slot is empty afterwards, even when the kill fails; the reply says whether a backend was stopped, not running, or failed to die |
| BackendProcess.BackendManager.CheckStatus | Seed/src-tauri/src/backend_manager.rs:133-139 | running exactly when the slot holds a process |
| TauriCommands.PythonAvailable | Seed/src-tauri/src/commands.rs:35-38 | Python counts as available exactly when the details carry `meets_requirements: true`; a missing or non-boolean field is false |
| TauriCommands.RequirementsStatus | Seed/src-tauri/src/commands.rs:41-48 | without Python the requirements are not checked and report (false, no error); an error always comes with `false` |
| TauriCommands.Report | Seed/src-tauri/src/commands.rs:50-55 | the report has its four keys, each holding the value given for it |
| TauriCommands.CheckDependencies | Seed/src-tauri/src/commands.rs:26-56 | the report always succeeds, with its four keys and the Python details as the manager gives them |
| TauriCommands.CheckDependenciesReport | Seed/src-tauri/src/commands.rs:26-56 | the report always succeeds with exactly its four keys; `python_available` is whether the resolved interpreter meets 3.11+, and the requirements fields follow the import check only then |
| TauriCommands.ReportIgnoresRequirementsWithoutPython | Seed/src-tauri/src/commands.rs:41-48 | without a suitable Python the report does not depend on the requirements path |
| TauriCommands.HookReport | src/hooks/useTauri.ts:108-124 | the dependency hook reads the two report booleans, anything but `true` counting as false |
| TauriCommands.HookSeesGate | Seed/src-tauri/src/commands.rs:26-56 | the setup screen sees Python available exactly when the interpreter meets 3.11+, and requirements installed exactly when additionally the import check succeeded |
| TauriCommands.GetBackendPort | Seed/src-tauri/src/commands.rs:68-71 | the port query always succeeds with the manager's port |
| TauriCommands.FreshManagerPort | Seed/src-tauri/src/lib.rs:15 | the shell's manager reports port 8000, the port the web view assumes before asking |
| Exceptions.RaiseHttpException | backend/core/exceptions.py:43-45 | the exception carries exactly the given status and detail, with no headers |
| Exceptions.RaiseUnauthorized | backend/core/exceptions.py:48-54 | status 401 with a `WWW-Authenticate: Bearer` challenge; the detail defaults to "Could not validate credentials" |
| Exceptions.RaiseForbidden | backend/core/exceptions.py:57-59 | status 403, no headers, detail defaulting to "Forbidden" |
| Exceptions.RaiseNotFound | backend/core/exceptions.py:62-64 | status 404, no headers, detail defaulting to "Not found" |
| Exceptions.RaiseBadRequest | backend/core/exceptions.py:67-69 | status 400, no headers, detail defaulting to "Bad request" |
| SecurityConfig.DropUnderscores | backend/core/security_config.py:18 | removing the grouping underscores from digit groups leaves only digits |
| SecurityConfig.DropUnderscoresOfDigits | backend/core/security_config.py:18 | text without underscores is unchanged by their removal |
| SecurityConfig.SignedDigits | backend/core/security_config.py:18 | text whose unsigned part is digit groups holds only digits, underscores and one leading sign |
| SecurityConfig.ParseInt | backend/core/security_config.py:18-33 | `int()` accepts only trimmed text made of digits, underscores and a leading sign |
| SecurityConfig.ParseIntDecimal | backend/core/security_config.py:18-33 | the decimal text of every natural number converts back to it (round trip) |
| SecurityConfig.ParseIntNegative | backend/core/security_config.py:18-33 | a leading minus negates the value |
| SecurityConfig.DoubleUnderscoreRejected | backend/core/security_config.py:18-33 | two adjacent underscores anywhere make `int()` fail |
| SecurityConfig.DefaultTexts | backend/core/security_config.py:17-33 | the default texts "60", "30", "100", "100", "120" are the decimal forms of the default values |
| SecurityConfig.DefaultTextParses | backend/core/security_config.py:17-33 | each default text converts to its default value |
| SecurityConfig.Parsed | backend/core/security_config.py:17-33 | the five numeric settings in declaration order, each with its variable name and its conversion |
| SecurityConfig.Collect | backend/core/security_config.py:17-33 | conversion succeeds exactly when every setting converts, keeping all values in order; otherwise it names the first setting that failed |
| SecurityConfig.Load | backend/core/security_config.py:10-46 | the settings load exactly when every numeric variable is an integer; each text setting is the variable or its default, and the origins are the comma-split text |
| SecurityConfig.DefaultOriginsSplit | backend/core/security_config.py:36-41 | the default origins text splits into exactly the four dev-server origins |
| SecurityConfig.DefaultConfig | backend/core/security_config.py:10-46 | with no variables set: the dev secret, 60 minutes, 30 days, 100 MB, 100 MB, 120 per minute, the four origins, development |
| SecurityConfig.IsDevelopment | backend/core/security_config.py:49-51 | development mode is never production mode |
| SecurityConfig.IsProduction | backend/core/security_config.py:54-56 | production mode is never the "development" environment |
| SecurityConfig.ModesExclusive | backend/core/security_config.py:48-56 | development and production exclude each other, and any other environment text is neither |
| Schemas.ValidateChat | backend/schemas_v2.py:19-25 | a chat body is accepted exactly when the query is present, top_k is in [1, 20] and max_tokens in [1, 4096] after the defaults 5 and 512; every failing field is reported |
| Schemas.QueryOnlyChat | backend/schemas_v2.py:19-25 | a body with only a query gets top_k 5, max_tokens 512 and sources included |
| Schemas.FormRequestAccepted | backend/schemas_v2.py:19-25 | whatever the chat form sends passes the backend's chat validation unchanged |
| Schemas.ValidateTranscribe | backend/schemas_v2.py:28-32 | accepted exactly when file_path is present; model "small" and language "en" by default |
| Schemas.ValidateTrain | backend/schemas_v2.py:35-38 | each source is included unless the body sets it to false |
| Schemas.ValidateLogin | backend/schemas_v2.py:13-16 | accepted exactly when both username and password are present; each missing field is reported |
| Schemas.MakeTokenResponse | backend/schemas_v2.py:55-59 | the response carries both tokens unchanged and the type "bearer" unless one is given |
| Auth.ParseRole | backend/core/auth.py:26-31 | the `role` field accepts exactly "owner" and "admin" |
| Auth.RoleName | backend/core/auth.py:30 | the text written for a role parses back to that role |
| Auth.ExpiresAt | backend/core/auth.py:86-89 | the `exp` claim is the expiry instant in whole seconds, rounded down |
| Auth.AccessLifetime | backend/core/auth.py:86-89 | a non-zero `expires_delta` sets the lifetime; none or a zero one (falsy) gives the configured minutes |
| Auth.CreateAccessToken | backend/core/auth.py:68-105 | the token is signed with the configured secret and carries the identity, the role, the expiry and type "access" |
| Auth.CreateRefreshToken | backend/core/auth.py:108-140 | the token is signed with the configured secret and carries the identity, the role, the expiry after the configured days and type "refresh" |
| Auth.PairSharesIdentity | backend/core/auth.py:225-244 | both tokens of a pair carry the same user, owner and role, differ only in type and expiry, and the pair is "bearer" |
| Auth.JwtDecode | backend/core/auth.py:157-161 | decoding succeeds exactly for a token signed with the key whose expiry second has not passed, and gives back its claims |
| Auth.DecodeTokenAt | backend/core/auth.py:143-179 | a library failure becomes 401 "Could not validate credentials: …"; success needs a valid token with user id, owner id, expiry and a known role, and keeps them |
| Auth.DecodeIgnoresType | backend/core/auth.py:163-176 | the "type" claim is never read: refresh and access tokens decode alike |
| Auth.MissingIdRefused | backend/core/auth.py:167-169 | a valid token without a user or owner id is refused with 401 "Invalid token: missing required fields" |
| Auth.CurrentUserAt | backend/core/auth.py:182-205 | as written: accepted exactly when decoding succeeds and the decoded (local-time) expiry is not before the UTC clock; otherwise 401 "Token has expired" |
| Auth.WestOfUtcRejectsFreshToken | backend/core/auth.py:175-201 | as written, a server further west of UTC than the access lifetime refuses every fresh access token as expired |
| Auth.EasternTimeRejectsFreshToken | backend/core/auth.py:175-201 | as written, with default settings at UTC-5 a token is refused the instant it is issued |
| Auth.CurrentUser | backend/core/auth.py:182-205 | corrected: an accepted token was signed with the secret, is unexpired in UTC, and yields the user and owner ids it carries |
| Auth.FreshTokenAccepted | backend/core/auth.py:182-205 | corrected: in UTC an access token is accepted, with its identity, from issue until a second before its lifetime ends |
| Auth.FreshTokenAcceptedAt | backend/core/auth.py:182-205 | as written, on a server at or east of UTC, an access token is accepted, with its identity, from issue until a second before its lifetime ends |
| Auth.CreateTokenPair | backend/core/auth.py:225-244 | the pair is "bearer": an access token with the configured lifetime and a refresh token, both signed with the secret and typed "access" and "refresh" |
| Auth.ExpiredTokenRefused | backend/core/auth.py:157-161 | once the expiry second has passed the library refuses the token, whatever the server's zone |
| Auth.VerifyDevCredentials | backend/core/auth.py:208-222 | accepted exactly for "dev"/"dev" in development mode |
| Auth.ProductionRefusesDev | backend/core/auth.py:208-222 | production never accepts the development credentials |
| FileTree.FindSpec | backend/core/scoped_storage.py:195 | a path is missing exactly when no entry carries it, and what is found is an entry of the tree |
| FileTree.FindEntry | backend/core/scoped_storage.py:195 | in a tree without repeated paths every entry is what its path finds |
| FileTree.HeadNotInTail | backend/core/scoped_storage.py:195 | the first path of a repeat-free tree does not occur again |
| FileTree.Put | backend/core/scoped_storage.py:146-147 | writing at a path makes it hold the new entry and leaves every other path as it was; an existing entry is replaced in place, a new one appended |
| FileTree.PutUnique | backend/core/scoped_storage.py:146-147 | writing keeps paths unique |
| FileTree.Remove | backend/core/scoped_storage.py:233-274 | removal empties the path (and with a tree everything below it) and leaves every other path as it was |
| FileTree.RemoveUnique | backend/core/scoped_storage.py:233-274 | removal keeps paths unique |
| FileTree.Children | backend/core/scoped_storage.py:198 | `iterdir` yields exactly the entries directly inside the directory |
| FileTree.ChildrenDistinct | backend/core/scoped_storage.py:198 | `iterdir` never yields a name twice |
| FileTree.MakeDirsFromOk | backend/core/scoped_storage.py:95 | creating from a given depth on succeeds exactly when no remaining prefix is a regular file |
| FileTree.MakeDirsFromKeeps | backend/core/scoped_storage.py:95 | paths other than the remaining prefixes are untouched |
| FileTree.MakeDirsFromDirs | backend/core/scoped_storage.py:95 | on success every remaining prefix is a directory |
| FileTree.MakeDirsFromUnique | backend/core/scoped_storage.py:95 | creating directories keeps paths unique, whether it succeeds or fails |
| FileTree.MakeDirsSpec | backend/core/scoped_storage.py:95 | `mkdir(parents=True, exist_ok=True)` succeeds exactly when no prefix is a regular file; then every prefix is a directory and nothing else changed |
| FileTree.WriteFile | backend/core/scoped_storage.py:146-147 | opening for writing succeeds exactly when the parent is a directory and the path is not one; the file then holds the new size; a parent that is a regular file gives NotADirectoryError |
| FileTree.ParentError | backend/core/scoped_storage.py:146-147 | a parent that is not a directory gives NotADirectoryError when it is a regular file and FileNotFoundError when it is missing |
| FileTree.FileSystem.constructor | backend/core/scoped_storage.py:102-110 | the file system starts as the given repeat-free tree |
| FileTree.FileSystem.MakeDirsAt | backend/core/scoped_storage.py:95 | the tree becomes what `MakeDirs` specifies, including the directories made before a failure |
| FileTree.FileSystem.Write | backend/core/scoped_storage.py:146-147 | the tree becomes what `WriteFile` specifies, and a failure changes nothing |
| FileTree.FileSystem.Unlink | backend/core/scoped_storage.py:233 | only a regular file is unlinked, removing exactly it; anything else fails with its error name and changes nothing |
| FileTree.FileSystem.RmTree | backend/core/scoped_storage.py:254-274 | only a directory is removed, together with everything below it; anything else fails and changes nothing |
| Storage.DataDir | backend/core/scoped_storage.py:44 | a non-empty argument wins; otherwise `DATA_DIR`, else "./data" |
| Storage.Child | backend/core/scoped_storage.py:57-83 | joining a name extends the path by that one component (joining "" leaves it as is) |
| Storage.OwnerPath | backend/core/scoped_storage.py:73-83 | the owner directory of a plain owner id is the data directory with that one component added |
| Storage.SoulPath | backend/core/scoped_storage.py:46-57 | a soul directory lies under its owner's directory, one component per plain id |
| Storage.CategoryPath | backend/core/scoped_storage.py:59-71 | a category directory lies under its soul's directory, one component per plain name |
| Storage.PathsNest | backend/core/scoped_storage.py:46-83 | a category directory lies inside its soul's, which lies inside its owner's, inside the data directory |
| Storage.CategoriesDistinct | backend/core/scoped_storage.py:33-35 | uploads, transcripts and index are three different directories of a soul |
| Storage.OwnersDisjoint | backend/core/scoped_storage.py:73-83 | for plain names, no path lies under two different owners' directories |
| Storage.SoulsDisjoint | backend/core/scoped_storage.py:46-57 | for plain names, no path lies under two different souls of one owner |
| Storage.MkdirError | backend/core/scoped_storage.py:95 | the error is FileExistsError exactly when the target itself is a regular file |
| Storage.MakeDirsKeepsDirs | backend/core/scoped_storage.py:95 | creating directories never turns an existing directory into anything else |
| Storage.EnsureStepsSnoc | backend/core/scoped_storage.py:93-96 | one more category extends the creation by one more `mkdir` |
| Storage.EnsureStepsUnique | backend/core/scoped_storage.py:93-96 | creating the category directories never repeats a path |
| Storage.EnsureStepsMakesDirs | backend/core/scoped_storage.py:93-96 | when no `mkdir` failed, every category directory exists as a directory |
| Storage.SaveFailure | backend/core/scoped_storage.py:161-163 | every save failure is a StorageError whose message is "Failed to save file: " and the cause |
| Storage.Save | backend/core/scoped_storage.py:113-163 | a successful save reports the name, size and category given; every failure is a StorageError "Failed to save file: …" |
| Storage.SaveUnique | backend/core/scoped_storage.py:113-163 | saving keeps paths unique |
| Storage.SaveStoresFile | backend/core/scoped_storage.py:113-160 | a successful save reports the name, size and category given, and the file is at category/filename with that size |
| Storage.ListCategories | backend/core/scoped_storage.py:184-191 | a non-empty category is walked alone; none or "" walks all three |
| Storage.CollectFiles | backend/core/scoped_storage.py:198-207 | the inner loop over one directory listing keeps exactly the regular files `FilesIn` specifies, in listing order |
| Storage.FilesInIff | backend/core/scoped_storage.py:198-207 | a file is listed exactly when it is a regular-file child, reported under the category walked |
| Storage.FilesInDistinct | backend/core/scoped_storage.py:198-207 | the names listed from one directory are distinct |
| Storage.ListInSnoc | backend/core/scoped_storage.py:193-207 | one more category extends the listing by that category's files |
| Storage.ListIn | backend/core/scoped_storage.py:193-209 | every file listed belongs to a category walked; the only failure is NotADirectoryError |
| Storage.ListInIff | backend/core/scoped_storage.py:193-209 | a file is listed exactly when it is a regular file directly inside the directory of a category walked |
| Storage.ListInOk | backend/core/scoped_storage.py:193-209 | listing fails exactly when some category walked is a regular file |
| Storage.SavedFileFound | backend/core/scoped_storage.py:113-160 | for plain names, after a successful save the category is a directory holding the file with its size |
| Storage.SavedFileListedOnce | backend/core/scoped_storage.py:113-209 | for plain names, after a successful save, listing the category shows the file exactly once; saving the same name again overwrites it |
| Storage.ListedOnce | backend/core/scoped_storage.py:193-209 | a regular file inside an existing category directory is listed there exactly once |
| Storage.TotalSize | backend/core/scoped_storage.py:306 | the total of no files is 0 |
| Storage.StatsOf | backend/core/scoped_storage.py:304-307 | a category's statistics are its number of files and their total size |
| Storage.TotalSizeAppend | backend/core/scoped_storage.py:306 | the total of a concatenated listing is the sum of the parts' totals |
| Storage.DeleteOwnerIsolated | backend/core/scoped_storage.py:261-279 | for plain names, deleting one owner's data leaves everything under every other owner unchanged |
| Storage.DeletePath | backend/core/scoped_storage.py:211-238 | a missing path gives False and changes nothing; True exactly when the path is a directory (tree) or a regular file (single file), which is then removed with nothing else changed; the wrong kind raises and changes nothing |
| Storage.DeleteSoulIsolated | backend/core/scoped_storage.py:240-259 | for plain names, deleting one soul's data leaves the owner's other souls unchanged |
| Storage.ScopedPathBuilder.constructor | backend/core/scoped_storage.py:37-44 | the builder's root is the resolved data directory |
| Storage.ScopedPathBuilder.EnsurePathsExist | backend/core/scoped_storage.py:85-96 | the loop creates the three category directories in order, stopping at the first error, as `EnsureSteps` specifies |
| Storage.ScopedStorage.constructor | backend/core/scoped_storage.py:102-111 | the storage's root is the resolved data directory over the given file system |
| Storage.ScopedStorage.SaveFile | backend/core/scoped_storage.py:113-163 | the new tree and the result are what `Save` specifies |
| Storage.ScopedStorage.ListFiles | backend/core/scoped_storage.py:165-209 | the nested loop returns exactly the listing `ListIn` specifies, files in category then directory order |
| Storage.ScopedStorage.DeleteFile | backend/core/scoped_storage.py:211-238 | False when the file is missing; otherwise exactly that file is removed and True returned; a directory makes `unlink` raise |
| Storage.ScopedStorage.DeleteSoulData | backend/core/scoped_storage.py:240-259 | False when the soul's directory is missing; otherwise it is removed with everything below it |
| Storage.ScopedStorage.DeleteOwnerData | backend/core/scoped_storage.py:261-279 | False when the owner's directory is missing; otherwise it is removed with everything below it |
| Storage.ScopedStorage.GetStorageStats | backend/core/scoped_storage.py:281-309 | succeeds exactly when no category path is a regular file; then there is one entry per category, holding its listing's count and total size |
| Storage.ListInStops | backend/core/scoped_storage.py:193-209 | once a category fails, walking further categories fails the same way |
| ScopedRag.Status | backend/core/scoped_rag.py:117-136 | the index is present exactly when its path exists; the count is the number of entries directly inside it, 0 when it is not a directory; phase and message are the placeholder's |
| ScopedRag.ScopedRag.constructor | backend/core/scoped_rag.py:18-26 | the index manager's root is the resolved data directory over the given file system |
| ScopedRag.ScopedRag.IndexPath | backend/core/scoped_rag.py:50-52 | the index lives in the soul's "index" category directory |
| ScopedRag.ScopedRag.CheckIndexStatus | backend/core/scoped_rag.py:102-136 | the report is what `Status` specifies, and nothing changes |
| ScopedRag.ScopedRag.BuildIndex | backend/core/scoped_rag.py:28-70 | succeeds exactly when the index directory can be made; then the index exists and the report is the placeholder's with 0 documents; a failing `mkdir` raises and keeps the directories already made |
| ScopedRag.ScopedRag.Query | backend/core/scoped_rag.py:72-100 | the placeholder retrieves no documents |
| ScopedRag.ScopedRag.DeleteIndex | backend/core/scoped_rag.py:138-163 | True exactly when the index existed and was removed with its contents; afterwards there is no index |
| App.MayAccess | backend/app_v2.py:220-224 | an owner may reach exactly their own data; an admin may reach anyone's |
| App.Describe | backend/app_v2.py:265-270 | `str(e)` of an HTTP exception is its status code, ": " and its detail; of a domain error its message; of any other its name |
| App.Authorize | backend/app_v2.py:212-224 | on a server with the given UTC offset, a request passes exactly when `get_current_user` as written accepts the token and the user may access the owner; otherwise the authentication error as it is, or 403 "Access denied to this owner's data" |
| App.Response | backend/app_v2.py:169-173 | the response carries the pair's two tokens and its type unchanged |
| App.Login | backend/app_v2.py:146-173 | succeeds exactly for the development credentials, issuing a pair in which the user is their own owner with role "owner"; otherwise 401 "Invalid credentials" |
| App.LoginGrantsOwnData | backend/app_v2.py:146-224 | on a server at or east of UTC, a login's access token reaches exactly the user's own data for its whole lifetime but the last second |
| App.WestOfUtcLocksOut | backend/core/auth.py:182-205 | on a server west of UTC by more than the access lifetime, a login's access token is refused with 401 "Token has expired" on every scoped endpoint, for every owner |
| App.Refresh | backend/app_v2.py:176-204 | succeeds exactly when the token decodes, re-issuing a pair for the identity it carries; any failure is 401 "Invalid refresh token" |
| App.RefreshKeepsIdentity | backend/app_v2.py:176-204 | refreshing with a login's refresh token, while it lasts, re-issues tokens for the same user |
| App.TokenTypeNotChecked | backend/app_v2.py:176-204 | the token type is never checked: an access token also refreshes and, at or east of UTC, a refresh token also authenticates requests |
| App.TooLarge | backend/app_v2.py:235-236 | an oversized file is refused with 400 |
| App.UploadFailure | backend/app_v2.py:265-270 | a StorageError becomes 500 "File upload failed: …"; anything else passes through |
| App.UploadsSnoc | backend/app_v2.py:230-256 | one more file extends the upload by one more step |
| App.UploadsStop | backend/app_v2.py:229-270 | once a file fails, later files are not looked at |
| App.UploadStep | backend/app_v2.py:230-256 | a failed upload passes through; a file over the limit stops it with 400 and the tree unchanged; any failure of the file itself is 400 or 500; a success adds one file |
| App.Uploads | backend/app_v2.py:229-270 | a successful upload reports one file per file sent; every failure is an HTTP error, 400 or 500 |
| App.UploadsOk | backend/app_v2.py:229-264 | a successful upload saved every file, none over the limit, each reported under its own name and size in "uploads" |
| App.UploadStepOk | backend/app_v2.py:230-256 | a file that goes through was within the limit and is appended as given |
| App.UploadTooLarge | backend/app_v2.py:235-236 | an oversized file stops the upload with 400, and the files saved before it stay saved |
| App.UploadAtLimit | backend/app_v2.py:235 | a file of exactly the limit is not refused for its size |
| App.UploadReply | backend/app_v2.py:260-264 | the response lists the saved files, their number and their total size |
| App.DeleteReply | backend/app_v2.py:327-334 | a deletion that found nothing becomes 404 with its message; one that deleted becomes success; errors pass through |
| App.DeleteReplySucceedsOnly | backend/app_v2.py:309-388 | a deletion response is produced only for an actual deletion, and always with success true |
| App.Context | backend/app_v2.py:515 | the context is one text per document ("" when missing), or none when there are no documents |
| App.Backend.constructor | backend/app_v2.py:1-89 | the backend's storage and index manager share one file system and one data directory |
| App.Backend.UploadFiles | backend/app_v2.py:211-270 | an unauthorized request changes nothing; otherwise the loop saves the files as `Uploads` specifies and reports their count and total size |
| App.Backend.ListFiles | backend/app_v2.py:273-306 | an authorized request gets the listing `ListIn` specifies with its count and total size |
| App.Backend.DeleteFile | backend/app_v2.py:309-334 | an authorized request removes the file as `DeletePath` specifies; a missing file is 404 "File not found" |
| App.Backend.DeleteSoulData | backend/app_v2.py:336-361 | an authorized request removes the soul's tree; a missing one is 404 "Soul data not found" |
| App.Backend.DeleteOwnerData | backend/app_v2.py:363-388 | an authorized request removes the owner's tree; a missing one is 404 "Owner data not found" |
| App.Backend.Train | backend/app_v2.py:445-481 | an unauthorized request changes nothing; otherwise the tree is what making the index directory leaves, success has 0 documents indexed, and a failure is 500 "RAG training failed: " with the mkdir error |
| App.Backend.SoulStatusOf | backend/app_v2.py:117-139 | an authorized request succeeds exactly when no category path is a regular file; it reports the owner, the soul, each category's file count and total size as listing it gives, and the index status |
| App.Backend.Chat | backend/app_v2.py:484-538 | the index is queried exactly when it exists and sources are wanted; the model gets the query and token budget; its failure is 500 "Chat failed: …"; the reply reports whether there is a knowledge base and its document count |
| LazyInit.SimpleName | backend/core/lazy_init.py:48-51 | a name without a dot is imported as it is |
| LazyInit.DottedName | backend/core/lazy_init.py:52-55 | "pkg.last" imports pkg (itself possibly dotted) and reads its attribute last, an import failure propagating |
| LazyInit.CustomFunctionWins | backend/core/lazy_init.py:44-45 | a custom import function is used instead of importlib, whatever the name |
| LazyInit.OwnImportFnsNeverRaise | backend/core/lazy_init.py:104-145 | the module's own import functions never raise: the router placeholder gives None and a missing package gives None |
| LazyInit.LazyModule.constructor | backend/core/lazy_init.py:17-29 | a new loader keeps its name and import function and has loaded nothing |
| LazyInit.LazyModule.Load | backend/core/lazy_init.py:31-58 | once loaded, the cached object is returned unchanged whatever the world says; otherwise the target is resolved, success (None included) is cached, and a failure raises and leaves the loader unloaded |
| LazyInit.LazyModule.IsLoaded | backend/core/lazy_init.py:71-73 | reports exactly the loaded flag, which `Load` sets on success and only then |
| LazyInit.LazyModule.GetAttribute | backend/core/lazy_init.py:60-63 | the attribute is read from what the load gives, a load failure propagating |
| LazyInit.LazyModule.Call | backend/core/lazy_init.py:65-68 | what the load gives is called, a load failure propagating; calling None raises TypeError |
| LazyInit.LazyImport | backend/core/lazy_init.py:76-97 | a fresh, unloaded loader for the name and import function |
| LazyInit.EmbeddingsStayNone | backend/core/lazy_init.py:113-121 | an embeddings loader used before sentence_transformers is installed caches None and keeps answering None after installation |
| ModelRegistry.GetModelConfig | backend/core/llm/model_registry.py:22-25 | a known id gives its entry, which runs on Ollama with 2048 tokens; an unknown id raises ValueError "Unknown model: <id>. Available: " followed by the repr of the id list |
| ModelRegistry.ListModels | backend/core/llm/model_registry.py:27-28 | the table is keyed by exactly the two ids, and each entry is what `get_model_config` gives for its id |
| ModelRegistry.RegistryShape | backend/core/llm/model_registry.py:3-20 | the table holds exactly local-llama and local-mistral, the default is one of them, and every entry runs on Ollama with 2048 tokens at temperature 0.7 |
| ModelRegistry.AvailableRepr | backend/core/llm/model_registry.py:24 | a two-id list prints as Python's repr of it, `['a', 'b']`, so the message reads "Available: ['local-llama', 'local-mistral']" |
| LlmRouter.DefaultModelUsed | backend/core/llm/router.py:14-16 | no id means local-llama, which runs llama3:8b with 2048 tokens at 0.7 |
| LlmRouter.Route | backend/core/llm/router.py:14-31 | an unknown id fails with the registry's error; routing succeeds exactly when the provider is known, passing the prompt, the history and the entry's model name on |
| LlmRouter.UnknownModelRejected | backend/core/llm/router.py:18 | an unknown id fails with the registry's ValueError |
| LlmRouter.KnownModelRouted | backend/core/llm/router.py:18-31 | every known id routes to Ollama with its own model name, 2048 tokens, 0.7, and the prompt and history unchanged |
| LlmRouter.RunInference | backend/core/llm/router.py:10-31 | a routing error is returned with no request made; otherwise the client built from the environment posts the request `RequestFor` specifies and its reply is returned |
| Ollama.BaseUrl | backend/core/llm/local_ollama.py:10 | `OLLAMA_BASE_URL` when set (even empty), else http://localhost:11434 |
| Ollama.Entries | backend/core/llm/local_ollama.py:23 | no history and an empty history both contribute nothing |
| Ollama.ToMessage | backend/core/llm/local_ollama.py:25-28 | a history entry keeps its role and content; a missing role becomes "user" and missing content "" |
| Ollama.ConvertedEntries | backend/core/llm/local_ollama.py:23-28 | the history is converted entry by entry, keeping length and order |
| Ollama.Messages | backend/core/llm/local_ollama.py:21-30 | one message per history entry and then the prompt as a user message |
| Ollama.MessagesShape | backend/core/llm/local_ollama.py:21-30 | one message per history entry in order, a missing role "user" and missing content "", and last the prompt as a user message |
| Ollama.RequestFor | backend/core/llm/local_ollama.py:32-46 | the request goes to <base>/api/chat with a 120-second timeout, never streaming, with the model, the messages, the token budget and the temperature |
| Ollama.ReplyOf | backend/core/llm/local_ollama.py:42-49 | the reply is `message.content` ("" for either key missing) exactly when the answer is 2xx JSON; transport errors propagate and other statuses raise HTTPStatusError |
| Ollama.OllamaClient.constructor | backend/core/llm/local_ollama.py:9-11 | the client reads its base URL from the environment and uses a 120-second timeout |
| Ollama.OllamaClient.Generate | backend/core/llm/local_ollama.py:13-49 | the loop builds the request `RequestFor` specifies, and the reply is what `ReplyOf` gives for the exchange |

## Left out

- Concurrency and timing:
  - Promises, React scheduling, the 30-second health poll and the one-second completion delay are one step each.
  - The Rust `Mutex` around the manager and the lock in `lazy_init.py` are not modelled; only sequential behaviour is.
- Cryptography:
  - A JWT's signature is reduced to the key that signed it.
  - The bcrypt helpers `hash_password` and `verify_password` are not modelled. No endpoint in `app_v2.py` calls them; login checks only the development credentials.
  - bcrypt and HS256 are not modelled.
- Transport: `fetch`, `httpx`, FastAPI routing, CORS middleware and multipart parsing are not modelled. Each call's outcome is a parameter.
- The operating system:
  - Spawning processes, `Command` output and the file-existence probes are answers of a `Host` value.
  - The child process is an opaque handle.
  - Whether killing it fails is a parameter of `StopBackend`.
- The filesystem:
  - Path components are opaque. There is no "/" or ".." normalisation and no symlinks.
  - An OS error is known only by its exception class.
  - A directory listing returns entries in creation order, where the real order is unspecified.
  - Timestamps (`ctime`, `created_at`) are not modelled.
- Floating point:
  - The chat temperature of both `ChatRequest` types is not modelled.
  - The model table's temperature is passed through as a `real`.
- Endpoints with no logic of their own: `/health`, `/status` and `/status/llm` are not modelled.
- The `/transcribe` endpoint (`app_v2.py:393-441`) is not modelled. After the access check it calls the transcription runner, creates the soul's `transcripts` directory, writes the runner's text to `<stem>_transcript.txt` there, and turns any failure into 500 "Transcription failed: …". The runner is a placeholder.
- The remaining wrappers in `src/lib/api.ts` (`getModels`, `getSoulStatus`, `chat`, `deleteFile`, `trainSoul`, `transcribe`) each forward one URL to `apiFetch`, whose headers and error mapping `ApiClient.Api.ApiFetch` models. They are not modelled one by one.
- Not modelled from the rest of the web view:
  - `useAppLifecycle` and the window hooks;
  - the decorative components.
- LazyInit.LazyModule.Call: call arguments are not modelled. Calling the loaded object is one oracle answer per object.
- Ollama.MessagesShape: a history entry that is not a mapping, and content that is not a string, are not modelled. Every entry is a role/content pair of optional strings.
- Ollama.ReplyOf: a `message` key whose value is `null` (which raises `AttributeError` in the code) is not modelled. The reply body is a pair of optional fields.
- BackendProcess.DebugChar: Rust's `Debug` also escapes non-ASCII characters that are not printable (such as U+0085) and combining marks; the model escapes only the ASCII ones and prints the others as they are.
- BackendProcess.ProjectRoot: `Path::parent` is modelled with '/' as the only separator. Windows backslash separators, drive and UNC prefixes are not modelled.
- BackendProcess.PathSplittable: a caller-supplied `python_path` made only of whitespace and holding a space makes `get_python_info` index an empty word list and panic (backend_manager.rs:223-225). The members that probe the caller's path with `get_python_info` (CheckPythonAvailable, GetPythonDetails, the dependency report) require PathSplittable and do not model the panic; the detected candidates are proved never to hit it. CheckRequirements and InstallRequirements hand the path to `Command::new` unsplit, so they take any path.
- ChatInput.CharacterCount: JavaScript's `.length` counts UTF-16 code units, so a character outside the Basic Multilingual Plane counts as 2; the model counts code points.
- EventsContent.StrLe: JavaScript compares strings by UTF-16 code units, and the model compares code points. The two orders differ when a character above U+FFFF is compared with one from U+E000 to U+FFFF. ISO dates are ASCII, so the date filter is unaffected.
- Auth.ExpiresAt: `datetime.utcnow() + timedelta(...)` raises OverflowError once the expiry falls outside the years 1–9999, which an unbounded `ACCESS_TOKEN_EXPIRE_MINUTES` or `REFRESH_TOKEN_EXPIRE_DAYS` can cause (security_config.py:17-21). The model computes an expiry for every lifetime.
- Auth.CreateAccessToken: does not model the OverflowError for an access lifetime beyond the datetime range; the model always issues a token.
- Auth.CreateRefreshToken: does not model the OverflowError for a refresh lifetime beyond the datetime range; the model always issues a token.
- Auth.CreateTokenPair: does not model the OverflowError of either token, so a pair is always issued.
- App.Login: does not model the 500 that the unhandled OverflowError gives for an out-of-range configured lifetime (app_v2.py:161-165); the development credentials always get a pair.
- App.Refresh: does not model the 401 "Invalid refresh token" that `except Exception` (app_v2.py:198-203) gives when token creation overflows; a decodable token always gets a new pair.
- A request without an `Authorization` header is refused by `HTTPBearer` with 403 "Not authenticated" before any handler runs; the model starts from a token that is present.
- BackendProcess.JoinPath: joins with "/". On Windows `PathBuf::join` inserts a backslash, which the not-found messages then show doubled.
- App.LoginGrantsOwnData: stated for a server at or east of UTC. West of UTC by more than the access lifetime, `App.WestOfUtcLocksOut` holds instead. West by less, the token is refused earlier than its lifetime; that window is not stated.
- App.TokenTypeNotChecked: stated for a server at or east of UTC, for the same reason.
- Storage.OwnersDisjoint: holds for plain names only (`Storage.PlainName`). `scoped_storage.py` joins the names it is given unchecked, and a name such as "../x" would leave the owner's directory, which the model's opaque components cannot express.
- Storage.SoulsDisjoint: plain names only, as for `Storage.OwnersDisjoint`.
- Storage.SavedFileFound: plain names only. The file name comes from the multipart body (`app_v2.py:246`) and is joined at `scoped_storage.py:143`.
- Storage.SavedFileListedOnce: plain names only, as for `Storage.SavedFileFound`.
- Storage.DeleteOwnerIsolated: plain names only, as for `Storage.OwnersDisjoint`.
- Storage.DeleteSoulIsolated: plain names only, as for `Storage.OwnersDisjoint`.
- ModelStore.Escape: `JSON.stringify` also escapes control characters (`\n`, `\u00XX`). The model keeps them as they are. The saved text then differs, but the round trip does not.
- SecurityConfig.ParseInt: Python's `int()` also accepts non-ASCII Unicode decimal digits (such as Arabic-Indic digits). The model accepts ASCII digits only.
- TauriCommands.Report: the keys are in the order the `json!` literal writes them. Without serde_json's `preserve_order` feature the serialised object lists them sorted. The web view reads the fields by name, so the order does not affect it.
- BackendProcess.DetectPython:
  - On Windows the candidate "py -3.11" is returned as one command string.
  - The code passes that string whole to `Command::new`, and so does the model, through `Host.run`.
  - Whether the operating system can run such a command is the `Host`'s answer, not something the model decides.

## Findings

| source | as written | input that shows it | evidently intended | confidence | as-written member | corrected member |
|---|---|---|---|---|---|---|
| backend/core/auth.py:175-201 | `get_current_user` converts the token's `exp` claim with `datetime.fromtimestamp`, which gives local time, and compares it with `datetime.utcnow()` | a server at UTC-5 with the default 60-minute access lifetime, checking an access token at the instant it is issued: the local expiry is 4 hours behind UTC now, so the token is rejected as expired, and every scoped endpoint refuses it (`App.WestOfUtcLocksOut`) | expiry read and compared in UTC, so a token is accepted until its `exp` | not executed | Auth.CurrentUserAt | Auth.CurrentUser |

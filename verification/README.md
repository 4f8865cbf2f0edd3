# Prompt Wisp extension core, modelled in Dafny

Prompt Wisp is a browser extension that captures the prompt typed into an AI
assistant's page (ChatGPT, Claude, Gemini, DeepSeek, Grok, Meta AI, Copilot)
and keeps it in a list in the extension's local storage; a `savePromptToAPI`
message sends it to the Prompt Wisp server instead, falling back to local
storage when the server does not answer ok. This project models the logic of
its three scripts as pure functions:

- `js.dfy` (module `Js`): the JavaScript semantics the scripts lean on:
  `undefined`/empty-string falsiness in `a || b`, `String.prototype.trim`
  (the WhiteSpace and LineTerminator code points of the ECMAScript language
  specification) and `String.prototype.includes`.
- `tables.dfy` (module `Tables`): "first entry whose key is a substring
  wins", the lookup behind `detectSite`, `getSiteIcon` and the supported-site
  check.
- `records.dfy` (module `Records`): the saved record and local storage (the
  `prompts` key plus every other key, kept opaque).
- `prompt_list.dfy` (module `PromptList`): the newest-first list capped at
  200 records, deletion by id, and what many saves in a row do.
- `content.js` → `content.dfy` (module `Content`): `detectSite`,
  `getPromptSelectors`, `getCurrentPrompt`.
- `popup.js` → `popup.dfy` (module `Popup`): saving the current prompt,
  deleting, clearing, exporting, display truncation, site icons.
- `background.js` → `background.dfy` (module `Background`): the message
  handlers, remote-first save and fetch with local fallback, installation,
  and the message dispatch.

Effects are parameters and results. The store goes in and comes back out.
The outcome of each HTTP request is a `Remote` or `Auth` value. Whether
storage calls succeed is a `StorageStatus`. Record ids and timestamps are
inputs; ids come from `Date.now()` in the scripts, so nothing here assumes
they are unique.

The model follows the scripts as written, including these easily missed
behaviours:
- ids come from `Date.now()` and may repeat, and deletion removes every
  record with the given id;
- only `savePromptToAPI` rejects blank content; `handleSavePrompt` and the
  popup's `savePrompt` store whatever they are given;
- the popup's "clear all" writes an empty `prompts` list, while the
  background's `clearLocalData` removes every storage key;
- a remote save POSTs without checking the session first; whatever the
  server answers decides the branch, and any non-ok response takes the
  local path;
- a record does not say where it is stored; only the save response carries
  `location`;
- the popup checks the whole tab URL for a supported domain, while the
  content script looks only at the hostname, so a URL naming a domain in
  its query is accepted by the popup on a page the content script does not
  recognise.

## Model

| member | source | states |
|---|---|---|
| `Js.Trim` | content.js:73-74 | the trimmed text neither starts nor ends with whitespace, and it is empty exactly when the whole input is whitespace |
| `Js.TrimIsSlice` | content.js:74 | the trimmed text is a contiguous piece of the input with only whitespace cut off on either side |
| `Js.TrimIdempotent` | content.js:74 | trimming an already trimmed text changes nothing |
| `Js.IncludesTrans` | popup.js:61 | a string that includes a piece which includes a domain includes that domain |
| `Js.IncludesIff` | content.js:12-18 | `includes` holds exactly when the needle occurs at some position of the string |
| `Tables.FirstIncluded` | popup.js:61 | the position found is the first needle contained in the string: it matches and every earlier needle does not |
| `Tables.FirstMatch` | popup.js:209-212 | the value of the first table entry (in table order) whose key is contained in the string, and the fallback exactly when no key is |
| `Records.Load` | background.js:67 | a store without a `prompts` key reads as the empty list |
| `Records.Stored` | background.js:86 | writing the list replaces what readers see and leaves every other storage key unchanged |
| `PromptList.Prepend` | popup.js:106-111 | after a save the new record is at index 0, the length is min(old length + 1, 200), and entries 1.. are the first min(old length, 199) old entries in their order |
| `PromptList.RemoveId` | popup.js:295 | no record with the id survives, and deleting never lengthens the list |
| `PromptList.RemoveIdKeepsOthers` | popup.js:295 | every record with another id survives as often as it occurred, every record with the id is gone, and no record appears that was not there |
| `PromptList.RemoveAbsent` | popup.js:295 | deleting an id that no record carries leaves the list unchanged |
| `PromptList.RemoveIdempotent` | popup.js:295 | deleting the same id twice gives the list deleting it once gives |
| `PromptList.RemoveAppend` | popup.js:295 | deletion distributes over concatenation, so survivors keep their relative order |
| `PromptList.RemoveCommutes` | popup.js:295 | two deletions give the same list in either order |
| `PromptList.SaveAllKeepsNewest` | background.js:79-84 | any sequence of saves into a list within the cap leaves the newest 200 records, newest first, followed by the old records that still fit |
| `PromptList.Save201` | popup.js:106-111 | 201 saves into an empty list leave 200 records in reverse save order, and the first-saved record is the one dropped |
| `Content.DetectSite` | content.js:9-21 | the site of the first hostname fragment, in the fixed order DeepSeek, ChatGPT, Gemini, Claude, Grok, Meta, Copilot, that the hostname contains; `Unknown` exactly when it contains none |
| `Content.Selectors` | content.js:23-63 | a non-empty selector list: the entry under the site's name when the table has one, else `textarea` and `[contenteditable="true"]` |
| `Content.SiteSelectors` | content.js:24-62 | the selector table has an entry for the name of every known site, different from the default list, and none for `Unknown` |
| `Content.SelectorsOfDetectedSite` | content.js:62 | a detected site gets its table entry, and the default list is used exactly for `Unknown` |
| `Content.ElementText` | content.js:72 | the text is `value`, else `textContent`, else `innerText`, an empty string counting as absent at each step |
| `Content.Candidates` | content.js:68-70 | one query result per selector, in selector order |
| `Content.FirstPrompt` | content.js:68-82 | null exactly when every candidate is missing or blank; otherwise the trimmed text of the first non-blank candidate, which is non-empty and has no whitespace at either end |
| `Content.GetCurrentPrompt` | content.js:65-83 | the prompt is the trimmed text of the first element, in the site's selector order, whose text is non-blank, and null exactly when there is none |
| `Popup.IsSupported` | popup.js:51-61 | a URL is supported exactly when it contains one of the seven site domains |
| `Popup.SupportedIffDetected` | popup.js:51-61 | applied to the same string, the popup's check and the content script's detection agree: both lists name the same domains |
| `Popup.DetectedHostIsSupported` | popup.js:61 | a tab URL containing a hostname in which the content script detects a site is supported |
| `Popup.ExampleLettersAreUnknown` | content.js:9-21 | a hostname written only with the letters of `example.com` is detected as `Unknown`, since every domain has a letter outside them |
| `Popup.SupportedUrlOfUnknownHost` | popup.js:61 | `https://example.com/?r=chatgpt.com` is supported by the popup although its hostname `example.com` is `Unknown` to the content script |
| `Popup.Truncate` | popup.js:160-162 | a text over 120 characters shows as its first 120 characters plus `...` (123 in all); a shorter one shows unchanged |
| `Popup.TruncateIdempotent` | popup.js:160-162 | truncating a shown text again changes nothing |
| `Popup.SiteIcon` | popup.js:198-213 | the icon of the first domain, in table order, that the site string contains; `💬` exactly when it contains none |
| `Popup.DomainHasDot` | popup.js:199-207 | every domain of the icon table contains a dot |
| `Popup.DotlessSiteGetsDefaultIcon` | popup.js:209-212 | a site string without a dot always gets `💬`, since every domain contains one |
| `Popup.SiteIconIgnoresSiteNames` | popup.js:198-213 | every site name the content script reports gets `💬`; `ChatGPT` gets `💬` although `chatgpt.com` gets `🤖` |
| `Popup.SiteIconFixed` | popup.js:198-213 | corrected icon lookup: strings that are not site names are matched against the domains as before |
| `Popup.TableDomainGetsIcon` | popup.js:198-213 | each domain of the icon table is given a real icon, never `💬` |
| `Popup.KnownSiteShowsIcon` | popup.js:198-213 | with the correction, every recognised site name gets the icon of its own domain, never `💬` |
| `Popup.SiteIconFixedShowsSite` | popup.js:198-213 | with the correction, a record from a detected site shows a site icon and only `Unknown` shows `💬` |
| `Popup.SavePrompt` | popup.js:92-120 | on success the new popup record is first, the list is capped at 200 with older records in order, and other keys are untouched; a storage failure rejects |
| `Popup.SaveCurrentPrompt` | popup.js:27-90 | the save succeeds exactly when there is an active tab, its URL is supported, the content script returned a non-empty prompt and storage works; then the stored list is the old one with the popup record holding that prompt and site put first and the cap applied, and every refusal leaves the store as it was |
| `Popup.DeletePrompt` | popup.js:290-303 | on success no record with the id remains and the rest are kept; a storage failure is swallowed and changes nothing |
| `Popup.DeletePromptIdempotent` | popup.js:295-297 | deleting the same record twice leaves the store deleting it once leaves |
| `Popup.ClearAllPrompts` | popup.js:305-319 | a cancelled confirmation changes nothing and shows no status; after confirmation with working storage the list is empty, other keys stay and `All prompts cleared` is shown; a storage failure changes nothing and shows `Failed to clear prompts` |
| `Popup.ExportPrompts` | popup.js:321-354 | an empty list produces no export and an error status; otherwise the export holds the list unchanged with `promptCount` equal to its length |
| `Background.DefaultTitle` | background.js:73 | the title starts with `Prompt from ` followed by the site, or by `unknown` when the site is missing or empty |
| `Background.RequestRecord` | background.js:69-77 | `text` and `content` fall back on each other, so they hold the same string when only one is given; the title falls back to the default title; `site` and `url` fall back to the empty string |
| `Background.LocalRecord` | background.js:233-241 | the content fills both `text` and `content`, the URL is empty, and title and site get the same defaults |
| `Background.LocalRecordMatchesRequestRecord` | background.js:233-241 | both local save paths build the same record for a message carrying only content, title and site |
| `Background.HandleSavePrompt` | background.js:65-92 | on success the new record is first, the list is capped at 200 with older records in order, other keys are untouched and the record is sent back; a storage failure changes nothing and reports the error |
| `Background.HandleGetPrompts` | background.js:95-103 | responds with the stored list, `[]` when the key is missing |
| `Background.HandleClearLocalData` | background.js:106-114 | on success every storage key is gone, not only `prompts` |
| `Background.HandleCheckAuth` | background.js:132-147 | reports the server's `authenticated` flag, or the error when the check fails |
| `Background.SaveLocallyInternal` | background.js:230-256 | success exactly when storage works; then the local record is first and the list is capped at 200 with older records in order; a failure changes nothing |
| `Background.RequestBody` | background.js:165-169 | the body carries the content, the title or its default, and `tags` is `[site]` for a non-empty site and `[]` otherwise |
| `Background.HandleSavePromptToApi` | background.js:150-184 | blank content fails with `No content to save`, sends nothing and changes nothing; an ok server response gives location `server` and leaves the store unchanged; any other outcome performs exactly one local save with an empty URL and gives location `local` with the error |
| `Background.FailedApiSaveIsVisibleLocally` | background.js:178-183 | after a failed remote save with working storage, the local list read back starts with a record holding the content |
| `Background.ServerSaveAddsNoLocalCopy` | background.js:172-174 | a successful remote save adds no local record |
| `Background.HandleGetPromptsFromApi` | background.js:187-227 | the server list with source `server` exactly when signed in and the list request succeeds; otherwise the unmerged local list with source `local`, or no response when that local read fails too |
| `Background.UnauthenticatedFetchIgnoresServer` | background.js:199-204 | when not signed in the prompts endpoint's outcome cannot affect the response |
| `Background.OnInstalledAsWritten` | background.js:8-20 | as written, every `onInstalled` event ends with all storage cleared, whatever its reason |
| `Background.UpdateWipesPrompts` | background.js:17-19 | as written, an update event deletes a stored prompt |
| `Background.OnInstalled` | background.js:8-20 | corrected: the `prompts` key always ends up present, storage is cleared only on a fresh install, and other events keep every prompt and key |
| `Background.UpdateKeepsPrompts` | background.js:8-20 | with the correction an update keeps the prompts, and handling the same event twice equals handling it once |
| `Background.Route` | background.js:29-61 | a known action string goes to the handler of that name; any other string goes to the default case |
| `Background.HandleMessage` | background.js:28-62 | an unknown action answers `Unknown action` and changes nothing; each of the seven known actions answers with the result of the handler of that name, `syncWithServer` with its not-implemented reply; the read-only actions never change the store |
| `Background.OnlyWritesChangeStorage` | background.js:28-62 | only `savePrompt`, `savePromptToAPI` and `clearLocalData` can change storage |

## Left out

- The `chrome.storage`, `chrome.tabs` and `chrome.runtime` APIs: storage is a value passed in and returned, and tab and messaging results are parameters.
- `fetch` and HTTP: each request's outcome is a parameter; the `Content-Type` header and cookie credentials are not modelled.
- DOM querying is the `query` parameter of `Content.GetCurrentPrompt`; HTML rendering, `escapeHtml`, the details modal and its `find` by id, the page indicator, clipboard access, the Blob download and `showStatus` timers are UI code and foreign calls.
- `Date.now`, `toISOString` and locale date formatting: ids, timestamps and the export date are inputs.
- Concurrency: each operation runs alone; the lost update when two contexts save at once, and the callback ordering inside `onInstalled`, are not modelled (both orders of that listener's two storage calls read back as an empty list).
- `handleSyncWithServer` is a stub and is represented only by its reply.
- `onStartup` logging, `onUpdateAvailable` reload and the global error handlers.
- The `user` field of the authentication reply, and `authenticated` values that are not booleans.
- Message fields that are not strings (numbers, objects): fields are modelled as optional strings.
- `renderPrompts` on a record without `text` (possible for background saves with neither `text` nor `content`) throws in the script; the model does not render.
- `Popup.SaveCurrentPrompt`: a tab whose `url` is undefined makes the script throw and report `Failed to save prompt`; the model takes the URL as always present.
- `Popup.Truncate`: counts Unicode scalar values, where JavaScript counts UTF-16 code units, so a text with characters outside the Basic Multilingual Plane is cut at a different place.
- Selector lookups under names `detectSite` never returns, such as inherited object keys like `constructor`: `Content.Selectors` takes a detected site.
- `Content.GetCurrentPrompt`: a selector that throws is modelled as one that matches nothing, which is how the script's `try`/`catch` treats it.

## Findings

| source | as written | input that shows it | evidently intended | confidence | as-written member | corrected member |
|---|---|---|---|---|---|---|
| background.js:17-19 | tests `chrome.runtime.OnInstalledReason.INSTALL`, the constant `"install"`, which is always truthy, so `chrome.storage.local.clear()` runs on every `onInstalled` event | an `onInstalled` event with reason `update` while one prompt is stored: the prompt is deleted | clear storage only when the event's reason is `install` | not executed; high | `Background.UpdateWipesPrompts` | `Background.UpdateKeepsPrompts` |
| popup.js:198-213 | `getSiteIcon` looks for domains in `prompt.site`, but the popup stores the content script's site names (content.js:92) | a prompt saved on chatgpt.com is stored with site `ChatGPT`, and `getSiteIcon("ChatGPT")` is `💬` rather than `🤖` | a record saved from a known site shows that site's icon | not executed; high | `Popup.SiteIconIgnoresSiteNames` | `Popup.SiteIconFixedShowsSite` |

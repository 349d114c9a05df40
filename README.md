# AI character chat simulator — a Dafny model of its page logic

The simulator lets a user describe two characters and a shared worldview, then
watch a turn-based dialogue between them that an external language model writes
one line at a time. The user can pause it, inject narrative events, and edit,
delete or add lines. This project models the three state holders behind that:

- **The conversation page** (`Conversation.dfy`, class `ConversationView`). One
  engine step (`Tick`) checks the guard and the empty-history case. It then applies
  the turn-eligibility rule, appends the generated line and passes the turn, or
  appends an error notice and pauses. Around it sit the history operations: inject
  an event, delete, start/cancel/save an edit, add a blank line, and play/pause.
  The pure function `TickStep` specifies a step. The lemmas prove that a run of
  successful steps writes a strictly alternating dialogue.
- **The setup page** (`Setup.dfy`, class `CharacterSetup`). This covers the model
  allow-list and the "custom" selector, and the start check. It also covers the
  importer's classification of a decoded file: a session with history, complete
  settings, partial settings, or invalid. The merge and clear-and-apply
  reconciliations of a partial file are here, and so are the two ways to import a
  session with history. Export/import round trips are proved for a settings
  export, a session export with a non-empty history and an export with an
  incomplete profile. A session export whose history was emptied is proved to come
  back as settings only, losing its (empty) history.
- **The application shell** (`Application.dfy`, class `App`). This is the
  three-state theme cycle, the initial theme, and the switch between the setup and
  conversation pages with what each switch stores and clears.

`Types.dfy` holds the shared records `CharacterProfile {name, personality, identity}`
and `ChatMessage {sender, text}`, the sentinel sender `"System"`, and the start
request the setup page hands to the shell.

Each page is a class whose fields are the page's state. `State()` returns a
snapshot of those fields as a datatype value. Every handler states its whole
effect as an update of the old snapshot, so "nothing else changes" is part of
each contract. Every handler and every engine step is one atomic step.

Behaviour that is easy to miss and that the model keeps:
- The eligibility test's first branch (`System` and a non-empty event box) is
  subsumed by its third. The test is "the last sender is `System`, or is the
  character whose turn it is not" (`MayReply`).
- A supplied initial history is used even when it is empty, because an empty
  array is truthy. The setup page never supplies an empty history
  (`UploadConversation`). The empty-history notice is still reachable: delete every
  line while paused, then resume (`EmptiedHistoryGetsNotice`).
- `hasAnyValidKey` counts a `worldview` or `model` field that is present but
  empty. A file with a history but incomplete settings is classified as if it had
  no history.
- A merge copies a present field even when it is the empty string. A
  clear-and-apply turns a missing or empty worldview into `""` and a missing or
  empty model into `"gemini-2.5-flash"`.
- The saved theme is read back without a check, so any non-empty stored string
  becomes the theme. One press of the theme button brings it into the cycle
  (`AnyStoredThemeJoinsCycle`).
- At mount the setup page reads back the settings it stored. It only checks that
  both stored names are non-empty, so stored profiles without identity or
  personality are loaded and leave the page unable to start
  (`NamesOnlyLoadUnstartable`). The sample settings are only what a first visit shows.
- Messages are addressed by position only. A save aimed at an index after an
  earlier delete rewrites the neighbouring entry (`StaleIndexSave`).

## Model

| member | source | states |
|---|---|---|
| `Conversation.Flip` | pages/conversation-view.tsx:94 | the turn marker always changes to the other character |
| `Conversation.MayReply` | pages/conversation-view.tsx:76-85 | the three-branch eligibility test holds iff the last sender is `System` or the name of the character whose turn it is not |
| `Conversation.TickStep` | pages/conversation-view.tsx:63-102 | guard failed: no change. Empty history: exactly one System notice and the run stops. Not due: no change. Success: exactly the speaker's line is appended, the turn flips, the run continues. Failure: exactly one System error notice, the run stops, the turn stays. Loading is false after every step past the guard, and the editor, event box and session flags are untouched |
| `Conversation.DialogueAlternates` | pages/conversation-view.tsx:88-94 | line `i` of a dialogue begun by speaker `t` is spoken by `t` when `i` is even and by the other character when `i` is odd |
| `Conversation.SuccessesAlternate` | pages/conversation-view.tsx:63-102 | from a state where a reply is due, n successful steps append exactly the alternating dialogue of the n replies, flip the turn n times and leave a reply due |
| `Conversation.TwoRepliesRestoreTurn` | pages/conversation-view.tsx:88-94 | two successful steps in a row restore the original turn |
| `Conversation.TrimStart` | pages/conversation-view.tsx:117 | the result is the suffix of the input left after its maximal prefix of trimmable characters |
| `Conversation.TrimEnd` | pages/conversation-view.tsx:117 | the result is the prefix of the input left before its maximal suffix of trimmable characters |
| `Conversation.Trim` | pages/conversation-view.tsx:117-118 | the trimmed text is a slice of the input with only trimmable characters cut off before and after it; it is empty iff every character is ECMAScript whitespace or a line terminator, and otherwise starts and ends with a non-trimmable character |
| `Conversation.IsTrimmable` | pages/conversation-view.tsx:117 | the characters `String.prototype.trim` removes: ECMAScript white space and line terminators |
| `Conversation.CanAdvance` | pages/conversation-view.tsx:64 | the step guard: running, no request in flight, both sessions exist, no edit open |
| `Conversation.ApiErrorText` | pages/conversation-view.tsx:97 | the failure notice: the fixed prefix followed by the error's message, or by "未知錯誤" when there is none |
| `Conversation.EmptiedHistoryGetsNotice` | pages/conversation-view.tsx:63-74 | deleting the only line and resuming leaves an empty history, and the next step replaces it with the one empty-history notice and stops the run |
| `Conversation.KeepOthers` | pages/conversation-view.tsx:125 | filtering out one original index from a suffix starting at `from` removes exactly that entry, or nothing when the index lies outside the suffix |
| `Conversation.RemoveAt` | pages/conversation-view.tsx:124-126 | deleting index `i` shortens the history by one, keeps the entries before `i` and moves each later entry down by exactly one; out of range it changes nothing |
| `Conversation.WithText` | pages/conversation-view.tsx:137-144 | saving keeps the length and every sender, changes no other entry, and gives entry `i` the new text; out of range it changes nothing |
| `Conversation.StaleIndexSave` | pages/conversation-view.tsx:124-146 | after deleting an earlier entry, a save at index `i` rewrites the entry formerly at `i + 1` and leaves the one formerly at `i` as it was |
| `Conversation.BlankText` | pages/conversation-view.tsx:149 | a line added by hand starts as `"[事件：]"` for System and empty for a character |
| `Conversation.StatusText` | pages/conversation-view.tsx:187-191 | the status reads running iff conversing, editing iff paused with an edit open, paused otherwise |
| `Conversation.ConversationView.constructor` | pages/conversation-view.tsx:20-57 | history is the given one (even empty) or the start notice. The page starts paused, not loading, turn A, event box empty, no edit. The sessions are ready iff both were created, and the key banner shows otherwise. The page invariant (an open edit keeps the run paused) holds, and every handler keeps it |
| `Conversation.ConversationView.Tick` | pages/conversation-view.tsx:63-102 | the new state is `TickStep` of the old one with the page's two characters and the reply |
| `Conversation.ConversationView.ToggleConversation` | pages/conversation-view.tsx:111-114 | refused (no change) while the key banner shows or an edit is open; otherwise flips running and nothing else; an open edit keeps the run paused |
| `Conversation.ConversationView.SetSystemEvent` | pages/conversation-view.tsx:275 | only the event box changes |
| `Conversation.ConversationView.SendSystemEvent` | pages/conversation-view.tsx:116-122 | a blank box changes nothing; otherwise exactly `{System, "[事件：" + trimmed + "]"}` is appended, the box is cleared and running becomes true; callable only with no edit open |
| `Conversation.ConversationView.DeleteMessage` | pages/conversation-view.tsx:124-126 | only the history changes, to `RemoveAt` of it |
| `Conversation.ConversationView.StartEdit` | pages/conversation-view.tsx:128-131 | running becomes false and the editor opens on the index; the status then reads editing |
| `Conversation.ConversationView.CancelEdit` | pages/conversation-view.tsx:133-135 | only the editor closes |
| `Conversation.ConversationView.SaveEdit` | pages/conversation-view.tsx:137-146 | the history becomes `WithText` of it and the editor closes; nothing else changes |
| `Conversation.ConversationView.AddMessage` | pages/conversation-view.tsx:148-160 | exactly one blank line (`"[事件：]"` for System) is appended, running becomes false and the editor opens on the old length, which is the new line |
| `Setup.SelectorFor` | pages/character-setup.tsx:26-33 | the selector shows the model itself iff it is one of the four predefined models, and `"custom"` otherwise |
| `Setup.OrElse` | pages/character-setup.tsx:178-179 | `o || fallback` on an optional string: the value when it is present and non-empty, the fallback otherwise |
| `Setup.IsCompleteChar` | pages/character-setup.tsx:119 | a character object is complete iff it is present and its name, identity and personality are all present and non-empty |
| `Setup.HasConversation` | pages/character-setup.tsx:121 | the file carries a history array with at least one entry |
| `Setup.HasCompleteSettings` | pages/character-setup.tsx:122 | both characters are complete and worldview and model are present strings |
| `Setup.HasAnyValidKey` | pages/character-setup.tsx:128 | a character object is present, or a worldview or model field is present, even empty |
| `Setup.Exported` | pages/character-setup.tsx:85 | the setup page's download writes both profiles with all three fields, the worldview and the model, and no history; the conversation page's download (pages/conversation-view.tsx:164-170) writes the same four settings plus its current history, even when that is empty |
| `Setup.StartAllowed` | pages/character-setup.tsx:73-81 | start is allowed iff both profiles are complete in the importer's sense and worldview and model are non-empty |
| `Setup.Classify` | pages/character-setup.tsx:119-142 | the four importer branches partition the decoded records. With history: non-empty history and complete settings. Complete settings: complete settings and no non-empty history. Partial: incomplete settings with some recognised key. Invalid: no recognised key |
| `Setup.UploadedSession` | pages/character-setup.tsx:121-124 | the session held for the user's choice has a non-empty history |
| `Setup.MergeProfile` | pages/character-setup.tsx:163-164 | without an uploaded object the profile is unchanged; otherwise each present field (even empty) replaces the old value and each absent field keeps it |
| `Setup.ClearProfile` | pages/character-setup.tsx:174-177 | each field is the uploaded value when present and `""` otherwise, also when no object was uploaded |
| `Setup.MergeIdempotent` | pages/character-setup.tsx:159-169 | merging the same upload twice equals merging it once |
| `Setup.CompleteUploadOverridesAll` | pages/character-setup.tsx:159-182 | for a complete uploaded character, merge and clear-and-apply both give exactly the uploaded profile, whatever was there |
| `Setup.MergeVersusClearExample` | pages/character-setup.tsx:159-182 | an existing X/Y/Z and an upload naming only X2: merge gives X2/Y/Z, clear-and-apply gives X2 with empty identity and personality |
| `Setup.SettingsExportRoundTrip` | pages/character-setup.tsx:83-136 | a setup export with complete profiles is imported as complete settings that apply exactly the exported profiles |
| `Setup.SessionExportRoundTrip` | pages/character-setup.tsx:119-126 | an export with complete profiles and a non-empty history is imported as a session equal to the exported five fields |
| `Setup.EmptyHistoryExportDropsHistory` | pages/character-setup.tsx:119-136 | a conversation-page export with complete profiles and an emptied history is classified as complete settings, so importing it applies the exported profiles and drops the history |
| `Setup.IncompleteExportMergesBack` | pages/character-setup.tsx:128-169 | an export with an incomplete profile is imported as a partial upload, and merging it restores both exported profiles whatever was set before |
| `Setup.SavedProfilesUsable` | pages/character-setup.tsx:40 | the loader's guard: both stored character objects are present with non-empty names; every pair the importer calls complete passes it |
| `Setup.LoadedState` | pages/character-setup.tsx:35-54 | with nothing stored, unparsable text or a profile lacking a name, nothing changes. Otherwise both profiles become the stored objects, a stored worldview and model replace the old ones, and the selector follows the model. The error and the pending uploads are never touched |
| `Setup.SaveLoadRoundTrip` | pages/character-setup.tsx:35-62 | settings the page stored (with non-empty names) are read back exactly at the next mount, selector included |
| `Setup.LoadedStartableIffComplete` | pages/character-setup.tsx:35-54 | after loading stored profiles, a worldview and a model, start is allowed iff the importer would have called the same record complete settings, with a non-empty worldview and model |
| `Setup.NamesOnlyLoadUnstartable` | pages/character-setup.tsx:40 | stored profiles that carry only names are loaded anyway, and the page then cannot start |
| `Setup.CharacterSetup.constructor` | pages/character-setup.tsx:16-23 | before the stored settings are read (what a first visit shows), the sample settings are startable, the model and selector are `gemini-2.5-flash`, no error, nothing pending |
| `Setup.CharacterSetup.LoadSavedSettings` | pages/character-setup.tsx:35-54 | the new state is `LoadedState` of the old one and the stored content, and the selector invariant holds |
| `Setup.CharacterSetup.UpdateModelStates` | pages/character-setup.tsx:26-33 | the model is stored verbatim, the selector becomes `SelectorFor` of it, and the selector invariant holds |
| `Setup.CharacterSetup.ModelSelectChange` | pages/character-setup.tsx:65-71 | choosing `"custom"` changes only the selector; choosing a predefined model stores it as the model too |
| `Setup.CharacterSetup.SetCustomModel` | pages/character-setup.tsx:240-248 | the free-text field, shown only under `"custom"`, changes only the model |
| `Setup.CharacterSetup.SetWorldview` | pages/character-setup.tsx:208-211 | only the worldview changes |
| `Setup.CharacterSetup.SetCharacterA` | pages/character-setup.tsx:218 | only the first profile changes |
| `Setup.CharacterSetup.SetCharacterB` | pages/character-setup.tsx:219 | only the second profile changes |
| `Setup.CharacterSetup.Start` | pages/character-setup.tsx:73-81 | refused iff a field is empty: the error is set and no request is made. Otherwise the error is cleared and the request carries exactly the four settings and no history |
| `Setup.CharacterSetup.FileUpload` | pages/character-setup.tsx:107-153 | unreadable text or a record with no recognised key sets only the error. A session only becomes pending. Complete settings replace all four settings and clear the error and any pending partial upload. A partial file becomes the pending partial upload and clears the error |
| `Setup.CharacterSetup.CancelPartialUpload` | pages/character-setup.tsx:155-157 | only the pending partial upload is dropped |
| `Setup.CharacterSetup.MergeUpload` | pages/character-setup.tsx:159-169 | with nothing pending, no change. Otherwise each profile becomes `MergeProfile` of it, a present worldview/model replaces the old one, and the pending upload is cleared |
| `Setup.CharacterSetup.ClearAndApplyUpload` | pages/character-setup.tsx:171-182 | with nothing pending, no change. Otherwise each profile becomes `ClearProfile` of the upload, the worldview is the upload's or `""`, the model the upload's or `gemini-2.5-flash`, and the pending upload is cleared |
| `Setup.CharacterSetup.UploadConversation` | pages/character-setup.tsx:184-189 | the held session's five fields are passed on unchanged, its history is non-empty, and only the pending session is cleared |
| `Setup.CharacterSetup.UploadSettingsOnly` | pages/character-setup.tsx:191-199 | the held session's four settings are copied exactly, its history is dropped, and the pending session is cleared |
| `Setup.CharacterSetup.CancelConversationUpload` | pages/character-setup.tsx:310 | only the pending session is dropped |
| `Application.NextTheme` | app.tsx:42-48 | system goes to light, light to dark, anything else to system; the result is always one of the three and differs from the input |
| `Application.InitialTheme` | app.tsx:17-20 | the saved value when there is a non-empty one, else system |
| `Application.ThemeCycle` | app.tsx:42-48 | from any of the three themes, three changes return to it after visiting all three |
| `Application.AnyStoredThemeJoinsCycle` | app.tsx:17-48 | whatever string was stored, one change lands in the three-theme cycle |
| `Application.App.ShowsConversation` | app.tsx:75-76 | the conversation page renders only on that view with characters present, and under the shell's invariant exactly on that view |
| `Application.App.constructor` | app.tsx:11-20 | setup view, no characters, empty worldview, default model, no history, and the initial theme |
| `Application.App.ChangeTheme` | app.tsx:42-48 | only the theme changes, to `NextTheme` of it |
| `Application.App.SimulationStart` | app.tsx:50-56 | stores exactly the given characters, worldview, model and optional history, and shows the conversation page, which then renders |
| `Application.App.BackToSetup` | app.tsx:58-63 | characters, worldview and history are cleared and the setup view shows; model and theme are unchanged |

## Left out

- The chat sessions with the external model service: `initializeChats` (pages/conversation-view.tsx:34-57) is reduced to its outcome (no client, both sessions created, creation threw), which sets the session-ready and key-banner flags. The persona instruction strings only feed that service and are not modelled.
- The external reply is an input of `Tick`. The text sent to the service (the last line) is not modelled.
- Timing: the 1.5 s pacing timer, the delayed start of the editor after an add, async/await and the React effect scheduling. Each handler and each engine step is one atomic step. So a step's `isLoading` window cannot be seen between steps, and a reply that arrives after a pause is not modelled.
- Browser I/O: `FileReader`, `JSON.parse`/`JSON.stringify`, file downloads and their file names, `localStorage` reads and writes of the settings and theme, `matchMedia` and the DOM theme attribute. An imported file is an already-decoded record (`Upload`) or unparsable text. The saved theme is an optional string. The stored settings are optional content of the same kind as an imported file (`LoadSavedSettings`). Writing them back after each change is modelled only as the record it writes (`Exported` without a history, in `SaveLoadRoundTrip`).
- `Setup.LoadedState`: a stored profile is kept as the raw object, so a field it lacks is `undefined` on the page. The model gives that field `""`. The start check and the input fields treat the two alike.
- JSON values of the wrong type (numbers, `null`, objects where strings are expected) in an imported file: each field is either absent or a string. Extra keys that a spread would copy into a profile are not modelled either.
- `Setup.CharacterSetup.ModelSelectChange`, `Setup.CharacterSetup.SetCustomModel`: they require what the page's markup guarantees (the select only offers the four models and `"custom"`; the free-text field only shows under `"custom"`), so that the selector invariant holds.
- `Conversation.ConversationView.SendSystemEvent`: it requires that no edit is open. The event box is only rendered while no edit is open (pages/conversation-view.tsx:267), and this keeps the invariant that an open edit keeps the run paused.
- Rendering, styling, scrolling and the settings modal.
- In-place aliasing: the page's save writes the new text into the message object shared with the previous array. Messages here are values, so that aliasing is not modelled.

# FrontalFriend core, modelled in Dafny

FrontalFriend is a React Native wellbeing app. This project models the three
pieces of it that carry logic, and proves properties about them.

- **The relaxation media session** (`relax.js`). The screen keeps:
  - a selected category, video and audio track;
  - the `isPlaying` and `isLoading` flags;
  - the resolved `videoUri` and the two "unavailable" flags;
  - `soundRef`, the slot that holds the loaded sound.

  Four `useEffect`s, four handlers and `cleanupMedia` drive the screen through `await`s. The model is an immutable `Session` record with one pure transition per event (`Relax.Step`). The events are:
  - a render with its effect flush (`Commit`);
  - each user action;
  - each resumption of a suspended continuation. A video resolve or a `loadSound` instance is tagged with the generation of the effect instance that started it. A handler or cleanup is a pending `Task`.

  `resolveRemoteUri`, `Audio.Sound.createAsync` and the play/stop/unload calls are oracles: the reply of each resumption says whether the call returned a value, returned null or threw. Calls issued on native objects are recorded in a command log. A sound is *live* when it has been created and no unload has been issued for it.
- **Sign-up and sign-in** (`login.js`):
  - the email shape check, stated over characters and proved equivalent to the regex `^[^\s@]+@[^\s@]+\.[^\s@]+$`;
  - the password length check, counted in UTF-16 code units as JavaScript's `length` does;
  - the error-code messages;
  - the `loading` flag discipline.
- **A chat turn** (`chat.js`):
  - the `sendMessage` guard;
  - the request sent to the language model;
  - the reply or fallback that is appended;
  - the opening greeting.

  The language model is an oracle.

Modules:

| module | covers |
|---|---|
| `JsValues` | JavaScript whitespace, `trim`, truthiness of strings, UTF-16 length |
| `Login` | `login.js` |
| `Chat` | `chat.js` |
| `Relax` | the `relax.js` session and its transitions |
| `RelaxProofs` | the "at most one live sound" invariant and what it needs |
| `RelaxHandlers` | handler sequences, effect flushes and teardown |
| `RelaxTraces` | concrete schedules showing the two findings below |

`Relax` carries a `Variant` parameter:
- `AsWritten` follows the code line by line.
- `Guarded` is the same code with the two corrections described under "## Findings".

`handleAudioChange` (relax.js:254-256) and `handleVideoChange` (relax.js:225-227) set `isPlaying` to false, so a new track or video starts paused (`RelaxHandlers.AudioChangeInSequence`, `RelaxHandlers.VideoChangeInSequence`).

Two invariants are proved about the session:
- `RelaxProofs.SlotDiscipline` holds on every schedule of both variants. It says that no `loadSound` instance is newer than its effect, that the mounted instance finds `soundRef` as it left it, and that every pending deferred null follows its unload.
- `RelaxProofs.Inv` adds "at most one live sound". It holds on every schedule of `Guarded`. On `AsWritten` it holds only on schedules in which no install overtakes a pending deferred null.

## Model

| member | source | states |
|---|---|---|
| JsValues.SpaceClass | FrontalFriend/app/chat.js:75 | the whitespace `trim` removes and `\s` matches: in ASCII exactly space, tab, line feed, vertical tab, form feed and carriage return; beyond ASCII only basic-plane characters, and never `@` or `.` |
| JsValues.Trim | FrontalFriend/app/chat.js:75-80 | `trim` returns the slice between a leading and a trailing run of whitespace, and that slice neither starts nor ends with whitespace |
| JsValues.TrimEmptyIffBlank | FrontalFriend/app/chat.js:75 | the trimmed text is empty exactly when the input is all whitespace, so the send guard rejects blank input and only blank input |
| JsValues.TrimIdempotent | FrontalFriend/app/chat.js:80 | trimming the stored user message again changes nothing |
| JsValues.Utf16Length | FrontalFriend/app/login.js:38 | `length` counts between one and two code units per character |
| JsValues.BasicPlaneLength | FrontalFriend/app/login.js:38 | for text in the basic multilingual plane, `length` is the number of characters |
| JsValues.SupplementaryLength | FrontalFriend/app/login.js:38 | for text made only of characters above U+FFFF, `length` is twice the number of characters |
| Login.ValidEmail | FrontalFriend/app/login.js:31-35 | an accepted address has at least five characters and no whitespace anywhere |
| Login.ValidEmailIffRegex | FrontalFriend/app/login.js:31 | the character-level email predicate holds exactly when the regex `^[^\s@]+@[^\s@]+\.[^\s@]+$` matches, in both directions |
| Login.ValidEmailMatchesRegex | FrontalFriend/app/login.js:31 | every address the validator accepts is matched by the regex |
| Login.RegexMatchIsValidEmail | FrontalFriend/app/login.js:31 | every match of the regex, wherever it puts the `@` and the dot, is accepted by the validator |
| Login.ValidEmailHasOneAt | FrontalFriend/app/login.js:31 | a valid email contains exactly one `@` |
| Login.RegistrationNotice | FrontalFriend/app/login.js:51-62 | every registration error starts with "Registration Failed: "; an unknown code is followed by the provider's message verbatim |
| Login.KnownCodesFixedAndDistinct | FrontalFriend/app/login.js:54-59 | the three known codes give three different fixed texts, whatever the provider's message says |
| Login.SignUp | FrontalFriend/app/login.js:29-68 | the provider is called exactly when the email is valid and the password has at least 6 code units; an invalid email gives the email notice; a short password gives the password notice; `loading` goes true then false only around a provider call; success gives the account-created notice; an error gives the mapped message |
| Login.SignIn | FrontalFriend/app/login.js:14-27 | the provider is always called; `loading` goes true and ends false; a notice appears exactly on failure, as "Login Failed: " plus the message |
| Login.PasswordBoundary | FrontalFriend/app/login.js:38-41 | with a valid email, a 6-character basic-plane password passes and a 5-character basic-plane one is rejected without a provider call; characters above U+FFFF count twice (`Login.SurrogatePairsCountTwice`) |
| Login.EmailCheckedFirst | FrontalFriend/app/login.js:32-41 | with an invalid email the outcome does not depend on the password or the provider: the email notice, no call |
| Login.SurrogatePairsCountTwice | FrontalFriend/app/login.js:38 | with a valid email, any password of three or more characters above U+FFFF, such as three emoji, passes the length check, because each character counts as two code units |
| Chat.Initial | FrontalFriend/app/chat.js:49-58 | the screen opens on the assistant's greeting alone, an empty input and no request in flight |
| Chat.CanSend | FrontalFriend/app/chat.js:75 | a send goes ahead exactly when the input holds some non-whitespace character and no request is in flight |
| Chat.Request | FrontalFriend/app/chat.js:94-100 | the request is the system prompt, then the history unchanged, then the user message; it is two longer than the history |
| Chat.Submit | FrontalFriend/app/chat.js:75-86 | a rejected send changes nothing and sends nothing; an accepted one appends the trimmed user message, clears the input, raises `isLoading` and sends the prompt followed by the updated messages |
| Chat.ReplyText | FrontalFriend/app/chat.js:105-121 | the appended text is never empty: the answer when it is non-empty, the no-response text when it is empty or missing, the connection-trouble text when the call fails |
| Chat.Receive | FrontalFriend/app/chat.js:112-124 | exactly one assistant message is appended after the existing ones, and `isLoading` ends false |
| Chat.InitialIsGreeting | FrontalFriend/app/chat.js:48-57 | the conversation opens with exactly the assistant greeting, at rest, and an empty input cannot be sent |
| Chat.SendMessage | FrontalFriend/app/chat.js:74-125 | a rejected send leaves the conversation unchanged; an accepted one keeps the prior messages, adds two, empties the input and ends with `isLoading` false |
| Chat.SendAppendsOneExchange | FrontalFriend/app/chat.js:74-125 | a send is a no-op exactly when the guard fails; otherwise the conversation grows by the trimmed user message and one assistant message, with `isLoading` false and the input empty |
| Chat.SubmitAwaits | FrontalFriend/app/chat.js:84-86 | from rest, submitting leaves roles alternating and ends with the user message, awaiting a reply |
| Chat.SubmitRequestShape | FrontalFriend/app/chat.js:89-100 | the request has the system prompt once, first; the prior conversation in order; the user message last; no other system message |
| Chat.ReceiveSettles | FrontalFriend/app/chat.js:105-124 | a reply brings an awaiting conversation back to rest |
| Chat.SendsKeepSettled | FrontalFriend/app/chat.js:74-125 | any sequence of sends, each with any typed text and any model outcome, keeps the conversation at rest with alternating roles |
| Relax.PlayerShown | FrontalFriend/app/relax.js:276 | the player is rendered only when the video is not flagged unavailable and its URI is neither null nor empty |
| Relax.Init | FrontalFriend/app/relax.js:23-30 | the screen mounts on the first category, its first video and the first track, showing that video's URI; nothing playing, loading or unavailable; no sound, no command issued, nothing pending; no effect has run yet |
| Relax.ClearSlot | FrontalFriend/app/relax.js:129-138 | the deferred `soundRef.current = null`: the code as written always empties the slot; the guarded variant empties it only when it still holds the unloaded sound |
| Relax.CleanupLoad | FrontalFriend/app/relax.js:127-139 | the `loadSound` cleanup clears its instance's `mounted` and issues an unload of the slot's sound, and defers the null; the slot, the selection and the pending loads are unchanged |
| Relax.StartResolve | FrontalFriend/app/relax.js:40-45 | the video effect's setup starts a new mounted instance for the selected video, which is awaiting the resolver |
| Relax.StartLoad | FrontalFriend/app/relax.js:83-98 | a new `loadSound` instance starts by unloading the slot's sound if there is one, else by resolving; `autoplay` is the `isPlaying` it captured |
| Relax.SyncPlay | FrontalFriend/app/relax.js:142-157 | the `isPlaying` effect plays or pauses the loaded sound, if any, and records what it saw |
| Relax.CleanupPhase | FrontalFriend/app/relax.js:127-139 | in a flush, only a changed track runs the `loadSound` cleanup; otherwise the session is unchanged |
| Relax.VideoSetup | FrontalFriend/app/relax.js:40-67 | in a flush, the video effect leaves the session alone when the selected video is the one it last ran with, and ends having run with the current video |
| Relax.AudioSetup | FrontalFriend/app/relax.js:83-140 | in a flush, `loadSound` leaves the session alone when the selected track is the one it last ran with, and ends having run with the current track |
| Relax.PlaySetup | FrontalFriend/app/relax.js:142-157 | in a flush, the sync effect leaves the session alone when it already saw the current `isPlaying`, and ends having seen it |
| Relax.OnCommit | FrontalFriend/app/relax.js:40-157 | after a render every effect has run with the current video, track and `isPlaying`; the flush changes no selection, creates no sound and only appends commands; after unmount a render does nothing |
| Relax.OnVideoResolved | FrontalFriend/app/relax.js:45-62 | a resolve for an unmounted instance changes nothing visible; a mounted one shows a truthy URI or marks the video unavailable, and lowers `isLoading` either way |
| Relax.OnLoadResumed | FrontalFriend/app/relax.js:85-122 | instance `g` of `loadSound` resumes at its pending await; an instance that is not pending does nothing; no instance is ever restarted; the log only grows and no sound is un-created; only the mounted instance touches `isLoading`; the selection, `isPlaying`, the effects and the handler tasks are left alone |
| Relax.ResumeUnload | FrontalFriend/app/relax.js:89-98 | `loadSound` resumes after unloading and moves on to the resolver; the code as written empties the slot whatever it holds; the guarded variant empties it when it holds the unloaded sound and keeps it otherwise; nothing is created or logged |
| Relax.ResumeResolve | FrontalFriend/app/relax.js:98-104 | a truthy URI moves the load on to creating the sound; null or empty ends it; a mounted instance sets `soundUnavailable` exactly on a non-throwing failure; the slot is untouched |
| Relax.ResumeCreate | FrontalFriend/app/relax.js:106-122 | the created sound is installed by a mounted instance, or unloaded at once by a superseded one; a failure creates nothing |
| Relax.OnPickVideo | FrontalFriend/app/relax.js:209-235 | with the player's render condition true on the current state, the handler stops the video and suspends; otherwise it selects the video at once, paused, with `isLoading` low |
| Relax.OnPickAudio | FrontalFriend/app/relax.js:237-264 | with a sound loaded the handler stops it and suspends; otherwise it selects the track at once, paused, with `isLoading` low |
| Relax.OnPressPlayPause | FrontalFriend/app/relax.js:179-207 | a press while loading does nothing; with a sound it issues pause or play and suspends; without one it flips `isPlaying` at once |
| Relax.OnPickCategory | FrontalFriend/app/relax.js:266-271 | the category is always set; a video change to the first video follows only when the category has videos |
| Relax.OnUnmount | FrontalFriend/app/relax.js:159-177 | unmounting clears every effect's `mounted`, and stops then unloads the loaded sound |
| Relax.OnTaskResumed | FrontalFriend/app/relax.js:179-264 | a resumed handler only appends to the log, never installs a sound, and leaves the effects and loads alone; resuming a task that is not pending does nothing |
| Relax.ResumeSoundTask | FrontalFriend/app/relax.js:129-264 | a resumed audio handler, `loadSound` cleanup or teardown only appends commands, keeps or empties the slot, and leaves the loads and the effects alone |
| Relax.ResumeScreenTask | FrontalFriend/app/relax.js:179-235 | a resumed video or play/pause handler only appends commands and leaves the slot, the track, the loads and the effects alone |
| Relax.Step | FrontalFriend/app/relax.js:40-271 | no event removes a command from the log or un-creates a sound, and an unmounted screen stays unmounted |
| RelaxProofs.InitialSession | FrontalFriend/app/relax.js:23-30 | the freshly mounted screen satisfies the single-sound invariant |
| RelaxProofs.StaleVideoResolveIsInert | FrontalFriend/app/relax.js:46-66 | a video resolve after its cleanup changes neither `videoUri`, `videoUnavailable` nor `isLoading` |
| RelaxProofs.StaleLoadNeverInstalls | FrontalFriend/app/relax.js:110-117 | a superseded `loadSound` never installs a sound, leaves `isLoading` alone, and unloads anything it creates |
| RelaxProofs.GuardedStaleLoadKeepsFlag | FrontalFriend/app/relax.js:98-104 | with the guard, a superseded `loadSound` leaves `soundUnavailable` alone |
| RelaxProofs.DeferredNullFindsNoLiveSound | FrontalFriend/app/relax.js:129-138 | from a state in the invariant (every guarded state; an as-written state only on schedules where no install overtakes a pending null), every pending deferred null follows an unload already issued, and on the code as written a pending one means the slot holds no live sound |
| RelaxProofs.TaskKeepsInv | FrontalFriend/app/relax.js:159-264 | resuming any handler or cleanup keeps the single-sound invariant |
| RelaxProofs.CommitKeepsInv | FrontalFriend/app/relax.js:83-157 | a render and flush keeps the single-sound invariant |
| RelaxProofs.LoadKeepsInv | FrontalFriend/app/relax.js:85-122 | a `loadSound` step keeps the invariant; the code as written needs an install to find no deferred null pending |
| RelaxProofs.StepKeepsInv | FrontalFriend/app/relax.js:83-140 | every event keeps the invariant, given that ordering for the code as written |
| RelaxProofs.RunKeepsInv | FrontalFriend/app/relax.js:83-140 | the invariant holds along every schedule of the guarded variant, and along every schedule of the code as written that respects the ordering |
| RelaxProofs.GuardedAtMostOneLiveSound | FrontalFriend/app/relax.js:117-138 | with the compare-and-clear guard, after any schedule at most one sound is live, and every created sound is in the slot or unloaded |
| RelaxProofs.StepKeepsSlotDiscipline | FrontalFriend/app/relax.js:85-139 | every event of either variant keeps the slot discipline, with no ordering assumed |
| RelaxProofs.ReachableSlotDiscipline | FrontalFriend/app/relax.js:85-139 | every state the screen reaches, on either variant and on every schedule, keeps the slot discipline |
| RelaxProofs.ScheduledAtMostOneLiveSound | FrontalFriend/app/relax.js:117-138 | the code as written keeps at most one live sound, and loses no sound, on every schedule in which no install overtakes a pending deferred null |
| RelaxHandlers.AudioChangeInSequence | FrontalFriend/app/relax.js:237-264 | with a sound loaded, the audio handler stops it, unloads it, empties the slot, pauses, selects the new track and lowers `isLoading`, whatever the stop and unload replies |
| RelaxHandlers.VideoChangeInSequence | FrontalFriend/app/relax.js:209-235 | with the player shown, the video handler stops and unloads the video, pauses, selects the new video and lowers `isLoading`, leaving the sound untouched |
| RelaxHandlers.PlayPauseFlips | FrontalFriend/app/relax.js:179-207 | a press flips `isPlaying` once its await completes, whether pause or play failed; it issues the call only when a sound is loaded, and ends with `isLoading` false |
| RelaxHandlers.PlayPauseDisabledWhileLoading | FrontalFriend/app/relax.js:393-397 | the play button does nothing while `isLoading` is set |
| RelaxHandlers.CommitStartsInstances | FrontalFriend/app/relax.js:40-140 | a changed video starts a new resolving instance; a changed track starts a new `loadSound`; an effect whose dependency did not change is left alone |
| RelaxHandlers.SlotClearedBeforeInstall | FrontalFriend/app/relax.js:89-117 | in every reachable state of either variant, when the mounted `loadSound` installs a sound the slot is already empty, and the new sound lands in it |
| RelaxHandlers.UnloadClearsSlot | FrontalFriend/app/relax.js:89-96 | in every reachable state of either variant, the mounted `loadSound` empties the slot after unloading the previous sound, then resolves |
| RelaxHandlers.FailedResolveLeavesSlotEmpty | FrontalFriend/app/relax.js:98-103 | in every reachable state of either variant, a failed resolve of the mounted instance leaves the slot empty, ends the load and lowers `isLoading`; a null or empty URI sets `soundUnavailable`, a throw leaves it |
| RelaxHandlers.UnmountReleasesSound | FrontalFriend/app/relax.js:127-177 | from a state in the invariant (every guarded state; an as-written state only on schedules where no install overtakes a pending null), right after unmounting no sound is live |
| RelaxHandlers.NothingLivesAfterUnmount | FrontalFriend/app/relax.js:110-116 | from a state in the invariant (every guarded state; an as-written state only on schedules where no install overtakes a pending null), after unmounting no sound is ever live again, whatever continuations are still pending and however they complete |
| RelaxTraces.DoubleTapLeavesTwoSounds | FrontalFriend/app/relax.js:247-252 | on the code as written, two quick taps on the track list end with two loaded sounds, one no longer reachable through `soundRef` |
| RelaxTraces.OrphanOutlivesUnmount | FrontalFriend/app/relax.js:159-177 | on the code as written, unmounting after that schedule unloads only the sound in `soundRef`, and the orphan stays loaded |
| RelaxTraces.SilenceInstallBreaksOrder | FrontalFriend/app/relax.js:117 | that schedule installs a sound while a deferred null is pending |
| RelaxTraces.LateNullDropsSound | FrontalFriend/app/relax.js:252 | the late null empties a slot holding a newer sound on the code as written, and leaves it in place with the guard |
| RelaxTraces.StaleFailureFlagsLoadedTrack | FrontalFriend/app/relax.js:98-104 | a superseded load's failed resolve marks the audio unavailable while the selected track is loaded in the slot on the code as written, and leaves the flag clear with the guard |

## Left out

- `setupAudio` (relax.js:69-80): it only sets the audio mode and swallows its error.
- The internals of `resolveRemoteUri`, which is not part of this model, and its 3000 ms timeout. Each resolve is an oracle reply.
- Expo AV itself: playback, looping, the `Video` element's own `shouldPlay`. Native calls are recorded in a command log, and each reply is an oracle.
- `videoRef` during teardown. React detaches the ref before the cleanups run, so `cleanupMedia` skips its video branch.
- `createAsync` resolving without a `sound` is treated like a throw.
- JSX rendering beyond the conditions the model uses: the player shown (relax.js:276), the unavailable text (relax.js:383-385) and the disabled play button (relax.js:396).
- Styles, scrolling (chat.js:66-72), the keyboard and navigation.
- `console` output. For `alert`, only its text is modelled.
- Message ids and timestamps (`Date.now()`, `new Date()`).
- The OpenAI client, model name, temperature and token limit. The completion is an oracle.
- The Firebase SDK. The auth provider is an oracle.
- React batching is taken as one state update per event. A second press that reads a stale closure before the next render is not modelled, for example a second chat send before `isLoading` re-renders.
- Effect dependencies are compared by value. React compares them with `Object.is`, so two catalog entries with equal fields are one dependency here and two in the app.
- Relax.Init: requires a non-empty track catalog. With an empty one, `selectedAudio` would start `undefined`, and the first `loadSound` would throw at relax.js:98 inside its `try` and be caught at relax.js:118. The app's catalog is a non-empty constant.
- Relax.PlayerShown: `handleVideoChange` (relax.js:213, 220) reads `videoRef.current`, which React attaches or detaches only when the render that shows or hides `<Video>` commits. The model reads the render condition on the current state instead. Between a resolve and the next `Commit`, a video change therefore skips the stop of a player that is still on screen, or stops one that is not yet rendered.
- JsValues.Utf16Length: a Dafny `char` is a Unicode scalar value, so a lone surrogate, which JavaScript counts as one code unit, cannot occur.
- The context files (index.js, App.jsx, List.jsx, Login.jsx, supabaseFunctions.js) are not part of this model.

## Findings

| source | as written | input that shows it | evidently intended | confidence | as-written member | corrected member |
|---|---|---|---|---|---|---|
| FrontalFriend/app/relax.js:247-252 | after awaiting the unload, `handleAudioChange` sets `soundRef.current = null` whatever the slot then holds. relax.js:95, 136 and 172 have the same pattern. | `RelaxTraces.Trace`: rain is loaded; the user taps silence, then rain; both handlers unload sound 0; silence loads as sound 1; the rain handler's late null drops sound 1; rain loads as sound 2. Sounds 1 and 2 both stay loaded, and unmounting unloads only sound 2 (`RelaxTraces.OrphanOutlivesUnmount`). | clear the slot only if it still holds the sound that was unloaded | not executed | RelaxTraces.DoubleTapLeavesTwoSounds | RelaxProofs.GuardedAtMostOneLiveSound |
| FrontalFriend/app/relax.js:98-104 | `loadSound` writes `soundUnavailable` without checking `mounted` | `RelaxTraces.StaleFailure`: the user switches from rain to silence before rain's URI resolves; silence loads; then rain's resolve returns null | only the mounted instance reports availability, as it already does for `isLoading` at relax.js:121 | not executed | RelaxTraces.StaleFailureFlagsLoadedTrack | RelaxProofs.GuardedStaleLoadKeepsFlag |

# Suman TV client: feed sequencing, playback, category selection and form checks

This project models, in Dafny, the logic inside the event handlers of the Suman TV
React Native client, away from the UI:

- **Feed sequencer** (`Articles.js`, module `FeedSequencer`). The fetched articles
  are filtered down to the selected categories. The feed tracks the active index
  and a play count. Each item plays twice, then the feed moves on to the next item,
  wrapping to 0 after the last. A scroll that settles on another index makes that
  item active. Each event returns the commands the feed sends to the active player
  and to the list: stop, play/pause after the 500 ms delay, and scroll to an index.
- **Playback controller** (`AudioPlayer.js`, module `Playback`). The player's state
  is: the sound reference (set or not, released or not), `isPlaying`,
  `currentTime`, `duration`, whether the one-second interval is running, and the
  like and share counters. The events are: load success or failure, effect cleanup,
  play/pause toggle, interval tick, the sound's own completion callback, stop,
  slider seek, like and share.
- **Category selector** (`CategoriesScreen.js`, module `Categories`). It covers
  toggling an id in and out of the ordered selection, the Submit rule (enabled and
  navigating only for a non-empty selection) and the `localhost` image-URL rewrite.
  The rewrite uses `Strings`, a model of `includes` and of `replace` with a string
  pattern, which replaces only the first occurrence.
- **Form checks** (`Login.js`, `Register.js`, modules `Forms`, `Login`, `Register`).
  The two screens share one form class. It holds the per-field required flags, an
  abort before any request when a field is blank, an edit handler that clears the
  edited field's own flag, and the three-way border colour. `Login` requires
  `phoneNumber` and `password`; `Register` requires `name`, `phoneNumber` and
  `password`. The rows below cite `Login.js`. The same code sits in `Register.js`:
  `handleChange` at 17-20, the check at 30-45, the `finally` at 64-66 and
  `inputStyle` at 69-72.

Each stateful component is a class whose methods tie the new state to a pure
function of the old state (`State() == Tick(old(State()))`). The properties are
proved about those functions, partly in the functions' own contracts and partly
in lemmas over any number of events.

Some behaviour of the code a reader might not expect; the model follows the code:

- A one-item feed does not repeat forever. After the second end,
  `handleArticleChange(0)` leaves the index at 0, so the autoplay effect does not
  run again. The player is stopped and stays stopped
  (`SingleItemFeedStopsAfterTwoPlays`; Articles.js:96-100 with the effect at 72-82).
- A change of the fetched articles does not reset or clamp the active index, and
  neither does a new selection that a later Submit on the Categories tab hands to
  the mounted feed (CustomerTabNavigator.js:17, 86, 89). The active index can then
  lie past the end of the feed (`NarrowedSelectionUnmountsActiveItem`).
  `onScrollEnd` does not clamp the settled index either (Articles.js:104-110).
- Nothing auto-plays when the articles first arrive. The autoplay effect runs only
  when the index changes, and at mount no player is rendered (Articles.js:72-82).
- `handleSliderChange` does not clamp the seek position itself (AudioPlayer.js:90-95).
  The Slider that calls it has `maximumValue={duration}` and the default minimum
  of 0 (AudioPlayer.js:124-128), so it supplies values in `[0, duration]`. With a
  whole-second value the elapsed time stays within the duration
  (`SliderSeekStaysWithinDuration`). The Slider sets no `step`, so it can report
  fractional values; after such a seek the next tick can take the time up to one
  second past the duration before the tick after it pins the time.
- `playPauseAudio(true)` ignores its argument, so every "autoplay" is a toggle.
- A failed load leaves the sound reference as it was. It is unset only if it was
  unset before.
- Selected category ids form an ordered list, not a set. Toggling a selected id
  twice moves it to the end.

## Model

| member | source | states |
|---|---|---|
| FeedSequencer.FilteredArticles | Suman-TV-Frontend-main/Suman-TV-Frontend-main/smtv/Components/Articles.js:49-51 | the filtered feed holds exactly the articles whose category is selected, each as often as fetched, as an ordered subsequence of the fetched list, never longer than it |
| FeedSequencer.NextIndex | Suman-TV-Frontend-main/Suman-TV-Frontend-main/smtv/Components/Articles.js:96-100 | for an index in `[0, len)` the next index is `(i + 1) mod len` and stays in range; a one-item feed goes back to the same index |
| FeedSequencer.ArticleChange | Suman-TV-Frontend-main/Suman-TV-Frontend-main/smtv/Components/Articles.js:53-82 | the new position is `(n, 0)`; a stop is issued exactly when a player was rendered at the old index, and then it comes first; autoplay is scheduled exactly when the index changed and `n` is rendered, and a scroll to `n` is issued exactly when autoplay is; every scroll goes to `n`; the number of commands is one for the stop plus two for autoplay and scroll, so nothing is repeated; autoplay and scroll come last, in that order |
| FeedSequencer.AudioEnd | Suman-TV-Frontend-main/Suman-TV-Frontend-main/smtv/Components/Articles.js:85-102 | a first end raises the count by one, keeps the index and schedules only a replay; a second end is exactly the article change to `NextIndex(i)`, whether or not the index is rendered, so it moves to `(NextIndex(i), 0)`; for a rendered index it stops first, and on a feed of two or more items then issues exactly the delayed play and the scroll to `(i + 1) mod len`; counts 0 and 1 stay in {0, 1}; a rendered index stays rendered |
| FeedSequencer.ScrollEnd | Suman-TV-Frontend-main/Suman-TV-Frontend-main/smtv/Components/Articles.js:104-110 | settling on the current index changes nothing and issues nothing, play count included; any other index, unclamped, is exactly an article change |
| FeedSequencer.EndsStayInRange | Suman-TV-Frontend-main/Suman-TV-Frontend-main/smtv/Components/Articles.js:85-101 | over any number of end notifications a rendered index stays in `[0, len)` and the play count stays in {0, 1} |
| FeedSequencer.TwoEndsAdvance | Suman-TV-Frontend-main/Suman-TV-Frontend-main/smtv/Components/Articles.js:85-101 | from a fresh activation of `i`, one end gives `(i, 1)` and two ends give `((i + 1) mod len, 0)` |
| FeedSequencer.RepeatedEnds | Suman-TV-Frontend-main/Suman-TV-Frontend-main/smtv/Components/Articles.js:85-101 | after `2k` ends from a fresh activation of `i`, item `(i + k) mod len` is freshly active: every item is played exactly twice, round the feed |
| FeedSequencer.AfterEndsSplit | Suman-TV-Frontend-main/Suman-TV-Frontend-main/smtv/Components/Articles.js:85-101 | `a` ends followed by `b` ends are `a + b` ends |
| FeedSequencer.SingleItemFeedStopsAfterTwoPlays | Suman-TV-Frontend-main/Suman-TV-Frontend-main/smtv/Components/Articles.js:72-101 | on a one-item feed the first end replays, and the second end returns to `(0, 0)` with only a stop and no autoplay |
| FeedSequencer.ScrollToThirdItem | Suman-TV-Frontend-main/Suman-TV-Frontend-main/smtv/Components/Articles.js:104-110 | on a three-item feed, settling on item 2 while item 0 is active stops item 0, starts item 2 after the delay, scrolls to it and resets the count |
| FeedSequencer.ArticleFeed.constructor | Suman-TV-Frontend-main/Suman-TV-Frontend-main/smtv/Components/Articles.js:10-13 | the feed mounts with no articles at index 0 and play count 0 |
| FeedSequencer.ArticleFeed.SetArticles | Suman-TV-Frontend-main/Suman-TV-Frontend-main/smtv/Components/Articles.js:33 | storing the fetched articles moves neither the index nor the play count |
| FeedSequencer.ArticleFeed.SetSelection | Suman-TV-Frontend-main/Suman-TV-Frontend-main/smtv/Components/CustomerTabNavigator.js:17 | a new selection from a later Submit changes the filtered feed but moves neither the index nor the play count, and leaves the fetched articles alone |
| FeedSequencer.NarrowedSelectionUnmountsActiveItem | Suman-TV-Frontend-main/Suman-TV-Frontend-main/smtv/Components/Articles.js:49-51 | a narrower selection can shrink the feed below the active index, which then has no rendered player and whose end issues no commands |
| FeedSequencer.ArticleFeed.HandleArticleChange | Suman-TV-Frontend-main/Suman-TV-Frontend-main/smtv/Components/Articles.js:53-82 | the new state and the issued commands are those of `ArticleChange` on the old state |
| FeedSequencer.ArticleFeed.HandleAudioEnd | Suman-TV-Frontend-main/Suman-TV-Frontend-main/smtv/Components/Articles.js:85-102 | the new state and commands are those of `AudioEnd`; the play count stays in {0, 1} |
| FeedSequencer.ArticleFeed.OnScrollEnd | Suman-TV-Frontend-main/Suman-TV-Frontend-main/smtv/Components/Articles.js:104-110 | the new state and commands are those of `ScrollEnd` |
| FeedSequencer.ArticleFeed.OnBlur | Suman-TV-Frontend-main/Suman-TV-Frontend-main/smtv/Components/Articles.js:41-45 | leaving the screen issues exactly the commands of an article change to the current index: a stop when a player is rendered, nothing else |
| Playback.Load | Suman-TV-Frontend-main/Suman-TV-Frontend-main/smtv/Components/AudioPlayer.js:20-31 | a failed load changes nothing, so an unset sound stays unset; a successful one stores the sound and its duration and nothing else |
| Playback.Cleanup | Suman-TV-Frontend-main/Suman-TV-Frontend-main/smtv/Components/AudioPlayer.js:33-41 | after cleanup a set sound is released and no interval is running; nothing else changes, and without a sound only the interval is cleared |
| Playback.PlayPause | Suman-TV-Frontend-main/Suman-TV-Frontend-main/smtv/Components/AudioPlayer.js:45-77 | without a sound nothing changes; toggling while playing stops playback and the interval and changes nothing else; toggling while paused starts both and changes nothing else; elapsed time, duration and counters never change; consistency is kept |
| Playback.Tick | Suman-TV-Frontend-main/Suman-TV-Frontend-main/smtv/Components/AudioPlayer.js:64-75 | below the duration a tick adds exactly one second; at or past it the time is pinned to the duration, playback and interval stop and the end is raised, and nothing else changes; a time within the duration stays within it |
| Playback.Finished | Suman-TV-Frontend-main/Suman-TV-Frontend-main/smtv/Components/AudioPlayer.js:53-60 | a successful completion stops playback and the interval, raises the end and resets the time to 0, and nothing else changes; an unsuccessful one changes nothing |
| Playback.Stop | Suman-TV-Frontend-main/Suman-TV-Frontend-main/smtv/Components/AudioPlayer.js:79-87 | with a sound, playback stops, the time is 0 and no interval runs, and nothing else changes; without one nothing changes |
| Playback.Seek | Suman-TV-Frontend-main/Suman-TV-Frontend-main/smtv/Components/AudioPlayer.js:90-95 | with a sound the time becomes the slider value and nothing else changes; without one nothing changes |
| Playback.Like | Suman-TV-Frontend-main/Suman-TV-Frontend-main/smtv/Components/AudioPlayer.js:97-99 | the like counter goes up by exactly one and nothing else changes |
| Playback.Share | Suman-TV-Frontend-main/Suman-TV-Frontend-main/smtv/Components/AudioPlayer.js:101-103 | the share counter goes up by exactly one and nothing else changes |
| Playback.FailedLoadIsInert | Suman-TV-Frontend-main/Suman-TV-Frontend-main/smtv/Components/AudioPlayer.js:20-95 | after a failed first load there is no sound, and play/pause, stop and seek change nothing |
| Playback.PauseResumeKeepsPosition | Suman-TV-Frontend-main/Suman-TV-Frontend-main/smtv/Components/AudioPlayer.js:45-75 | pausing and resuming keeps the elapsed time and runs playback and the interval again |
| Playback.SliderSeekStaysWithinDuration | Suman-TV-Frontend-main/Suman-TV-Frontend-main/smtv/Components/AudioPlayer.js:124-128 | a seek to a whole-second value in the slider's range `[0, duration]` keeps the time within the duration, also over any number of later ticks |
| Playback.TicksStayWithinDuration | Suman-TV-Frontend-main/Suman-TV-Frontend-main/smtv/Components/AudioPlayer.js:64-75 | from a time within the duration, any number of ticks keeps the time within the duration |
| Playback.TicksCountSeconds | Suman-TV-Frontend-main/Suman-TV-Frontend-main/smtv/Components/AudioPlayer.js:64-75 | while the duration is not reached, `k` ticks add exactly `k` seconds and change nothing else |
| Playback.NoTimerNoEnds | Suman-TV-Frontend-main/Suman-TV-Frontend-main/smtv/Components/AudioPlayer.js:64-75 | with no interval set, ticks change nothing and raise no end |
| Playback.TicksEndAtMostOnce | Suman-TV-Frontend-main/Suman-TV-Frontend-main/smtv/Components/AudioPlayer.js:64-75 | however many ticks arrive, the interval raises the end at most once |
| Playback.PlayRunsToEnd | Suman-TV-Frontend-main/Suman-TV-Frontend-main/smtv/Components/AudioPlayer.js:62-75 | from time `t` within duration `d`, `d - t + 1` ticks raise the end exactly once and leave playback stopped at the duration |
| Playback.AudioPlayer.constructor | Suman-TV-Frontend-main/Suman-TV-Frontend-main/smtv/Components/AudioPlayer.js:12-18 | a mounted player has no sound, is paused at 0 of 0 seconds, has no interval and no likes or shares |
| Playback.AudioPlayer.OnLoaded | Suman-TV-Frontend-main/Suman-TV-Frontend-main/smtv/Components/AudioPlayer.js:24-31 | the new state is `Load` of the old; consistency is kept |
| Playback.AudioPlayer.CleanUp | Suman-TV-Frontend-main/Suman-TV-Frontend-main/smtv/Components/AudioPlayer.js:33-41 | the new state is `Cleanup` of the old |
| Playback.AudioPlayer.PlayPauseAudio | Suman-TV-Frontend-main/Suman-TV-Frontend-main/smtv/Components/AudioPlayer.js:45-77 | the new state is `PlayPause` of the old; consistency is kept, so no interval is started while another runs |
| Playback.AudioPlayer.OnTick | Suman-TV-Frontend-main/Suman-TV-Frontend-main/smtv/Components/AudioPlayer.js:64-75 | the new state and the end notification are those of `Tick` |
| Playback.AudioPlayer.OnPlaybackFinished | Suman-TV-Frontend-main/Suman-TV-Frontend-main/smtv/Components/AudioPlayer.js:53-60 | the new state and the end notification are those of `Finished` |
| Playback.AudioPlayer.StopAudio | Suman-TV-Frontend-main/Suman-TV-Frontend-main/smtv/Components/AudioPlayer.js:79-87 | the new state is `Stop` of the old |
| Playback.AudioPlayer.HandleSliderChange | Suman-TV-Frontend-main/Suman-TV-Frontend-main/smtv/Components/AudioPlayer.js:90-95 | the new state is `Seek` of the old |
| Playback.AudioPlayer.HandleLike | Suman-TV-Frontend-main/Suman-TV-Frontend-main/smtv/Components/AudioPlayer.js:97-99 | the new state is `Like` of the old |
| Playback.AudioPlayer.HandleShare | Suman-TV-Frontend-main/Suman-TV-Frontend-main/smtv/Components/AudioPlayer.js:101-103 | the new state is `Share` of the old |
| Categories.Toggle | Suman-TV-Frontend-main/Suman-TV-Frontend-main/smtv/Components/CategoriesScreen.js:47-53 | the toggled id's membership flips and no other id's does; an absent id is appended at the end of the unchanged list; a present id loses every occurrence while the others keep their order and multiplicity |
| Categories.ToggleTwiceAbsent | Suman-TV-Frontend-main/Suman-TV-Frontend-main/smtv/Components/CategoriesScreen.js:47-53 | toggling an absent id twice gives back exactly the original list |
| Categories.ToggleTwicePresent | Suman-TV-Frontend-main/Suman-TV-Frontend-main/smtv/Components/CategoriesScreen.js:47-53 | toggling a present id twice gives the same set of ids, with that id moved to the end |
| Categories.ToggleKeepsNoDuplicates | Suman-TV-Frontend-main/Suman-TV-Frontend-main/smtv/Components/CategoriesScreen.js:47-53 | a duplicate-free selection stays duplicate-free |
| Categories.SubmitDisabled | Suman-TV-Frontend-main/Suman-TV-Frontend-main/smtv/Components/CategoriesScreen.js:112 | Submit is disabled exactly when the selection is empty |
| Categories.SubmitColor | Suman-TV-Frontend-main/Suman-TV-Frontend-main/smtv/Components/CategoriesScreen.js:109 | the button is grey exactly when disabled and pink exactly when enabled |
| Categories.ImageUri | Suman-TV-Frontend-main/Suman-TV-Frontend-main/smtv/Components/CategoriesScreen.js:95-97 | a URL without `localhost` is unchanged; a URL without `http://localhost:4000` is unchanged; otherwise the first occurrence of that origin is replaced by the deployed origin and the rest is kept |
| Sequences.Filter | Suman-TV-Frontend-main/Suman-TV-Frontend-main/smtv/Components/CategoriesScreen.js:50 | `filter` keeps only elements that pass the test and is never longer than its input (order, membership and counts are proved in the Sequences lemmas) |
| Strings.Contains | Suman-TV-Frontend-main/Suman-TV-Frontend-main/smtv/Components/CategoriesScreen.js:95 | `includes` holds exactly when the pattern occurs at some position |
| Strings.ReplaceFirst | Suman-TV-Frontend-main/Suman-TV-Frontend-main/smtv/Components/CategoriesScreen.js:96 | `replace` with a string pattern changes only the leftmost occurrence, and changes nothing when there is none |
| Categories.CategoriesScreen.constructor | Suman-TV-Frontend-main/Suman-TV-Frontend-main/smtv/Components/CategoriesScreen.js:16-17 | the screen mounts with no categories and an empty selection |
| Categories.CategoriesScreen.SetCategories | Suman-TV-Frontend-main/Suman-TV-Frontend-main/smtv/Components/CategoriesScreen.js:42 | storing the fetched categories keeps the selection |
| Categories.CategoriesScreen.ToggleCategory | Suman-TV-Frontend-main/Suman-TV-Frontend-main/smtv/Components/CategoriesScreen.js:47-53 | the new selection is `Toggle` of the old one |
| Categories.CategoriesScreen.PressSubmit | Suman-TV-Frontend-main/Suman-TV-Frontend-main/smtv/Components/CategoriesScreen.js:106-112 | a press navigates exactly when Submit is enabled, and then carries the selection, which is non-empty |
| Forms.InvalidFlags | Suman-TV-Frontend-main/Suman-TV-Frontend-main/smtv/Components/Login.js:38-42 | there is one flag per required field, set exactly when that field is missing or empty |
| Forms.BlockedIffBlankField | Suman-TV-Frontend-main/Suman-TV-Frontend-main/smtv/Components/Login.js:46-49 | some flag is set exactly when some required field is blank |
| Forms.BorderColor | Suman-TV-Frontend-main/Suman-TV-Frontend-main/smtv/Components/Login.js:91-94 | red if the field is invalid; otherwise the focus colour if it is focused; otherwise transparent |
| Forms.BlankFieldsShowRed | Suman-TV-Frontend-main/Suman-TV-Frontend-main/smtv/Components/Login.js:91-94 | after the check, every blank required field is red whatever has focus |
| Forms.EditedFieldPasses | Suman-TV-Frontend-main/Suman-TV-Frontend-main/smtv/Components/Login.js:21-24 | a field edited to a non-empty value is no longer blank, and no other field's blankness changes |
| Forms.FormScreen.constructor | Suman-TV-Frontend-main/Suman-TV-Frontend-main/smtv/Components/Login.js:9-19 | a form mounts with every field empty, nothing flagged or focused, no error and not loading |
| Forms.FormScreen.HandleChange | Suman-TV-Frontend-main/Suman-TV-Frontend-main/smtv/Components/Login.js:21-24 | only the named field takes the value and only its flag is cleared |
| Forms.FormScreen.HandleFocus | Suman-TV-Frontend-main/Suman-TV-Frontend-main/smtv/Components/Login.js:26-28 | the named input becomes focused and nothing else changes |
| Forms.FormScreen.HandleBlur | Suman-TV-Frontend-main/Suman-TV-Frontend-main/smtv/Components/Login.js:30-32 | no input is focused and nothing else changes |
| Forms.FormScreen.PressSubmit | Suman-TV-Frontend-main/Suman-TV-Frontend-main/smtv/Components/Login.js:37-59 | ignored while loading; otherwise the flags are recomputed; a blank field sets the error and returns before loading or any request; a complete form sets loading and sends the form as the request body |
| Forms.FormScreen.FinishSubmit | Suman-TV-Frontend-main/Suman-TV-Frontend-main/smtv/Components/Login.js:85-87 | whatever the response, loading is false afterwards |
| Login.LoginFlags | Suman-TV-Frontend-main/Suman-TV-Frontend-main/smtv/Components/Login.js:38-49 | `phoneNumber` and `password` are each flagged exactly when empty; submission is blocked exactly when one is |
| Login.EmptyPasswordIsRejected | Suman-TV-Frontend-main/Suman-TV-Frontend-main/smtv/Components/Login.js:37-49 | a login with a phone number and no password shows the error, sends nothing and does not start loading |
| Login.FilledFormIsSent | Suman-TV-Frontend-main/Suman-TV-Frontend-main/smtv/Components/Login.js:37-59 | a login with both fields filled sends exactly those values and starts loading |
| Register.RegisterFlags | Suman-TV-Frontend-main/Suman-TV-Frontend-main/smtv/Components/Register.js:31-43 | `name`, `phoneNumber` and `password` are each flagged exactly when empty; submission is blocked exactly when one is |
| Register.EmptyNameIsRejected | Suman-TV-Frontend-main/Suman-TV-Frontend-main/smtv/Components/Register.js:30-43 | a registration without a name shows the error, sends nothing and does not start loading |
| Register.FilledFormIsSent | Suman-TV-Frontend-main/Suman-TV-Frontend-main/smtv/Components/Register.js:30-66 | a complete registration sends exactly its values, is loading while the request is pending and not loading after it |

`Forms.IsBlank` (`!formData[field]`, Login.js:40-41) and `Forms.AnyInvalid`
(`Object.values(...).some`, Login.js:46) are helpers; their meaning is stated by
`Forms.InvalidFlags` and `Forms.BlockedIffBlankField`.

## Left out

- Playback.SliderSeekStaysWithinDuration: covers whole-second seek values only. The slider reports fractional values, and after a fractional seek the next tick can take the time up to one second past the duration. The model does not capture this, because it keeps times in whole seconds.
- Strings.ReplaceFirst: a JavaScript replacement string expands `$&`, `$$`, `` $` `` and `$'`; the model takes `rep` literally, which agrees with the only call, whose replacement contains no `$`.
- HTTP requests (login, registration, the category and article lists), response parsing and alert dialogs are network I/O and native UI. A request is modelled only as the body the form would send. The fetched lists are inputs to `SetCategories` and `SetArticles`.
- Cookie storage (reading the token, storing it after login, clearing it on logout) sits behind a native library. It is not modelled.
- The sound library, `setInterval` and the 500 ms `setTimeout` delays are not modelled. They are events and commands: load success or failure, `Tick`, `Finished`, and the `PlayPauseAfterDelay` command. Real time is not modelled.
- The conversion from scroll offset to index, `Math.round(offsetY / height)`, is floating point. `OnScrollEnd` takes the settled index as an integer.
- Fractional durations from the sound library are not modelled. `duration` and `currentTime` are whole seconds.
- React behaviour is not modelled: batching, stale closures (the `duration` captured by the interval, `handleAudioEnd` given to inactive items), and the exact timing of ref attachment. The feed assumes its ref is set exactly when the active index is a rendered item (`Mounted`).
- Navigation wiring, tab icons, the logout flow, static screens, styles and animations are not modelled. These are App.js, CustomerTabNavigator.js, Header.js, SavedPage.js, SettingsPage.js, LoadingScreen.js, the `StyleSheet` objects and the fade-in/fade-out of the success message. The only part of CustomerTabNavigator.js that is modelled is the selection it passes to the feed, as `SetSelection`.
- The password visibility toggle (`showPassword`) and `handleSave` are not modelled. Neither changes any state the model tracks.
- Composition is not modelled: no member connects the commands the feed issues to the player's events. Each component is proved on its own, and the at-most-one-sound rule across feed items is not modelled.
- A tick that ends playback does not pause the native sound. The sound's own completion can still arrive afterwards and raise the end a second time. The model allows this order of events, and no lemma rules it out.

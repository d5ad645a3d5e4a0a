# Music player core: playback orchestration and template rendering

This project models the playback core of a character fan-site's music player.
The core is `js/player.js` and a few rules of `js/renderer.js`.

The player keeps one shared state:
- a registry of tracks and a filtered view of it (the search result);
- the playback session: current track, ready and playing flags, repeat-one;
- a recent-plays ledger;
- volume and mute, mirrored to a persisted key-value store;
- the handle of the progress timer;
- a set of named background-music channels, each with a ready flag, one of them active.

Every command changes that state step by step, so `Player.State` is a class whose methods
update its fields. `Valid()` is the invariant every method keeps:
- the view holds distinct registry positions;
- the volume is in 0..100 and a ready widget's output follows the stored settings;
- the ledger holds at most ten entries, one per media identifier;
- at most one progress interval is alive;
- the active channel exists and is ready;
- every pending callback refers to a widget that exists.

The external video widget is seen only through the commands sent to it. Each widget (the
main player and every background channel) is an append-only command log. Replaying a log
(`Widget.AudioAfter`) gives what the listener hears. Callbacks handed to `setTimeout` are
recorded as pending actions. `Player.State.RunScheduled` fires any one of them, in any order.

The pure rules are functions with lemmas:
- stepping through the view (`Navigation`);
- the ledger update (`RecentPlays`);
- the clamp and the mute/volume command sequences (`Volume`);
- the placeholder substitution and the row fallback of the info cards (`Templates`);
- the playlist item flags (`PlaylistView`);
- the age-tab selection (`AgeTabs`).

## Model

| member | source | states |
|---|---|---|
| Tracks.Resolve | js/player.js:34-40 | The media identifier is what the link parser returned. The cover is the thumbnail URL of a truthy identifier, otherwise the avatar URL keyed by the title. Title, artist and link are kept. |
| Navigation.FindPos | js/player.js:120-122 | Gives -1 exactly when the current track is not in the view. Otherwise gives the first view position holding it. |
| Navigation.JsRem | js/player.js:123 | JavaScript's truncating `%`: agrees with the mathematical remainder for a non-negative dividend and stays strictly between -n and n. |
| Navigation.NextPos | js/player.js:123 | The next view position: the one after, wrapping from the last to 0. |
| Navigation.PrevPos | js/player.js:135 | The previous view position. From 0 it wraps to len-1. For an absent track (position -1) it is len-2, or 0 for a one-entry view. |
| Navigation.NextIndex | js/player.js:119-124 | `playNext` plays an entry of the view; when the current track is absent from the view, it plays the view's first entry. |
| Navigation.PrevIndex | js/player.js:131-136 | `playPrev` plays an entry of the view; when the current track is absent, it plays view position len-2 (0 for a one-entry view), not the last entry. |
| Navigation.ShuffleIndex | js/player.js:144-145 | `playShuffle` plays the view entry at the drawn position, an entry of the view. |
| Navigation.FindPosOfEntry | js/player.js:120-122 | In a view without repeats, the entry at position j is found at j. |
| Navigation.NextFrom | js/player.js:119-126 | From the track at view position j, `playNext` plays position j+1, or position 0 from the last entry. |
| Navigation.PrevUndoesNext | js/player.js:117-139 | For a track in the view, `playPrev` after `playNext` returns to it. |
| Navigation.NextUndoesPrev | js/player.js:117-139 | For a track in the view, `playNext` after `playPrev` returns to it. |
| Navigation.NextTimesAt | js/player.js:117-127 | After k ≤ \|view\| forward steps from position j, the track at position j+k, wrapping once, is playing. |
| Navigation.NextCycle | js/player.js:117-127 | \|view\| forward steps from a track in the view come back to that track. |
| Navigation.UnfilteredScenario | js/player.js:117-127 | Registry [A, B, C] unfiltered, from A: next plays B, then C, then wraps to A. |
| Navigation.FilteredScenario | js/player.js:117-127 | With B filtered out of [A, B, C], next from A plays C. |
| RecentPlays.WithoutId | js/player.js:160 | The filter removes every entry with the identifier and keeps every other entry, in order. |
| RecentPlays.WithoutIdCounts | js/player.js:160 | An entry with another identifier occurs in the filtered ledger exactly as many times as before. |
| RecentPlays.Add | js/player.js:159-163 | The song is first, no later entry shares its identifier, and a ledger of at most ten entries stays at most ten. |
| RecentPlays.AddEvictsOldest | js/player.js:159-163 | The entries after the song are exactly the filtered old ledger in its order. Only its last (oldest) entry is dropped, and only when the result would exceed ten. |
| RecentPlays.AddKeepsNewest | js/player.js:159-163 | For a ledger of at most ten, the survivors are the first min(9, n) entries of the filtered old ledger. |
| RecentPlays.AddKeepsOrder | js/player.js:159-163 | The entries after the new first one are the old ledger's entries in their old relative order. |
| RecentPlays.WithoutIdKeepsDistinct | js/player.js:160 | Filtering keeps identifiers distinct. |
| RecentPlays.AddKeepsDistinct | js/player.js:159-163 | The ledger never holds two entries with the same media identifier. |
| RecentPlays.AddKeepsOthers | js/player.js:159-163 | Below ten entries nothing is evicted: every entry with another identifier stays. |
| RecentPlays.AddTwice | js/player.js:159-163 | Playing the same track twice in a row gives the same ledger as playing it once. |
| RecentPlays.WithoutIdAbsent | js/player.js:160 | Filtering out an identifier that no entry has leaves the ledger as it is. |
| Volume.Clamp | js/player.js:170 | The stored volume is in 0..100. An in-range value is kept; values above go to 100 and below go to 0. |
| Volume.Reapply | js/player.js:173-178 | A ready widget gets `mute()` exactly when muted. Otherwise it gets `unMute()` and `setVolume` with exactly the stored volume. |
| Volume.OnReady | js/player.js:71-75 | The ready callback sends `mute()` exactly when muted, never `unMute()`, and otherwise `setVolume` with the stored volume. |
| Volume.ReapplyOutput | js/player.js:172-179 | Whatever a widget heard before, after these commands it is muted exactly when asked, and its output is 0 when muted, else the volume. |
| Volume.OnReadyOutput | js/player.js:67-76 | On a widget that is not already muted, the ready callback's commands make its output 0 when muted, else the stored volume. |
| Volume.OnReadyKeepsStaleMute | js/player.js:71-75 | Because the ready callback never unmutes, an already-muted widget stays silent even when the setting is "not muted". |
| Player.PauseReady | js/player.js:353-358 | Pausing all channels keeps the set of channels. |
| Player.ActivateLogs | js/player.js:344-351 | Activating a section keeps the set of channels. |
| Player.ActivateIsExclusive | js/player.js:344-360 | After activation, every other ready channel's last command is a pause. The section's last command is a play when it is ready. No channel that is not ready gets a command. |
| Player.State.OnYouTubeApiReady | js/player.js:30-64 | With a non-empty registry: every track is resolved in place, the main widget exists and the view is the whole registry in order. In every case the background start is scheduled after 1000 ms. |
| Player.State.OnPlayerReady | js/player.js:67-76 | The widget becomes ready and gets the stored mute or volume. Its output then follows the stored settings. |
| Player.State.PlaySpecificSong | js/player.js:106-115 | The index is always recorded. Only a ready widget and a track with an identifier give a load, a play scheduled after 100 ms and the ledger update. Otherwise the widget, the pending callbacks and the ledger are untouched. |
| Player.State.AddToRecentPlays | js/player.js:159-163 | The ledger becomes `Add` of the old ledger and the song, keeping the cap and distinct identifiers. |
| Player.State.PlayNext | js/player.js:117-127 | An empty view changes nothing. Otherwise the track after the current one in the view (`NextIndex`) is requested. |
| Player.State.PlayPrev | js/player.js:129-139 | An empty view changes nothing. Otherwise the track `PrevIndex` gives is requested. |
| Player.State.PlayShuffle | js/player.js:141-147 | An empty view changes nothing. Otherwise the view entry at the drawn position is requested. |
| Player.State.TogglePlay | js/player.js:101-104 | Without a ready widget there is no command. Otherwise the widget gets a pause when playing, else a play. `isPlaying` is never written. |
| Player.State.ToggleRepeat | js/player.js:149-152 | Flips repeat-one. |
| Player.State.OnPlayerStateChange | js/player.js:78-95 | PLAYING sets `isPlaying` and leaves exactly one fresh interval alive. PAUSED clears `isPlaying` and all intervals. ENDED never writes `isPlaying`: repeat-one seeks to 0 and plays on the same index, otherwise it is `playNext`. Other events change nothing. |
| Player.State.OnEnded | js/player.js:87-93 | Repeat-one appends a seek to 0 and a play and keeps the index, the pending callbacks and the ledger. Otherwise the next track in the view is requested. |
| Player.State.SaveVolumeSettings | js/player.js:201-204 | The store gets the volume under "playerVolume" and the mute flag under "playerMuted". |
| Player.State.SetVolume | js/player.js:169-183 | The clamped volume is stored. A ready widget gets `Reapply` and its output follows the settings. Without a ready widget it gets nothing. Both settings are persisted either way. |
| Player.State.ToggleMute | js/player.js:185-199 | Mute flips and the volume is untouched, so two toggles restore the settings. A ready widget gets `Reapply` and its output is 0 exactly when muted. Both settings are persisted. |
| Player.State.StopProgressLoop | js/player.js:287-292 | No interval is alive afterwards. With none running, nothing changes. |
| Player.State.StartProgressLoop | js/player.js:261-285 | The old interval is cleared first, so exactly one fresh interval is alive and its handle is kept. |
| Player.State.OnBackgroundReady | js/player.js:314-317 | The channel is marked ready and set to volume 20. |
| Player.State.StopAllBackgroundMusic | js/player.js:353-360 | Every ready channel gets a pause and the others get nothing. No channel is active. |
| Player.State.PauseReadyChannels | js/player.js:354-358 | The loop over the channels, in any order: exactly the ready channels get one pause each. |
| Player.State.DashboardMusic | js/player.js:299-302 | An age's background-music identifier, or "" when its profile has none (also the lookup at lines 363-365). |
| Player.State.CreatedChannels | js/player.js:298-342 | The background start creates the dashboard channel exactly when the current age's profile has a music identifier. Apart from the dashboard, it creates exactly the owner's sections. |
| Player.State.InitBackgroundPlayers | js/player.js:298-342 | Each created channel gets a fresh widget, replacing an earlier one. Other channels stay and readiness is kept. The dashboard channel exists afterwards exactly when it existed before or the current age has background music. |
| Player.State.PlayBackgroundMusic | js/player.js:344-351 | Exclusive play: every ready channel is paused. The section is played and made active when it exists and is ready; otherwise no channel is active. |
| Player.State.UpdateDashboardBgMusic | js/player.js:362-383 | Only an age with a music identifier and an existing dashboard channel re-cue it. A ready channel is paused first, then it is cued and set to loop. A resume after 500 ms is scheduled only when the dashboard is the active channel. Otherwise nothing changes. |
| Player.State.RunScheduled | js/player.js:60-63 | Fires one pending callback and removes it. The delayed main play (line 112) appends a play. The delayed resume (lines 378-380) plays the channel without re-checking anything. The background start creates the channels of `CreatedChannels` (so a dashboard channel only for an age with music) and activates "dashboard". |
| Templates.Digits | js/renderer.js:231 | The decimal numeral of a non-negative number: digits only, read back in base 10 it denotes the number, and it has no leading zero (only 0 itself starts with '0'). |
| Templates.Text | js/renderer.js:226-231 | `String(v)`: a truthy value never gives "", a string is itself, and a number gives its decimal numeral without leading zeros, with a leading '-' when negative. |
| Templates.DotAt | js/renderer.js:214 | The first '.' of a path, or its length when there is none. |
| Templates.Head | js/renderer.js:214-217 | `split('.')[0]`: the longest prefix of the path without a '.'; when it is not the whole path, a '.' follows it. |
| Templates.Tail | js/renderer.js:218-220 | `slice(1).join('.')`: with a '.' in the path, the path is the head, a '.', and the tail. Without one the tail is "". |
| Templates.DotAfterWord | js/renderer.js:214 | For a path `w.rest` with `w` free of '.', the first '.' is right after `w`. |
| Templates.LookupRoots | js/renderer.js:217-220 | `common.x` looks up `x` in the common record and `profile.x` looks up `x` in the profile, via `safeGet`. A bare root looks up the empty path. |
| Templates.Lookup | js/renderer.js:214-221 | A path rooted neither at `common` nor at `profile` names nothing (`undefined`). |
| Templates.Replacement | js/renderer.js:223-231 | Unknown root or falsy value gives "". An object with truthy title and artist gives "title (artist)". Otherwise an object with a truthy name gives the name. Any other truthy value, including an object without both, gives its text ("[object Object]" for an object). |
| Templates.CloseAt | js/renderer.js:213 | The first '}' at or after a position, or the end of the text. |
| Templates.Substitute | js/renderer.js:213 | The global `replace`: empty text stays empty, and a first character that does not open a placeholder stays first. Its full behaviour is in the lemmas below. |
| Templates.ResolveTemplate | js/renderer.js:210-211 | An absent or empty template resolves to "". |
| Templates.CopyStep | js/renderer.js:213 | A first character that does not open a placeholder is copied. |
| Templates.SubstituteLiteral | js/renderer.js:213 | Text without '{' is copied unchanged. |
| Templates.SubstituteCopiesPrefix | js/renderer.js:213 | Text before the first '{' is copied unchanged, whatever follows it. |
| Templates.SubstitutePlaceholder | js/renderer.js:213-232 | `{p}` with non-empty p is replaced by the replacement for p, and scanning resumes after its '}'. |
| Templates.SinglePlaceholder | js/renderer.js:213 | Text that is exactly `{p}` becomes the replacement for `p`. |
| Templates.ResolveSingle | js/renderer.js:210-233 | A template that is exactly `{p}`, with p non-empty and free of '}', resolves to the replacement text for `p`. |
| Templates.ResolveRootedPlaceholder | js/renderer.js:207-233 | The template `{common.x}` (or `{profile.x}`) resolves to the replacement of the value `LookupRoots` finds under `x`, as in the documented `{common.birthday}` example. |
| Templates.SubstituteEmptyBraces | js/renderer.js:213 | `{}` is not a placeholder: both braces are copied. |
| Templates.UnknownRootVanishes | js/renderer.js:214-221 | In a template, a placeholder with any other root disappears from the text. |
| Templates.RowValue | js/renderer.js:263-269 | A non-empty main value is the row's value. Only when the main template resolves to "" does the row take the resolved fallback. |
| PlaylistView.Flags | js/renderer.js:34-36 | An item is active exactly when its registry position is the current one. It shows the playing indicator exactly when active and playing. |
| PlaylistView.RenderPlaylist | js/renderer.js:17-61 | An empty view shows the notice and no items. Otherwise there is one item per view entry, in order, each carrying its registry position and the flags. |
| PlaylistView.UpdatePlaylistActiveState | js/renderer.js:78-93 | Every rendered item keeps its registry position and gets the flags for the current index and playing state. |
| PlaylistView.AtMostOneActive | js/renderer.js:33-36 | With distinct registry positions, at most one item is active. |
| PlaylistView.ActiveIffShown | js/renderer.js:33-36 | Some item is active exactly when the current track is in the view. A playing item is always the active one, and only while playing. |
| AgeTabs.SelectAge | js/renderer.js:171-200 | No keys: the age is unchanged. Otherwise the age is a key. One key: it is that key. With two or more keys, a set, known age is kept, and an empty or unknown one becomes the first key. |
| AgeTabs.TabActive | js/renderer.js:192 | A marked tab shows the set age. With no age set, exactly the first tab is marked. |
| AgeTabs.AtMostOneTab | js/renderer.js:189-195 | With distinct non-empty keys, at most one tab is marked active. |
| AgeTabs.TabsVersusSelection | js/renderer.js:189-199 | For a known age, the marked tab is the selected age. An unknown non-empty age marks no tab, yet the first key is selected. |
| AgeTabs.RenderAgeTabs | js/renderer.js:171-200 | Unmounted: nothing changes. Otherwise the current age becomes `SelectAge`. Tabs are drawn only for two or more keys, each marked from the age held before the selection. |

## Left out

- DOM writing and markup are not modelled: item markup, button icons, the volume slider, `scrollToCurrentSong`, `loadSongUI` and `updatePlayButton`. `renderCharacterProfile` and the other page renderers are left out too. They only project the state onto the page.
- `highlightSearchText` is left out: it builds a regular expression from user input with the host's regex engine.
- Loading the video API script and constructing widgets are left out (`loadYouTubeAPI`, `new YT.Player`). A widget is a command log, and the main widget is "created" by `OnYouTubeApiReady`.
- `initBackgroundPlayers` takes the owner's data as given. Whether the dashboard channel is created follows the current age's entry in the character music map, which is modelled. Only the guide channel depends on the owner's data, which is outside this model, so the owner's sections are a constructor input.
- Time is not modelled. `setTimeout` and `setInterval` are not real timers: pending actions fire in any order, and the progress interval is only a handle. The progress-bar arithmetic and `formatTime` use floating point and are left out.
- `Math.random` in `playShuffle` is not modelled: the drawn view position is a parameter.
- `extractYouTubeId`, `encodeURIComponent`, `safeGet` and `setStorage` live outside this model. The first three are function parameters. The persisted store is a map field.
- `seekTo(percent)` is left out: it multiplies a floating-point duration.
- Only the initial full copy of the registry into the view is modelled. Any sequence of distinct in-range registry positions is allowed. The search module that narrows the view (js/store.js and the search code) is not part of this model.
- Numbers in template values are integers below 10^21 in magnitude, and arrays are not a value kind. Their `String` conversion differs from an object's.
- RecentPlays.WithoutId: its own contract says which entries stay and in what order, not how often. `WithoutIdCounts` states the counts, so the recursive function carries no quantified counting clause.
- Templates.Text: a number of 10^21 or more in magnitude is rendered in exponent form by `String` (for example "1e+21"). The contract gives the plain decimal numeral for every integer, so it holds only below that bound.
- The colour preview and link rows of the info cards are left out. Only the value and fallback rule is modelled.
- Player.State.PlaySpecificSong requires an in-range index when the widget is ready. With an out-of-range index the source throws there, and exceptions are not modelled.
- Player.State.OnPlayerStateChange requires the main widget to exist, since only that widget delivers the event.
- PlaylistView.RenderPlaylist does not model the missing-container early return. With no container nothing is drawn and no state changes.
- Volume.Clamp: the volume is taken to be a whole number. The slider may pass a string or a fractional value, which `Math.min`/`Math.max` coerce; that coercion is not modelled.
- Templates.Substitute: its own contract states only the empty text and the first character. The full substitution is stated by `CopyStep`, `SubstituteLiteral`, `SubstituteCopiesPrefix`, `SubstitutePlaceholder`, `SinglePlaceholder` and `SubstituteEmptyBraces`.
- Several behaviours of the code are modelled as written:
  - `playPrev` from a track outside the view goes to view position len-2 (0 for a one-entry view), not to the last entry.
  - A play request never reports an invalid index or an unplayable track. It records the index and does nothing else.
  - No widget error handler is registered.
  - The delayed background resume plays the channel without re-checking which channel is active.
  - Re-cueing the dashboard channel does not check that it is ready; only the pause before it does.
  - A second background start replaces a channel's widget but keeps its ready flag, so the new widget counts as ready at once.

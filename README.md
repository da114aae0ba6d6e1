# Music player core, modelled in Dafny

The app is a React Native music player. Its core is the playback session of the `AudioProvider`. The session holds:

- a queue of tracks and a current index;
- the current track;
- at most one engine sound;
- a mirror of the engine's status (`isPlaying`, `position`, `duration`).

The screens and stores around the session are modelled too:

- the queue screen: moving an entry, fixing up the current index, the "up next" rows, clearing the queue;
- the daily-mixes screen: chunking a shuffled catalog into three mixes and playing one;
- the now-playing screen: the `m:ss` clock and the rules for what it shows and plays on entry;
- the playlists, favorites, sleep-timer and theme stores;
- the static catalog of nine tracks and four curated lists.

Modules follow the source files:

| module | file | source |
|---|---|---|
| `Common` | `common.dfy` | `Option`, decimal text, Euclidean division facts, sequence helpers |
| `Tracks` | `tracks.dfy` | `src/data/tracks.ts` |
| `Playback` | `playback.dfy` | `src/context/AudioContext.tsx` |
| `QueueScreen` | `queue.dfy` | `app/queue.tsx` |
| `Mixes` | `mixes.dfy` | `app/mixes.tsx` |
| `NowPlaying` | `nowplaying.dfy` | `src/screens/NowPlayingScreen.tsx` |
| `Playlists` | `playlists.dfy` | `src/store/playlists.ts` |
| `Favorites` | `favorites.dfy` | `src/store/favorites.ts` |
| `SleepTimer` | `sleeptimer.dfy` | `src/store/sleepTimer.ts` |
| `Theme` | `theme.dfy` | `src/store/theme.ts` |

Code that updates state (the session, the stores) is modelled as classes whose methods change their fields. Pure code (index arithmetic, the move, chunking, formatting, lookups) is modelled as functions with lemmas.

The media engine is abstract. A held sound records the source it was created from, whether it plays, and its position. Creating a sound requires that none is held, so `loadAndPlay` verifies only because it releases the old sound before creating the new one. That precondition is what keeps the session to at most one sound; the ghost count of live handles only mirrors whether a sound is held. The status the engine reports on creation is a parameter (`created`) of every operation that loads a track. The clock (`Date.now()`) and the random playlist id are parameters too.

Facts about the session code that the model keeps:

- `setQueue` stores the start index as given and does not clamp it.
- `next` always wraps from the last entry to the first.
- The session has no shuffle, repeat mode, volume setter, mute, play history or auto-next. The volume is the constant 1.
- Overlapping loads are not guarded.

JavaScript's `%` truncates toward zero. It is modelled as `Playback.JsRem`. An index below -1 usually gives a negative position, where the entry is missing. The exception is when the dividend is a negative multiple of the length: JavaScript then computes `-0`, and `list[-0]` is the first entry, so that entry is loaded. `loadAndPlay` of a missing entry is `Session.LoadMissing`.

## Model

| member | source | states |
|---|---|---|
| Common.NatToString | src/screens/NowPlayingScreen.tsx:19 | `toString()` of a whole number: non-empty, digits only, no leading zero, one digit exactly below 10 |
| Common.NatToStringRoundTrip | src/screens/NowPlayingScreen.tsx:19 | reading the decimal text back gives the number |
| Common.NatToStringInjective | app/mixes.tsx:21 | distinct numbers give distinct texts |
| Common.Without | src/store/playlists.ts:62 | `filter(id => id !== x)`: never longer, and keeps exactly the members other than `x` |
| Common.WithoutConcat | src/store/playlists.ts:81 | filtering distributes over concatenation, so the kept ids keep their order |
| Common.WithoutAbsent | src/store/favorites.ts:21 | filtering out an absent id changes nothing |
| Common.WithoutNoDup | src/store/playlists.ts:81 | filtering keeps a duplicate-free list duplicate-free |
| Common.IndexOf | src/store/favorites.ts:18 | the first position holding the element, or the length exactly when it is absent |
| Common.IndexOfSnoc | src/store/favorites.ts:34 | appending keeps the first occurrences of earlier elements, and a new element first occurs at the end |
| Common.Dedup | src/store/favorites.ts:34 | `new Set(arr)` in iteration order: no duplicates, same members |
| Common.DedupKeepsFirstOccurrenceOrder | src/store/favorites.ts:34 | the kept elements are listed in the order of their first occurrence in the array |
| Common.DedupOfNoDup | src/store/favorites.ts:34 | a duplicate-free array is kept as it is |
| Tracks.CatalogKeysAreIds | src/data/tracks.ts:16-46 | the table has the nine keys, and each key names the track with that id |
| Tracks.AllTracksInKeyOrder | src/data/tracks.ts:66 | `TRACKS` is the table's values in key order, with distinct ids |
| Tracks.ListsAreWellFormed | src/data/tracks.ts:49-55 | every list entry names a catalog track; entry ids are distinct in each list |
| Tracks.GetTrack | src/data/tracks.ts:58 | a track exactly for a known id, and that track has the id |
| Tracks.MapListToTracks | src/data/tracks.ts:60-64 | one result per entry: its entry id and the looked-up track (missing for an unknown id) |
| Tracks.ListsResolve | src/data/tracks.ts:49-64 | on the app's own lists every entry resolves to the track it names |
| Tracks.ResolveIds | src/store/playlists.ts:90 | `map(id => TRACKS_BY_ID[id]).filter(Boolean)`: never longer than the ids, and only catalog tracks of listed ids; its order is fixed by `ResolveIdsSingle` and `ResolveIdsConcat` |
| Tracks.ResolveIdsSingle | src/store/playlists.ts:90 | one id resolves to its track, or to nothing when it is unknown |
| Tracks.ResolveIdsConcat | src/store/playlists.ts:90 | resolving distributes over concatenation, so the kept tracks follow the order and multiplicity of their ids |
| Tracks.ResolveIdsComplete | src/store/playlists.ts:90 | every listed known id is resolved |
| Tracks.ResolveIdsAllKnown | src/store/favorites.ts:26 | with all ids known nothing is dropped, and the result matches the ids position by position |
| Playback.ToSource | src/context/AudioContext.tsx:44-48 | a URL string becomes `{ uri }`; a handle or an object passes through; never a bare URL |
| Playback.ToSourceIdempotent | src/context/AudioContext.tsx:44-48 | converting twice is converting once |
| Playback.PauseIdempotent | src/context/AudioContext.tsx:163-166 | pausing twice is pausing once; pause keeps source and position; resume undoes it |
| Playback.ActiveList | src/context/AudioContext.tsx:189 | `queue.length ? queue : TRACKS` is never empty |
| Playback.JsRem | src/context/AudioContext.tsx:190 | JavaScript `%`: the Euclidean remainder for `a >= 0`; for `a < 0` the value in `(-n, 0]` congruent to `a`, which is 0 or the Euclidean remainder minus `n` |
| Playback.NextIndex | src/context/AudioContext.tsx:190 | in range from any index >= -1; steps forward; wraps from the last entry to 0 |
| Playback.PrevIndex | src/context/AudioContext.tsx:201 | in range from any index >= 1 - len; steps back; wraps from 0 to the last entry |
| Playback.NextPrevInverse | src/context/AudioContext.tsx:188-204 | on an in-range index, previous undoes next and next undoes previous |
| Playback.NextIndexOfMod | src/context/AudioContext.tsx:190 | one press of next from `x mod len` gives `(x+1) mod len` |
| Playback.NextTimesWraps | src/context/AudioContext.tsx:188-193 | `k` presses of next from an in-range index give `(index + k) mod len` |
| Playback.NextFullCycle | src/context/AudioContext.tsx:188-193 | `len` presses of next come back to the start |
| Playback.FindIndex | src/context/AudioContext.tsx:146 | `findIndex` by id: the first match, or -1 exactly when no entry has the id |
| Playback.Session.constructor | src/context/AudioContext.tsx:53-62 | the initial state: nothing current, empty queue, index 0, no sound, no polling |
| Playback.Session.HandleStatus | src/context/AudioContext.tsx:76-83 | a missing or unloaded status changes nothing; otherwise it is mirrored, with missing numbers read as 0 |
| Playback.Session.Unload | src/context/AudioContext.tsx:103-110 | polling stops and the sound is released; the track fields stay |
| Playback.Session.CreateSound | src/context/AudioContext.tsx:119-125 | allowed only with no sound held; afterwards exactly one handle is live, playing from 0 |
| Playback.Session.LoadAndPlay | src/context/AudioContext.tsx:112-134 | the track becomes current and one new sound plays from its converted uri; the mirror is seeded from the creation status; queue and index stay |
| Playback.Session.LoadMissing | src/context/AudioContext.tsx:112-117 | loading a missing entry clears the track fields and releases the sound, and nothing new is created |
| Playback.Session.SetQueue | src/context/AudioContext.tsx:136-141 | queue and index are stored as given; the start entry is loaded only if it exists, with a new sound, polling and the mirror seeded from the creation status, and the session is then on the list |
| Playback.Session.PlayTrackIn | src/context/AudioContext.tsx:144-153 | jump to the track's first occurrence in the given list, or replace the queue by the track alone; either way that track is loaded, with the mirror seeded |
| Playback.Session.Play | src/context/AudioContext.tsx:143-161 | with a track: jump to its first occurrence in the active list or queue it alone, ending on the list; without one: resume the sound, or reload the current track, or do nothing; every load has a new sound, polling and a seeded mirror |
| Playback.Session.Pause | src/context/AudioContext.tsx:163-166 | pauses a held sound; the mirror and polling are untouched |
| Playback.Session.Toggle | src/context/AudioContext.tsx:168-182 | with no sound, reload the current track if any, with the mirror seeded; otherwise pause a playing sound, or resume a paused one and restart polling |
| Playback.Session.SeekTo | src/context/AudioContext.tsx:184-186 | moves a held sound to `ms`; nothing else changes |
| Playback.Session.Next | src/context/AudioContext.tsx:188-193 | index becomes `NextIndex`, in range from any index >= -1 and wrapping to 0 after the last entry; whenever the new index is in range its entry is loaded with the mirror seeded; a missing entry leaves no track, no sound, no polling, position and duration 0, and the playing flag as it was |
| Playback.Session.Previous | src/context/AudioContext.tsx:195-204 | past 3000 ms with a sound held it seeks to 0 and nothing else changes; otherwise the index becomes `PrevIndex`, wrapping from 0 to the last entry; whenever it is in range that entry is loaded with the mirror seeded, and otherwise no track, no sound and no polling remain, with position and duration 0 and the playing flag as it was |
| QueueScreen.MoveEntry | app/queue.tsx:13-15 | the two splices give exactly the reference move, with the moved entry at `toIndex` |
| QueueScreen.SpliceIsMove | app/queue.tsx:13-15 | remove-then-insert equals the position-by-position move |
| QueueScreen.MovedIsPermutation | app/queue.tsx:13-15 | a move keeps the length and the multiset of entries |
| QueueScreen.MovedKeepsOthersInOrder | app/queue.tsx:13-15 | the other entries keep their relative order |
| QueueScreen.NewIndex | app/queue.tsx:18-21 | the moved entry's index follows it to `toIndex`; otherwise the index moves by at most one, and not at all when both ends are on the same side |
| QueueScreen.NewIndexTracksCurrent | app/queue.tsx:18-21 | the fixed-up index is in range and names the position the current entry moved to |
| QueueScreen.MovedKeepsCurrent | app/queue.tsx:13-21 | the new queue holds the previously current entry at the new index |
| QueueScreen.OfferedMoveKeepsIndex | app/queue.tsx:95-105 | every move the arrows offer is in range and leaves the current index unchanged |
| QueueScreen.HandleReorder | app/queue.tsx:11-24 | no change at all for a move onto itself (queue, index, track, sound, polling and mirror stay); otherwise the moved queue and fixed-up index, with the same track reloaded into a new sound from position 0 when the index was on the queue, and playback untouched when it was not |
| QueueScreen.ReorderKeepingPlayback | app/queue.tsx:11-24 | the same move and index fix-up with the track, sound and mirror untouched; a session settled on the list stays settled |
| QueueScreen.ClearQueue | app/queue.tsx:26-35 | the queue empties with index 0, the current track, sound, polling and mirrored status stay, and next/previous fall back to the catalog |
| QueueScreen.SliceFrom | app/queue.tsx:76 | `slice(start)` is a suffix of the array, of length `len - start` clamped to `[0, len]` for a start >= 0, or `-start` clamped to `len` for a negative start |
| QueueScreen.Upcoming | app/queue.tsx:76-77 | the rows are the entries after the index, each paired with its actual queue index |
| QueueScreen.UpcomingCount | app/queue.tsx:75 | the heading count is non-negative exactly when the index is before the end, and then it is the length of the slice after the index |
| QueueScreen.UpcomingCountMatchesRows | app/queue.tsx:75-76 | with the index on the queue, the heading's count equals the number of rows |
| Mixes.ChunksIsChunking | app/mixes.tsx:18 | the reference chunking concatenates back to the input, with pieces non-empty and at most `size`, all but the last exactly `size` |
| Mixes.ChunkingIsUnique | app/mixes.tsx:18 | any chunking with that shape is the reference one |
| Mixes.PushNewPiece | app/mixes.tsx:18 | pushing past a full last piece opens a new piece of one entry and keeps the shape |
| Mixes.PushGrowLast | app/mixes.tsx:18 | pushing onto a last piece with room grows it and keeps the shape |
| Mixes.PushAt | app/mixes.tsx:18 | `acc[idx] = acc[idx] \|\| []; acc[idx].push(cur)`: slot `idx` gains `cur` at its end, opened when missing, and the other slots stay |
| Mixes.ChunkPush | app/mixes.tsx:18 | the reduce step pushes onto the last piece while it has room and otherwise opens a new one, keeping the shape |
| Mixes.Chunk | app/mixes.tsx:18 | the `reduce` loop yields exactly the reference chunking |
| Mixes.ChunksCountBound | app/mixes.tsx:19 | input that fits in `m` pieces gives at most `m` pieces |
| Mixes.MixSize | app/mixes.tsx:19 | `max(3, ceil(n/3))`: at least 3, three of them cover `n`, and above 3 it is the least size that does |
| Mixes.MixGroups | app/mixes.tsx:19 | at most three groups, each non-empty and at most the mix size, all but the last exactly that size |
| Mixes.MixGroupsCoverShuffle | app/mixes.tsx:17-19 | for any permutation of the catalog, `slice(0, 3)` drops nothing: the mixes concatenate to the shuffle, so each track is in exactly one mix |
| Mixes.NineTracksMakeThreeMixes | app/mixes.tsx:19 | nine tracks give three mixes of three |
| Mixes.BuildMixes | app/mixes.tsx:20-21 | at most three mixes; mix `i` has id `mix<i>`, name `Daily Mix <i+1>`, palette `i mod 3` and group `i` |
| Mixes.MixIdsDistinct | app/mixes.tsx:21 | distinct mixes have distinct ids and names |
| Mixes.HandlePlayAsWritten | app/mixes.tsx:24 | the queue is the mix but the index is the first track's position in the previous active list; or the queue is the first track alone; either way a track with the mix's first id is current, in a new playing sound with polling on |
| Mixes.StaleHandlePlayLeavesMix | app/mixes.tsx:24 | from an empty queue, a mix T5, T1, T9 gets index 4 (past its end), and next then skips T1 |
| Mixes.HandlePlay | app/mixes.tsx:24 | the queue is the mix, the index 0 and its first track current, held in a new sound playing from 0 with polling on; next goes to its second track |
| NowPlaying.TotalSeconds | src/screens/NowPlayingScreen.tsx:18 | whole seconds of a non-negative time, rounded down; 0 below one second, including negative and missing times |
| NowPlaying.Pad2 | src/screens/NowPlayingScreen.tsx:20 | `padStart(2, '0')`: two digits with the same value |
| NowPlaying.Fmt | src/screens/NowPlayingScreen.tsx:17-22 | the text ends in a colon and two digits, and the minutes have no leading zero |
| NowPlaying.FmtRoundTrip | src/screens/NowPlayingScreen.tsx:17-22 | reading the `m:ss` text back gives the whole seconds, with negative or missing times counting as 0 |
| NowPlaying.FmtExamples | src/screens/NowPlayingScreen.tsx:17-22 | -1.5 s and a missing time show `0:00`; an hour shows `60:00`; 61999 ms shows `1:01` |
| NowPlaying.ProgressMs | src/screens/NowPlayingScreen.tsx:50 | the drag value exactly while scrubbing with one, otherwise the position |
| NowPlaying.SliderMax | src/screens/NowPlayingScreen.tsx:109 | never below 1 or the duration; the duration once it is at least 1, and 1 before that |
| NowPlaying.WantedId | src/screens/NowPlayingScreen.tsx:27 | the route's id, or `T1` when there is none |
| NowPlaying.RouteTrack | src/screens/NowPlayingScreen.tsx:30 | a track exactly when the wanted id is in the catalog, with that id |
| NowPlaying.Display | src/screens/NowPlayingScreen.tsx:38 | the current track when there is one, otherwise the route's track; something is shown when either exists |
| NowPlaying.ShouldPlayOnEnter | src/screens/NowPlayingScreen.tsx:42 | plays only with a route track, and skips exactly when the current track already has its id |
| NowPlaying.DefaultRoute | src/screens/NowPlayingScreen.tsx:27-30 | no route id means track T1 |
| NowPlaying.EnterScreen | src/screens/NowPlayingScreen.tsx:38-45 | the route's track, if it exists, ends up displayed; when it is not already current it is loaded into a new playing sound with the mirror seeded, and the session is then on the list; otherwise the whole session stays |
| Playlists.WithTrack | src/store/playlists.ts:51 | the id ends up present, other members stay, and it is appended only when absent |
| Playlists.WithTrackIdempotentNoDup | src/store/playlists.ts:51 | adding twice is adding once and creates no duplicate |
| Playlists.PlaylistStore.HasTrack | src/store/playlists.ts:92-95 | true only for a stored playlist |
| Playlists.PlaylistStore.GetPlaylistTracks | src/store/playlists.ts:87-91 | empty for an unknown playlist; otherwise its ids resolved in order, which holds exactly the catalog tracks of its known ids |
| Playlists.PlaylistStore.constructor | src/store/playlists.ts:32-35 | empty and not loaded |
| Playlists.PlaylistStore.CreatePlaylist | src/store/playlists.ts:36-46 | a new empty playlist is stored under the id, which goes first in the order; a fresh id keeps the store well-formed |
| Playlists.PlaylistStore.AddTrack | src/store/playlists.ts:47-57 | an unknown playlist is unchanged; otherwise only its ids change, gaining the track once |
| Playlists.PlaylistStore.RemoveTrack | src/store/playlists.ts:58-68 | every occurrence is dropped, the rest keep their order, and the track is then absent |
| Playlists.PlaylistStore.RenamePlaylist | src/store/playlists.ts:69-75 | only that playlist's name changes |
| Playlists.PlaylistStore.DeletePlaylist | src/store/playlists.ts:76-86 | the playlist leaves both the map and the order; an unknown id changes nothing |
| Playlists.PlaylistStore.Load | src/store/playlists.ts:98-105 | a parsed snapshot replaces both fields, with missing ones empty; `loaded` ends up true |
| Favorites.Toggled | src/store/favorites.ts:19-25 | the id's membership flips, the other members keep their order, an added id goes last, and no duplicates appear |
| Favorites.ToggleTwice | src/store/favorites.ts:19-25 | toggling twice gives the same members, and the exact list when the id was absent |
| Favorites.FavoritesStore.constructor | src/store/favorites.ts:15-17 | empty and not loaded |
| Favorites.FavoritesStore.IsFavorite | src/store/favorites.ts:18 | `has(id)`: the id has a position in the set |
| Favorites.FavoritesStore.ToggleFavorite | src/store/favorites.ts:19-25 | `isFavorite(id)` flips and no other id changes |
| Favorites.FavoritesStore.GetAll | src/store/favorites.ts:26 | the favorite ids resolved in set order: exactly the catalog tracks of the favorite ids, none dropped when all are known |
| Favorites.FavoritesStore.Load | src/store/favorites.ts:29-38 | a parsed array becomes the set, with members exactly the array's ids; `loaded` ends up true |
| SleepTimer.RemainingAt | src/store/sleepTimer.ts:17-30 | nothing exactly when unset or 0; otherwise non-negative ms split into whole minutes and 0-59 seconds that bracket it |
| SleepTimer.ExpiredShowsZero | src/store/sleepTimer.ts:25-29 | a timer past its expiry shows 0:00, not nothing |
| SleepTimer.FreshTimerShowsWholeMinutes | src/store/sleepTimer.ts:12 | at the clock reading `setTimer(m)` used, the remaining time is `m` minutes and 0 seconds |
| SleepTimer.SleepTimerStore.constructor | src/store/sleepTimer.ts:11 | no timer at first |
| SleepTimer.SleepTimerStore.SetTimer | src/store/sleepTimer.ts:12 | expiry is now plus the minutes in ms |
| SleepTimer.SleepTimerStore.Clear | src/store/sleepTimer.ts:13 | no timer, and nothing is displayed |
| Theme.Effective | src/store/theme.ts:14 | `auto` falls back to dark, and the other settings apply themselves |
| Theme.ParseTheme | src/store/theme.ts:22 | only `dark`, `light` and `auto` are accepted |
| Theme.ThemeNameRoundTrip | src/store/theme.ts:13-25 | storing a setting and reading it back gives the setting; an accepted string names its setting |
| Theme.ThemeStore.constructor | src/store/theme.ts:11-12 | dark and dark, consistent |
| Theme.ThemeStore.SetTheme | src/store/theme.ts:13-17 | the setting is stored and the applied theme follows it |
| Theme.ThemeStore.ApplyStored | src/store/theme.ts:21-25 | a valid stored name is applied; anything else changes nothing |

## Findings

| source | as written | input that shows it | evidently intended | confidence | as-written member | corrected member |
|---|---|---|---|---|---|---|
| app/mixes.tsx:24 | `handlePlay` awaits `setQueue(mix.tracks, 0)` and then calls the `play` of the same render. That `play` still sees the previous `queue`, so it sets the index to the first track's position in the old list, or replaces the new queue by that single track when the old list lacks it | empty queue; the mix is T5, T1, T9: the index becomes 4 for a three-entry queue, and `next` then plays T9, skipping T1 | play the mix from its first entry with index 0 | not executed; the closure capture follows React's rules for state in event handlers | Mixes.HandlePlayAsWritten, Mixes.StaleHandlePlayLeavesMix | Mixes.HandlePlay |
| app/queue.tsx:23 | `handleReorder` passes the moved queue to `setQueue`, which loads the entry at the new index again (src/context/AudioContext.tsx:139-140). The current track is therefore recreated from position 0, even though no arrow ever moves it | queue T1, T2, T3 with T1 playing 90 s in; press the down arrow on T2: T1 starts over from 0:00 | move the entry and fix up the index while the current track plays on | not executed; `setQueue` reloads whenever the start entry exists | QueueScreen.HandleReorder | QueueScreen.ReorderKeepingPlayback |

## Left out

- Engine calls (`Audio.Sound.createAsync`, `playAsync`, `pauseAsync`, `setPositionAsync`, `unloadAsync`, `getStatusAsync`) are abstracted into the `Sound` value. Engine failures and the swallowed exceptions are not modelled. The audio-mode setup at start-up is left out.
- Polling is a flag. The 250 ms timer and the status reports it delivers are not modelled. A later status can be fed through `Session.HandleStatus`.
- Async interleavings are not modelled. Each operation runs to completion before the next starts, and only `Mixes.HandlePlayAsWritten` models a stale closure.
- Persistence through AsyncStorage and JSON is left out. The writes are fire-and-forget. Loads take the parsed result as a parameter: nothing, unreadable, or parsed fields.
- Favorites.FavoritesStore.Load: a parsed value that is not an array of ids is not modelled.
- `Math.random` is left out: the random playlist id and the shuffle comparator. The id is a parameter, and the shuffle is any permutation of the catalog.
- `Date.now()` and the sleep-timer's one-second refresh are parameters. Nothing stops playback when the timer expires, in the code or in the model.
- SleepTimer.FreshTimerShowsWholeMinutes: `useSleepRemaining` reads `now` once when it mounts and refreshes it only through the one-second interval, which starts once a timer is set. Its first display after `setTimer` therefore uses a stale `now` and can show more than `m` minutes. The model evaluates the display at an explicit clock reading, so that stale reading is not captured.
- Playback.Session.Toggle: the engine status is assumed to be loaded, and its playing flag is the held sound's. A sound the engine reports as unloaded (nothing happens) is not modelled.
- QueueScreen.HandleReorder: requires both indices to be inside the queue. The screen only offers such moves (`QueueScreen.OfferedMoveKeepsIndex`). Out-of-range splices are not modelled.
- Playlists.PlaylistStore.CreatePlaylist: well-formedness is promised only for an id not already stored. A random-id collision would put the id twice in `order`.
- NowPlaying.Fmt: `ms` is a whole number. Fractional values and `NaN` are not modelled.
- Scrubbing state changes on the now-playing screen are not modelled: drag start, value change and release. Only the slider's value and maximum are.
- Playlists.PlaylistStore.AddTrack and Playlists.PlaylistStore.RemoveTrack: the source assigns `pl.trackIds` on the previous state's playlist object before copying it. The model builds new values, so that aliasing between old and new state is not captured.
- All rendering, navigation, toasts, the mini player and the other tabs are not part of this model.

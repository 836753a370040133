# Greeting card: emoji rain and background music, modelled in Dafny

This project models the two parts of the greeting-card web app that hold runtime logic. The rest of the app is presentation.

- **The folded card** (`folded_card.dfy`, module `FoldedCard`). The card is open or closed, and a click flips it unless the click lands on a heart. Glyphs fall over the card in an "emoji rain". Each emoji is a record `{id, emoji, x, y, speed, rotation}`, and three operations act on the list:
  - *spawn*: an ambient timer appends one emoji;
  - *burst*: a heart click appends fifteen emojis, built by a loop;
  - *tick*: an animation timer moves every emoji down by its speed, turns it by 4 degrees, then drops those whose `y` has reached 110.

  The list and the open flag are fields of the class `Card`. Tick is the pure function `Tick`, a map (`Fallen`) followed by a filter (`OnScreen`). `Math.random()` values are parameters, grouped four at a time in a `Draw`, each in [0, 1). `Date.now()` readings are parameters too. A spawn gets one reading, `now`. A burst gets fifteen readings, `clock`, one per loop iteration, as the loop reads the clock afresh each time. Positions and speeds are exact `real` numbers.
- **The background-music controller** (`background_music.dfy`, module `BackgroundMusic`). Its state has seven parts:
  - `isReady`, `isPlaying` and `isMuted`;
  - the play-request ref `requestedPlay`;
  - whether the audio element exists (`audioPresent`);
  - the element's own `muted` property (`elementMuted`);
  - the play attempts that have not settled yet (`pending`).

  Each handler and effect is a function from one `Session` value to the next: setup, teardown, `canplay`, `play`, `pause`, mute sync, autoplay, the play/pause button and the mute button. The class `MusicPlayer` holds the same state in fields. Each of its methods updates the fields in place and is proved to match its function.

  Each `audio.play()` call is split into two steps. Starting an attempt appends its origin (canplay retry, autoplay or button) to `pending`. A later outcome event settles one pending attempt, in any order, as resolved or rejected. `Step` and `Run` apply events one at a time, in order. The lemmas about event sequences use them.

Points where the code behaves in a way a reader might not expect, all of which the model follows:
- In the code, `isPlaying` is written by the `play` and `pause` listeners, and also by play-attempt outcomes and by the pause branch of the button. It is not written only by element events.
- When the audio is not ready, the play button records the request and still starts an attempt (or pauses) at once. It does not only defer.
- A rejected autoplay attempt leaves `isPlaying` as it was. Rejected canplay and button attempts clear it.
- The autoplay effect with the audio not ready records a request and starts no attempt.
- `canplay` sets `isReady` every time it fires. Only a pending request makes it start an attempt, so a second `canplay` starts nothing.
- Tick keeps an emoji only when its new `y` is strictly below 110, so an emoji at exactly 110 is removed.
- Emoji ids are not unique: a spawn that reads `t` and burst emoji `i` whose reading was `t - i` share the id `t`. Within one burst the ids strictly ascend when the clock never goes back, but they may skip values.

## Model

| member | source | states |
|---|---|---|
| `FoldedCard.PickGlyph` | src/components/FoldedCard.tsx:27 | `emojiList[floor(r * 6)]` with `r` in [0,1) is always one of the six glyphs of `emojiList` |
| `FoldedCard.SpawnEmoji` | src/components/FoldedCard.tsx:40-47 | a spawned emoji has id `now`, `y = -10`, `x` in [0,100), `speed` in [1.5,3.5), rotation in [0,360), and a glyph from `emojiList` |
| `FoldedCard.BurstEmoji` | src/components/FoldedCard.tsx:25-32 | burst emoji `i`, built when the clock read `now`, has id `now + i`, `y = -10`, `x` in [0,100), `speed` in [2,5) (so positive), rotation in [0,360), and a glyph from `emojiList` |
| `FoldedCard.BuildBurst` | src/components/FoldedCard.tsx:23-33 | the loop builds exactly 15 emojis. Entry `i` is burst emoji `i`, made from clock reading `clock[i]` and draw `i`. Every one has `y = -10`, `x` in [0,100), `speed` in [2,5) and a listed glyph. When the readings never go back, the ids strictly ascend |
| `FoldedCard.OnScreen` | src/components/FoldedCard.tsx:64 | the filter never grows the list, and every emoji it keeps came from its input and has `y < 110` |
| `FoldedCard.Tick` | src/components/FoldedCard.tsx:57-65 | after a tick the list is no longer than before and every emoji on it has `y < 110` |
| `FoldedCard.OnScreenIsOrderedFilter` | src/components/FoldedCard.tsx:64 | the filter keeps exactly the emojis with `y < 110`; kept emoji `k` is the input emoji at position `Kept(s)[k]`, and those positions strictly ascend |
| `FoldedCard.TickIsOrderedFilteredMap` | src/components/FoldedCard.tsx:57-65 | a tick is an order-preserving filtered map. Input emoji `i` survives exactly when `y + speed < 110`, so one with `y + speed >= 110` is gone. Survivors keep their input order. Each has new `y` = old `y + speed` and new rotation = old rotation + 4, with `id`, glyph, `x` and `speed` unchanged |
| `FoldedCard.TickDistributes` | src/components/FoldedCard.tsx:57-65 | ticking `a + b` gives `Tick(a) + Tick(b)`, so each emoji is advanced and culled on its own, whatever was appended after it |
| `FoldedCard.TickKeepsInFlight` | src/components/FoldedCard.tsx:57-65 | if every emoji has `-10 <= y < 110`, `x` in [0,100), `speed` in [1.5,5) and a listed glyph, every emoji after a tick still does |
| `FoldedCard.Card.constructor` | src/components/FoldedCard.tsx:14-15 | the card starts closed with no emojis |
| `FoldedCard.Card.HeartClick` | src/components/FoldedCard.tsx:20-35 | a heart click adds exactly 15 emojis at the end. The old list is an unchanged prefix, appended emoji `i` is burst emoji `i` built from the `i`-th clock reading, `isOpen` is unchanged, and every emoji stays in flight |
| `FoldedCard.Card.Spawn` | src/components/FoldedCard.tsx:40-48 | a spawn appends exactly one spawned emoji after the unchanged old list and leaves `isOpen` alone |
| `FoldedCard.Card.AnimationTick` | src/components/FoldedCard.tsx:56-66 | the animation timer replaces the list by its tick and keeps every emoji in flight |
| `FoldedCard.Card.Click` | src/components/FoldedCard.tsx:79-83 | a click inside a heart leaves `isOpen` unchanged; any other click flips it; the emojis are untouched |
| `BackgroundMusic.Initial` | src/components/BackgroundMusic.tsx:16-20 | at first render there is no element, nothing is ready, playing, muted or requested, and no attempt is pending |
| `BackgroundMusic.HandleSetup` | src/components/BackgroundMusic.tsx:26-59 | setup creates the element with `muted` copied from `isMuted` and attaches the listeners; no other state changes |
| `BackgroundMusic.HandleTeardown` | src/components/BackgroundMusic.tsx:62-69 | teardown drops the element and its listeners and changes no other state |
| `BackgroundMusic.HandleCanPlay` | src/components/BackgroundMusic.tsx:34-48 | `canplay` sets `isReady`. A set request starts exactly one attempt and clears the request, and an unset one starts none. `isPlaying` and `isMuted` are untouched, and with the listener detached nothing changes |
| `BackgroundMusic.HandlePlay` | src/components/BackgroundMusic.tsx:50 | `play` sets `isPlaying` and leaves `isMuted`, `isReady` and `requestedPlay` alone |
| `BackgroundMusic.HandlePause` | src/components/BackgroundMusic.tsx:51 | `pause` clears `isPlaying` and leaves `isMuted`, `isReady` and `requestedPlay` alone |
| `BackgroundMusic.HandleMuteSync` | src/components/BackgroundMusic.tsx:74-78 | the sync effect brings `audio.muted` into agreement with `isMuted` and changes nothing else |
| `BackgroundMusic.HandleAutoPlay` | src/components/BackgroundMusic.tsx:81-98 | with `autoPlay` and an element: ready and not playing starts one attempt; not ready sets `requestedPlay`; ready and playing, or no `autoPlay`, or no element, changes nothing. `isMuted` and `isPlaying` are never changed |
| `BackgroundMusic.HandleTogglePlay` | src/components/BackgroundMusic.tsx:101-128 | with no element the button only sets `requestedPlay`. Otherwise not ready sets `requestedPlay`, and then playing pauses (`isPlaying` false, no attempt) while not playing starts one button attempt. `isMuted` is never changed |
| `BackgroundMusic.HandleToggleMute` | src/components/BackgroundMusic.tsx:140-148 | in a consistent state the mute button flips `isMuted` and keeps the element in agreement; `isPlaying`, `isReady`, `requestedPlay` and the pending attempts are untouched |
| `BackgroundMusic.HandleOutcome` | src/components/BackgroundMusic.tsx:40-45 | settling attempt `k` removes it from the pending list. A resolution sets `isPlaying`. A rejection clears it for canplay and button attempts and keeps it for autoplay attempts (lines 87-91). Muting, readiness and the request are untouched |
| `BackgroundMusic.StepKeepsConsistent` | src/components/BackgroundMusic.tsx:74-78 | every single event keeps `audio.muted` equal to `isMuted` while the element exists |
| `BackgroundMusic.RunKeepsConsistent` | src/components/BackgroundMusic.tsx:31 | after any sequence of events, `audio.muted` still agrees with `isMuted` |
| `BackgroundMusic.MutedFollowsMuteClicks` | src/components/BackgroundMusic.tsx:140-148 | after any sequence of events, `isMuted` is the start value flipped once per mute click; no play attempt, toggle, autoplay or media event changes it |
| `BackgroundMusic.ReadyIsSticky` | src/components/BackgroundMusic.tsx:35 | once ready, the controller stays ready through any events |
| `BackgroundMusic.ToggleMuteTwice` | src/components/BackgroundMusic.tsx:140-148 | two mute clicks restore the whole state |
| `BackgroundMusic.RequestConsumedOnce` | src/components/BackgroundMusic.tsx:37-47 | a pending request is honoured by exactly one attempt; a second `canplay` starts none |
| `BackgroundMusic.DeferredAutoPlay` | src/components/BackgroundMusic.tsx:92-95 | autoplay before readiness records a request, and the following `canplay` starts one attempt, with the request cleared |
| `BackgroundMusic.MusicPlayer.constructor` | src/components/BackgroundMusic.tsx:16-20 | the fields start in the initial state |
| `BackgroundMusic.MusicPlayer.SetupEffect` | src/components/BackgroundMusic.tsx:23-59 | the mount effect updates the fields as `HandleSetup` |
| `BackgroundMusic.MusicPlayer.Teardown` | src/components/BackgroundMusic.tsx:62-69 | the cleanup updates the fields as `HandleTeardown` |
| `BackgroundMusic.MusicPlayer.OnCanPlay` | src/components/BackgroundMusic.tsx:34-48 | the listener updates the fields as `HandleCanPlay` |
| `BackgroundMusic.MusicPlayer.OnPlay` | src/components/BackgroundMusic.tsx:50 | the listener updates the fields as `HandlePlay` |
| `BackgroundMusic.MusicPlayer.OnPause` | src/components/BackgroundMusic.tsx:51 | the listener updates the fields as `HandlePause` |
| `BackgroundMusic.MusicPlayer.MuteSyncEffect` | src/components/BackgroundMusic.tsx:74-78 | the effect updates the fields as `HandleMuteSync` |
| `BackgroundMusic.MusicPlayer.AutoPlayEffect` | src/components/BackgroundMusic.tsx:81-98 | the effect updates the fields as `HandleAutoPlay` |
| `BackgroundMusic.MusicPlayer.TogglePlay` | src/components/BackgroundMusic.tsx:101-128 | the button updates the fields as `HandleTogglePlay` |
| `BackgroundMusic.MusicPlayer.ToggleMute` | src/components/BackgroundMusic.tsx:140-148 | the button updates the fields as `HandleToggleMute`, so `isMuted` flips |
| `BackgroundMusic.MusicPlayer.PlaySettled` | src/components/BackgroundMusic.tsx:40-136 | the outcome of a pending attempt updates the fields as `HandleOutcome`. The span covers the three places that settle attempts: the canplay attempt (lines 40-45), the autoplay attempt (lines 87-91) and the button attempt (lines 113-136) |

Every method of `MusicPlayer` also keeps `Valid()`: while the element exists, `audio.muted` equals `isMuted`.

## Left out

- The timers (`setInterval`, `clearInterval`, the 400 ms and 50 ms periods, cancelling them on unmount) are left out. Spawn and tick are explicit calls.
- `Math.random()` and `Date.now()` are left out. They are parameters: a `Draw` of four values in [0, 1), and integer clock readings (one per spawn, one per burst iteration).
- The `error` listener is left out. It only logs a warning and changes no state.
- The element's configuration (source path, `loop`, `preload`, `crossOrigin`, volume 0.6) and the `console.warn` calls are left out. They do not affect the modelled state.
- The element's own playback is left out. `play` and `pause` media events arrive as separate events and are not derived from attempts or from `audio.pause()`.
- `BackgroundMusic.HandleTogglePlay`: a browser whose `audio.play()` returns no promise sets `isPlaying` at once (lines 124-127). The model treats this as an attempt whose resolution arrives immediately as an outcome event. It does not model it as a single step.
- A `play()` call that throws synchronously is modelled, as a rejected attempt, only in the play/pause button, whose call sits inside `try`/`catch` (lines 113-136).
- `BackgroundMusic.HandleCanPlay`: a synchronous throw from `play()` at line 40 is not modelled. It would leave the handler before line 46, so the request would stay set; the model always clears it.
- `BackgroundMusic.HandleAutoPlay`: a synchronous throw from `play()` at line 87 is not modelled. It would escape the effect; the model always records a pending attempt.
- Stale closures are left out. React handlers see the state of the render that created them, and effects run after rendering. The model applies each event to the current state, serially.
- An outcome that arrives after teardown still updates the state. React ignores such updates on an unmounted component, which the model does not capture.
- Floating point is left out: positions, speeds and rotations are exact reals, not IEEE doubles. Rounding can move the bounds and the cut below by one unit in the last place.
- `FoldedCard.SpawnEmoji`: the bound `speed < 3.5` holds in exact reals. In doubles, `1.5 + r * 2` rounds to exactly 3.5 for the largest `Math.random()` value, 1 - 2^-53.
- `FoldedCard.BurstEmoji`: the bound `speed < 5` holds in exact reals. In doubles, `2 + r * 3` rounds to exactly 5 for `r` = 1 - 2^-53.
- `FoldedCard.Tick`: the cut `y + speed < 110` uses the exact sum. The program compares the rounded sum, so an emoji within one unit in the last place of 110 may be kept or dropped differently.
- The `visibilitychange` listener is left out. Its handler body is empty.
- JSX, CSS classes, icons, the 3D flip styling and the hidden `<audio>` tag are left out. They are presentation only.
- `src/App.tsx`, `src/pages/Index.tsx` and `src/contexts/GameContext.tsx` are left out. They hold routing, providers, view switching and a plain boolean context. `setHasWon` accepts any value, so there is no set-once rule to model.
- Emoji id uniqueness is not claimed, because the source does not guarantee it.

# Podcast player state store, in Dafny

This project models the playback state machine of a podcast web player. The
store (`PlayerContextProvider` in `src/contexts/PlayerContexts.tsx`) holds a
playlist, a cursor into it and three flags: playing, looping and shuffling. It
offers mutators that load a playlist, flip the flags, clear the playlist and
step the cursor forward or back. It also derives `hasNext` and `hasPrevious`.

The project has three modules:

- `PlayerModel` (`player_model.dfy`) models the state. `PlayerState` is a
  snapshot of the five state slots. Each mutator is a pure transition function
  whose contract says which fields it sets, which it keeps, and what it does to
  the store invariant `Valid`. `Valid` means: on an empty playlist the cursor
  is 0, and on a non-empty one the cursor is inside the playlist. The module
  also proves the toggles are involutions, `setPlayingState` is idempotent, and
  the navigation steps undo each other.
- `PlayerSession` (`player_session.dfy`) models a session as a sequence of
  calls applied to the initial state, where each call sees the state the
  previous call produced (a re-render between every two calls). It proves
  that every such session whose `playList` indices fit keeps `Valid`. It
  also proves these frame facts about such sessions:
  - the loop flag ends flipped exactly when `toggleLoop` ran an odd number of
    times, and the same holds for shuffle and `toggleShuffle`;
  - only `play`, `playList` and `clearPlayerState` replace the playlist;
  - only those three and the two navigation calls move the cursor.
- `PlayerStore` (`player_store.dfy`) is the store as a class, `Player`. Its
  fields are the five state slots and it has one method per mutator. Each
  method's contract ties the new `State()` to the `PlayerModel` transition of
  the same name applied to the old state. Each `modifies` clause names only
  the slots that mutator writes. `Scenarios` is a client that walks through
  example scenarios (next at the end, shuffle, step back at 0, clear) using
  only these contracts.

The random draw in `playNext` is modelled like this. `PlayNext` takes the
drawn index `r` as an argument, constrained by `ValidChoice`: `r` is an index
of the list, or 0 when the list is empty. `RandomIndex(sample, scale, length)`
models `Math.floor(Math.random() * length)`, where the number `Math.random`
returns is treated as the exact fraction `sample / scale`, which is below 1.
`RandomIndex` is proved always to produce a valid choice. `PlayerSession.Step`
connects the two.

In the code, `clearPlayerState` and the initial state both set the cursor to
0. So an empty playlist has cursor 0, not an undefined cursor, and `Valid`
follows the code here. `playList` does not check its index, so the
transition accepts any integer. Its contract says exactly when the result is
`Valid` and when it is `InBounds`.

## Model

| member | source | states |
|---|---|---|
| PlayerModel.HasPrevious | src/contexts/PlayerContexts.tsx:79 | on a cursor inside the playlist, hasPrevious holds exactly when the position before the cursor is an episode |
| PlayerModel.HasNext | src/contexts/PlayerContexts.tsx:80 | hasNext always holds while shuffling; otherwise, on a non-negative cursor, exactly when the position after the cursor is an episode |
| PlayerModel.InitialValid | src/contexts/PlayerContexts.tsx:42-46 | the initial state (empty list, index 0, flags off) satisfies the invariant, has no previous and no next |
| PlayerModel.Play | src/contexts/PlayerContexts.tsx:48-52 | the list becomes `[episode]`, index 0, playing; loop and shuffle kept; the result is in bounds, has no previous, and has a next exactly when shuffling |
| PlayerModel.PlayList | src/contexts/PlayerContexts.tsx:54-58 | list and index are set as given and playing is on; loop and shuffle kept; the result is in bounds exactly when `0 <= index < |list|` and valid exactly when the index fits the list |
| PlayerModel.TogglePlay | src/contexts/PlayerContexts.tsx:60-62 | only `isPlaying` is negated; every other field is kept, so the result is valid exactly when the old state was |
| PlayerModel.ToggleLoop | src/contexts/PlayerContexts.tsx:63-65 | only `isLooping` is negated; every other field is kept, so the result is valid exactly when the old state was |
| PlayerModel.ToggleShuffle | src/contexts/PlayerContexts.tsx:66-68 | only `isShuffling` is negated; validity is unchanged; afterwards hasNext holds exactly when shuffle was just turned on or a sequential step is possible |
| PlayerModel.SetPlayingState | src/contexts/PlayerContexts.tsx:70-72 | `isPlaying` becomes the argument and nothing else changes; the state is unchanged exactly when it already had that value; validity is unchanged |
| PlayerModel.ClearPlayerState | src/contexts/PlayerContexts.tsx:74-77 | list empty, index 0, all three flags kept; the result is valid, with no previous, and has a next exactly when shuffling |
| PlayerModel.TogglePlayInvolution | src/contexts/PlayerContexts.tsx:60-62 | togglePlay twice restores the state |
| PlayerModel.ToggleLoopInvolution | src/contexts/PlayerContexts.tsx:63-65 | toggleLoop twice restores the state |
| PlayerModel.ToggleShuffleInvolution | src/contexts/PlayerContexts.tsx:66-68 | toggleShuffle twice restores the state |
| PlayerModel.SetPlayingStateIdempotent | src/contexts/PlayerContexts.tsx:70-72 | setting the same playing state twice equals setting it once |
| PlayerModel.RandomIndex | src/contexts/PlayerContexts.tsx:84 | floor of a fraction in [0, 1) times the list length is an index of the list, or 0 for an empty list |
| PlayerModel.PlayNext | src/contexts/PlayerContexts.tsx:82-89 | only the index changes; while shuffling it becomes the drawn `r`; otherwise it goes up by exactly 1 when `index + 1 < |list|` and nothing changes at the end; any change implies hasNext held; validity and in-bounds are preserved |
| PlayerModel.PlayPrevious | src/contexts/PlayerContexts.tsx:92-96 | only the index changes; it goes down by 1 exactly when it was `> 0`, otherwise nothing changes; it never turns negative; validity and in-bounds are preserved |
| PlayerModel.HasNextDecidesSequentialStep | src/contexts/PlayerContexts.tsx:80-88 | when not shuffling, hasNext holds exactly when playNext changes the state |
| PlayerModel.PreviousUndoesNext | src/contexts/PlayerContexts.tsx:82-96 | a sequential step forward from a non-negative index is undone by playPrevious |
| PlayerModel.NextUndoesPrevious | src/contexts/PlayerContexts.tsx:82-96 | on a valid state with a previous episode, playPrevious followed by a sequential playNext restores the state |
| PlayerSession.Step | src/contexts/PlayerContexts.tsx:48-96 | one call keeps the invariant when its playList index fits; it flips loop/shuffle exactly for the matching toggle; only loading calls replace the list; only loading and navigation calls move the cursor |
| PlayerSession.Run | src/contexts/PlayerContexts.tsx:42-96 | any sequence of calls, each seeing the state the previous one produced, whose playList indices fit keeps the invariant |
| PlayerSession.SessionValid | src/contexts/PlayerContexts.tsx:42-96 | every such session started from the initial state ends in a valid state |
| PlayerSession.LoopParity | src/contexts/PlayerContexts.tsx:63-65 | after any session of calls that each see the previous call's state, the loop flag is flipped exactly when toggleLoop was called an odd number of times |
| PlayerSession.ShuffleParity | src/contexts/PlayerContexts.tsx:66-68 | after any session of calls that each see the previous call's state, the shuffle flag is flipped exactly when toggleShuffle was called an odd number of times |
| PlayerSession.PlaylistKept | src/contexts/PlayerContexts.tsx:48-96 | a session without play, playList or clearPlayerState keeps the playlist |
| PlayerSession.CursorKept | src/contexts/PlayerContexts.tsx:48-96 | a session without loading or navigation calls keeps the cursor |
| PlayerStore.Player.HasPrevious | src/contexts/PlayerContexts.tsx:79 | on a store cursor inside the playlist, holds exactly when an episode comes before the cursor |
| PlayerStore.Player.HasNext | src/contexts/PlayerContexts.tsx:80 | always holds while the store shuffles; otherwise, on a non-negative store cursor, exactly when an episode comes after the cursor |
| PlayerStore.Player.constructor | src/contexts/PlayerContexts.tsx:42-46 | the new store holds the initial state |
| PlayerStore.Player.Play | src/contexts/PlayerContexts.tsx:48-52 | the new state is `PlayerModel.Play` of the old one |
| PlayerStore.Player.PlayList | src/contexts/PlayerContexts.tsx:54-58 | the new state is `PlayerModel.PlayList` of the old one |
| PlayerStore.Player.TogglePlay | src/contexts/PlayerContexts.tsx:60-62 | writes only `isPlaying`, to its negation |
| PlayerStore.Player.ToggleLoop | src/contexts/PlayerContexts.tsx:63-65 | writes only `isLooping`, to its negation |
| PlayerStore.Player.ToggleShuffle | src/contexts/PlayerContexts.tsx:66-68 | writes only `isShuffling`, to its negation |
| PlayerStore.Player.SetPlayingState | src/contexts/PlayerContexts.tsx:70-72 | writes only `isPlaying`, to the argument |
| PlayerStore.Player.ClearPlayerState | src/contexts/PlayerContexts.tsx:74-77 | writes only the list and the index, emptying it and resetting to 0 |
| PlayerStore.Player.PlayNext | src/contexts/PlayerContexts.tsx:82-89 | writes only the index, as `PlayerModel.PlayNext` with the drawn index `r` |
| PlayerStore.Player.PlayPrevious | src/contexts/PlayerContexts.tsx:92-96 | writes only the index, decrementing it exactly when it is positive |

## Left out

- The React machinery is not modelled: `createContext`, the provider's JSX, `usePlayer`/`useContext` and re-render notification (src/contexts/PlayerContexts.tsx:34-40, 98-126). It has no behaviour of its own. `src/pages/_app.tsx` only composes components and is not part of this model.
- PlayerSession.Run and PlayerStore.Player: both assume each call sees the state the previous call produced, that is, a re-render happens between two calls. This covers every `Player` method and the chained calls in `Scenarios`. Every mutator reads the state captured in its render, and React applies its updates only at the next render. So calls issued from one handler before a re-render all read the same snapshot, and that is not modelled. For example, `toggleLoop(); toggleLoop();` in one handler flips the loop flag once in the source, while `LoopParity` says it ends unchanged. `playList(l, 0); playNext()` in one handler, when the earlier render was not shuffling and had a next episode, ends with the new list and the old index + 1, which can break `Valid`.
- PlayerModel.PlayList: src/contexts/PlayerContexts.tsx:55 stores the caller's array by reference, while the model stores a value `seq`. The caller changing that array after the call is not modelled.
- `Math.random` is replaced by a caller-supplied draw. The model does not capture floating-point rounding in `Math.random() * length`, and it does not capture the statistical uniformity of shuffle.
- Episode fields are kept but never inspected. The JavaScript number `duration` is modelled as an `int`.
- `playList` indices that are not integers (JavaScript numbers such as 1.5) are not modelled. The index is an `int`.
- PlayerModel.PlayPrevious: integer indices beyond 2^53 are not modelled. There a JavaScript number loses integer precision, so `currentEpisodeIndex - 1` at src/contexts/PlayerContexts.tsx:94 can round back to the same index, while the model promises a decrement by exactly 1.
- PlayerModel.PlayNext: for the same reason, indices beyond 2^53 are not modelled in `currentEpisodeIndex + 1` at src/contexts/PlayerContexts.tsx:87 and line 80, where the model uses exact integer arithmetic.

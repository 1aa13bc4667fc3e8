/** The playback state of the podcast player as a value, and each mutator of the
    player store as a pure transition from one snapshot to the next. */
module PlayerModel {

  /** Episode metadata. No player operation looks inside an episode. */
  datatype Episode = Episode(
    id: string,
    title: string,
    thumbnail: string,
    members: string,
    duration: int,
    durationAsString: string,
    url: string,
    publishedAt: string)

  /** The five state slots of the store. The index is an arbitrary integer because
      playList stores whatever index its caller passes. */
  datatype PlayerState = PlayerState(
    episodeList: seq<Episode>,
    currentEpisodeIndex: int,
    isPlaying: bool,
    isLooping: bool,
    isShuffling: bool)

  /** The state a session starts in: empty playlist, index 0, every flag off. */
  const Initial := PlayerState([], 0, false, false, false)

  /** The cursor points at an episode of the playlist. */
  predicate InBounds(s: PlayerState) {
    0 <= s.currentEpisodeIndex < |s.episodeList|
  }

  /** The store's invariant: the cursor is in bounds whenever the playlist is
      non-empty, and it is 0 while the playlist is empty. */
  predicate Valid(s: PlayerState) {
    if s.episodeList == [] then s.currentEpisodeIndex == 0 else InBounds(s)
  }

  /** What the store's callers must pass to playList for the invariant to hold. */
  predicate IndexFits(list: seq<Episode>, index: int) {
    if list == [] then index == 0 else 0 <= index < |list|
  }

  /** The derived value hasPrevious: on a cursor inside the playlist, it holds
      exactly when the position before the cursor is an episode too. */
  predicate HasPrevious(s: PlayerState)
    ensures InBounds(s) ==>
      (HasPrevious(s) <==> InBounds(s.(currentEpisodeIndex := s.currentEpisodeIndex - 1)))
  {
    s.currentEpisodeIndex > 0
  }

  /** The derived value hasNext: always true while shuffling; otherwise, on a
      non-negative cursor, it holds exactly when the position after the cursor
      is an episode. */
  predicate HasNext(s: PlayerState)
    ensures s.isShuffling ==> HasNext(s)
    ensures !s.isShuffling && s.currentEpisodeIndex >= 0 ==>
      (HasNext(s) <==> InBounds(s.(currentEpisodeIndex := s.currentEpisodeIndex + 1)))
  {
    s.isShuffling || s.currentEpisodeIndex + 1 < |s.episodeList|
  }

  /** Replace the playlist by a single episode and start playing it. */
  function Play(s: PlayerState, episode: Episode): (t: PlayerState)
    ensures t.episodeList == [episode] && t.currentEpisodeIndex == 0 && t.isPlaying
    ensures t.isLooping == s.isLooping && t.isShuffling == s.isShuffling
    ensures Valid(t) && InBounds(t)
    ensures !HasPrevious(t) && HasNext(t) == s.isShuffling
  {
    s.(episodeList := [episode], currentEpisodeIndex := 0, isPlaying := true)
  }

  /** Replace the playlist and the cursor, unchecked, and start playing. */
  function PlayList(s: PlayerState, list: seq<Episode>, index: int): (t: PlayerState)
    ensures t.episodeList == list && t.currentEpisodeIndex == index && t.isPlaying
    ensures t.isLooping == s.isLooping && t.isShuffling == s.isShuffling
    ensures InBounds(t) <==> 0 <= index < |list|
    ensures Valid(t) <==> IndexFits(list, index)
  {
    s.(episodeList := list, currentEpisodeIndex := index, isPlaying := true)
  }

  function TogglePlay(s: PlayerState): (t: PlayerState)
    ensures t.isPlaying == !s.isPlaying
    ensures t.episodeList == s.episodeList && t.currentEpisodeIndex == s.currentEpisodeIndex
    ensures t.isLooping == s.isLooping && t.isShuffling == s.isShuffling
    ensures t != s
    ensures Valid(t) <==> Valid(s)
  {
    s.(isPlaying := !s.isPlaying)
  }

  function ToggleLoop(s: PlayerState): (t: PlayerState)
    ensures t.isLooping == !s.isLooping
    ensures t.episodeList == s.episodeList && t.currentEpisodeIndex == s.currentEpisodeIndex
    ensures t.isPlaying == s.isPlaying && t.isShuffling == s.isShuffling
    ensures t != s
    ensures Valid(t) <==> Valid(s)
  {
    s.(isLooping := !s.isLooping)
  }

  /** After the flip, hasNext holds when shuffle was just switched on or a
      sequential step is possible. */
  function ToggleShuffle(s: PlayerState): (t: PlayerState)
    ensures t.isShuffling == !s.isShuffling
    ensures t.episodeList == s.episodeList && t.currentEpisodeIndex == s.currentEpisodeIndex
    ensures t.isPlaying == s.isPlaying && t.isLooping == s.isLooping
    ensures t != s
    ensures Valid(t) <==> Valid(s)
    ensures HasNext(t) <==> !s.isShuffling || s.currentEpisodeIndex + 1 < |s.episodeList|
  {
    s.(isShuffling := !s.isShuffling)
  }

  /** Report the playback status observed outside the store. */
  function SetPlayingState(s: PlayerState, state: bool): (t: PlayerState)
    ensures t.isPlaying == state
    ensures t.episodeList == s.episodeList && t.currentEpisodeIndex == s.currentEpisodeIndex
    ensures t.isLooping == s.isLooping && t.isShuffling == s.isShuffling
    ensures t == s <==> s.isPlaying == state
    ensures Valid(t) <==> Valid(s)
  {
    s.(isPlaying := state)
  }

  /** Empty the playlist and reset the cursor; the three flags are kept. */
  function ClearPlayerState(s: PlayerState): (t: PlayerState)
    ensures t.episodeList == [] && t.currentEpisodeIndex == 0
    ensures t.isPlaying == s.isPlaying && t.isLooping == s.isLooping
    ensures t.isShuffling == s.isShuffling
    ensures Valid(t) && !InBounds(t)
    ensures !HasPrevious(t) && HasNext(t) == s.isShuffling
  {
    s.(episodeList := [], currentEpisodeIndex := 0)
  }

  /** The values the random draw in playNext can produce: an index of the
      playlist, or 0 when the playlist is empty. */
  predicate ValidChoice(s: PlayerState, r: int) {
    if s.episodeList == [] then r == 0 else 0 <= r < |s.episodeList|
  }

  /** floor(x * length) where x == sample / scale is the number Math.random
      returned, which lies in [0, 1). The result is always a valid choice. */
  function RandomIndex(sample: nat, scale: nat, length: nat): (r: int)
    requires sample < scale
    ensures length == 0 ==> r == 0
    ensures length > 0 ==> 0 <= r < length
  {
    ScaledBelow(sample, scale, length);
    sample * length / scale
  }

  /** The arithmetic fact behind RandomIndex: a product with a fraction below 1. */
  lemma ScaledBelow(sample: nat, scale: nat, length: nat)
    requires sample < scale
    ensures length > 0 ==> sample * length / scale < length
  {
    if length > 0 {
      assert sample * length < scale * length by {
        assert (scale - sample) * length > 0;
      }
      assert sample * length / scale * scale <= sample * length;
    }
  }

  /** Advance the cursor. While shuffling the cursor jumps to the random choice
      r (which may be the current index again); otherwise it moves one step
      forward if there is a next episode, and nothing happens at the end. */
  function PlayNext(s: PlayerState, r: int): (t: PlayerState)
    requires ValidChoice(s, r)
    ensures t.episodeList == s.episodeList
    ensures t.isPlaying == s.isPlaying && t.isLooping == s.isLooping
    ensures t.isShuffling == s.isShuffling
    ensures s.isShuffling ==> t.currentEpisodeIndex == r
    ensures !s.isShuffling && s.currentEpisodeIndex + 1 < |s.episodeList| ==>
      t.currentEpisodeIndex == s.currentEpisodeIndex + 1
    ensures !s.isShuffling && s.currentEpisodeIndex + 1 >= |s.episodeList| ==> t == s
    ensures t != s ==> HasNext(s)
    ensures Valid(s) ==> Valid(t)
    ensures InBounds(s) ==> InBounds(t)
  {
    if s.isShuffling then
      s.(currentEpisodeIndex := r)
    else if HasNext(s) then
      s.(currentEpisodeIndex := s.currentEpisodeIndex + 1)
    else
      s
  }

  /** Move the cursor one step back, exactly when there is a previous episode. */
  function PlayPrevious(s: PlayerState): (t: PlayerState)
    ensures t.episodeList == s.episodeList
    ensures t.isPlaying == s.isPlaying && t.isLooping == s.isLooping
    ensures t.isShuffling == s.isShuffling
    ensures HasPrevious(s) ==> t.currentEpisodeIndex == s.currentEpisodeIndex - 1
    ensures !HasPrevious(s) ==> t == s
    ensures t != s <==> HasPrevious(s)
    ensures t.currentEpisodeIndex < 0 ==> t == s
    ensures Valid(s) ==> Valid(t)
    ensures InBounds(s) ==> InBounds(t)
  {
    if HasPrevious(s) then s.(currentEpisodeIndex := s.currentEpisodeIndex - 1) else s
  }

  // Properties relating several operations.

  lemma InitialValid()
    ensures Valid(Initial) && !InBounds(Initial)
    ensures !HasPrevious(Initial) && !HasNext(Initial)
  {
  }

  lemma TogglePlayInvolution(s: PlayerState)
    ensures TogglePlay(TogglePlay(s)) == s
  {
  }

  lemma ToggleLoopInvolution(s: PlayerState)
    ensures ToggleLoop(ToggleLoop(s)) == s
  {
  }

  lemma ToggleShuffleInvolution(s: PlayerState)
    ensures ToggleShuffle(ToggleShuffle(s)) == s
  {
  }

  lemma SetPlayingStateIdempotent(s: PlayerState, state: bool)
    ensures SetPlayingState(SetPlayingState(s, state), state) == SetPlayingState(s, state)
  {
  }

  /** In sequential mode, hasNext says exactly whether playNext moves the cursor. */
  lemma HasNextDecidesSequentialStep(s: PlayerState, r: int)
    requires ValidChoice(s, r) && !s.isShuffling
    ensures HasNext(s) <==> PlayNext(s, r) != s
  {
  }

  /** A sequential step forward is undone by a step back. */
  lemma PreviousUndoesNext(s: PlayerState, r: int)
    requires ValidChoice(s, r) && !s.isShuffling && HasNext(s)
    requires s.currentEpisodeIndex >= 0
    ensures PlayPrevious(PlayNext(s, r)) == s
  {
  }

  /** On a consistent state, a step back is undone by a sequential step forward. */
  lemma NextUndoesPrevious(s: PlayerState, r: int)
    requires Valid(s) && HasPrevious(s) && !s.isShuffling
    requires ValidChoice(PlayPrevious(s), r)
    ensures PlayNext(PlayPrevious(s), r) == s
  {
  }
}

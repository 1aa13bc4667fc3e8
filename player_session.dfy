/** A session of the player store: the view layer calls the store's mutators one
    after another, starting from the initial state. */
module PlayerSession {
  import opened PlayerModel

  /** One call into the store. For PlayNext, sample / scale stands for the number
      Math.random would return if the store draws one. */
  datatype Call =
    | CallPlay(episode: Episode)
    | CallPlayList(list: seq<Episode>, index: int)
    | CallTogglePlay
    | CallToggleLoop
    | CallToggleShuffle
    | CallSetPlayingState(state: bool)
    | CallClearPlayerState
    | CallPlayNext(sample: nat, scale: nat)
    | CallPlayPrevious

  /** A call the store can execute: a random draw lies in [0, 1). */
  predicate WellFormed(c: Call) {
    c.CallPlayNext? ==> c.sample < c.scale
  }

  /** A call that keeps the caller's side of the contract: playList gets an
      index that fits its list. */
  predicate Admissible(c: Call) {
    c.CallPlayList? ==> IndexFits(c.list, c.index)
  }

  /** The calls that may replace the playlist. */
  predicate LoadsList(c: Call) {
    c.CallPlay? || c.CallPlayList? || c.CallClearPlayerState?
  }

  /** The calls that may move the cursor. */
  predicate MovesCursor(c: Call) {
    LoadsList(c) || c.CallPlayNext? || c.CallPlayPrevious?
  }

  /** The effect of one call. */
  function Step(s: PlayerState, c: Call): (t: PlayerState)
    requires WellFormed(c)
    ensures Valid(s) && Admissible(c) ==> Valid(t)
    ensures t.isLooping == (s.isLooping != (c == CallToggleLoop))
    ensures t.isShuffling == (s.isShuffling != (c == CallToggleShuffle))
    ensures !LoadsList(c) ==> t.episodeList == s.episodeList
    ensures !MovesCursor(c) ==> t.currentEpisodeIndex == s.currentEpisodeIndex
  {
    match c
    case CallPlay(e) => Play(s, e)
    case CallPlayList(list, index) => PlayList(s, list, index)
    case CallTogglePlay => TogglePlay(s)
    case CallToggleLoop => ToggleLoop(s)
    case CallToggleShuffle => ToggleShuffle(s)
    case CallSetPlayingState(state) => SetPlayingState(s, state)
    case CallClearPlayerState => ClearPlayerState(s)
    case CallPlayNext(sample, scale) =>
      PlayNext(s, RandomIndex(sample, scale, |s.episodeList|))
    case CallPlayPrevious => PlayPrevious(s)
  }

  predicate AllWellFormed(calls: seq<Call>) {
    forall i :: 0 <= i < |calls| ==> WellFormed(calls[i])
  }

  predicate AllAdmissible(calls: seq<Call>) {
    forall i :: 0 <= i < |calls| ==> Admissible(calls[i])
  }

  /** The state after the calls, in order. Every call keeps the invariant when
      its caller keeps the contract. */
  function Run(s: PlayerState, calls: seq<Call>): (t: PlayerState)
    requires AllWellFormed(calls)
    ensures Valid(s) && AllAdmissible(calls) ==> Valid(t)
    decreases |calls|
  {
    if calls == [] then s
    else
      assert WellFormed(calls[0]);
      Run(Step(s, calls[0]), calls[1..])
  }

  /** How many times c occurs among the calls. */
  function Count(calls: seq<Call>, c: Call): nat {
    if calls == [] then 0 else (if calls[0] == c then 1 else 0) + Count(calls[1..], c)
  }

  predicate Odd(n: nat) { n % 2 == 1 }

  /** Every admissible session keeps the store's invariant. */
  lemma SessionValid(calls: seq<Call>)
    requires AllWellFormed(calls) && AllAdmissible(calls)
    ensures Valid(Run(Initial, calls))
  {
    InitialValid();
  }

  /** The loop flag ends up flipped exactly when toggleLoop was called an odd
      number of times; no other call touches it. */
  lemma {:induction false} LoopParity(s: PlayerState, calls: seq<Call>)
    requires AllWellFormed(calls)
    ensures Run(s, calls).isLooping == (s.isLooping != Odd(Count(calls, CallToggleLoop)))
    decreases |calls|
  {
    if calls != [] {
      assert WellFormed(calls[0]);
      LoopParity(Step(s, calls[0]), calls[1..]);
    }
  }

  /** The same for the shuffle flag and toggleShuffle. */
  lemma {:induction false} ShuffleParity(s: PlayerState, calls: seq<Call>)
    requires AllWellFormed(calls)
    ensures Run(s, calls).isShuffling == (s.isShuffling != Odd(Count(calls, CallToggleShuffle)))
    decreases |calls|
  {
    if calls != [] {
      assert WellFormed(calls[0]);
      ShuffleParity(Step(s, calls[0]), calls[1..]);
    }
  }

  /** Only play, playList and clearPlayerState replace the playlist. */
  lemma {:induction false} PlaylistKept(s: PlayerState, calls: seq<Call>)
    requires AllWellFormed(calls)
    requires forall i :: 0 <= i < |calls| ==> !LoadsList(calls[i])
    ensures Run(s, calls).episodeList == s.episodeList
    decreases |calls|
  {
    if calls != [] {
      assert WellFormed(calls[0]) && !LoadsList(calls[0]);
      PlaylistKept(Step(s, calls[0]), calls[1..]);
    }
  }

  /** Only navigation and the list-loading calls move the cursor. */
  lemma {:induction false} CursorKept(s: PlayerState, calls: seq<Call>)
    requires AllWellFormed(calls)
    requires forall i :: 0 <= i < |calls| ==> !MovesCursor(calls[i])
    ensures Run(s, calls).currentEpisodeIndex == s.currentEpisodeIndex
    decreases |calls|
  {
    if calls != [] {
      assert WellFormed(calls[0]) && !MovesCursor(calls[0]);
      CursorKept(Step(s, calls[0]), calls[1..]);
    }
  }
}

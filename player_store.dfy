/** The player store: one object per session holding the five state slots, with
    one method per mutator. Each method is specified by the transition of the
    same name in PlayerModel. */
module PlayerStore {
  import M = PlayerModel

  class Player {
    var episodeList: seq<M.Episode>
    var currentEpisodeIndex: int
    var isPlaying: bool
    var isLooping: bool
    var isShuffling: bool

    /** The snapshot the view layer reads. */
    function State(): M.PlayerState
      reads this
    {
      M.PlayerState(episodeList, currentEpisodeIndex, isPlaying, isLooping, isShuffling)
    }

    /** The derived value hasPrevious: on a cursor inside the playlist, an
        episode comes before the cursor. */
    function HasPrevious(): (b: bool)
      reads this
      ensures 0 <= currentEpisodeIndex < |episodeList| ==>
        (b <==> 0 <= currentEpisodeIndex - 1 < |episodeList|)
    {
      M.HasPrevious(State())
    }

    /** The derived value hasNext: always while shuffling; otherwise, on a
        non-negative cursor, an episode comes after the cursor. */
    function HasNext(): (b: bool)
      reads this
      ensures isShuffling ==> b
      ensures !isShuffling && currentEpisodeIndex >= 0 ==>
        (b <==> 0 <= currentEpisodeIndex + 1 < |episodeList|)
    {
      M.HasNext(State())
    }

    constructor ()
      ensures State() == M.Initial
      ensures episodeList == [] && currentEpisodeIndex == 0
      ensures !isPlaying && !isLooping && !isShuffling
    {
      episodeList := [];
      currentEpisodeIndex := 0;
      isPlaying := false;
      isLooping := false;
      isShuffling := false;
    }

    method Play(episode: M.Episode)
      modifies this`episodeList, this`currentEpisodeIndex, this`isPlaying
      ensures State() == M.Play(old(State()), episode)
      ensures episodeList == [episode] && currentEpisodeIndex == 0 && isPlaying
      ensures isLooping == old(isLooping) && isShuffling == old(isShuffling)
    {
      episodeList := [episode];
      currentEpisodeIndex := 0;
      isPlaying := true;
    }

    method PlayList(list: seq<M.Episode>, index: int)
      modifies this`episodeList, this`currentEpisodeIndex, this`isPlaying
      ensures State() == M.PlayList(old(State()), list, index)
      ensures episodeList == list && currentEpisodeIndex == index && isPlaying
      ensures isLooping == old(isLooping) && isShuffling == old(isShuffling)
    {
      episodeList := list;
      currentEpisodeIndex := index;
      isPlaying := true;
    }

    method TogglePlay()
      modifies this`isPlaying
      ensures State() == M.TogglePlay(old(State()))
      ensures isPlaying == !old(isPlaying)
    {
      isPlaying := !isPlaying;
    }

    method ToggleLoop()
      modifies this`isLooping
      ensures State() == M.ToggleLoop(old(State()))
      ensures isLooping == !old(isLooping)
    {
      isLooping := !isLooping;
    }

    method ToggleShuffle()
      modifies this`isShuffling
      ensures State() == M.ToggleShuffle(old(State()))
      ensures isShuffling == !old(isShuffling)
    {
      isShuffling := !isShuffling;
    }

    method SetPlayingState(state: bool)
      modifies this`isPlaying
      ensures State() == M.SetPlayingState(old(State()), state)
      ensures isPlaying == state
    {
      isPlaying := state;
    }

    method ClearPlayerState()
      modifies this`episodeList, this`currentEpisodeIndex
      ensures State() == M.ClearPlayerState(old(State()))
      ensures episodeList == [] && currentEpisodeIndex == 0
    {
      episodeList := [];
      currentEpisodeIndex := 0;
    }

    /** r is the index the random draw produced; it only matters while shuffling. */
    method PlayNext(r: int)
      requires M.ValidChoice(State(), r)
      modifies this`currentEpisodeIndex
      ensures State() == M.PlayNext(old(State()), r)
      ensures old(isShuffling) ==> currentEpisodeIndex == r
      ensures !old(isShuffling) && old(currentEpisodeIndex) + 1 < |episodeList| ==>
        currentEpisodeIndex == old(currentEpisodeIndex) + 1
      ensures !old(isShuffling) && old(currentEpisodeIndex) + 1 >= |episodeList| ==>
        currentEpisodeIndex == old(currentEpisodeIndex)
    {
      if isShuffling {
        currentEpisodeIndex := r;
      } else if HasNext() {
        currentEpisodeIndex := currentEpisodeIndex + 1;
      }
    }

    method PlayPrevious()
      modifies this`currentEpisodeIndex
      ensures State() == M.PlayPrevious(old(State()))
      ensures currentEpisodeIndex ==
        if old(currentEpisodeIndex) > 0 then old(currentEpisodeIndex) - 1 else old(currentEpisodeIndex)
    {
      if currentEpisodeIndex > 0 {
        currentEpisodeIndex := currentEpisodeIndex - 1;
      }
    }
  }

  /** A client: what the view layer can conclude from the store's contracts alone. */
  method Scenarios(a: M.Episode, b: M.Episode, c: M.Episode)
  {
    var p := new Player();
    p.PlayList([a, b, c], 0);
    p.PlayNext(0);
    assert p.currentEpisodeIndex == 1 && p.HasPrevious() && p.HasNext();

    p.PlayNext(0);
    assert p.currentEpisodeIndex == 2 && !p.HasNext();
    p.PlayNext(0);
    assert p.currentEpisodeIndex == 2;

    p.ToggleShuffle();
    assert p.HasNext();
    p.PlayNext(2);
    assert p.currentEpisodeIndex == 2;
    p.ToggleShuffle();
    p.ToggleShuffle();
    assert p.isShuffling;

    p.PlayList([a, b, c], 0);
    p.PlayPrevious();
    assert p.currentEpisodeIndex == 0 && !p.HasPrevious();

    p.ToggleLoop();
    p.SetPlayingState(false);
    p.ClearPlayerState();
    assert p.episodeList == [] && p.currentEpisodeIndex == 0;
    assert !p.isPlaying && p.isLooping && p.isShuffling;

    p.Play(b);
    assert p.episodeList == [b] && p.isPlaying && p.isLooping;
  }
}

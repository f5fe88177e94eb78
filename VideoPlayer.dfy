/** The video player: four flags driven by the video's events and by the
    play/pause button, and the rules that derive what is shown from them. */
module VideoPlayer {

  /** The icon on the play/pause button. */
  datatype Icon = Replay | Pause | PlayArrow

  /** The video's events and the button exist only while no error is
      shown, since the error screen replaces both: the event handlers
      require that no error is shown, and a press requires the button to
      be on screen. */
  class Player {
    var isActive: bool
    const showControls: bool
    var hasError: bool
    var isLoading: bool
    var localVideoPlaying: bool
    var isVideoEnded: bool
    /** How many times the video was sought back to the start. */
    var seeks: nat

    /** A video that has ended is never playing. */
    ghost predicate Valid()
      reads this
    {
      isVideoEnded ==> !localVideoPlaying
    }

    /** Loading, no error, not playing, not ended. */
    constructor (isActive: bool, showControls: bool)
      ensures Valid()
      ensures this.isActive == isActive && this.showControls == showControls
      ensures !hasError && isLoading && !localVideoPlaying && !isVideoEnded && seeks == 0
    {
      this.isActive := isActive;
      this.showControls := showControls;
      hasError := false;
      isLoading := true;
      localVideoPlaying := false;
      isVideoEnded := false;
      seeks := 0;
    }

    /** The `paused` prop passed to the video. */
    function Paused(): (paused: bool)
      reads this
      ensures !isActive ==> paused
      ensures Valid() && isVideoEnded ==> paused
      ensures !paused <==> isActive && localVideoPlaying
    {
      !isActive || !localVideoPlaying
    }

    /** Whether the play/pause button is on screen. */
    function ControlsVisible(): (visible: bool)
      reads this
      ensures !showControls ==> !visible
      ensures visible <==> showControls && !isLoading && !hasError
    {
      !isLoading && !hasError && showControls
    }

    /** The button's icon. */
    function ButtonIcon(): (icon: Icon)
      reads this
      ensures Valid() ==> (icon == Pause <==> localVideoPlaying)
      ensures icon == Replay <==> isVideoEnded
    {
      if isVideoEnded then Replay else if localVideoPlaying then Pause else PlayArrow
    }

    /** The effect on `isActive`: a player that becomes inactive stops and
        forgets that it ended. */
    method SetActive(active: bool)
      requires Valid()
      modifies this`isActive, this`localVideoPlaying, this`isVideoEnded
      ensures Valid() && isActive == active
      ensures !active ==> !localVideoPlaying && !isVideoEnded && Paused()
      ensures active ==> localVideoPlaying == old(localVideoPlaying) && isVideoEnded == old(isVideoEnded)
    {
      isActive := active;
      if !active {
        localVideoPlaying := false;
        isVideoEnded := false;
      }
    }

    /** `handlePlayPause`: after the end, start again from the beginning;
        otherwise flip between playing and paused. */
    method HandlePlayPause()
      requires Valid() && ControlsVisible()
      modifies this`localVideoPlaying, this`isVideoEnded, this`seeks
      ensures Valid()
      ensures old(isVideoEnded) ==> !isVideoEnded && localVideoPlaying && seeks == old(seeks) + 1
      ensures !old(isVideoEnded) ==> !isVideoEnded && localVideoPlaying == !old(localVideoPlaying) && seeks == old(seeks)
    {
      if isVideoEnded {
        isVideoEnded := false;
        localVideoPlaying := true;
        seeks := seeks + 1;
      } else {
        localVideoPlaying := !localVideoPlaying;
      }
    }

    /** `handleError`: the error screen replaces the video. */
    method HandleError()
      requires Valid() && !hasError
      modifies this`hasError, this`isLoading
      ensures Valid() && hasError && !isLoading && !ControlsVisible()
    {
      hasError := true;
      isLoading := false;
    }

    /** `handleLoad`. */
    method HandleLoad()
      requires Valid() && !hasError
      modifies this`isLoading, this`hasError, this`isVideoEnded
      ensures Valid() && !isLoading && !hasError && !isVideoEnded
      ensures ControlsVisible() <==> showControls
    {
      isLoading := false;
      hasError := false;
      isVideoEnded := false;
    }

    /** `handleLoadStart`. */
    method HandleLoadStart()
      requires Valid() && !hasError
      modifies this`isLoading, this`hasError, this`isVideoEnded
      ensures Valid() && isLoading && !hasError && !isVideoEnded && !ControlsVisible()
    {
      isLoading := true;
      hasError := false;
      isVideoEnded := false;
    }

    /** `handleEnd`. */
    method HandleEnd()
      requires Valid() && !hasError
      modifies this`localVideoPlaying, this`isVideoEnded
      ensures Valid() && !localVideoPlaying && isVideoEnded
      ensures Paused() && ButtonIcon() == Replay
    {
      localVideoPlaying := false;
      isVideoEnded := true;
    }
  }

  /** Two presses of the button on a video that has not ended leave it as
      it was. */
  method PressTwice(p: Player) returns (playingBefore: bool, playingAfter: bool)
    requires p.Valid() && p.ControlsVisible() && !p.isVideoEnded
    modifies p
    ensures playingBefore == old(p.localVideoPlaying) && playingAfter == p.localVideoPlaying
    ensures playingAfter == playingBefore && !p.isVideoEnded
  {
    playingBefore := p.localVideoPlaying;
    p.HandlePlayPause();
    p.HandlePlayPause();
    playingAfter := p.localVideoPlaying;
  }

  /** Playing to the end and pressing the button replays from the start:
      the video plays again (unpaused while active) and shows the pause icon. */
  method PlayToEndAndReplay(p: Player) returns (icon: Icon, paused: bool)
    requires p.Valid() && p.ControlsVisible()
    modifies p
    ensures icon == Pause && p.seeks == old(p.seeks) + 1
    ensures paused <==> !p.isActive
  {
    p.HandleEnd();
    p.HandlePlayPause();
    icon := p.ButtonIcon();
    paused := p.Paused();
  }
}

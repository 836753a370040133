/**
 The background-music controller: one looping audio element, a play/pause
 button, a mute button, and an `autoPlay` flag raised once the game is won.

 The state is the controller's React state and refs, plus the element's own
 `muted` property and the play attempts still awaiting their outcome. Every
 handler and effect is a step on that state. An `audio.play()` call is split in
 two: starting it appends a pending attempt tagged with who made it, and a
 later outcome event settles one pending attempt as resolved or rejected.
 */
module BackgroundMusic {

  /** Who started a play attempt; each one handles the outcome its own way. */
  datatype Origin =
    | CanPlayRetry  // the `canplay` handler honouring an earlier request
    | AutoPlay      // the autoPlay effect
    | UserToggle    // the play/pause button

  /**
   `audioPresent` says whether the audio element exists; its listeners are
   attached exactly while it does. `elementMuted` is the element's own muted
   flag. `requestedPlay` records a play request made before readiness.
   */
  datatype Session = Session(
    audioPresent: bool,
    elementMuted: bool,
    isReady: bool,
    isPlaying: bool,
    isMuted: bool,
    requestedPlay: bool,
    pending: seq<Origin>)

  /** While the element exists, its `muted` property agrees with the `isMuted` state. */
  predicate Consistent(s: Session) {
    s.audioPresent ==> s.elementMuted == s.isMuted
  }

  /** The state at the first render, before any effect has run. */
  function Initial(): (s: Session)
    ensures Consistent(s) && !s.audioPresent && !s.isReady && !s.isPlaying && !s.isMuted && !s.requestedPlay
    ensures s.pending == []
  {
    Session(false, false, false, false, false, false, [])
  }

  /** The mount effect: create the element, copy `isMuted` to it, attach the listeners. */
  function HandleSetup(s: Session): (r: Session)
    ensures r.audioPresent && Consistent(r)
    ensures r.isReady == s.isReady && r.isPlaying == s.isPlaying && r.isMuted == s.isMuted
    ensures r.requestedPlay == s.requestedPlay && r.pending == s.pending
  {
    s.(audioPresent := true, elementMuted := s.isMuted)
  }

  /** The mount effect's cleanup: pause, detach the listeners, drop the element. */
  function HandleTeardown(s: Session): (r: Session)
    ensures !r.audioPresent && Consistent(r)
    ensures r.isReady == s.isReady && r.isPlaying == s.isPlaying && r.isMuted == s.isMuted
    ensures r.requestedPlay == s.requestedPlay && r.pending == s.pending
  {
    s.(audioPresent := false)
  }

  /**
   The `canplay` listener: mark ready and, when a play was requested
   earlier, start exactly one attempt and clear the request.
   */
  function HandleCanPlay(s: Session): (r: Session)
    ensures s.audioPresent ==> r.isReady && !r.requestedPlay
    ensures s.audioPresent ==> r.pending == s.pending + (if s.requestedPlay then [CanPlayRetry] else [])
    ensures !s.audioPresent ==> r == s
    ensures r.isPlaying == s.isPlaying && r.isMuted == s.isMuted && r.elementMuted == s.elementMuted
    ensures r.audioPresent == s.audioPresent
  {
    if !s.audioPresent then s
    else if s.requestedPlay then
      s.(isReady := true, pending := s.pending + [CanPlayRetry], requestedPlay := false)
    else
      s.(isReady := true)
  }

  /** The `play` listener. */
  function HandlePlay(s: Session): (r: Session)
    ensures s.audioPresent ==> r.isPlaying
    ensures !s.audioPresent ==> r == s
    ensures r.isReady == s.isReady && r.isMuted == s.isMuted && r.requestedPlay == s.requestedPlay
    ensures r.audioPresent == s.audioPresent && r.elementMuted == s.elementMuted && r.pending == s.pending
  {
    if s.audioPresent then s.(isPlaying := true) else s
  }

  /** The `pause` listener. */
  function HandlePause(s: Session): (r: Session)
    ensures s.audioPresent ==> !r.isPlaying
    ensures !s.audioPresent ==> r == s
    ensures r.isReady == s.isReady && r.isMuted == s.isMuted && r.requestedPlay == s.requestedPlay
    ensures r.audioPresent == s.audioPresent && r.elementMuted == s.elementMuted && r.pending == s.pending
  {
    if s.audioPresent then s.(isPlaying := false) else s
  }

  /** The effect that copies `isMuted` onto the element whenever it changes. */
  function HandleMuteSync(s: Session): (r: Session)
    ensures Consistent(r)
    ensures r.isMuted == s.isMuted && r.isPlaying == s.isPlaying && r.isReady == s.isReady
    ensures r.requestedPlay == s.requestedPlay && r.audioPresent == s.audioPresent && r.pending == s.pending
  {
    if s.audioPresent then s.(elementMuted := s.isMuted) else s
  }

  /**
   The autoPlay effect. With `autoPlay` set and the element present: ready and
   not playing starts an attempt; not ready records a request; ready and
   playing does nothing.
   */
  function HandleAutoPlay(s: Session, autoPlay: bool): (r: Session)
    ensures autoPlay && s.audioPresent && s.isReady && !s.isPlaying ==> r == s.(pending := s.pending + [AutoPlay])
    ensures autoPlay && s.audioPresent && !s.isReady ==> r == s.(requestedPlay := true)
    ensures !(autoPlay && s.audioPresent) || (s.isReady && s.isPlaying) ==> r == s
    ensures r.isMuted == s.isMuted && r.isPlaying == s.isPlaying && r.isReady == s.isReady
  {
    if autoPlay && s.audioPresent then
      if s.isReady && !s.isPlaying then s.(pending := s.pending + [AutoPlay])
      else if !s.isReady then s.(requestedPlay := true)
      else s
    else s
  }

  /**
   The play/pause button. Without an element it only records a request.
   Otherwise, when not ready it records a request and still goes on: playing
   pauses at once, not playing starts an attempt.
   */
  function HandleTogglePlay(s: Session): (r: Session)
    ensures !s.audioPresent ==> r == s.(requestedPlay := true)
    ensures s.audioPresent ==> r.requestedPlay == (s.requestedPlay || !s.isReady)
    ensures s.audioPresent && s.isPlaying ==> !r.isPlaying && r.pending == s.pending
    ensures s.audioPresent && !s.isPlaying ==> !r.isPlaying && r.pending == s.pending + [UserToggle]
    ensures r.isMuted == s.isMuted && r.elementMuted == s.elementMuted && r.isReady == s.isReady
    ensures r.audioPresent == s.audioPresent
  {
    if !s.audioPresent then s.(requestedPlay := true)
    else
      var t := if !s.isReady then s.(requestedPlay := true) else s;
      if t.isPlaying then t.(isPlaying := false)
      else t.(pending := t.pending + [UserToggle])
  }

  /**
   The mute button. With an element it flips `audio.muted` and copies it to
   `isMuted`; without one it flips `isMuted`. Either way, in a consistent
   state `isMuted` flips and nothing about playback changes.
   */
  function HandleToggleMute(s: Session): (r: Session)
    ensures Consistent(s) ==> Consistent(r) && r.isMuted == !s.isMuted
    ensures r.isPlaying == s.isPlaying && r.isReady == s.isReady && r.requestedPlay == s.requestedPlay
    ensures r.audioPresent == s.audioPresent && r.pending == s.pending
  {
    if !s.audioPresent then s.(isMuted := !s.isMuted)
    else s.(elementMuted := !s.elementMuted, isMuted := !s.elementMuted)
  }

  /** `pending` without its `k`-th attempt. */
  function Without(pending: seq<Origin>, k: nat): (r: seq<Origin>)
    requires k < |pending|
    ensures |r| == |pending| - 1
    ensures forall j :: 0 <= j < k ==> r[j] == pending[j]
    ensures forall j :: k <= j < |r| ==> r[j] == pending[j + 1]
  {
    pending[..k] + pending[k + 1..]
  }

  /**
   The outcome of pending attempt `k`. A resolved attempt sets `isPlaying`;
   a rejected one clears it, except an autoplay attempt, whose rejection is
   only logged.
   */
  function HandleOutcome(s: Session, k: nat, resolved: bool): (r: Session)
    requires k < |s.pending|
    ensures r.pending == Without(s.pending, k)
    ensures resolved ==> r.isPlaying
    ensures !resolved && s.pending[k] != AutoPlay ==> !r.isPlaying
    ensures !resolved && s.pending[k] == AutoPlay ==> r.isPlaying == s.isPlaying
    ensures r.isMuted == s.isMuted && r.elementMuted == s.elementMuted && r.isReady == s.isReady
    ensures r.requestedPlay == s.requestedPlay && r.audioPresent == s.audioPresent
  {
    var playing := if resolved then true else if s.pending[k] == AutoPlay then s.isPlaying else false;
    s.(isPlaying := playing, pending := Without(s.pending, k))
  }

  /** Everything that can happen to the controller. */
  datatype Event =
    | Setup
    | Teardown
    | CanPlay
    | Play
    | Pause
    | MuteSync
    | AutoPlayEffect(autoPlay: bool)
    | TogglePlayClick
    | ToggleMuteClick
    | Outcome(attempt: nat, resolved: bool)

  /** One event; an outcome for an attempt that is not pending cannot happen and changes nothing. */
  function Step(s: Session, e: Event): Session {
    match e
    case Setup => HandleSetup(s)
    case Teardown => HandleTeardown(s)
    case CanPlay => HandleCanPlay(s)
    case Play => HandlePlay(s)
    case Pause => HandlePause(s)
    case MuteSync => HandleMuteSync(s)
    case AutoPlayEffect(autoPlay) => HandleAutoPlay(s, autoPlay)
    case TogglePlayClick => HandleTogglePlay(s)
    case ToggleMuteClick => HandleToggleMute(s)
    case Outcome(k, resolved) => if k < |s.pending| then HandleOutcome(s, k, resolved) else s
  }

  /** A sequence of events, in order. */
  function Run(s: Session, events: seq<Event>): Session
    decreases |events|
  {
    if events == [] then s else Run(Step(s, events[0]), events[1..])
  }

  /** How many mute clicks `events` holds. */
  function MuteClicks(events: seq<Event>): nat {
    if events == [] then 0
    else (if events[0] == ToggleMuteClick then 1 else 0) + MuteClicks(events[1..])
  }

  /** Every event keeps the element's `muted` in agreement with `isMuted`. */
  lemma StepKeepsConsistent(s: Session, e: Event)
    requires Consistent(s)
    ensures Consistent(Step(s, e))
  {
  }

  /** Whatever happens, the element's `muted` agrees with `isMuted`. */
  lemma {:induction false} RunKeepsConsistent(s: Session, events: seq<Event>)
    requires Consistent(s)
    ensures Consistent(Run(s, events))
    decreases |events|
  {
    if events != [] {
      StepKeepsConsistent(s, events[0]);
      RunKeepsConsistent(Step(s, events[0]), events[1..]);
    }
  }

  /**
   Only the mute button changes `isMuted`: after any events it is the
   starting value flipped once per mute click. In particular no play, pause,
   toggle, autoplay or play outcome ever touches it.
   */
  lemma {:induction false} MutedFollowsMuteClicks(s: Session, events: seq<Event>)
    requires Consistent(s)
    ensures Run(s, events).isMuted == (if MuteClicks(events) % 2 == 0 then s.isMuted else !s.isMuted)
    decreases |events|
  {
    if events != [] {
      StepKeepsConsistent(s, events[0]);
      MutedFollowsMuteClicks(Step(s, events[0]), events[1..]);
    }
  }

  /** Once ready, always ready: no event makes the controller not ready again. */
  lemma {:induction false} ReadyIsSticky(s: Session, events: seq<Event>)
    requires s.isReady
    ensures Run(s, events).isReady
    decreases |events|
  {
    if events != [] {
      ReadyIsSticky(Step(s, events[0]), events[1..]);
    }
  }

  /** Two mute clicks restore the state exactly. */
  lemma ToggleMuteTwice(s: Session)
    requires Consistent(s)
    ensures HandleToggleMute(HandleToggleMute(s)) == s
  {
  }

  /**
   A request made before readiness is honoured exactly once: the first
   `canplay` starts one attempt, and a second `canplay` starts none.
   */
  lemma RequestConsumedOnce(s: Session)
    requires s.audioPresent && s.requestedPlay
    ensures HandleCanPlay(s).pending == s.pending + [CanPlayRetry]
    ensures HandleCanPlay(HandleCanPlay(s)).pending == s.pending + [CanPlayRetry]
  {
  }

  /**
   The game is won before the audio is ready: the autoplay effect records a
   request, and the next `canplay` starts an attempt with no further call.
   */
  lemma DeferredAutoPlay(s: Session)
    requires s.audioPresent && !s.isReady
    ensures var t := HandleCanPlay(HandleAutoPlay(s, true));
      t.isReady && !t.requestedPlay && t.pending == s.pending + [CanPlayRetry]
  {
  }

  /** The controller as a component instance whose handlers update its fields in place. */
  class MusicPlayer {
    var audioPresent: bool
    var elementMuted: bool
    var isReady: bool
    var isPlaying: bool
    var isMuted: bool
    var requestedPlay: bool
    var pending: seq<Origin>

    /** The fields as one value. */
    function State(): Session
      reads this
    {
      Session(audioPresent, elementMuted, isReady, isPlaying, isMuted, requestedPlay, pending)
    }

    ghost predicate Valid()
      reads this
    {
      Consistent(State())
    }

    constructor ()
      ensures Valid() && State() == Initial()
    {
      audioPresent, elementMuted := false, false;
      isReady, isPlaying, isMuted, requestedPlay := false, false, false, false;
      pending := [];
    }

    method SetupEffect()
      modifies this
      ensures Valid() && State() == HandleSetup(old(State()))
    {
      elementMuted := isMuted;
      audioPresent := true;
    }

    method Teardown()
      requires Valid()
      modifies this
      ensures Valid() && State() == HandleTeardown(old(State()))
    {
      audioPresent := false;
    }

    method OnCanPlay()
      requires Valid()
      modifies this
      ensures Valid() && State() == HandleCanPlay(old(State()))
    {
      if !audioPresent {
        return;
      }
      isReady := true;
      if requestedPlay {
        pending := pending + [CanPlayRetry];
        requestedPlay := false;
      }
    }

    method OnPlay()
      requires Valid()
      modifies this
      ensures Valid() && State() == HandlePlay(old(State()))
    {
      if audioPresent {
        isPlaying := true;
      }
    }

    method OnPause()
      requires Valid()
      modifies this
      ensures Valid() && State() == HandlePause(old(State()))
    {
      if audioPresent {
        isPlaying := false;
      }
    }

    method MuteSyncEffect()
      modifies this
      ensures Valid() && State() == HandleMuteSync(old(State()))
    {
      if audioPresent {
        elementMuted := isMuted;
      }
    }

    method AutoPlayEffect(autoPlay: bool)
      requires Valid()
      modifies this
      ensures Valid() && State() == HandleAutoPlay(old(State()), autoPlay)
    {
      if autoPlay && audioPresent {
        if isReady && !isPlaying {
          pending := pending + [AutoPlay];
        } else if !isReady {
          requestedPlay := true;
        }
      }
    }

    method TogglePlay()
      requires Valid()
      modifies this
      ensures Valid() && State() == HandleTogglePlay(old(State()))
    {
      if !audioPresent {
        requestedPlay := true;
        return;
      }
      if !isReady {
        requestedPlay := true;
      }
      if isPlaying {
        isPlaying := false;
      } else {
        pending := pending + [UserToggle];
      }
    }

    method ToggleMute()
      requires Valid()
      modifies this
      ensures Valid() && State() == HandleToggleMute(old(State()))
      ensures isMuted == !old(isMuted)
    {
      if !audioPresent {
        isMuted := !isMuted;
        return;
      }
      elementMuted := !elementMuted;
      isMuted := elementMuted;
    }

    /** The outcome of the `k`-th pending play attempt arrives. */
    method PlaySettled(k: nat, resolved: bool)
      requires Valid() && k < |pending|
      modifies this
      ensures Valid() && State() == HandleOutcome(old(State()), k, resolved)
    {
      var origin := pending[k];
      pending := pending[..k] + pending[k + 1..];
      if resolved {
        isPlaying := true;
      } else if origin != AutoPlay {
        isPlaying := false;
      }
    }
  }
}

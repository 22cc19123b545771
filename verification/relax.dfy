/** The relaxation media screen as a state machine. The screen state
    (selected category, video and audio, `isPlaying`, `isLoading`, the
    resolved video URI and the two "unavailable" flags) lives beside the two
    handle slots: `soundRef`, holding at most one `Audio.Sound`, and the
    video player, which exists exactly while it is rendered.

    Every source of change is an event:
    - `Commit`: React re-renders and flushes the passive effects whose
      dependencies changed, cleanups first, then setups;
    - the user's actions (play/pause, picking a video, a track or a
      category) and unmounting the screen;
    - the resumption of a suspended `await`, with the awaited call's outcome
      as an oracle reply.
    A continuation carries what its closure captured: the generation of the
    effect instance whose `mounted` flag it checks, and the `isPlaying`
    value read when the handler started. */
module Relax {
  import opened JsValues

  datatype Track = Track(id: string, title: string, uri: string)

  datatype Category = Category(id: string, name: string, videos: seq<Track>)

  /** An `Audio.Sound` object, numbered in order of creation. */
  type Sound = nat

  /** A call issued on a native media object. */
  datatype Command =
    | Create(sound: Sound, autoplay: bool)
    | Play(sound: Sound)
    | Pause(sound: Sound)
    | Stop(sound: Sound)
    | Unload(sound: Sound)
    | VideoStop
    | VideoUnload

  /** Outcome of an awaited call: a value, null, or a thrown error. */
  datatype Reply = Returned(value: string) | ReturnedNull | Threw

  /** One `useEffect` keyed on a track: the dependency value its latest
      instance ran with (`None` before the first flush), the generation of
      that instance, and that instance's `mounted` flag. */
  datatype Effect = Effect(deps: Option<Track>, gen: nat, live: bool)

  /** Where an instance of `loadSound` is suspended. */
  datatype LoadStage =
    | AwaitUnload(autoplay: bool, sound: Sound)
    | AwaitResolve(autoplay: bool)
    | AwaitCreate(autoplay: bool)

  /** The other suspended continuations. */
  datatype Task =
    | CleanupUnloading(sound: Sound)
    | VideoStopping(next: Track, wasPlaying: bool)
    | VideoUnloading(next: Track, wasPlaying: bool)
    | AudioStopping(next: Track, wasPlaying: bool)
    | AudioUnloading(next: Track, wasPlaying: bool, sound: Sound)
    | PlayPausing(target: bool)
    | TeardownStopping
    | TeardownUnloading(sound: Sound)

  datatype Session = Session(
    category: Category,
    video: Track,
    audio: Track,
    isPlaying: bool,
    isLoading: bool,
    videoUri: Option<string>,
    videoUnavailable: bool,
    soundUnavailable: bool,
    slot: Option<Sound>,           // soundRef.current
    created: nat,                  // sounds created so far
    log: seq<Command>,             // calls issued on native objects
    videoFx: Effect,               // the effect resolving the selected video
    audioFx: Effect,               // the effect running loadSound
    playFx: Option<bool>,          // isPlaying as last seen by the sync effect
    resolving: set<nat>,           // video effect instances awaiting the resolver
    loads: map<nat, LoadStage>,    // loadSound instances in flight, by generation
    tasks: multiset<Task>,         // other suspended continuations
    mounted: bool)

  datatype Event =
    | Commit
    | PressPlayPause
    | PickVideo(video: Track)
    | PickAudio(audio: Track)
    | PickCategory(category: Category)
    | Unmount
    | VideoResolved(gen: nat, reply: Reply)
    | LoadResumed(gen: nat, reply: Reply)
    | TaskResumed(task: Task, reply: Reply)

  /** `AsWritten` follows the source line by line. `Guarded` differs in two
      places only: a deferred `soundRef.current = null` clears the slot only
      if it still holds the sound that was unloaded, and a superseded
      `loadSound` does not write `soundUnavailable`. */
  datatype Variant = AsWritten | Guarded

  predicate Mounted(fx: Effect, gen: nat)
  {
    fx.live && fx.gen == gen
  }

  /** The render condition of the video player: the URI is tested for
      truthiness, so null and the empty string both hide it. The handlers
      read this condition on the current state in place of `videoRef`,
      which React sets only when the render that shows the player commits. */
  predicate PlayerShown(s: Session)
    ensures PlayerShown(s) ==> !s.videoUnavailable && s.videoUri.Some?
    ensures s.videoUri == Some("") ==> !PlayerShown(s)
  {
    s.videoUri.Some? && Truthy(s.videoUri.value) && !s.videoUnavailable
  }

  /** The screen's state right after mounting, before any effect ran. The
      initial video is read through `videoUri`'s initializer, so an empty
      video catalog would fail the first render; the track catalog is a
      non-empty constant in the app. */
  function Init(categories: seq<Category>, tracks: seq<Track>): (r: Session)
    requires |categories| > 0 && |categories[0].videos| > 0 && |tracks| > 0
    ensures r.category == categories[0] && r.video == categories[0].videos[0] && r.audio == tracks[0]
    ensures r.videoUri == Some(r.video.uri) && r.mounted
    ensures !r.isPlaying && !r.isLoading && !r.videoUnavailable && !r.soundUnavailable
    ensures r.slot.None? && r.created == 0 && r.log == [] && r.tasks == multiset{} && r.loads == map[]
    ensures r.videoFx.deps.None? && r.audioFx.deps.None? && r.playFx.None?
  {
    var first := categories[0].videos[0];
    Session(categories[0], first, tracks[0], false, false, Some(first.uri), false, false,
            None, 0, [], Effect(None, 0, false), Effect(None, 0, false), None,
            {}, map[], multiset{}, true)
  }

  /** The deferred `soundRef.current = null` after unloading `unloaded`. */
  function ClearSlot(v: Variant, slot: Option<Sound>, unloaded: Sound): (r: Option<Sound>)
    ensures r.None? || r == slot
    ensures v == AsWritten ==> r.None?
    ensures v == Guarded ==> (r.None? <==> slot.None? || slot == Some(unloaded))
  {
    match v
    case AsWritten => None
    case Guarded => if slot == Some(unloaded) then None else slot
  }

  // ----- the effect flush -----

  /** Cleanup of the `loadSound` effect: clear `mounted`, and start
      unloading the current sound; the slot is cleared only after that
      unload is awaited. */
  function CleanupLoad(s: Session): (r: Session)
    ensures !r.audioFx.live && r.audioFx.gen == s.audioFx.gen && r.audioFx.deps == s.audioFx.deps
    ensures s.slot.Some? ==>
              r.log == s.log + [Unload(s.slot.value)]
              && r.tasks == s.tasks + multiset{CleanupUnloading(s.slot.value)}
    ensures s.slot.None? ==> r.log == s.log && r.tasks == s.tasks
    ensures r.video == s.video && r.audio == s.audio && r.isPlaying == s.isPlaying && r.mounted == s.mounted
    ensures r.videoFx == s.videoFx && r.resolving == s.resolving && r.playFx == s.playFx
    ensures r.slot == s.slot && r.loads == s.loads && r.created == s.created
  {
    var s1 := s.(audioFx := s.audioFx.(live := false));
    match s.slot
    case Some(h) => s1.(log := s.log + [Unload(h)], tasks := s.tasks + multiset{CleanupUnloading(h)})
    case None => s1
  }

  /** Setup of the video effect: a new instance raises `isLoading` and asks
      the resolver for the selected video's URI. */
  function StartResolve(s: Session): (r: Session)
    ensures Mounted(r.videoFx, r.videoFx.gen) && r.videoFx.gen in r.resolving
    ensures r.videoFx.deps == Some(s.video) && r.videoFx.gen == s.videoFx.gen + 1
    ensures r.video == s.video && r.audio == s.audio && r.isPlaying == s.isPlaying && r.mounted == s.mounted
    ensures r.audioFx == s.audioFx && r.loads == s.loads && r.slot == s.slot && r.playFx == s.playFx
    ensures r.log == s.log && r.created == s.created && r.tasks == s.tasks
  {
    var g := s.videoFx.gen + 1;
    s.(videoFx := Effect(Some(s.video), g, true), isLoading := true, resolving := s.resolving + {g})
  }

  /** Setup of the `loadSound` effect, up to its first `await`: raise
      `isLoading`, then unload the current sound if there is one, else ask
      the resolver for the selected track's URI. */
  function StartLoad(s: Session): (r: Session)
    ensures Mounted(r.audioFx, r.audioFx.gen) && r.audioFx.gen in r.loads && r.isLoading
    ensures s.slot.Some? ==>
              r.log == s.log + [Unload(s.slot.value)]
              && r.loads[r.audioFx.gen] == AwaitUnload(s.isPlaying, s.slot.value)
    ensures s.slot.None? ==> r.log == s.log && r.loads[r.audioFx.gen] == AwaitResolve(s.isPlaying)
    ensures r.audioFx.deps == Some(s.audio) && r.audioFx.gen == s.audioFx.gen + 1
    ensures r.video == s.video && r.audio == s.audio && r.isPlaying == s.isPlaying && r.mounted == s.mounted
    ensures r.videoFx == s.videoFx && r.resolving == s.resolving && r.playFx == s.playFx
    ensures r.slot == s.slot && r.created == s.created && r.tasks == s.tasks
  {
    var g := s.audioFx.gen + 1;
    var s1 := s.(audioFx := Effect(Some(s.audio), g, true), isLoading := true);
    match s.slot
    case Some(h) => s1.(log := s.log + [Unload(h)], loads := s.loads[g := AwaitUnload(s.isPlaying, h)])
    case None => s1.(loads := s.loads[g := AwaitResolve(s.isPlaying)])
  }

  /** The effect keyed on `isPlaying`: tell the loaded sound, if any. */
  function SyncPlay(s: Session): (r: Session)
    ensures s.slot.Some? ==> r.log == s.log + [if s.isPlaying then Play(s.slot.value) else Pause(s.slot.value)]
    ensures s.slot.None? ==> r.log == s.log
    ensures r.playFx == Some(s.isPlaying)
    ensures r.video == s.video && r.audio == s.audio && r.isPlaying == s.isPlaying && r.mounted == s.mounted
    ensures r.videoFx == s.videoFx && r.audioFx == s.audioFx && r.resolving == s.resolving
    ensures r.slot == s.slot && r.loads == s.loads && r.created == s.created && r.tasks == s.tasks
  {
    var s1 := s.(playFx := Some(s.isPlaying));
    match s.slot
    case Some(h) => s1.(log := s.log + [if s.isPlaying then Play(h) else Pause(h)])
    case None => s1
  }

  /** The cleanups of the flush. The video effect's cleanup only clears its
      `mounted` flag, which the next setup's new generation stands for. */
  function CleanupPhase(s: Session): (r: Session)
    ensures r.audioFx.deps == s.audioFx.deps && r.audioFx.gen == s.audioFx.gen
    ensures s.audioFx.deps != Some(s.audio) ==> !r.audioFx.live
    ensures s.audioFx.deps == Some(s.audio) ==> r == s
    ensures r.video == s.video && r.audio == s.audio && r.isPlaying == s.isPlaying && r.mounted == s.mounted
    ensures r.videoFx == s.videoFx && r.resolving == s.resolving && r.playFx == s.playFx
    ensures r.slot == s.slot && r.loads == s.loads && r.created == s.created
    ensures r.log == s.log || (s.slot.Some? && r.log == s.log + [Unload(s.slot.value)])
  {
    if s.audioFx.deps != Some(s.audio) && s.audioFx.live then CleanupLoad(s) else s
  }

  /** The video effect's setup, when its dependency changed. */
  function VideoSetup(s: Session): (r: Session)
    ensures r.videoFx.deps == Some(s.video)
    ensures s.videoFx.deps == Some(s.video) ==> r == s
    ensures r.video == s.video && r.audio == s.audio && r.isPlaying == s.isPlaying && r.mounted == s.mounted
    ensures r.audioFx == s.audioFx && r.loads == s.loads && r.slot == s.slot && r.playFx == s.playFx
    ensures r.log == s.log && r.created == s.created && r.tasks == s.tasks
  {
    if s.videoFx.deps != Some(s.video) then StartResolve(s) else s
  }

  /** The `loadSound` effect's setup, when its dependency changed. */
  function AudioSetup(s: Session): (r: Session)
    ensures r.audioFx.deps == Some(s.audio)
    ensures s.audioFx.deps == Some(s.audio) ==> r == s
    ensures r.video == s.video && r.audio == s.audio && r.isPlaying == s.isPlaying && r.mounted == s.mounted
    ensures r.videoFx == s.videoFx && r.resolving == s.resolving && r.playFx == s.playFx
    ensures r.slot == s.slot && r.created == s.created && r.tasks == s.tasks
    ensures r.log == s.log || (s.slot.Some? && r.log == s.log + [Unload(s.slot.value)])
  {
    if s.audioFx.deps != Some(s.audio) then StartLoad(s) else s
  }

  /** The effect keyed on `isPlaying`, when `isPlaying` changed. */
  function PlaySetup(s: Session): (r: Session)
    ensures r.playFx == Some(s.isPlaying)
    ensures s.playFx == Some(s.isPlaying) ==> r == s
    ensures r.video == s.video && r.audio == s.audio && r.isPlaying == s.isPlaying && r.mounted == s.mounted
    ensures r.videoFx == s.videoFx && r.audioFx == s.audioFx && r.resolving == s.resolving
    ensures r.slot == s.slot && r.loads == s.loads && r.created == s.created && r.tasks == s.tasks
    ensures r.log == s.log || (s.slot.Some? && r.log == s.log + [if s.isPlaying then Play(s.slot.value) else Pause(s.slot.value)])
  {
    if s.playFx != Some(s.isPlaying) then SyncPlay(s) else s
  }

  /** Render and flush: cleanups of the effects whose dependency changed,
      then their setups, in declaration order. */
  function OnCommit(s: Session): (r: Session)
    ensures !s.mounted ==> r == s
    ensures s.mounted ==>
              r.videoFx.deps == Some(s.video) && r.audioFx.deps == Some(s.audio) && r.playFx == Some(s.isPlaying)
    ensures r.video == s.video && r.audio == s.audio && r.isPlaying == s.isPlaying && r.mounted == s.mounted
    ensures |s.log| <= |r.log| && r.log[..|s.log|] == s.log && r.created == s.created
  {
    if !s.mounted then s
    else PlaySetup(AudioSetup(VideoSetup(CleanupPhase(s))))
  }

  // ----- continuations of the effects -----

  /** The video resolver answered instance `g`. Only a still-mounted
      instance writes: a truthy URI is shown, anything else marks the video
      unavailable; either way it lowers `isLoading`. */
  function OnVideoResolved(s: Session, g: nat, reply: Reply): (r: Session)
    ensures r.resolving == s.resolving - {g}
    ensures !(g in s.resolving && Mounted(s.videoFx, g)) ==> r == s.(resolving := s.resolving - {g})
    ensures g in s.resolving && Mounted(s.videoFx, g) ==>
              && !r.isLoading
              && (reply.Returned? && Truthy(reply.value) ==> r.videoUri == Some(reply.value) && !r.videoUnavailable)
              && (!(reply.Returned? && Truthy(reply.value)) ==> r.videoUri.None? && r.videoUnavailable)
              && r == s.(resolving := r.resolving, videoUri := r.videoUri,
                         videoUnavailable := r.videoUnavailable, isLoading := false)
  {
    var s1 := s.(resolving := s.resolving - {g});
    if !(g in s.resolving && Mounted(s.videoFx, g)) then s1
    else match reply
      case Returned(uri) =>
        if Truthy(uri) then s1.(videoUri := Some(uri), videoUnavailable := false, isLoading := false)
        else s1.(videoUri := None, videoUnavailable := true, isLoading := false)
      case _ => s1.(videoUri := None, videoUnavailable := true, isLoading := false)
  }

  /** The `finally` of `loadSound`: lower `isLoading` if still mounted. */
  function SettleLoad(s: Session, g: nat, live: bool): (r: Session)
    ensures r.loads == s.loads - {g} && (live ==> !r.isLoading) && (!live ==> r.isLoading == s.isLoading)
    ensures r.slot == s.slot && r.log == s.log && r.created == s.created
    ensures r.soundUnavailable == s.soundUnavailable && r.audioFx == s.audioFx && r.tasks == s.tasks
    ensures r.mounted == s.mounted && r.videoFx == s.videoFx
    ensures r.audio == s.audio && r.video == s.video && r.isPlaying == s.isPlaying
  {
    s.(loads := s.loads - {g}, isLoading := if live then false else s.isLoading)
  }

  /** `loadSound` resumes after unloading the previous sound: the slot is
      cleared, then the resolver is asked for the track's URI. */
  function ResumeUnload(v: Variant, s: Session, g: nat, autoplay: bool, unloaded: Sound): (r: Session)
    ensures v == AsWritten ==> r.slot.None?
    ensures s.slot == Some(unloaded) ==> r.slot.None?
    ensures r.slot.None? || r.slot == s.slot
    ensures r.loads == s.loads[g := AwaitResolve(autoplay)]
    ensures r.log == s.log && r.created == s.created && r.tasks == s.tasks && r.isLoading == s.isLoading
    ensures r.audioFx == s.audioFx && r.mounted == s.mounted
    ensures r.videoFx == s.videoFx && r.audio == s.audio && r.video == s.video && r.isPlaying == s.isPlaying
  {
    s.(slot := ClearSlot(v, s.slot, unloaded), loads := s.loads[g := AwaitResolve(autoplay)])
  }

  /** `loadSound` resumes with the resolver's answer. A truthy URI clears
      `soundUnavailable` and asks for a sound; null or an empty string sets
      `soundUnavailable` and ends; a thrown error just ends. */
  function ResumeResolve(v: Variant, s: Session, g: nat, autoplay: bool, reply: Reply): (r: Session)
    ensures r.slot == s.slot && r.log == s.log && r.created == s.created
    ensures reply.Returned? && Truthy(reply.value) ==> r.loads == s.loads[g := AwaitCreate(autoplay)]
    ensures !(reply.Returned? && Truthy(reply.value)) ==> r.loads == s.loads - {g}
    ensures Mounted(s.audioFx, g) && !reply.Threw? ==>
              (r.soundUnavailable <==> !(reply.Returned? && Truthy(reply.value)))
    ensures !Mounted(s.audioFx, g) ==> r.isLoading == s.isLoading
    ensures v == Guarded && !Mounted(s.audioFx, g) ==> r.soundUnavailable == s.soundUnavailable
    ensures r.tasks == s.tasks && r.audioFx == s.audioFx && r.mounted == s.mounted
    ensures r.videoFx == s.videoFx && r.audio == s.audio && r.video == s.video && r.isPlaying == s.isPlaying
  {
    var live := Mounted(s.audioFx, g);
    var writes := v == AsWritten || live;
    if reply.Returned? && Truthy(reply.value) then
      s.(soundUnavailable := if writes then false else s.soundUnavailable,
         loads := s.loads[g := AwaitCreate(autoplay)])
    else if reply.Threw? then SettleLoad(s, g, live)
    else
      var s1 := s.(soundUnavailable := if writes then true else s.soundUnavailable);
      SettleLoad(s1, g, live)
  }

  /** `loadSound` resumes with the created sound. A mounted instance
      installs it in the slot; a superseded one unloads it at once. */
  function ResumeCreate(s: Session, g: nat, autoplay: bool, reply: Reply): (r: Session)
    ensures r.loads == s.loads - {g}
    ensures reply.Returned? ==> r.created == s.created + 1
    ensures reply.Returned? && Mounted(s.audioFx, g) ==>
              r.slot == Some(s.created) && r.log == s.log + [Create(s.created, autoplay)]
    ensures reply.Returned? && !Mounted(s.audioFx, g) ==>
              r.slot == s.slot && r.log == s.log + [Create(s.created, autoplay), Unload(s.created)]
    ensures !reply.Returned? ==> r.created == s.created && r.slot == s.slot && r.log == s.log
    ensures !Mounted(s.audioFx, g) ==> r.isLoading == s.isLoading
    ensures r.audioFx == s.audioFx && r.tasks == s.tasks && r.mounted == s.mounted
    ensures r.videoFx == s.videoFx && r.audio == s.audio && r.video == s.video && r.isPlaying == s.isPlaying
  {
    var live := Mounted(s.audioFx, g);
    if reply.Returned? then
      var h := s.created;
      var s1 := s.(created := h + 1);
      if live then
        var s2 := s1.(log := s.log + [Create(h, autoplay)], slot := Some(h));
        SettleLoad(s2, g, live)
      else
        var s2 := s1.(log := s.log + [Create(h, autoplay), Unload(h)]);
        SettleLoad(s2, g, live)
    else SettleLoad(s, g, live)
  }

  /** Instance `g` of `loadSound` resumes from its pending `await`. */
  function OnLoadResumed(v: Variant, s: Session, g: nat, reply: Reply): (r: Session)
    ensures g !in s.loads ==> r == s
    ensures |s.log| <= |r.log| && r.log[..|s.log|] == s.log
    ensures s.created <= r.created && r.mounted == s.mounted
    ensures r.loads.Keys <= s.loads.Keys
    ensures !Mounted(s.audioFx, g) ==> r.isLoading == s.isLoading
    ensures r.tasks == s.tasks && r.audioFx == s.audioFx && r.videoFx == s.videoFx
    ensures r.audio == s.audio && r.video == s.video && r.isPlaying == s.isPlaying
  {
    if g !in s.loads then s
    else
      match s.loads[g]
      case AwaitUnload(autoplay, h) => ResumeUnload(v, s, g, autoplay, h)
      case AwaitResolve(autoplay) => ResumeResolve(v, s, g, autoplay, reply)
      case AwaitCreate(autoplay) => ResumeCreate(s, g, autoplay, reply)
  }

  // ----- user actions and the handlers' continuations -----

  /** The end of `handleVideoChange`: stop playing if the handler saw the
      screen playing, select the video, lower `isLoading`. */
  function FinishVideoChange(s: Session, next: Track, wasPlaying: bool): (r: Session)
    ensures r.log == s.log && r.slot == s.slot && r.created == s.created && r.tasks == s.tasks
    ensures r.loads == s.loads && r.resolving == s.resolving && r.audioFx == s.audioFx && r.videoFx == s.videoFx
  {
    s.(isPlaying := if wasPlaying then false else s.isPlaying, video := next, isLoading := false)
  }

  /** `handleVideoChange` up to its first `await`. */
  function OnPickVideo(s: Session, next: Track): (r: Session)
    ensures PlayerShown(s) ==>
              && r.video == s.video && r.isLoading
              && r.tasks == s.tasks + multiset{VideoStopping(next, s.isPlaying)}
              && r.log == s.log + [VideoStop]
    ensures !PlayerShown(s) ==> r.video == next && !r.isPlaying && !r.isLoading && r.log == s.log
    ensures r.slot == s.slot && r.audio == s.audio && r.videoUri == s.videoUri
    ensures r.created == s.created && r.mounted == s.mounted
  {
    var s1 := s.(isLoading := true);
    if PlayerShown(s) then
      s1.(log := s.log + [VideoStop], tasks := s.tasks + multiset{VideoStopping(next, s.isPlaying)})
    else FinishVideoChange(s1, next, s.isPlaying)
  }

  /** The end of `handleAudioChange`, after `soundRef.current = null` ran. */
  function FinishAudioChange(s: Session, next: Track, wasPlaying: bool): (r: Session)
    ensures r.log == s.log && r.slot == s.slot && r.created == s.created && r.tasks == s.tasks
    ensures r.loads == s.loads && r.resolving == s.resolving && r.audioFx == s.audioFx && r.videoFx == s.videoFx
  {
    s.(isPlaying := if wasPlaying then false else s.isPlaying, audio := next, isLoading := false)
  }

  /** `handleAudioChange` up to its first `await`: stop the current sound,
      if any; otherwise select the track at once. */
  function OnPickAudio(s: Session, next: Track): (r: Session)
    ensures s.slot.Some? ==>
              && r.audio == s.audio && r.isLoading && r.slot == s.slot
              && r.tasks == s.tasks + multiset{AudioStopping(next, s.isPlaying)}
              && r.log == s.log + [Stop(s.slot.value)]
    ensures s.slot.None? ==>
              r.audio == next && !r.isPlaying && !r.isLoading && r.slot.None? && r.log == s.log
    ensures r.video == s.video && r.videoUri == s.videoUri
    ensures r.created == s.created && r.mounted == s.mounted
  {
    var s1 := s.(isLoading := true);
    match s.slot
    case Some(h) =>
      s1.(log := s.log + [Stop(h)], tasks := s.tasks + multiset{AudioStopping(next, s.isPlaying)})
    case None => FinishAudioChange(s1, next, s.isPlaying)
  }

  /** `handlePlayPause` up to its first `await`. The button is disabled
      while `isLoading` is set. */
  function OnPressPlayPause(s: Session): (r: Session)
    ensures s.isLoading ==> r == s
    ensures !s.isLoading && s.slot.Some? ==>
              && r.isPlaying == s.isPlaying && r.isLoading
              && r.log == s.log + [if s.isPlaying then Pause(s.slot.value) else Play(s.slot.value)]
              && r.tasks == s.tasks + multiset{PlayPausing(!s.isPlaying)}
    ensures !s.isLoading && s.slot.None? ==>
              r == s.(isPlaying := !s.isPlaying)
    ensures r.created == s.created && r.mounted == s.mounted
  {
    if s.isLoading then s
    else
      var target := !s.isPlaying;
      var s1 := s.(isLoading := true);
      match s.slot
      case Some(h) =>
        s1.(log := s.log + [if target then Play(h) else Pause(h)],
            tasks := s.tasks + multiset{PlayPausing(target)})
      case None => s1.(isPlaying := target, isLoading := false)
  }

  /** `handleCategoryChange`: select the category, then change to its first
      video when it has one. */
  function OnPickCategory(s: Session, c: Category): (r: Session)
    ensures r.category == c
    ensures |c.videos| == 0 ==> r == s.(category := c)
    ensures |c.videos| > 0 ==> r == OnPickVideo(s.(category := c), c.videos[0])
  {
    var s1 := s.(category := c);
    if |c.videos| > 0 then OnPickVideo(s1, c.videos[0]) else s1
  }

  /** Unmounting: the flags of both effect instances go down; `cleanupMedia`
      runs first (React has already detached `videoRef`, so only the sound
      is stopped), then the `loadSound` cleanup starts unloading the sound. */
  function OnUnmount(s: Session): (r: Session)
    ensures !r.mounted && !r.audioFx.live && !r.videoFx.live
    ensures s.audioFx.live && s.slot.Some? ==>
              r.log == s.log + [Stop(s.slot.value), Unload(s.slot.value)]
    ensures !(s.audioFx.live && s.slot.Some?) ==> r.log == s.log
    ensures r.slot == s.slot && r.created == s.created && r.loads == s.loads && r.resolving == s.resolving
  {
    var s1 := s.(mounted := false, videoFx := s.videoFx.(live := false));
    if !s.audioFx.live then s1.(audioFx := s.audioFx.(live := false))
    else
      match s.slot
      case Some(h) =>
        var s2 := s1.(log := s.log + [Stop(h)], tasks := s.tasks + multiset{TeardownStopping});
        CleanupLoad(s2)
      case None => s1.(audioFx := s.audioFx.(live := false))
  }

  /** A suspended continuation that touches the sound resumes; `s0` is the
      session with the task already taken off. */
  function ResumeSoundTask(v: Variant, s: Session, s0: Session, t: Task, reply: Reply): (r: Session)
    requires s0 == s.(tasks := s0.tasks)
    requires t.CleanupUnloading? || t.AudioStopping? || t.AudioUnloading? || t.TeardownStopping? || t.TeardownUnloading?
    ensures |s.log| <= |r.log| && r.log[..|s.log|] == s.log
    ensures r.slot.None? || r.slot == s.slot
    ensures r.created == s.created && r.loads == s.loads && r.resolving == s.resolving
    ensures r.audioFx == s.audioFx && r.videoFx == s.videoFx && r.mounted == s.mounted
  {
    match t
    case CleanupUnloading(h) => s0.(slot := ClearSlot(v, s.slot, h))
    case AudioStopping(next, wasPlaying) =>
      if s.slot.Some? then
        var h := s.slot.value;
        s0.(log := s.log + [Unload(h)], tasks := s0.tasks + multiset{AudioUnloading(next, wasPlaying, h)})
      else FinishAudioChange(s0, next, wasPlaying)
    case AudioUnloading(next, wasPlaying, h) =>
      var s1 := s0.(slot := ClearSlot(v, s.slot, h));
      FinishAudioChange(s1, next, wasPlaying)
    case TeardownStopping =>
      if s.slot.Some? then
        var h := s.slot.value;
        s0.(log := s.log + [Unload(h)], tasks := s0.tasks + multiset{TeardownUnloading(h)})
      else s0
    case TeardownUnloading(h) =>
      if reply.Threw? then s0 else s0.(slot := ClearSlot(v, s.slot, h))
  }

  /** A suspended video or play/pause handler resumes. */
  function ResumeScreenTask(s: Session, s0: Session, t: Task): (r: Session)
    requires s0 == s.(tasks := s0.tasks)
    requires t.VideoStopping? || t.VideoUnloading? || t.PlayPausing?
    ensures |s.log| <= |r.log| && r.log[..|s.log|] == s.log
    ensures r.slot == s.slot && r.audio == s.audio
    ensures r.created == s.created && r.loads == s.loads && r.resolving == s.resolving
    ensures r.audioFx == s.audioFx && r.videoFx == s.videoFx && r.mounted == s.mounted
  {
    match t
    case VideoStopping(next, wasPlaying) =>
      if PlayerShown(s) then
        s0.(log := s.log + [VideoUnload], tasks := s0.tasks + multiset{VideoUnloading(next, wasPlaying)})
      else FinishVideoChange(s0, next, wasPlaying)
    case VideoUnloading(next, wasPlaying) => FinishVideoChange(s0, next, wasPlaying)
    case PlayPausing(target) => s0.(isPlaying := target, isLoading := false)
  }

  /** A suspended handler or cleanup resumes. Failed stop, unload, play and
      pause calls are ignored, except the unload in `cleanupMedia`, whose
      failure skips clearing the slot. */
  function OnTaskResumed(v: Variant, s: Session, t: Task, reply: Reply): (r: Session)
    ensures t !in s.tasks ==> r == s
    ensures |s.log| <= |r.log| && r.log[..|s.log|] == s.log
    ensures r.slot.None? || r.slot == s.slot
    ensures r.created == s.created && r.loads == s.loads && r.resolving == s.resolving
    ensures r.audioFx == s.audioFx && r.videoFx == s.videoFx && r.mounted == s.mounted
  {
    if t !in s.tasks then s
    else
      var s0 := s.(tasks := s.tasks - multiset{t});
      if t.VideoStopping? || t.VideoUnloading? || t.PlayPausing? then ResumeScreenTask(s, s0, t)
      else ResumeSoundTask(v, s, s0, t, reply)
  }

  /** One event. User actions and renders need a mounted screen; a
      continuation that is not pending does nothing. */
  function Step(v: Variant, s: Session, e: Event): (r: Session)
    ensures |s.log| <= |r.log| && r.log[..|s.log|] == s.log
    ensures s.created <= r.created
    ensures !s.mounted ==> !r.mounted
  {
    match e
    case Commit => OnCommit(s)
    case PressPlayPause => if s.mounted then OnPressPlayPause(s) else s
    case PickVideo(next) => if s.mounted then OnPickVideo(s, next) else s
    case PickAudio(next) => if s.mounted then OnPickAudio(s, next) else s
    case PickCategory(c) => if s.mounted then OnPickCategory(s, c) else s
    case Unmount => if s.mounted then OnUnmount(s) else s
    case VideoResolved(g, reply) => OnVideoResolved(s, g, reply)
    case LoadResumed(g, reply) => OnLoadResumed(v, s, g, reply)
    case TaskResumed(t, reply) => OnTaskResumed(v, s, t, reply)
  }

  function Run(v: Variant, s: Session, events: seq<Event>): Session
    decreases |events|
  {
    if |events| == 0 then s else Run(v, Step(v, s, events[0]), events[1..])
  }
}

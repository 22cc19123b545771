/** Each handler and each `loadSound` instance run to completion without
    interference, for every outcome of the calls it awaits; and what
    unmounting leaves behind. */
module RelaxHandlers {
  import opened JsValues
  import opened Relax
  import opened RelaxProofs

  /** The first half of `handleAudioChange` with a sound loaded: stop it,
      then unload it. */
  lemma AudioChangeUnloads(v: Variant, s: Session, next: Track, r1: Reply)
    requires s.mounted && s.slot.Some?
    ensures var h := s.slot.value;
            var s1 := Step(v, s, PickAudio(next));
            var s2 := Step(v, s1, TaskResumed(AudioStopping(next, s.isPlaying), r1));
            && s1.isLoading && s1.audio == s.audio
            && s2.slot == Some(h) && s2.log == s.log + [Stop(h), Unload(h)] && s2.isPlaying == s.isPlaying
            && s2.tasks == s.tasks + multiset{AudioUnloading(next, s.isPlaying, h)}
            && s2.video == s.video && s2.created == s.created
  {
    var s1 := Step(v, s, PickAudio(next));
    StepPickAudio(v, s, next);
    StepTask(v, s1, AudioStopping(next, s.isPlaying), r1);
  }

  /** `handleAudioChange` with a sound loaded: stop it, unload it, clear the
      slot, pause, select the track, lower `isLoading`. The replies of the
      stop and the unload do not matter. */
  lemma AudioChangeInSequence(v: Variant, s: Session, next: Track, r1: Reply, r2: Reply)
    requires s.mounted && s.slot.Some?
    ensures var h := s.slot.value;
            var s1 := Step(v, s, PickAudio(next));
            var s2 := Step(v, s1, TaskResumed(AudioStopping(next, s.isPlaying), r1));
            var s3 := Step(v, s2, TaskResumed(AudioUnloading(next, s.isPlaying, h), r2));
            && s1.isLoading && s1.audio == s.audio
            && s3.audio == next && !s3.isPlaying && !s3.isLoading && s3.slot.None?
            && s3.log == s.log + [Stop(h), Unload(h)] && s3.tasks == s.tasks
            && s3.video == s.video && s3.created == s.created
  {
    var h := s.slot.value;
    AudioChangeUnloads(v, s, next, r1);
    var s1 := Step(v, s, PickAudio(next));
    var s2 := Step(v, s1, TaskResumed(AudioStopping(next, s.isPlaying), r1));
    StepTask(v, s2, AudioUnloading(next, s.isPlaying, h), r2);
    assert s2.tasks - multiset{AudioUnloading(next, s.isPlaying, h)} == s.tasks;
  }

  /** `handleVideoChange` with the player shown: stop and unload the video,
      pause, select the video, lower `isLoading`; the sound is untouched. */
  lemma VideoChangeInSequence(v: Variant, s: Session, next: Track, r1: Reply, r2: Reply)
    requires s.mounted && PlayerShown(s)
    ensures var s1 := Step(v, s, PickVideo(next));
            var s2 := Step(v, s1, TaskResumed(VideoStopping(next, s.isPlaying), r1));
            var s3 := Step(v, s2, TaskResumed(VideoUnloading(next, s.isPlaying), r2));
            && s1.isLoading && s1.video == s.video
            && s3.video == next && !s3.isPlaying && !s3.isLoading
            && s3.log == s.log + [VideoStop, VideoUnload] && s3.tasks == s.tasks
            && s3.audio == s.audio && s3.slot == s.slot
  {
    var s1 := Step(v, s, PickVideo(next));
    StepPickVideo(v, s, next);
    var s2 := Step(v, s1, TaskResumed(VideoStopping(next, s.isPlaying), r1));
    StepTask(v, s1, VideoStopping(next, s.isPlaying), r1);
    assert s2.log == s.log + [VideoStop, VideoUnload];
    assert s2.tasks == s.tasks + multiset{VideoUnloading(next, s.isPlaying)};
    StepTask(v, s2, VideoUnloading(next, s.isPlaying), r2);
  }

  /** `handlePlayPause` flips `isPlaying` and ends with `isLoading` false;
      the sound, if one is loaded, is told to play or pause, and a failure
      of that call does not stop the flip. */
  lemma PlayPauseFlips(v: Variant, s: Session, reply: Reply)
    requires s.mounted && !s.isLoading
    ensures var s1 := Step(v, s, PressPlayPause);
            var s2 := Step(v, s1, TaskResumed(PlayPausing(!s.isPlaying), reply));
            && (s.slot.None? ==> !s1.isLoading && s1.isPlaying == !s.isPlaying && s1.log == s.log)
            && (s.slot.Some? ==>
                  && s1.isLoading && s1.isPlaying == s.isPlaying
                  && s2.isPlaying == !s.isPlaying && !s2.isLoading && s2.tasks == s.tasks
                  && s2.log == s.log + [if s.isPlaying then Pause(s.slot.value) else Play(s.slot.value)])
  {
    var s1 := Step(v, s, PressPlayPause);
    StepPress(v, s);
    if s.slot.Some? {
      assert PlayPausing(!s.isPlaying) in s1.tasks;
      StepTask(v, s1, PlayPausing(!s.isPlaying), reply);
    }
  }

  /** The button is disabled while a change is in progress. */
  lemma PlayPauseDisabledWhileLoading(v: Variant, s: Session)
    requires s.isLoading
    ensures Step(v, s, PressPlayPause) == s
  {
  }

  // ----- renders -----

  /** A changed video starts a new resolving instance, a changed track a new
      `loadSound` instance; an effect whose dependency did not change is
      left alone. */
  lemma CommitStartsInstances(s: Session)
    requires s.mounted
    ensures var r := OnCommit(s);
            s.videoFx.deps != Some(s.video) ==>
              Mounted(r.videoFx, s.videoFx.gen + 1) && r.videoFx.gen in r.resolving && r.isLoading
    ensures var r := OnCommit(s);
            s.audioFx.deps != Some(s.audio) ==>
              Mounted(r.audioFx, s.audioFx.gen + 1) && r.audioFx.gen in r.loads && r.isLoading
    ensures var r := OnCommit(s);
            s.videoFx.deps == Some(s.video) ==> r.videoFx == s.videoFx && r.resolving == s.resolving
    ensures var r := OnCommit(s);
            s.audioFx.deps == Some(s.audio) ==> r.audioFx == s.audioFx && r.loads == s.loads && r.slot == s.slot
  {
    var s1 := CleanupPhase(s);
    var s2 := VideoSetup(s1);
    var s3 := AudioSetup(s2);
    assert s.videoFx.deps != Some(s.video) ==> Mounted(s2.videoFx, s.videoFx.gen + 1) && s2.isLoading;
    assert s.audioFx.deps != Some(s.audio) ==> s3 == StartLoad(s2);
  }

  // ----- the mounted loadSound instance -----

  /** The slot is empty whenever the mounted instance installs a sound. */
  lemma SlotClearedBeforeInstall(v: Variant, s: Session, e: Event)
    requires SlotDiscipline(s) && Installs(s, e)
    ensures s.slot.None?
    ensures Step(v, s, e).slot == Some(s.created)
  {
  }

  /** The mounted instance resumes after unloading the previous sound: the
      slot is empty and the URI is requested next. */
  lemma UnloadClearsSlot(v: Variant, s: Session, reply: Reply)
    requires SlotDiscipline(s) && CurrentLoad(s) && s.loads[s.audioFx.gen].AwaitUnload?
    ensures var r := Step(v, s, LoadResumed(s.audioFx.gen, reply));
            && r.slot.None? && Unload(s.loads[s.audioFx.gen].sound) in r.log
            && r.loads[s.audioFx.gen] == AwaitResolve(s.loads[s.audioFx.gen].autoplay)
  {
  }

  /** The mounted instance learns the URI is unreachable: it marks the
      track unavailable, leaves the slot empty, and lowers `isLoading`;
      an error thrown by the resolver ends it the same way but leaves the
      flag alone. */
  lemma FailedResolveLeavesSlotEmpty(v: Variant, s: Session, reply: Reply)
    requires SlotDiscipline(s) && CurrentLoad(s) && s.loads[s.audioFx.gen].AwaitResolve?
    requires !(reply.Returned? && Truthy(reply.value))
    ensures var r := Step(v, s, LoadResumed(s.audioFx.gen, reply));
            && r.slot.None? && s.audioFx.gen !in r.loads && !r.isLoading
            && (reply.Threw? ==> r.soundUnavailable == s.soundUnavailable)
            && (!reply.Threw? ==> r.soundUnavailable)
  {
  }

  // ----- unmounting -----

  ghost predicate NothingLive(s: Session)
  {
    forall h: Sound :: !Live(s, h)
  }

  /** Unmounting issues an unload for the sound in the slot, if any. */
  lemma UnmountReleasesSound(v: Variant, s: Session)
    requires Inv(v, s) && s.mounted
    ensures NothingLive(Step(v, s, Unmount))
  {
    var r := Step(v, s, Unmount);
    forall h: Sound ensures !Live(r, h) {
      if Live(r, h) {
        assert Live(s, h);
      }
    }
  }

  ghost predicate TornDown(s: Session)
  {
    !s.mounted && !s.audioFx.live && !s.videoFx.live && NothingLive(s)
  }

  /** Extending the log and creating sounds that are unloaded at once keeps
      every sound dead. */
  lemma GrowthKeepsNothingLive(s: Session, r: Session)
    requires NothingLive(s)
    requires |s.log| <= |r.log| && r.log[..|s.log|] == s.log
    requires r.created == s.created || (r.created == s.created + 1 && Unload(s.created) in r.log)
    ensures NothingLive(r)
  {
    forall h: Sound ensures !Live(r, h) {
      if h < s.created {
        assert !Live(s, h);
        ExtendedLogKeepsUnloads(s.log, r.log, h);
      }
    }
  }

  lemma CreateKeepsTornDown(s: Session, g: nat, autoplay: bool, reply: Reply)
    requires TornDown(s)
    ensures TornDown(ResumeCreate(s, g, autoplay, reply))
  {
    GrowthKeepsNothingLive(s, ResumeCreate(s, g, autoplay, reply));
  }

  lemma UnloadResumeKeepsTornDown(v: Variant, s: Session, g: nat, autoplay: bool, h: Sound)
    requires TornDown(s)
    ensures TornDown(ResumeUnload(v, s, g, autoplay, h))
  {
    GrowthKeepsNothingLive(s, ResumeUnload(v, s, g, autoplay, h));
  }

  lemma ResolveKeepsTornDown(v: Variant, s: Session, g: nat, autoplay: bool, reply: Reply)
    requires TornDown(s)
    ensures TornDown(ResumeResolve(v, s, g, autoplay, reply))
  {
    GrowthKeepsNothingLive(s, ResumeResolve(v, s, g, autoplay, reply));
  }

  lemma LoadKeepsTornDown(v: Variant, s: Session, g: nat, reply: Reply)
    requires TornDown(s)
    ensures TornDown(Step(v, s, LoadResumed(g, reply)))
  {
    StepLoad(v, s, g, reply);
    if g in s.loads {
      match s.loads[g]
      case AwaitUnload(autoplay, h) => UnloadResumeKeepsTornDown(v, s, g, autoplay, h);
      case AwaitResolve(autoplay) => ResolveKeepsTornDown(v, s, g, autoplay, reply);
      case AwaitCreate(autoplay) => CreateKeepsTornDown(s, g, autoplay, reply);
    }
  }

  lemma TaskKeepsTornDown(v: Variant, s: Session, t: Task, reply: Reply)
    requires TornDown(s)
    ensures TornDown(Step(v, s, TaskResumed(t, reply)))
  {
    StepTask(v, s, t, reply);
    GrowthKeepsNothingLive(s, Step(v, s, TaskResumed(t, reply)));
  }

  lemma VideoResolvedKeepsTornDown(v: Variant, s: Session, g: nat, reply: Reply)
    requires TornDown(s)
    ensures TornDown(Step(v, s, VideoResolved(g, reply)))
  {
    var r := Step(v, s, VideoResolved(g, reply));
    StepVideoResolved(v, s, g, reply);
    assert r.log == s.log && r.created == s.created;
    GrowthKeepsNothingLive(s, r);
  }

  lemma StepKeepsTornDown(v: Variant, s: Session, e: Event)
    requires TornDown(s)
    ensures TornDown(Step(v, s, e))
  {
    match e
    case TaskResumed(t, reply) => TaskKeepsTornDown(v, s, t, reply);
    case LoadResumed(g, reply) => LoadKeepsTornDown(v, s, g, reply);
    case VideoResolved(g, reply) => VideoResolvedKeepsTornDown(v, s, g, reply);
    case _ => StepUnmounted(v, s, e);
  }

  /** Once unmounted the screen never holds a live sound again, whatever
      continuations are still pending and however they complete. */
  lemma {:induction false} TornDownStaysTornDown(v: Variant, s: Session, events: seq<Event>)
    requires TornDown(s)
    ensures TornDown(Run(v, s, events))
    decreases |events|
  {
    if |events| > 0 {
      StepKeepsTornDown(v, s, events[0]);
      TornDownStaysTornDown(v, Step(v, s, events[0]), events[1..]);
    }
  }

  /** After unmounting no sound is ever alive again: the one in the slot is
      unloaded by the cleanups, and a load still in flight unloads what it
      creates. */
  lemma NothingLivesAfterUnmount(v: Variant, s: Session, events: seq<Event>)
    requires Inv(v, s) && s.mounted
    ensures NothingLive(Run(v, Step(v, s, Unmount), events))
  {
    UnmountReleasesSound(v, s);
    TornDownStaysTornDown(v, Step(v, s, Unmount), events);
  }
}

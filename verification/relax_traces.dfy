/** Concrete schedules on which the code as written departs from the
    intended behaviour, replayed on both variants. */
module RelaxTraces {
  import opened JsValues
  import opened Relax
  import opened RelaxProofs

  const Beach := Track("beach", "Beach", "beach.mp4")
  const Forest := Track("forest", "Forest", "forest.mp4")
  const Rain := Track("rain", "Rain", "rain.mp3")
  const Silence := Track("silence", "Silence", "silence.mp3")

  function Start(): Session
  {
    Init([Category("nature", "Nature", [Beach, Forest])], [Rain, Silence])
  }

  /** What stays fixed along the traces: mounted, showing the beach video,
      paused, with the sound flag clear. */
  ghost predicate Paused(s: Session)
  {
    && s.mounted && s.video == Beach && s.videoFx.deps == Some(Beach)
    && !s.isPlaying && s.playFx == Some(false) && !s.soundUnavailable
  }

  /** The screen between loads: `audio` selected, the `loadSound` instance
      `gen` mounted for `loaded`, and no `loadSound` in flight. */
  ghost predicate Between(s: Session, audio: Track, loaded: Track, gen: nat,
                          slot: Option<Sound>, created: nat, tasks: multiset<Task>)
  {
    && Paused(s) && s.audio == audio && s.audioFx == Effect(Some(loaded), gen, true)
    && s.loads == map[] && s.slot == slot && s.created == created && s.tasks == tasks
  }

  /** The screen while instance `gen` of `loadSound` loads the selected
      track into an empty slot. */
  ghost predicate Loading(s: Session, audio: Track, gen: nat, stage: LoadStage,
                          created: nat, tasks: multiset<Task>)
  {
    && Paused(s) && s.audio == audio && s.audioFx == Effect(Some(audio), gen, true)
    && s.loads == map[gen := stage] && s.slot.None? && s.created == created && s.tasks == tasks
  }

  // ----- single steps -----

  /** The first render starts resolving the rain track. */
  lemma FirstCommitLoadsRain(v: Variant)
    ensures var r := Step(v, Start(), Commit);
            Loading(r, Rain, 1, AwaitResolve(false), 0, multiset{}) && r.log == []
  {
    StepCommit(v, Start());
  }

  lemma ResolveStep(v: Variant, s: Session, audio: Track, gen: nat, uri: string,
                    created: nat, tasks: multiset<Task>)
    requires Loading(s, audio, gen, AwaitResolve(false), created, tasks) && Truthy(uri)
    ensures var r := Step(v, s, LoadResumed(gen, Returned(uri)));
            Loading(r, audio, gen, AwaitCreate(false), created, tasks) && r.log == s.log
  {
    StepLoad(v, s, gen, Returned(uri));
  }

  lemma CreateStep(v: Variant, s: Session, audio: Track, gen: nat, created: nat, tasks: multiset<Task>)
    requires Loading(s, audio, gen, AwaitCreate(false), created, tasks)
    ensures var r := Step(v, s, LoadResumed(gen, Returned("sound")));
            && Between(r, audio, audio, gen, Some(created), created + 1, tasks)
            && r.log == s.log + [Create(created, false)]
  {
    StepLoad(v, s, gen, Returned("sound"));
  }

  /** A tap while a sound is loaded: stop it and suspend the handler. */
  lemma TapStopsSound(v: Variant, s: Session, next: Track, audio: Track, loaded: Track, gen: nat,
                      h: Sound, created: nat, tasks: multiset<Task>)
    requires Between(s, audio, loaded, gen, Some(h), created, tasks)
    ensures var r := Step(v, s, PickAudio(next));
            && Between(r, audio, loaded, gen, Some(h), created, tasks + multiset{AudioStopping(next, false)})
            && r.log == s.log + [Stop(h)]
  {
    StepPickAudio(v, s, next);
  }

  /** A handler resumes after stopping: it unloads what the slot holds. */
  lemma StopResumes(v: Variant, s: Session, next: Track, audio: Track, loaded: Track, gen: nat,
                    h: Sound, created: nat, tasks: multiset<Task>)
    requires Between(s, audio, loaded, gen, Some(h), created, tasks + multiset{AudioStopping(next, false)})
    ensures var r := Step(v, s, TaskResumed(AudioStopping(next, false), Returned("")));
            && Between(r, audio, loaded, gen, Some(h), created, tasks + multiset{AudioUnloading(next, false, h)})
            && r.log == s.log + [Unload(h)]
  {
    StepTask(v, s, AudioStopping(next, false), Returned(""));
    assert s.tasks - multiset{AudioStopping(next, false)} == tasks;
  }

  /** A handler resumes after unloading sound `h`: it selects its track and
      clears the slot, which drops sound `k` when `k` is not `h` on the code
      as written. */
  lemma UnloadResumes(v: Variant, s: Session, next: Track, audio: Track, loaded: Track, gen: nat,
                      h: Sound, k: Sound, created: nat, tasks: multiset<Task>)
    requires Between(s, audio, loaded, gen, Some(k), created, tasks + multiset{AudioUnloading(next, false, h)})
    ensures var r := Step(v, s, TaskResumed(AudioUnloading(next, false, h), Returned("")));
            && Between(r, next, loaded, gen, if v == AsWritten || k == h then None else Some(k), created, tasks)
            && r.log == s.log
  {
    StepTask(v, s, AudioUnloading(next, false, h), Returned(""));
    assert s.tasks - multiset{AudioUnloading(next, false, h)} == tasks;
  }

  /** The render after a track change with an empty slot starts the next
      `loadSound` instance, which goes straight to the resolver. */
  lemma CommitReloads(v: Variant, s: Session, audio: Track, loaded: Track, gen: nat,
                      created: nat, tasks: multiset<Task>)
    requires Between(s, audio, loaded, gen, None, created, tasks) && audio != loaded
    ensures var r := Step(v, s, Commit);
            Loading(r, audio, gen + 1, AwaitResolve(false), created, tasks) && r.log == s.log
  {
    StepCommit(v, s);
  }

  // ----- the double tap -----

  /** First render, then the rain track loads as sound 0. */
  function Opening(v: Variant): Session
  {
    var s1 := Step(v, Start(), Commit);
    var s2 := Step(v, s1, LoadResumed(1, Returned("rain.mp3")));
    Step(v, s2, LoadResumed(1, Returned("sound")))
  }

  lemma OpeningLoadsRain(v: Variant)
    ensures Between(Opening(v), Rain, Rain, 1, Some(0), 1, multiset{})
    ensures Opening(v).log == [Create(0, false)]
  {
    var s1 := Step(v, Start(), Commit);
    FirstCommitLoadsRain(v);
    ResolveStep(v, s1, Rain, 1, "rain.mp3", 0, multiset{});
    var s2 := Step(v, s1, LoadResumed(1, Returned("rain.mp3")));
    CreateStep(v, s2, Rain, 1, 0, multiset{});
  }

  /** Two taps, on the silence track and then on the rain track, before
      either handler gets past stopping sound 0; then both handlers unload
      it. */
  function DoubleTap(v: Variant, s: Session): Session
  {
    var s1 := Step(v, s, PickAudio(Silence));
    var s2 := Step(v, s1, PickAudio(Rain));
    var s3 := Step(v, s2, TaskResumed(AudioStopping(Silence, false), Returned("")));
    Step(v, s3, TaskResumed(AudioStopping(Rain, false), Returned("")))
  }

  lemma DoubleTapUnloadsTwice(v: Variant, s: Session)
    requires Between(s, Rain, Rain, 1, Some(0), 1, multiset{})
    ensures Between(DoubleTap(v, s), Rain, Rain, 1, Some(0), 1,
                    multiset{AudioUnloading(Silence, false, 0), AudioUnloading(Rain, false, 0)})
    ensures DoubleTap(v, s).log == s.log + [Stop(0), Stop(0), Unload(0), Unload(0)]
  {
    var stopSilence := AudioStopping(Silence, false);
    var stopRain := AudioStopping(Rain, false);
    TapStopsSound(v, s, Silence, Rain, Rain, 1, 0, 1, multiset{});
    var s1 := Step(v, s, PickAudio(Silence));
    TapStopsSound(v, s1, Rain, Rain, Rain, 1, 0, 1, multiset{stopSilence});
    var s2 := Step(v, s1, PickAudio(Rain));
    assert s2.tasks == multiset{stopRain} + multiset{stopSilence};
    StopResumes(v, s2, Silence, Rain, Rain, 1, 0, 1, multiset{stopRain});
    var s3 := Step(v, s2, TaskResumed(stopSilence, Returned("")));
    assert s3.tasks == multiset{AudioUnloading(Silence, false, 0)} + multiset{stopRain};
    StopResumes(v, s3, Rain, Rain, Rain, 1, 0, 1, multiset{AudioUnloading(Silence, false, 0)});
  }

  /** The silence handler finishes; the render starts `loadSound` for the
      silence track, which finds the slot empty and installs sound 1. */
  function SilenceResolved(v: Variant, s: Session): Session
  {
    var s1 := Step(v, s, TaskResumed(AudioUnloading(Silence, false, 0), Returned("")));
    var s2 := Step(v, s1, Commit);
    Step(v, s2, LoadResumed(2, Returned("silence.mp3")))
  }

  function SilenceLoads(v: Variant, s: Session): Session
  {
    Step(v, SilenceResolved(v, s), LoadResumed(2, Returned("sound")))
  }

  lemma SilenceResolvesWhileNullPending(v: Variant, s: Session)
    requires Between(s, Rain, Rain, 1, Some(0), 1,
                     multiset{AudioUnloading(Silence, false, 0), AudioUnloading(Rain, false, 0)})
    ensures Loading(SilenceResolved(v, s), Silence, 2, AwaitCreate(false), 1,
                    multiset{AudioUnloading(Rain, false, 0)})
    ensures SilenceResolved(v, s).log == s.log
  {
    var rest := multiset{AudioUnloading(Rain, false, 0)};
    assert s.tasks == rest + multiset{AudioUnloading(Silence, false, 0)};
    UnloadResumes(v, s, Silence, Rain, Rain, 1, 0, 0, 1, rest);
    var s1 := Step(v, s, TaskResumed(AudioUnloading(Silence, false, 0), Returned("")));
    CommitReloads(v, s1, Silence, Rain, 1, 1, rest);
    var s2 := Step(v, s1, Commit);
    ResolveStep(v, s2, Silence, 2, "silence.mp3", 1, rest);
  }

  lemma SilenceLoadsSoundOne(v: Variant, s: Session)
    requires Between(s, Rain, Rain, 1, Some(0), 1,
                     multiset{AudioUnloading(Silence, false, 0), AudioUnloading(Rain, false, 0)})
    ensures Between(SilenceLoads(v, s), Silence, Silence, 2, Some(1), 2,
                    multiset{AudioUnloading(Rain, false, 0)})
    ensures SilenceLoads(v, s).log == s.log + [Create(1, false)]
  {
    SilenceResolvesWhileNullPending(v, s);
    CreateStep(v, SilenceResolved(v, s), Silence, 2, 1, multiset{AudioUnloading(Rain, false, 0)});
  }

  /** The install of sound 1 happens while the rain handler's
      `soundRef.current = null` is still pending: the schedule is outside
      the ordering the code as written relies on. */
  lemma SilenceInstallBreaksOrder(v: Variant, s: Session)
    requires Between(s, Rain, Rain, 1, Some(0), 1,
                     multiset{AudioUnloading(Silence, false, 0), AudioUnloading(Rain, false, 0)})
    ensures !UnloadsFirst(SilenceResolved(v, s), LoadResumed(2, Returned("sound")))
  {
    SilenceResolvesWhileNullPending(v, s);
    var s3 := SilenceResolved(v, s);
    assert Installs(s3, LoadResumed(2, Returned("sound")));
    assert DefersNull(AudioUnloading(Rain, false, 0)) && AudioUnloading(Rain, false, 0) in s3.tasks;
  }

  /** The rain handler's late `soundRef.current = null`, then the render
      for the rain track it selected and that track's load. */
  function LateNull(v: Variant, s: Session): Session
  {
    Step(v, s, TaskResumed(AudioUnloading(Rain, false, 0), Returned("")))
  }

  function RainReloads(v: Variant, s: Session): Session
  {
    var s1 := Step(v, s, Commit);
    var s2 := Step(v, s1, LoadResumed(3, Returned("rain.mp3")));
    Step(v, s2, LoadResumed(3, Returned("sound")))
  }

  function Trace(v: Variant): Session
  {
    RainReloads(v, LateNull(v, SilenceLoads(v, DoubleTap(v, Opening(v)))))
  }

  lemma LateNullDropsSound(v: Variant, s: Session)
    requires Between(s, Silence, Silence, 2, Some(1), 2, multiset{AudioUnloading(Rain, false, 0)})
    ensures v == AsWritten ==> Between(LateNull(v, s), Rain, Silence, 2, None, 2, multiset{})
    ensures v == Guarded ==> Between(LateNull(v, s), Rain, Silence, 2, Some(1), 2, multiset{})
    ensures LateNull(v, s).log == s.log
  {
    assert s.tasks == multiset{} + multiset{AudioUnloading(Rain, false, 0)};
    UnloadResumes(v, s, Rain, Silence, Silence, 2, 0, 1, 2, multiset{});
  }

  lemma RainReloadKeepsOrphan(s: Session)
    requires Between(s, Rain, Silence, 2, None, 2, multiset{})
    ensures Between(RainReloads(AsWritten, s), Rain, Rain, 3, Some(2), 3, multiset{})
    ensures RainReloads(AsWritten, s).log == s.log + [Create(2, false)]
  {
    CommitReloads(AsWritten, s, Rain, Silence, 2, 2, multiset{});
    var s1 := Step(AsWritten, s, Commit);
    ResolveStep(AsWritten, s1, Rain, 3, "rain.mp3", 2, multiset{});
    var s2 := Step(AsWritten, s1, LoadResumed(3, Returned("rain.mp3")));
    CreateStep(AsWritten, s2, Rain, 3, 2, multiset{});
  }

  /** After sound 1 is installed, the late null and the rain reload leave
      sound 1 orphaned beside the new sound 2. */
  lemma LateStagesOrphanSoundOne(s: Session)
    requires Between(s, Silence, Silence, 2, Some(1), 2, multiset{AudioUnloading(Rain, false, 0)})
    ensures var t := RainReloads(AsWritten, LateNull(AsWritten, s));
            Between(t, Rain, Rain, 3, Some(2), 3, multiset{}) && t.log == s.log + [Create(2, false)]
  {
    LateNullDropsSound(AsWritten, s);
    RainReloadKeepsOrphan(LateNull(AsWritten, s));
  }

  /** From sound 0 loaded alone, the double tap ends with sounds 1 and 2
      both created and neither unloaded. */
  lemma DoubleTapFromRain(s: Session)
    requires Between(s, Rain, Rain, 1, Some(0), 1, multiset{}) && s.log == [Create(0, false)]
    ensures var t := RainReloads(AsWritten, LateNull(AsWritten, SilenceLoads(AsWritten, DoubleTap(AsWritten, s))));
            && Between(t, Rain, Rain, 3, Some(2), 3, multiset{})
            && t.log == [Create(0, false), Stop(0), Stop(0), Unload(0), Unload(0), Create(1, false), Create(2, false)]
  {
    var s1 := DoubleTap(AsWritten, s);
    DoubleTapUnloadsTwice(AsWritten, s);
    var s2 := SilenceLoads(AsWritten, s1);
    SilenceLoadsSoundOne(AsWritten, s1);
    LateStagesOrphanSoundOne(s2);
  }

  /** On the code as written the schedule ends with sounds 1 and 2 both
      created and neither unloaded: two looping sounds stay loaded, and
      sound 1 can no longer be reached through `soundRef`. */
  lemma DoubleTapLeavesTwoSounds()
    ensures Live(Trace(AsWritten), 1) && Live(Trace(AsWritten), 2)
  {
    OpeningLoadsRain(AsWritten);
    DoubleTapFromRain(Opening(AsWritten));
    DoubleTapLog(Trace(AsWritten).log);
  }

  /** The log of the double tap unloads sound 0 only; the teardown adds
      the unload of sound 2. */
  lemma DoubleTapLog(log: seq<Command>)
    requires log == [Create(0, false), Stop(0), Stop(0), Unload(0), Unload(0), Create(1, false), Create(2, false)]
    ensures Unload(1) !in log && Unload(2) !in log
    ensures Unload(1) !in log + [Stop(2), Unload(2)]
  {
  }

  /** The orphan outlives the screen: unmounting stops and unloads the
      sound in `soundRef`, and sound 1 stays loaded. */
  lemma OrphanOutlivesUnmount()
    ensures Trace(AsWritten).mounted
    ensures Live(Step(AsWritten, Trace(AsWritten), Unmount), 1)
  {
    OpeningLoadsRain(AsWritten);
    DoubleTapFromRain(Opening(AsWritten));
    UnmountAfterDoubleTap(Trace(AsWritten));
  }

  /** Unmounting after the double tap unloads sound 2, the one in the slot,
      and nothing else. */
  lemma UnmountAfterDoubleTap(t: Session)
    requires Between(t, Rain, Rain, 3, Some(2), 3, multiset{})
    requires t.log == [Create(0, false), Stop(0), Stop(0), Unload(0), Unload(0), Create(1, false), Create(2, false)]
    ensures Live(Step(AsWritten, t, Unmount), 1)
  {
    var u := OnUnmount(t);
    assert Step(AsWritten, t, Unmount) == u;
    assert u.log == t.log + [Stop(2), Unload(2)];
    DoubleTapLog(t.log);
  }

  // ----- the stale failure -----

  /** A quick switch from rain to silence before the rain track's URI is
      resolved: the silence track loads, then the superseded rain
      load learns its URI is unreachable. */
  function StaleSetup(v: Variant): Session
  {
    var s1 := Step(v, Start(), Commit);
    var s2 := Step(v, s1, PickAudio(Silence));
    Step(v, s2, Commit)
  }

  function StaleFailure(v: Variant): Session
  {
    var s4 := Step(v, StaleSetup(v), LoadResumed(2, Returned("silence.mp3")));
    var s5 := Step(v, s4, LoadResumed(2, Returned("sound")));
    Step(v, s5, LoadResumed(1, ReturnedNull))
  }

  /** Picking a track while the slot is empty selects it at once. */
  lemma PickWithEmptySlot(v: Variant, s: Session, next: Track, gen: nat)
    requires Loading(s, Rain, gen, AwaitResolve(false), 0, multiset{})
    ensures var r := Step(v, s, PickAudio(next));
            && Paused(r) && r.audio == next && r.audioFx == s.audioFx && r.loads == s.loads
            && r.slot.None? && r.created == 0 && r.log == s.log
  {
    StepPickAudio(v, s, next);
  }

  lemma StaleSetupHasTwoLoads(v: Variant)
    ensures var s := StaleSetup(v);
            && Paused(s) && s.audio == Silence && Mounted(s.audioFx, 2)
            && s.loads == map[1 := AwaitResolve(false), 2 := AwaitResolve(false)]
            && s.slot.None? && s.created == 0 && s.log == []
  {
    var s1 := Step(v, Start(), Commit);
    FirstCommitLoadsRain(v);
    PickWithEmptySlot(v, s1, Silence, 1);
    var s2 := Step(v, s1, PickAudio(Silence));
    StepCommit(v, s2);
  }

  lemma StaleSilenceLoads(v: Variant)
    ensures var s := Step(v, Step(v, StaleSetup(v), LoadResumed(2, Returned("silence.mp3"))),
                          LoadResumed(2, Returned("sound")));
            && s.audio == Silence && s.loads == map[1 := AwaitResolve(false)] && s.log == [Create(0, false)]
            && s.slot == Some(0) && s.created == 1 && !s.soundUnavailable && !Mounted(s.audioFx, 1)
  {
    var s3 := StaleSetup(v);
    StaleSetupHasTwoLoads(v);
    var s4 := Step(v, s3, LoadResumed(2, Returned("silence.mp3")));
    StepLoad(v, s3, 2, Returned("silence.mp3"));
    assert s4.loads == map[1 := AwaitResolve(false), 2 := AwaitCreate(false)];
    StepLoad(v, s4, 2, Returned("sound"));
  }

  /** On the code as written the silence track is loaded in the slot while
      the screen says the audio is unavailable; the guarded variant keeps
      the flag clear. */
  lemma StaleFailureFlagsLoadedTrack(v: Variant)
    ensures var s := StaleFailure(v);
            && s.audio == Silence && s.slot == Some(0) && Live(s, 0)
            && (s.soundUnavailable <==> v == AsWritten)
  {
    var s3 := StaleSetup(v);
    var s4 := Step(v, s3, LoadResumed(2, Returned("silence.mp3")));
    var s5 := Step(v, s4, LoadResumed(2, Returned("sound")));
    StaleSilenceLoads(v);
    StepLoad(v, s5, 1, ReturnedNull);
  }
}

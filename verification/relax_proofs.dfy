/** Properties of the relaxation session: what each continuation may write,
    the single-sound invariant and the interleavings under which it holds,
    and concrete schedules showing where the code as written departs from
    it. */
module RelaxProofs {
  import opened JsValues
  import opened Relax

  /** A sound that was created and on which no unload was issued. */
  ghost predicate Live(s: Session, h: Sound)
  {
    h < s.created && Unload(h) !in s.log
  }

  /** A continuation that will run `soundRef.current = null` when it
      resumes. */
  predicate DefersNull(t: Task)
  {
    t.CleanupUnloading? || t.AudioUnloading? || t.TeardownUnloading?
  }

  /** No deferred `soundRef.current = null` is pending. */
  ghost predicate NoDeferredNull(s: Session)
  {
    && (forall t :: t in s.tasks ==> !DefersNull(t))
    && (forall g :: g in s.loads ==> !s.loads[g].AwaitUnload?)
  }

  ghost predicate SlotLive(s: Session)
  {
    s.slot.Some? && Unload(s.slot.value) !in s.log
  }

  /** The mounted `loadSound` instance is still in flight. */
  ghost predicate CurrentLoad(s: Session)
  {
    s.audioFx.live && s.audioFx.gen in s.loads
  }

  ghost predicate LoadsNotAhead(s: Session)
  {
    forall g :: g in s.loads ==> g <= s.audioFx.gen
  }

  /** Every live sound is the one in the slot: at most one sound is live,
      and none is orphaned. */
  ghost predicate SingleSound(s: Session)
  {
    && (s.slot.Some? ==> s.slot.value < s.created)
    && (forall h: Sound :: Live(s, h) ==> s.slot == Some(h))
  }

  /** The mounted `loadSound` has either not yet cleared the slot, and the
      slot holds the sound it is unloading or nothing, or it has, and the
      slot is empty. */
  ghost predicate CurrentLoadSeesSlot(s: Session)
  {
    && (CurrentLoad(s) && !s.loads[s.audioFx.gen].AwaitUnload? ==> s.slot.None?)
    && (CurrentLoad(s) && s.loads[s.audioFx.gen].AwaitUnload? ==>
          s.slot.None? || s.slot == Some(s.loads[s.audioFx.gen].sound))
  }

  /** Each pending deferred null belongs to an unload already issued. */
  ghost predicate NullsFollowUnloads(s: Session)
  {
    && (forall t :: t in s.tasks && DefersNull(t) ==> Unload(t.sound) in s.log)
    && (forall g :: g in s.loads && s.loads[g].AwaitUnload? ==> Unload(s.loads[g].sound) in s.log)
  }

  /** Before the first flush nothing has happened to the audio. */
  ghost predicate QuietBeforeEffects(s: Session)
  {
    s.mounted && !s.audioFx.live ==> s.created == 0 && s.slot.None? && s.loads == map[]
  }

  /** The session invariant: `SingleSound` is the property of interest, the
      rest makes it inductive. Only the code as written needs the last
      conjunct: a live sound in the slot has no deferred null waiting to
      clear it. */
  ghost predicate Inv(v: Variant, s: Session)
  {
    && LoadsNotAhead(s)
    && SingleSound(s)
    && CurrentLoadSeesSlot(s)
    && NullsFollowUnloads(s)
    && QuietBeforeEffects(s)
    && (v == AsWritten && SlotLive(s) ==> NoDeferredNull(s))
  }

  /** The event installs a sound in the slot. */
  predicate Installs(s: Session, e: Event)
  {
    && e.LoadResumed? && e.reply.Returned?
    && e.gen in s.loads && s.loads[e.gen].AwaitCreate? && Mounted(s.audioFx, e.gen)
  }

  /** The ordering assumption for the code as written: a sound is installed
      only when every unload whose completion will clear the slot has
      already completed. */
  ghost predicate UnloadsFirst(s: Session, e: Event)
  {
    Installs(s, e) ==> NoDeferredNull(s)
  }

  ghost predicate Scheduled(v: Variant, s: Session, events: seq<Event>)
    decreases |events|
  {
    |events| > 0 ==> UnloadsFirst(s, events[0]) && Scheduled(v, Step(v, s, events[0]), events[1..])
  }

  // ----- one event at a time -----

  lemma StepCommit(v: Variant, s: Session)
    ensures Step(v, s, Commit) == OnCommit(s)
  {
  }

  lemma StepPickVideo(v: Variant, s: Session, next: Track)
    requires s.mounted
    ensures Step(v, s, PickVideo(next)) == OnPickVideo(s, next)
  {
  }

  lemma StepPickAudio(v: Variant, s: Session, next: Track)
    requires s.mounted
    ensures Step(v, s, PickAudio(next)) == OnPickAudio(s, next)
  {
  }

  lemma StepPress(v: Variant, s: Session)
    requires s.mounted
    ensures Step(v, s, PressPlayPause) == OnPressPlayPause(s)
  {
  }

  lemma StepVideoResolved(v: Variant, s: Session, g: nat, reply: Reply)
    ensures Step(v, s, VideoResolved(g, reply)) == OnVideoResolved(s, g, reply)
  {
  }

  lemma StepTask(v: Variant, s: Session, t: Task, reply: Reply)
    ensures Step(v, s, TaskResumed(t, reply)) == OnTaskResumed(v, s, t, reply)
  {
  }

  lemma StepLoad(v: Variant, s: Session, g: nat, reply: Reply)
    ensures g !in s.loads ==> Step(v, s, LoadResumed(g, reply)) == s
    ensures g in s.loads && s.loads[g].AwaitUnload? ==>
              Step(v, s, LoadResumed(g, reply))
              == ResumeUnload(v, s, g, s.loads[g].autoplay, s.loads[g].sound)
    ensures g in s.loads && s.loads[g].AwaitResolve? ==>
              Step(v, s, LoadResumed(g, reply)) == ResumeResolve(v, s, g, s.loads[g].autoplay, reply)
    ensures g in s.loads && s.loads[g].AwaitCreate? ==>
              Step(v, s, LoadResumed(g, reply)) == ResumeCreate(s, g, s.loads[g].autoplay, reply)
  {
  }

  /** Renders and user actions do nothing once the screen is gone. */
  lemma StepUnmounted(v: Variant, s: Session, e: Event)
    requires !s.mounted && !e.VideoResolved? && !e.LoadResumed? && !e.TaskResumed?
    ensures Step(v, s, e) == s
  {
  }

  // ----- the initial session -----

  /** The freshly mounted screen is in the invariant. */
  lemma InitialSession(v: Variant, categories: seq<Category>, tracks: seq<Track>)
    requires |categories| > 0 && |categories[0].videos| > 0 && |tracks| > 0
    ensures Inv(v, Init(categories, tracks))
  {
  }

  // ----- superseded continuations -----

  /** A video resolution for an instance whose cleanup already ran leaves
      the URI, the unavailable flag and `isLoading` alone. */
  lemma StaleVideoResolveIsInert(v: Variant, s: Session, g: nat, reply: Reply)
    requires !Mounted(s.videoFx, g)
    ensures var r := Step(v, s, VideoResolved(g, reply));
            r.videoUri == s.videoUri && r.videoUnavailable == s.videoUnavailable
            && r.isLoading == s.isLoading && r.video == s.video
  {
    StepVideoResolved(v, s, g, reply);
  }

  /** A superseded `loadSound` never installs a sound and never touches
      `isLoading`; a sound it creates is unloaded at once. */
  lemma StaleLoadNeverInstalls(v: Variant, s: Session, g: nat, reply: Reply)
    requires !Mounted(s.audioFx, g)
    ensures var r := Step(v, s, LoadResumed(g, reply));
            && (r.slot.None? || r.slot == s.slot)
            && r.isLoading == s.isLoading
            && (r.created > s.created ==> Unload(s.created) in r.log)
  {
    StepLoad(v, s, g, reply);
  }

  /** In the guarded variant a superseded `loadSound` leaves
      `soundUnavailable` alone. */
  lemma GuardedStaleLoadKeepsFlag(s: Session, g: nat, reply: Reply)
    requires !Mounted(s.audioFx, g)
    ensures Step(Guarded, s, LoadResumed(g, reply)).soundUnavailable == s.soundUnavailable
  {
    StepLoad(Guarded, s, g, reply);
  }

  // ----- the invariant, event by event -----

  /** `r` differs from `s` only in ways the single-sound invariant can
      absorb: the slot is kept or cleared while it holds no live sound, no
      sound is created, no effect instance starts, unloads are only added,
      and a new deferred null comes only with the unload it follows, while
      the slot holds no live sound. */
  ghost predicate Quiet(s: Session, r: Session)
  {
    && (r.slot == s.slot || (r.slot.None? && !SlotLive(s)))
    && r.created == s.created && r.loads == s.loads
    && r.audioFx.gen == s.audioFx.gen && (r.audioFx.live ==> s.audioFx.live)
    && (r.mounted ==> s.mounted && r.audioFx.live == s.audioFx.live)
    && (forall h: Sound :: Unload(h) in s.log ==> Unload(h) in r.log)
    && (forall t :: t in r.tasks && DefersNull(t) ==>
          t in s.tasks || (!SlotLive(r) && Unload(t.sound) in r.log))
  }

  lemma QuietKeepsInv(v: Variant, s: Session, r: Session)
    requires Inv(v, s) && Quiet(s, r)
    ensures Inv(v, r)
  {
    assert SingleSound(r) by {
      forall h: Sound | Live(r, h) ensures r.slot == Some(h) {
        assert Live(s, h);
      }
    }
    assert NullsFollowUnloads(r);
    if v == AsWritten && SlotLive(r) {
      assert SlotLive(s);
    }
  }


  /** A pending deferred null finds the slot without a live sound. */
  lemma DeferredNullFindsNoLiveSound(v: Variant, s: Session, t: Task)
    requires Inv(v, s) && t in s.tasks && DefersNull(t)
    ensures v == AsWritten ==> !SlotLive(s)
    ensures Unload(t.sound) in s.log
  {
  }

  lemma ClearingTaskIsQuiet(v: Variant, s: Session, t: Task, reply: Reply)
    requires Inv(v, s) && t in s.tasks && DefersNull(t)
    ensures Quiet(s, OnTaskResumed(v, s, t, reply))
  {
    DeferredNullFindsNoLiveSound(v, s, t);
  }

  lemma StoppingTaskIsQuiet(v: Variant, s: Session, t: Task, reply: Reply)
    requires Inv(v, s) && t in s.tasks && (t.AudioStopping? || t.TeardownStopping?)
    ensures Quiet(s, OnTaskResumed(v, s, t, reply))
  {
  }

  lemma OtherTaskIsQuiet(v: Variant, s: Session, t: Task, reply: Reply)
    requires Inv(v, s) && t in s.tasks
    requires t.VideoStopping? || t.VideoUnloading? || t.PlayPausing?
    ensures Quiet(s, OnTaskResumed(v, s, t, reply))
  {
  }

  lemma TaskKeepsInv(v: Variant, s: Session, t: Task, reply: Reply)
    requires Inv(v, s)
    ensures Inv(v, OnTaskResumed(v, s, t, reply))
  {
    if t in s.tasks {
      if DefersNull(t) {
        ClearingTaskIsQuiet(v, s, t, reply);
      } else if t.AudioStopping? || t.TeardownStopping? {
        StoppingTaskIsQuiet(v, s, t, reply);
      } else {
        OtherTaskIsQuiet(v, s, t, reply);
      }
      QuietKeepsInv(v, s, OnTaskResumed(v, s, t, reply));
    }
  }

  lemma PickVideoIsQuiet(s: Session, next: Track)
    ensures Quiet(s, OnPickVideo(s, next))
  {
  }

  lemma PickAudioIsQuiet(s: Session, next: Track)
    ensures Quiet(s, OnPickAudio(s, next))
  {
  }

  lemma PressIsQuiet(s: Session)
    ensures Quiet(s, OnPressPlayPause(s))
  {
  }

  lemma UserActionIsQuiet(v: Variant, s: Session, e: Event)
    requires e.PressPlayPause? || e.PickVideo? || e.PickAudio? || e.PickCategory?
    ensures Quiet(s, Step(v, s, e))
  {
    if s.mounted {
      match e
      case PressPlayPause => PressIsQuiet(s);
      case PickVideo(next) => PickVideoIsQuiet(s, next);
      case PickAudio(next) => PickAudioIsQuiet(s, next);
      case PickCategory(c) =>
        if |c.videos| > 0 {
          PickVideoIsQuiet(s.(category := c), c.videos[0]);
        }
    }
  }

  lemma UnmountIsQuiet(v: Variant, s: Session)
    requires Inv(v, s)
    ensures Quiet(s, Step(v, s, Unmount))
  {
  }

  lemma VideoResolvedIsQuiet(s: Session, g: nat, reply: Reply)
    ensures Quiet(s, OnVideoResolved(s, g, reply))
  {
  }

  /** Everything except a render and a resumed `loadSound` is quiet. */
  lemma OtherEventKeepsInv(v: Variant, s: Session, e: Event)
    requires Inv(v, s) && !e.Commit? && !e.LoadResumed?
    ensures Inv(v, Step(v, s, e))
  {
    match e
    case TaskResumed(t, reply) => TaskKeepsInv(v, s, t, reply);
    case VideoResolved(g, reply) =>
      VideoResolvedIsQuiet(s, g, reply);
      QuietKeepsInv(v, s, Step(v, s, e));
    case Unmount =>
      UnmountIsQuiet(v, s);
      QuietKeepsInv(v, s, Step(v, s, e));
    case _ =>
      UserActionIsQuiet(v, s, e);
      QuietKeepsInv(v, s, Step(v, s, e));
  }

  /** Between the cleanup and the setup of the `loadSound` effect: no
      instance is mounted, and the invariant holds otherwise. */
  ghost predicate ReadyToLoad(v: Variant, s: Session)
  {
    && s.mounted && !s.audioFx.live
    && LoadsNotAhead(s) && SingleSound(s) && NullsFollowUnloads(s)
    && (v == AsWritten && SlotLive(s) ==> NoDeferredNull(s))
  }

  lemma CleanupLoadMakesReady(v: Variant, s: Session)
    requires Inv(v, s) && s.mounted && s.audioFx.live
    ensures ReadyToLoad(v, CleanupLoad(s))
  {
    var r := CleanupLoad(s);
    assert SingleSound(r) by {
      forall h: Sound | Live(r, h) ensures r.slot == Some(h) {
        assert Live(s, h);
      }
    }
  }

  lemma StartResolveKeepsReady(v: Variant, s: Session)
    requires ReadyToLoad(v, s)
    ensures ReadyToLoad(v, StartResolve(s))
  {
  }

  lemma StartLoadKeepsInv(v: Variant, s: Session)
    requires ReadyToLoad(v, s)
    ensures Inv(v, StartLoad(s))
  {
    var r := StartLoad(s);
    assert SingleSound(r) by {
      forall h: Sound | Live(r, h) ensures r.slot == Some(h) {
        assert Live(s, h);
      }
    }
  }

  lemma StartResolveIsQuiet(s: Session)
    ensures Quiet(s, StartResolve(s))
  {
  }

  lemma SyncPlayIsQuiet(s: Session)
    ensures Quiet(s, SyncPlay(s))
  {
  }

  lemma CommitKeepsInv(v: Variant, s: Session)
    requires Inv(v, s)
    ensures Inv(v, OnCommit(s))
  {
    if s.mounted {
      var s1 := CleanupPhase(s);
      var s2 := VideoSetup(s1);
      var s3 := AudioSetup(s2);
      if s.audioFx.deps != Some(s.audio) {
        if s.audioFx.live {
          CleanupLoadMakesReady(v, s);
        }
        assert ReadyToLoad(v, s1);
        if s1.videoFx.deps != Some(s1.video) {
          StartResolveKeepsReady(v, s1);
        }
        StartLoadKeepsInv(v, s2);
      } else if s1.videoFx.deps != Some(s1.video) {
        StartResolveIsQuiet(s1);
        QuietKeepsInv(v, s1, s2);
      }
      assert Inv(v, s3);
      if s3.playFx != Some(s3.isPlaying) {
        SyncPlayIsQuiet(s3);
        QuietKeepsInv(v, s3, SyncPlay(s3));
      }
    }
  }

  lemma ResumeUnloadKeepsInv(v: Variant, s: Session, g: nat, reply: Reply)
    requires Inv(v, s) && g in s.loads && s.loads[g].AwaitUnload?
    ensures Inv(v, OnLoadResumed(v, s, g, reply))
  {
    var r := OnLoadResumed(v, s, g, reply);
    var h := s.loads[g].sound;
    assert !SlotLive(s) ==> SingleSound(r);
    assert v == AsWritten ==> !SlotLive(s);
    assert CurrentLoadSeesSlot(r);
  }

  lemma ResumeResolveKeepsInv(v: Variant, s: Session, g: nat, reply: Reply)
    requires Inv(v, s) && g in s.loads && s.loads[g].AwaitResolve?
    ensures Inv(v, OnLoadResumed(v, s, g, reply))
  {
    var r := OnLoadResumed(v, s, g, reply);
    assert r == ResumeResolve(v, s, g, s.loads[g].autoplay, reply);
    ResumeResolveKeepsSlotDiscipline(v, s, g, reply);
    assert r.log == s.log && r.created == s.created && r.slot == s.slot && r.tasks == s.tasks;
    assert SingleSound(r) by {
      forall h: Sound | Live(r, h) ensures r.slot == Some(h) {
        assert Live(s, h);
      }
    }
    assert forall k :: k in r.loads ==> k in s.loads;
  }

  /** The mounted instance installs a fresh sound into an empty slot. */
  lemma InstallKeepsInv(v: Variant, s: Session, g: nat, reply: Reply)
    requires Inv(v, s) && g in s.loads && s.loads[g].AwaitCreate?
    requires reply.Returned? && Mounted(s.audioFx, g)
    requires v == AsWritten ==> NoDeferredNull(s)
    ensures Inv(v, OnLoadResumed(v, s, g, reply))
  {
    var r := OnLoadResumed(v, s, g, reply);
    assert s.slot.None?;
    assert r.slot == Some(s.created) && r.log == s.log + [Create(s.created, s.loads[g].autoplay)];
    assert SingleSound(r) by {
      forall h: Sound | Live(r, h) ensures r.slot == Some(h) {
        assert h == s.created || Live(s, h);
      }
    }
    assert NullsFollowUnloads(r);
  }

  /** A superseded instance creates a sound and unloads it at once. */
  lemma DiscardKeepsInv(v: Variant, s: Session, g: nat, reply: Reply)
    requires Inv(v, s) && g in s.loads && s.loads[g].AwaitCreate?
    requires reply.Returned? && !Mounted(s.audioFx, g)
    ensures Inv(v, OnLoadResumed(v, s, g, reply))
  {
    var r := OnLoadResumed(v, s, g, reply);
    assert r.log == s.log + [Create(s.created, s.loads[g].autoplay), Unload(s.created)];
    assert SingleSound(r) by {
      forall h: Sound | Live(r, h) ensures r.slot == Some(h) {
        assert Live(s, h);
      }
    }
    assert NullsFollowUnloads(r);
  }

  lemma ResumeCreateKeepsInv(v: Variant, s: Session, g: nat, reply: Reply)
    requires Inv(v, s) && g in s.loads && s.loads[g].AwaitCreate?
    requires v == AsWritten ==> UnloadsFirst(s, LoadResumed(g, reply))
    ensures Inv(v, OnLoadResumed(v, s, g, reply))
  {
    if !reply.Returned? {
    } else if Mounted(s.audioFx, g) {
      InstallKeepsInv(v, s, g, reply);
    } else {
      DiscardKeepsInv(v, s, g, reply);
    }
  }

  lemma LoadKeepsInv(v: Variant, s: Session, g: nat, reply: Reply)
    requires Inv(v, s)
    requires v == AsWritten ==> UnloadsFirst(s, LoadResumed(g, reply))
    ensures Inv(v, OnLoadResumed(v, s, g, reply))
  {
    if g in s.loads {
      match s.loads[g]
      case AwaitUnload(_, _) => ResumeUnloadKeepsInv(v, s, g, reply);
      case AwaitResolve(_) => ResumeResolveKeepsInv(v, s, g, reply);
      case AwaitCreate(_) => ResumeCreateKeepsInv(v, s, g, reply);
    }
  }

  // ----- runs -----

  /** Every event keeps the invariant; for the code as written, an install
      must also come after the unloads whose completion clears the slot. */
  lemma StepKeepsInv(v: Variant, s: Session, e: Event)
    requires Inv(v, s)
    requires v == AsWritten ==> UnloadsFirst(s, e)
    ensures Inv(v, Step(v, s, e))
  {
    match e
    case Commit => CommitKeepsInv(v, s);
    case LoadResumed(g, reply) => LoadKeepsInv(v, s, g, reply);
    case _ => OtherEventKeepsInv(v, s, e);
  }

  lemma {:induction false} RunKeepsInv(v: Variant, s: Session, events: seq<Event>)
    requires Inv(v, s)
    requires v == Guarded || Scheduled(v, s, events)
    ensures Inv(v, Run(v, s, events))
    decreases |events|
  {
    if |events| > 0 {
      StepKeepsInv(v, s, events[0]);
      RunKeepsInv(v, Step(v, s, events[0]), events[1..]);
    }
  }

  /** The guarded screen never has two sounds alive at once, and never loses
      track of one: every sound ever created is the one in `soundRef` or
      has been unloaded. This holds for every interleaving of renders, user
      actions and completions, and for every outcome of every awaited
      call. */
  lemma GuardedAtMostOneLiveSound(categories: seq<Category>, tracks: seq<Track>, events: seq<Event>)
    requires |categories| > 0 && |categories[0].videos| > 0 && |tracks| > 0
    ensures var s := Run(Guarded, Init(categories, tracks), events);
            && (forall h1: Sound, h2: Sound :: Live(s, h1) && Live(s, h2) ==> h1 == h2)
            && (forall h: Sound :: h < s.created ==> s.slot == Some(h) || Unload(h) in s.log)
  {
    RunKeepsInv(Guarded, Init(categories, tracks), events);
  }

  /** The code as written keeps the same guarantee on every schedule in
      which a new sound is installed only after every pending
      `soundRef.current = null` has run. */
  lemma ScheduledAtMostOneLiveSound(v: Variant, categories: seq<Category>, tracks: seq<Track>, events: seq<Event>)
    requires |categories| > 0 && |categories[0].videos| > 0 && |tracks| > 0
    requires Scheduled(v, Init(categories, tracks), events)
    ensures var s := Run(v, Init(categories, tracks), events);
            && (forall h1: Sound, h2: Sound :: Live(s, h1) && Live(s, h2) ==> h1 == h2)
            && (forall h: Sound :: h < s.created ==> s.slot == Some(h) || Unload(h) in s.log)
  {
    RunKeepsInv(v, Init(categories, tracks), events);
  }

  // ----- the slot discipline, on every schedule -----

  /** What holds on every run of either variant, whatever the order in
      which awaited calls complete: no `loadSound` instance is newer than
      the effect, the mounted instance finds the slot as it left it, and
      every pending deferred null follows the unload it belongs to. */
  ghost predicate SlotDiscipline(s: Session)
  {
    LoadsNotAhead(s) && CurrentLoadSeesSlot(s) && NullsFollowUnloads(s)
  }

  /** A log that grows at the end keeps every unload it had. */
  lemma ExtendedLogKeepsUnloads(log: seq<Command>, longer: seq<Command>, h: Sound)
    requires |log| <= |longer| && longer[..|log|] == log && Unload(h) in log
    ensures Unload(h) in longer
  {
    var k :| 0 <= k < |log| && log[k] == Unload(h);
    assert longer[k] == log[k];
  }

  /** A continuation that only extends the log, keeps the loads and the
      `loadSound` effect, keeps or empties the slot, and adds deferred
      nulls only after their unloads keeps the discipline. */
  lemma GrowthKeepsSlotDiscipline(s: Session, r: Session)
    requires SlotDiscipline(s)
    requires |s.log| <= |r.log| && r.log[..|s.log|] == s.log
    requires r.loads == s.loads && r.audioFx == s.audioFx
    requires r.slot.None? || r.slot == s.slot
    requires forall t :: t in r.tasks && DefersNull(t) ==> t in s.tasks || Unload(t.sound) in r.log
    ensures SlotDiscipline(r)
  {
    forall t | t in r.tasks && DefersNull(t) ensures Unload(t.sound) in r.log {
      if t in s.tasks && Unload(t.sound) !in r.log {
        ExtendedLogKeepsUnloads(s.log, r.log, t.sound);
      }
    }
    forall g | g in r.loads && r.loads[g].AwaitUnload? ensures Unload(r.loads[g].sound) in r.log {
      ExtendedLogKeepsUnloads(s.log, r.log, s.loads[g].sound);
    }
  }

  /** A resumed video or play/pause handler schedules no deferred null. */
  lemma ScreenTaskDefersNoNull(v: Variant, s: Session, t: Task, reply: Reply)
    requires t in s.tasks && (t.VideoStopping? || t.VideoUnloading? || t.PlayPausing?)
    ensures forall u :: u in OnTaskResumed(v, s, t, reply).tasks && DefersNull(u) ==> u in s.tasks
  {
    var s0 := s.(tasks := s.tasks - multiset{t});
    var r := OnTaskResumed(v, s, t, reply);
    assert r == ResumeScreenTask(s, s0, t);
    match t
    case VideoStopping(next, wasPlaying) =>
      assert r.tasks == s0.tasks || r.tasks == s0.tasks + multiset{VideoUnloading(next, wasPlaying)};
    case _ =>
      assert r.tasks == s0.tasks;
  }

  /** A resumed stop in the audio handler or the teardown schedules a
      deferred null only together with the unload it follows. */
  lemma StoppingTaskNullsFollowUnloads(v: Variant, s: Session, t: Task, reply: Reply)
    requires t in s.tasks && (t.AudioStopping? || t.TeardownStopping?)
    ensures var r := OnTaskResumed(v, s, t, reply);
            forall u :: u in r.tasks && DefersNull(u) ==> u in s.tasks || Unload(u.sound) in r.log
  {
    var s0 := s.(tasks := s.tasks - multiset{t});
    var r := OnTaskResumed(v, s, t, reply);
    assert r == ResumeSoundTask(v, s, s0, t, reply);
    if s.slot.Some? {
      var h := s.slot.value;
      assert r.log == s.log + [Unload(h)] && r.log[|s.log|] == Unload(h);
      assert r.tasks == s0.tasks + multiset{if t.AudioStopping? then AudioUnloading(t.next, t.wasPlaying, h) else TeardownUnloading(h)};
    } else {
      assert r.tasks == s0.tasks;
    }
  }

  /** A resumed unload in the audio handler, a `loadSound` cleanup or the
      teardown schedules nothing new. */
  lemma UnloadingTaskDefersNoNull(v: Variant, s: Session, t: Task, reply: Reply)
    requires t in s.tasks && (t.CleanupUnloading? || t.AudioUnloading? || t.TeardownUnloading?)
    ensures OnTaskResumed(v, s, t, reply).tasks == s.tasks - multiset{t}
  {
    var s0 := s.(tasks := s.tasks - multiset{t});
    assert OnTaskResumed(v, s, t, reply) == ResumeSoundTask(v, s, s0, t, reply);
  }

  lemma TaskKeepsSlotDiscipline(v: Variant, s: Session, t: Task, reply: Reply)
    requires SlotDiscipline(s)
    ensures SlotDiscipline(OnTaskResumed(v, s, t, reply))
  {
    var r := OnTaskResumed(v, s, t, reply);
    if t in s.tasks {
      if t.VideoStopping? || t.VideoUnloading? || t.PlayPausing? {
        ScreenTaskDefersNoNull(v, s, t, reply);
      } else if t.AudioStopping? || t.TeardownStopping? {
        StoppingTaskNullsFollowUnloads(v, s, t, reply);
      } else {
        UnloadingTaskDefersNoNull(v, s, t, reply);
      }
      GrowthKeepsSlotDiscipline(s, r);
    }
  }

  lemma ResumeUnloadKeepsSlotDiscipline(v: Variant, s: Session, g: nat, reply: Reply)
    requires SlotDiscipline(s) && g in s.loads && s.loads[g].AwaitUnload?
    ensures SlotDiscipline(OnLoadResumed(v, s, g, reply))
  {
    var r := OnLoadResumed(v, s, g, reply);
    assert r.slot.None? || r.slot == s.slot;
    assert r.loads.Keys == s.loads.Keys && r.loads[g].AwaitResolve?;
    assert forall k :: k in r.loads && k != g ==> r.loads[k] == s.loads[k];
  }

  lemma ResumeResolveKeepsSlotDiscipline(v: Variant, s: Session, g: nat, reply: Reply)
    requires SlotDiscipline(s) && g in s.loads && s.loads[g].AwaitResolve?
    ensures SlotDiscipline(OnLoadResumed(v, s, g, reply))
  {
    var r := OnLoadResumed(v, s, g, reply);
    assert r == ResumeResolve(v, s, g, s.loads[g].autoplay, reply);
    if reply.Returned? && Truthy(reply.value) {
      assert r.loads == s.loads[g := AwaitCreate(s.loads[g].autoplay)];
      assert forall k :: k in r.loads && k != g ==> k in s.loads && r.loads[k] == s.loads[k];
    } else {
      assert r.loads == s.loads - {g};
    }
  }

  lemma ResumeCreateKeepsSlotDiscipline(v: Variant, s: Session, g: nat, reply: Reply)
    requires SlotDiscipline(s) && g in s.loads && s.loads[g].AwaitCreate?
    ensures SlotDiscipline(OnLoadResumed(v, s, g, reply))
  {
    var r := OnLoadResumed(v, s, g, reply);
    assert r == ResumeCreate(s, g, s.loads[g].autoplay, reply);
    assert r.loads == s.loads - {g} && r.audioFx == s.audioFx && r.tasks == s.tasks;
    assert CurrentLoad(r) ==> r.slot == s.slot;
    assert forall h: Sound :: Unload(h) in s.log ==> Unload(h) in r.log;
  }

  lemma LoadKeepsSlotDiscipline(v: Variant, s: Session, g: nat, reply: Reply)
    requires SlotDiscipline(s)
    ensures SlotDiscipline(OnLoadResumed(v, s, g, reply))
  {
    if g in s.loads {
      match s.loads[g]
      case AwaitUnload(_, _) => ResumeUnloadKeepsSlotDiscipline(v, s, g, reply);
      case AwaitResolve(_) => ResumeResolveKeepsSlotDiscipline(v, s, g, reply);
      case AwaitCreate(_) => ResumeCreateKeepsSlotDiscipline(v, s, g, reply);
    }
  }

  lemma CommitKeepsSlotDiscipline(s: Session)
    requires SlotDiscipline(s)
    ensures SlotDiscipline(OnCommit(s))
  {
    if s.mounted {
      var s1 := CleanupPhase(s);
      var s2 := VideoSetup(s1);
      var s3 := AudioSetup(s2);
      assert SlotDiscipline(s1);
      assert SlotDiscipline(s2);
      assert SlotDiscipline(s3);
    }
  }

  /** Renders aside, what the user does only extends the log and adds
      continuations that defer no null. */
  lemma UserActionKeepsSlotDiscipline(v: Variant, s: Session, e: Event)
    requires SlotDiscipline(s)
    requires e.PressPlayPause? || e.PickVideo? || e.PickAudio? || e.PickCategory?
    ensures SlotDiscipline(Step(v, s, e))
  {
    UserActionIsQuiet(v, s, e);
  }

  lemma UnmountKeepsSlotDiscipline(v: Variant, s: Session)
    requires SlotDiscipline(s)
    ensures SlotDiscipline(Step(v, s, Unmount))
  {
  }

  lemma VideoResolvedKeepsSlotDiscipline(v: Variant, s: Session, g: nat, reply: Reply)
    requires SlotDiscipline(s)
    ensures SlotDiscipline(Step(v, s, VideoResolved(g, reply)))
  {
    StepVideoResolved(v, s, g, reply);
    var r := OnVideoResolved(s, g, reply);
    assert r.log == s.log && r.slot == s.slot && r.tasks == s.tasks;
    assert r.loads == s.loads && r.audioFx == s.audioFx;
  }

  lemma StepKeepsSlotDiscipline(v: Variant, s: Session, e: Event)
    requires SlotDiscipline(s)
    ensures SlotDiscipline(Step(v, s, e))
  {
    match e
    case Commit => CommitKeepsSlotDiscipline(s);
    case LoadResumed(g, reply) => LoadKeepsSlotDiscipline(v, s, g, reply);
    case TaskResumed(t, reply) => TaskKeepsSlotDiscipline(v, s, t, reply);
    case Unmount => UnmountKeepsSlotDiscipline(v, s);
    case VideoResolved(g, reply) => VideoResolvedKeepsSlotDiscipline(v, s, g, reply);
    case _ => UserActionKeepsSlotDiscipline(v, s, e);
  }

  /** Both variants keep the slot discipline on every schedule, with no
      ordering of completions assumed. */
  lemma {:induction false} EveryRunKeepsSlotDiscipline(v: Variant, s: Session, events: seq<Event>)
    requires SlotDiscipline(s)
    ensures SlotDiscipline(Run(v, s, events))
    decreases |events|
  {
    if |events| > 0 {
      StepKeepsSlotDiscipline(v, s, events[0]);
      EveryRunKeepsSlotDiscipline(v, Step(v, s, events[0]), events[1..]);
    }
  }

  /** Every state the screen reaches, on either variant, keeps the slot
      discipline. */
  lemma ReachableSlotDiscipline(v: Variant, categories: seq<Category>, tracks: seq<Track>, events: seq<Event>)
    requires |categories| > 0 && |categories[0].videos| > 0 && |tracks| > 0
    ensures SlotDiscipline(Run(v, Init(categories, tracks), events))
  {
    EveryRunKeepsSlotDiscipline(v, Init(categories, tracks), events);
  }
}

/**
 * How `run` stops early. A checkpoint that sees the cancel flag ends the
 * run cancelled at once, and a foreign call that raises ends it failed
 * with the exception's text; nothing else does either.
 */
module JobControl {
  import opened Wrappers
  import opened Paths
  import opened Catalog
  import opened Job
  import opened JobProperties
  import opened JobScenarios

  /** The next read of the cancel flag in world `w` sees it set. */
  predicate SeesFlag(obs: seq<bool>, w: World) {
    w.cancelled || (w.flagReads < |obs| && obs[w.flagReads])
  }

  /** The phases whose step reads the cancel flag after its banner. */
  predicate IsCheckpoint(p: Phase) {
    p.Extracting? || p.Loading? || p.Transcribing? || p.Translating? || p.Saving?
  }

  /** What a phase does outside itself before its flag read: only the loading phase sets the thread count. */
  function BeforeCheckpoint(cfg: JobConfig, p: Phase): seq<Action> {
    if p.Loading? then ThreadActions(cfg) else []
  }

  /** The world after a checkpoint that saw the flag, and after the cancellation error. */
  function Stopped(cfg: JobConfig, s: JobState): World {
    s.world.(events := s.world.events + Banner(cfg, s.phase) + [Error(UserCancel)],
             actions := s.world.actions + BeforeCheckpoint(cfg, s.phase) + [CheckCancel(true)],
             flagReads := s.world.flagReads + 1,
             cancelled := true)
  }

  /**
   * A checkpoint that sees the flag ends the step cancelled: after the
   * banner and the read nothing is called, written or removed, and the one
   * signal added is the cancellation error.
   */
  lemma CheckpointStops(cfg: JobConfig, env: Backend, obs: seq<bool>, s: JobState)
    requires IsCheckpoint(s.phase) && SeesFlag(obs, s.world)
    ensures Step(cfg, env, obs, s) == JobState(Cancelled, Stopped(cfg, s), s.model)
  {
    match s.phase
    case Extracting =>
      assert Step(cfg, env, obs, s) == ExtractStep(cfg, env, obs, s);
      ExtractStops(cfg, env, obs, s);
    case Loading =>
      assert Step(cfg, env, obs, s) == LoadStep(cfg, env, obs, s);
      LoadStops(cfg, env, obs, s);
    case Transcribing(_) =>
      assert Step(cfg, env, obs, s) == TranscribeStep(cfg, env, obs, s);
      TranscribeStops(cfg, env, obs, s);
    case Translating(_, _) =>
      assert Step(cfg, env, obs, s) == TranslateStep(cfg, env, obs, s);
      TranslateStops(cfg, env, obs, s);
    case Saving(_, _) =>
      assert Step(cfg, env, obs, s) == SaveStep(cfg, env, obs, s);
      SaveStops(cfg, env, obs, s);
  }

  lemma ExtractStops(cfg: JobConfig, env: Backend, obs: seq<bool>, s: JobState)
    requires s.phase.Extracting? && SeesFlag(obs, s.world)
    ensures ExtractStep(cfg, env, obs, s) == JobState(Cancelled, Stopped(cfg, s), s.model)
  {
  }

  lemma LoadStops(cfg: JobConfig, env: Backend, obs: seq<bool>, s: JobState)
    requires s.phase.Loading? && SeesFlag(obs, s.world)
    ensures LoadStep(cfg, env, obs, s) == JobState(Cancelled, Stopped(cfg, s), s.model)
  {
    var w := Poll(obs, UseCores(cfg, s.world).Emit(Status(LoadingModel(cfg.modelCaption))).Emit(Progress(30)));
    assert w.events + [Error(UserCancel)] == Stopped(cfg, s).events;
  }

  lemma TranscribeStops(cfg: JobConfig, env: Backend, obs: seq<bool>, s: JobState)
    requires s.phase.Transcribing? && SeesFlag(obs, s.world)
    ensures TranscribeStep(cfg, env, obs, s) == JobState(Cancelled, Stopped(cfg, s), s.model)
  {
  }

  lemma TranslateStops(cfg: JobConfig, env: Backend, obs: seq<bool>, s: JobState)
    requires s.phase.Translating? && SeesFlag(obs, s.world)
    ensures TranslateStep(cfg, env, obs, s) == JobState(Cancelled, Stopped(cfg, s), s.model)
  {
  }

  lemma SaveStops(cfg: JobConfig, env: Backend, obs: seq<bool>, s: JobState)
    requires s.phase.Saving? && SeesFlag(obs, s.world)
    ensures SaveStep(cfg, env, obs, s) == JobState(Cancelled, Stopped(cfg, s), s.model)
  {
  }

  /** A checkpoint that does not see the flag lets the step go on or fail, but not end cancelled. */
  lemma CheckpointPasses(cfg: JobConfig, env: Backend, obs: seq<bool>, s: JobState)
    requires !s.phase.IsTerminal() && !(IsCheckpoint(s.phase) && SeesFlag(obs, s.world))
    ensures !Step(cfg, env, obs, s).phase.Cancelled?
  {
    match s.phase
    case Init =>
      assert Step(cfg, env, obs, s) == InitStep(cfg, env, s);
    case Extracting =>
      assert Step(cfg, env, obs, s) == ExtractStep(cfg, env, obs, s);
    case Loading =>
      assert Step(cfg, env, obs, s) == LoadStep(cfg, env, obs, s);
    case Transcribing(_) =>
      assert Step(cfg, env, obs, s) == TranscribeStep(cfg, env, obs, s);
    case Translating(_, _) =>
      assert Step(cfg, env, obs, s) == TranslateStep(cfg, env, obs, s);
    case Saving(_, _) =>
      assert Step(cfg, env, obs, s) == SaveStep(cfg, env, obs, s);
    case CleaningUp =>
      assert Step(cfg, env, obs, s) == CleanStep(cfg, env, s);
  }

  /** A step ends the run cancelled exactly when it is a checkpoint that sees the flag. */
  lemma CancelledExactlyAtCheckpoints(cfg: JobConfig, env: Backend, obs: seq<bool>, s: JobState)
    requires !s.phase.IsTerminal()
    ensures Step(cfg, env, obs, s).phase.Cancelled? <==> IsCheckpoint(s.phase) && SeesFlag(obs, s.world)
  {
    if IsCheckpoint(s.phase) && SeesFlag(obs, s.world) {
      CheckpointStops(cfg, env, obs, s);
    } else {
      CheckpointPasses(cfg, env, obs, s);
    }
  }

  /** A step that ends the run is where the run stops. */
  lemma EndingStepEndsRun(cfg: JobConfig, env: Backend, obs: seq<bool>, s: JobState)
    requires !s.phase.IsTerminal() && Step(cfg, env, obs, s).phase.IsTerminal()
    ensures Run(cfg, env, obs, s) == Step(cfg, env, obs, s)
  {
    RunUnfold(cfg, env, obs, s);
    RunDone(cfg, env, obs, Step(cfg, env, obs, s));
  }

  /**
   * The whole run from a checkpoint that sees the flag: it ends cancelled
   * right there, its last signal is the cancellation error, and no finished
   * signal follows.
   */
  lemma CancelledRun(cfg: JobConfig, env: Backend, obs: seq<bool>, s: JobState)
    requires IsCheckpoint(s.phase) && SeesFlag(obs, s.world)
    ensures var r := Run(cfg, env, obs, s);
            && r == JobState(Cancelled, Stopped(cfg, s), s.model)
            && Last(r.world.events) == Error(UserCancel)
            && forall i :: |s.world.events| <= i < |r.world.events| ==> !r.world.events[i].Finished?
  {
    CheckpointStops(cfg, env, obs, s);
    EndingStepEndsRun(cfg, env, obs, s);
    var b := Banner(cfg, s.phase);
    BannerQuiet(cfg, s.phase);
    var r := Run(cfg, env, obs, s);
    forall i | |s.world.events| <= i < |r.world.events|
      ensures !r.world.events[i].Finished?
    {
      if i < |s.world.events| + |b| {
        assert r.world.events[i] == b[i - |s.world.events|];
      }
    }
  }

  /** A banner holds status and progress signals only. */
  lemma BannerQuiet(cfg: JobConfig, p: Phase)
    ensures forall i :: 0 <= i < |Banner(cfg, p)| ==> !Banner(cfg, p)[i].IsTerminal()
  {
  }

  /**
   * The foreign call of the step from `s` raises with text `m`: `os.makedirs`
   * (or the empty directory name), the extraction, the catalogue lookup or
   * the model load, a model pass, one of the three `open` calls, or the
   * removal of the WAV file. A checkpoint phase gets that far only when its
   * read does not see the flag.
   */
  ghost predicate CallFails(cfg: JobConfig, env: Backend, obs: seq<bool>, s: JobState, m: string) {
    var dir := DirName(cfg.base);
    var wav := cfg.WavPath();
    match s.phase
    case Init =>
      (dir == "" && m == EmptyPathError) || (dir != "" && !s.world.Exists(dir) && env.makeDirs(dir) == Fail(m))
    case Extracting =>
      !SeesFlag(obs, s.world) && env.extract(cfg.video, wav) == Fault(m)
    case Loading =>
      && !SeesFlag(obs, s.world)
      && (match Lookup(cfg.modelCaption)
          case None => m == "'" + cfg.modelCaption + "'"
          case Some(e) => env.load(e.name, cfg.device) == Fault(m))
    case Transcribing(h) =>
      !SeesFlag(obs, s.world) && env.transcribe(h, wav, Transcribe, "de") == Fault(m)
    case Translating(h, _) =>
      !SeesFlag(obs, s.world) && env.transcribe(h, wav, Translate, "en") == Fault(m)
    case Saving(_, _) =>
      && !SeesFlag(obs, s.world)
      && (|| env.open(cfg.GermanPath()) == Fail(m)
          || (env.open(cfg.GermanPath()) == Pass && env.open(cfg.EnglishPath()) == Fail(m))
          || (env.open(cfg.GermanPath()) == Pass && env.open(cfg.EnglishPath()) == Pass
              && env.open(cfg.SubtitlePath()) == Fail(m)))
    case CleaningUp =>
      !cfg.keepWav && s.world.Exists(wav) && env.remove(wav) == Fail(m)
    case _ => false
  }

  lemma InitFails(cfg: JobConfig, env: Backend, obs: seq<bool>, s: JobState, m: string)
    requires s.phase.Init?
    ensures InitStep(cfg, env, s).phase == Failed(m) <==> CallFails(cfg, env, obs, s, m)
  {
  }

  lemma ExtractFails(cfg: JobConfig, env: Backend, obs: seq<bool>, s: JobState, m: string)
    requires s.phase.Extracting?
    ensures ExtractStep(cfg, env, obs, s).phase == Failed(m) <==> CallFails(cfg, env, obs, s, m)
  {
  }

  lemma LoadFails(cfg: JobConfig, env: Backend, obs: seq<bool>, s: JobState, m: string)
    requires s.phase.Loading?
    ensures LoadStep(cfg, env, obs, s).phase == Failed(m) <==> CallFails(cfg, env, obs, s, m)
  {
    var w := Poll(obs, UseCores(cfg, s.world).Emit(Status(LoadingModel(cfg.modelCaption))).Emit(Progress(30)));
    assert w.cancelled <==> SeesFlag(obs, s.world);
  }

  lemma TranscribeFails(cfg: JobConfig, env: Backend, obs: seq<bool>, s: JobState, m: string)
    requires s.phase.Transcribing?
    ensures TranscribeStep(cfg, env, obs, s).phase == Failed(m) <==> CallFails(cfg, env, obs, s, m)
  {
  }

  lemma TranslateFails(cfg: JobConfig, env: Backend, obs: seq<bool>, s: JobState, m: string)
    requires s.phase.Translating?
    ensures TranslateStep(cfg, env, obs, s).phase == Failed(m) <==> CallFails(cfg, env, obs, s, m)
  {
  }

  lemma SaveFails(cfg: JobConfig, env: Backend, obs: seq<bool>, s: JobState, m: string)
    requires s.phase.Saving?
    ensures SaveStep(cfg, env, obs, s).phase == Failed(m) <==> CallFails(cfg, env, obs, s, m)
  {
    var w := Poll(obs, s.world.Emit(Status(SavingFiles)));
    if !w.cancelled {
      var r := SaveFilesOutcome(cfg, env, obs, s.phase.german, s.phase.english, w, s.model);
    }
  }

  lemma CleanFails(cfg: JobConfig, env: Backend, obs: seq<bool>, s: JobState, m: string)
    requires s.phase.CleaningUp?
    ensures CleanStep(cfg, env, s).phase == Failed(m) <==> CallFails(cfg, env, obs, s, m)
  {
  }

  /** A step ends the run failed with text `m` exactly when its foreign call raises with `m`. */
  lemma FailsExactlyWhenCallFails(cfg: JobConfig, env: Backend, obs: seq<bool>, s: JobState, m: string)
    requires !s.phase.IsTerminal()
    ensures Step(cfg, env, obs, s).phase == Failed(m) <==> CallFails(cfg, env, obs, s, m)
  {
    match s.phase
    case Init =>
      assert Step(cfg, env, obs, s) == InitStep(cfg, env, s);
      InitFails(cfg, env, obs, s, m);
    case Extracting =>
      assert Step(cfg, env, obs, s) == ExtractStep(cfg, env, obs, s);
      ExtractFails(cfg, env, obs, s, m);
    case Loading =>
      assert Step(cfg, env, obs, s) == LoadStep(cfg, env, obs, s);
      LoadFails(cfg, env, obs, s, m);
    case Transcribing(_) =>
      assert Step(cfg, env, obs, s) == TranscribeStep(cfg, env, obs, s);
      TranscribeFails(cfg, env, obs, s, m);
    case Translating(_, _) =>
      assert Step(cfg, env, obs, s) == TranslateStep(cfg, env, obs, s);
      TranslateFails(cfg, env, obs, s, m);
    case Saving(_, _) =>
      assert Step(cfg, env, obs, s) == SaveStep(cfg, env, obs, s);
      SaveFails(cfg, env, obs, s, m);
    case CleaningUp =>
      assert Step(cfg, env, obs, s) == CleanStep(cfg, env, s);
      CleanFails(cfg, env, obs, s, m);
  }

  /**
   * The whole run from a step whose foreign call raises with text `m`: it
   * ends failed right there with `m`, its last signal is the error carrying
   * `m`, and the other signals it adds are the phase's banner.
   */
  lemma FailedRun(cfg: JobConfig, env: Backend, obs: seq<bool>, s: JobState, m: string)
    requires CallFails(cfg, env, obs, s, m)
    ensures var r := Run(cfg, env, obs, s);
            && r.phase == Failed(m) && r.model == s.model
            && r.world.events == s.world.events + Banner(cfg, s.phase) + [Error(Exception(m))]
            && s.world.files.Keys <= r.world.files.Keys
  {
    assert !s.phase.IsTerminal();
    FailsExactlyWhenCallFails(cfg, env, obs, s, m);
    EndingStepEndsRun(cfg, env, obs, s);
    FailedStepState(cfg, env, obs, s);
  }

  /** The state a failing step leaves: the model is kept and the error is the one signal after the banner. */
  lemma FailedStepState(cfg: JobConfig, env: Backend, obs: seq<bool>, s: JobState)
    requires !s.phase.IsTerminal() && Step(cfg, env, obs, s).phase.Failed?
    ensures var r := Step(cfg, env, obs, s);
            && r.model == s.model
            && r.world.events == s.world.events + Banner(cfg, s.phase) + [Error(Exception(r.phase.message))]
  {
    match s.phase
    case Init =>
      assert Step(cfg, env, obs, s) == InitStep(cfg, env, s);
    case Extracting =>
      assert Step(cfg, env, obs, s) == ExtractStep(cfg, env, obs, s);
    case Loading =>
      assert Step(cfg, env, obs, s) == LoadStep(cfg, env, obs, s);
    case Transcribing(_) =>
      assert Step(cfg, env, obs, s) == TranscribeStep(cfg, env, obs, s);
    case Translating(_, _) =>
      assert Step(cfg, env, obs, s) == TranslateStep(cfg, env, obs, s);
    case Saving(_, _) =>
      assert Step(cfg, env, obs, s) == SaveStep(cfg, env, obs, s);
      var w := Poll(obs, s.world.Emit(Status(SavingFiles)));
      var r := SaveFilesOutcome(cfg, env, obs, s.phase.german, s.phase.english, w, s.model);
    case CleaningUp =>
      assert Step(cfg, env, obs, s) == CleanStep(cfg, env, s);
  }

  /**
   * What `SaveFiles` leaves behind: the German text is written first, then
   * the English text, then the subtitle file is opened. A failed `open`
   * ends the step with its text, keeping every file written before it and
   * writing nothing after it.
   */
  lemma SaveFilesOutcome(cfg: JobConfig, env: Backend, obs: seq<bool>, german: Transcription, english: Transcription,
                         w: World, model: Option<ModelHandle>) returns (r: JobState)
    ensures r == SaveFiles(cfg, env, obs, german, english, w, model)
    ensures r.model == model
    ensures r.phase.Failed? ==> r.world.events == w.events + [Error(Exception(r.phase.message))]
    ensures env.open(cfg.GermanPath()).Fail? ==>
              && r.phase == Failed(env.open(cfg.GermanPath()).message)
              && r.world.files == w.files && r.world.actions == w.actions
    ensures env.open(cfg.GermanPath()).Pass? && env.open(cfg.EnglishPath()).Fail? ==>
              && r.phase == Failed(env.open(cfg.EnglishPath()).message)
              && r.world.files == w.files[cfg.GermanPath() := german.text]
              && r.world.actions == w.actions + [WriteFile(cfg.GermanPath())]
    ensures env.open(cfg.GermanPath()).Pass? && env.open(cfg.EnglishPath()).Pass? && env.open(cfg.SubtitlePath()).Fail? ==>
              && r.phase == Failed(env.open(cfg.SubtitlePath()).message)
              && r.world.files == w.files[cfg.GermanPath() := german.text][cfg.EnglishPath() := english.text]
              && r.world.actions == w.actions + [WriteFile(cfg.GermanPath()), WriteFile(cfg.EnglishPath())]
    ensures r.phase.CleaningUp? <==> env.open(cfg.GermanPath()).Pass? && env.open(cfg.EnglishPath()).Pass?
                                     && env.open(cfg.SubtitlePath()).Pass?
  {
    r := SaveFiles(cfg, env, obs, german, english, w, model);
    if env.open(cfg.GermanPath()).Pass? && env.open(cfg.EnglishPath()).Pass? {
      TextsFirst(cfg, env, obs, german, english, w, model);
    }
  }
}

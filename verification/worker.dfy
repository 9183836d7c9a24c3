/**
 * `TranscriptionWorker`: the thread object whose `run` performs the job,
 * whose `cancel` sets its flag, and whose `generate_srt` writes the
 * subtitle file cue by cue. Each phase of `run` is a method proved equal to
 * the matching step of the job state machine, and `Run` is proved equal to
 * the whole machine.
 *
 * Besides its own fields the object holds what it acts on: the signals it
 * has emitted, the log of its foreign calls, and the directories and files
 * it can see. `flagReads` counts the checkpoints passed so far, and
 * `obs[k]` says whether `cancel` has been called by the time of the `k`-th.
 */
module Worker {
  import opened Wrappers
  import opened Paths
  import opened Catalog
  import opened Srt
  import opened Timing
  import opened Job
  import JobScenarios

  class TranscriptionWorker {
    const video: string
    const base: string
    const modelCaption: string
    const device: Device
    const cores: Option<int>
    const keepWav: bool

    var isCancelled: bool
    var startTime: Option<int>
    var model: Option<ModelHandle>

    var events: seq<Event>
    var actions: seq<Action>
    var dirs: set<string>
    var files: map<string, string>
    var flagReads: nat

    /** The constructor arguments. */
    function Config(): JobConfig {
      JobConfig(video, base, modelCaption, device, cores, keepWav)
    }

    /** What the worker has done and sees, as the job state machine describes it. */
    function Current(): World
      reads this
    {
      World(events, actions, dirs, files, flagReads, isCancelled)
    }

    /** A new worker over the given directories and files; nothing emitted, not cancelled, not started. */
    constructor (video: string, base: string, modelCaption: string, device: Device, keepWav: bool,
                 cores: Option<int>, dirs: set<string>, files: map<string, string>)
      ensures Config() == JobConfig(video, base, modelCaption, device, cores, keepWav)
      ensures Current() == World([], [], dirs, files, 0, false)
      ensures startTime == None && model == None
    {
      this.video := video;
      this.base := base;
      this.modelCaption := modelCaption;
      this.device := device;
      this.cores := cores;
      this.keepWav := keepWav;
      isCancelled := false;
      startTime := None;
      model := None;
      events := [];
      actions := [];
      this.dirs := dirs;
      this.files := files;
      flagReads := 0;
    }

    /** `cancel`: the flag is set and "Transkription wird abgebrochen..." is emitted. */
    method Cancel()
      modifies this
      ensures isCancelled && events == old(events) + [Status(Cancelling)]
      ensures actions == old(actions) && dirs == old(dirs) && files == old(files) && flagReads == old(flagReads)
      ensures startTime == old(startTime) && model == old(model)
    {
      isCancelled := true;
      events := events + [Status(Cancelling)];
    }

    /** `estimate_remaining_time(progress)` at the time `now`. */
    function EstimateRemainingTime(progress: int, now: int): (r: string)
      reads this
      ensures r == "Wird berechnet..." <==> startTime.None? || progress <= 0
      ensures startTime.Some? && progress > 0 ==> r == EstimateText(EstimateRemaining(startTime, now, progress))
      ensures startTime.Some? && 0 < progress <= 100 && now >= startTime.value ==>
                exists us :: us >= 0 && r == DurationText(us)
    {
      if startTime.Some? && 0 < progress <= 100 && now >= startTime.value then
        EstimateBounds(startTime.value, now, progress);
        EstimateText(EstimateRemaining(startTime, now, progress))
      else
        EstimateText(EstimateRemaining(startTime, now, progress))
    }

    /** A checkpoint: the flag as it stands at the next read. */
    method ReadCancelFlag(obs: seq<bool>) returns (seen: bool)
      modifies this
      ensures Current() == Poll(obs, old(Current())) && seen == isCancelled
      ensures startTime == old(startTime) && model == old(model)
    {
      isCancelled := isCancelled || (flagReads < |obs| && obs[flagReads]);
      flagReads := flagReads + 1;
      actions := actions + [CheckCancel(isCancelled)];
      seen := isCancelled;
    }

    method Signal(e: Event)
      modifies this
      ensures Current() == old(Current()).Emit(e)
      ensures startTime == old(startTime) && model == old(model)
    {
      events := events + [e];
    }

    method Record(a: Action)
      modifies this
      ensures Current() == old(Current()).Do(a)
      ensures startTime == old(startTime) && model == old(model)
    {
      actions := actions + [a];
    }

    /** The handler for `InterruptedError`. */
    method Interrupted() returns (p: Phase)
      modifies this
      ensures JobState(p, Current(), model) == Abort(old(Current()), old(model))
      ensures startTime == old(startTime)
    {
      Signal(Error(UserCancel));
      p := Cancelled;
    }

    /** The handler for any other exception, whose text is `m`. */
    method Failure(m: string) returns (p: Phase)
      modifies this
      ensures JobState(p, Current(), model) == Raise(old(Current()), old(model), m)
      ensures startTime == old(startTime)
    {
      Signal(Error(Exception(m)));
      p := Failed(m);
    }

    /** "Initialisiere...", then the output directory is created unless that path exists. */
    method Initialise(env: Backend) returns (p: Phase)
      modifies this
      ensures JobState(p, Current(), model) == InitStep(Config(), env, JobState(Init, old(Current()), old(model)))
      ensures startTime == old(startTime)
    {
      Signal(Status(Initialising));
      var outputDir := DirName(base);
      if outputDir == "" || (outputDir !in dirs && outputDir !in files) {
        Record(MakeDirs(outputDir));
        if outputDir == "" {
          p := Failure(EmptyPathError);
          return;
        }
        match env.makeDirs(outputDir)
        case Fail(m) =>
          p := Failure(m);
          return;
        case Pass =>
          dirs := dirs + {outputDir};
      }
      p := Extracting;
    }

    /** "Extrahiere Audio...", progress 10, checkpoint, then ffmpeg writes the WAV file. */
    method ExtractAudio(env: Backend, obs: seq<bool>) returns (p: Phase)
      modifies this
      ensures JobState(p, Current(), model) == ExtractStep(Config(), env, obs, JobState(Extracting, old(Current()), old(model)))
      ensures startTime == old(startTime)
    {
      Signal(Status(ExtractingAudio));
      Signal(Progress(10));
      var seen := ReadCancelFlag(obs);
      if seen {
        p := Interrupted();
        return;
      }
      var audioFile := Config().WavPath();
      Record(Action.ExtractAudio(video, audioFile));
      match env.extract(video, audioFile)
      case Fault(m) =>
        p := Failure(m);
      case Ok(audio) =>
        files := files[audioFile := audio];
        p := Loading;
    }

    /** The thread count on the CPU, "Lade Whisper-Modell (...)...", progress 30, checkpoint, then the model. */
    method LoadModel(env: Backend, obs: seq<bool>) returns (p: Phase)
      modifies this
      ensures JobState(p, Current(), model) == LoadStep(Config(), env, obs, JobState(Loading, old(Current()), old(model)))
      ensures startTime == old(startTime)
    {
      if device == Cpu && cores.Some? {
        Record(SetThreads(cores.value));
        Signal(Status(UsingCores(cores.value)));
      }
      Signal(Status(LoadingModel(modelCaption)));
      Signal(Progress(30));
      var seen := ReadCancelFlag(obs);
      if seen {
        p := Interrupted();
        return;
      }
      p := LoadNamedModel(env, Lookup(modelCaption));
    }

    /** `whisper.load_model` for the entry found for the caption; an unknown caption raises `KeyError`. */
    method LoadNamedModel(env: Backend, found: Option<ModelEntry>) returns (p: Phase)
      modifies this
      ensures JobState(p, Current(), model) == LoadWeights(Config(), env, found, old(Current()), old(model))
      ensures startTime == old(startTime)
    {
      match found
      case None =>
        p := Failure("'" + modelCaption + "'");
      case Some(entry) =>
        Record(Action.LoadModel(entry.name, device));
        match env.load(entry.name, device)
        case Fault(m) =>
          p := Failure(m);
        case Ok(h) =>
          model := Some(h);
          p := Transcribing(h);
    }

    /** "Erstelle deutsche Transkription...", progress 50, checkpoint, then a German pass of the loaded model. */
    method TranscribeGerman(env: Backend, obs: seq<bool>) returns (p: Phase)
      requires model.Some?
      modifies this
      ensures JobState(p, Current(), model)
              == TranscribeStep(Config(), env, obs, JobState(Transcribing(old(model).value), old(Current()), old(model)))
      ensures startTime == old(startTime)
    {
      Signal(Status(TranscribingGerman));
      Signal(Progress(50));
      var seen := ReadCancelFlag(obs);
      if seen {
        p := Interrupted();
        return;
      }
      var audioFile := Config().WavPath();
      Record(RunModel(audioFile, Transcribe, "de"));
      match env.transcribe(model.value, audioFile, Transcribe, "de")
      case Fault(m) =>
        p := Failure(m);
      case Ok(resultDe) =>
        p := Translating(model.value, resultDe);
    }

    /** "Erstelle englische Übersetzung...", progress 70, checkpoint, then a translation pass. */
    method TranslateEnglish(env: Backend, obs: seq<bool>, resultDe: Transcription) returns (p: Phase)
      requires model.Some?
      modifies this
      ensures JobState(p, Current(), model)
              == TranslateStep(Config(), env, obs, JobState(Translating(old(model).value, resultDe), old(Current()), old(model)))
      ensures startTime == old(startTime)
    {
      Signal(Status(TranslatingEnglish));
      Signal(Progress(70));
      var seen := ReadCancelFlag(obs);
      if seen {
        p := Interrupted();
        return;
      }
      var audioFile := Config().WavPath();
      Record(RunModel(audioFile, Translate, "en"));
      match env.transcribe(model.value, audioFile, Translate, "en")
      case Fault(m) =>
        p := Failure(m);
      case Ok(resultEn) =>
        p := Saving(resultDe, resultEn);
    }

    /** `with open(path, "w") as f: f.write(content)`. */
    method WriteText(env: Backend, path: string, content: string) returns (r: Outcome)
      modifies this
      ensures match Save(env, path, content, old(Current()))
              case Ok(w) => r == Pass && Current() == w
              case Fault(m) => r == Fail(m) && Current() == old(Current())
      ensures startTime == old(startTime) && model == old(model)
    {
      r := env.open(path);
      if r.Pass? {
        Record(WriteFile(path));
        files := files[path := content];
      }
    }

    /**
     * `generate_srt`: the file is opened, then cue `i + 1` is appended for
     * each segment `i` in turn, the flag being read before each one; once it
     * is set, the loop stops.
     */
    method GenerateSrt(env: Backend, obs: seq<bool>, transcription: Transcription, outputFile: string) returns (r: Outcome)
      modifies this
      ensures match Save(env, outputFile, "", old(Current()))
              case Ok(w) => r == Pass && Current() == WriteCues(obs, outputFile, CueList(transcription.segments), 0, w)
              case Fault(m) => r == Fail(m) && Current() == old(Current())
      ensures startTime == old(startTime) && model == old(model)
    {
      r := WriteText(env, outputFile, "");
      if r.Pass? {
        WriteCueLoop(obs, transcription.segments, outputFile);
      }
    }

    /** The loop of `generate_srt`: before cue `i + 1` the flag is read, and once it is set the loop stops. */
    method WriteCueLoop(obs: seq<bool>, segments: seq<Segment>, outputFile: string)
      requires outputFile in files
      modifies this
      ensures Current() == WriteCues(obs, outputFile, CueList(segments), 0, old(Current()))
      ensures startTime == old(startTime) && model == old(model)
    {
      ghost var cues := CueList(segments);
      ghost var goal := WriteCues(obs, outputFile, cues, 0, Current());
      for i := 0 to |segments|
        invariant outputFile in files
        invariant WriteCues(obs, outputFile, cues, i, Current()) == goal
        invariant startTime == old(startTime) && model == old(model)
      {
        ghost var before := Current();
        var cue := Cue(i + 1, segments[i]);
        var stopped := WriteCue(obs, cue, outputFile);
        CueWritten(obs, outputFile, cues, i, before);
        if stopped {
          return;
        }
      }
    }

    /** One pass of the loop: the flag is read, and unless it is set the cue is appended. */
    method WriteCue(obs: seq<bool>, cue: string, outputFile: string) returns (stopped: bool)
      requires outputFile in files
      modifies this
      ensures var w := Poll(obs, old(Current()));
              && stopped == w.cancelled
              && Current() == if stopped then w else w.(files := w.files[outputFile := w.files[outputFile] + cue])
      ensures startTime == old(startTime) && model == old(model)
    {
      stopped := ReadCancelFlag(obs);
      if !stopped {
        files := files[outputFile := files[outputFile] + cue];
      }
    }

    /** "Speichere Dateien...", checkpoint, the German text, the English text and the subtitles. */
    method SaveOutputs(env: Backend, obs: seq<bool>, resultDe: Transcription, resultEn: Transcription) returns (p: Phase)
      modifies this
      ensures JobState(p, Current(), model)
              == SaveStep(Config(), env, obs, JobState(Saving(resultDe, resultEn), old(Current()), old(model)))
      ensures startTime == old(startTime)
    {
      Signal(Status(SavingFiles));
      var seen := ReadCancelFlag(obs);
      if seen {
        p := Interrupted();
        return;
      }
      var cfg := Config();
      var r := WriteText(env, cfg.GermanPath(), resultDe.text);
      if r.Fail? {
        p := Failure(r.message);
        return;
      }
      r := WriteText(env, cfg.EnglishPath(), resultEn.text);
      if r.Fail? {
        p := Failure(r.message);
        return;
      }
      r := GenerateSrt(env, obs, resultEn, cfg.SubtitlePath());
      if r.Fail? {
        p := Failure(r.message);
        return;
      }
      p := CleaningUp;
    }

    /** The WAV file is removed unless kept (a kept one is named), then progress 100 and the finished signal. */
    method CleanUp(env: Backend) returns (p: Phase)
      modifies this
      ensures JobState(p, Current(), model) == CleanStep(Config(), env, JobState(CleaningUp, old(Current()), old(model)))
      ensures startTime == old(startTime)
    {
      var audioFile := Config().WavPath();
      if !keepWav && (audioFile in dirs || audioFile in files) {
        match env.remove(audioFile)
        case Fail(m) =>
          p := Failure(m);
          return;
        case Pass =>
          Record(RemoveFile(audioFile));
          files := files - {audioFile};
      } else if keepWav {
        Signal(Status(WavKept(audioFile)));
      }
      Signal(Progress(100));
      Signal(FinishedSignal(Config()));
      p := Succeeded;
    }

    /**
     * `run`: the start time is taken, then the phases run in order until one
     * of them ends the run. The resulting signals, actions, files and model
     * are those of the job state machine.
     */
    method Run(env: Backend, obs: seq<bool>, now: int)
      modifies this
      ensures startTime == Some(now)
      ensures var r := Job.Run(Config(), env, obs, JobState(Init, old(Current()), old(model)));
              Current() == r.world && model == r.model
    {
      startTime := Some(now);
      ghost var s := JobState(Init, Current(), model);
      var p := Initialise(env);
      MovedInit(Config(), env, obs, s, JobState(p, Current(), model));
      if p.IsTerminal() {
        return;
      }
      s := JobState(p, Current(), model);
      p := ExtractAudio(env, obs);
      MovedExtract(Config(), env, obs, s, JobState(p, Current(), model));
      if p.IsTerminal() {
        return;
      }
      p := RunFromLoading(env, obs);
    }

    /** `run` from the model loading on; `p` is the phase it ends in. */
    method RunFromLoading(env: Backend, obs: seq<bool>) returns (p: Phase)
      modifies this
      ensures JobState(p, Current(), model) == Job.Run(Config(), env, obs, JobState(Loading, old(Current()), old(model)))
      ensures startTime == old(startTime)
    {
      ghost var s := JobState(Loading, Current(), model);
      p := LoadModel(env, obs);
      MovedLoad(Config(), env, obs, s, JobState(p, Current(), model));
      if p.IsTerminal() {
        return;
      }
      p := RunFromTranscribing(env, obs);
    }

    /** `run` from the German transcription on; `p` is the phase it ends in. */
    method RunFromTranscribing(env: Backend, obs: seq<bool>) returns (p: Phase)
      requires model.Some?
      modifies this
      ensures JobState(p, Current(), model)
              == Job.Run(Config(), env, obs, JobState(Transcribing(old(model).value), old(Current()), old(model)))
      ensures startTime == old(startTime)
    {
      ghost var s := JobState(Transcribing(model.value), Current(), model);
      p := TranscribeGerman(env, obs);
      MovedTranscribe(Config(), env, obs, s, JobState(p, Current(), model));
      if p.IsTerminal() {
        return;
      }
      p := RunFromTranslating(env, obs, p.german);
    }

    /** `run` from the translation on; `p` is the phase it ends in. */
    method RunFromTranslating(env: Backend, obs: seq<bool>, resultDe: Transcription) returns (p: Phase)
      requires model.Some?
      modifies this
      ensures JobState(p, Current(), model)
              == Job.Run(Config(), env, obs, JobState(Translating(old(model).value, resultDe), old(Current()), old(model)))
      ensures startTime == old(startTime)
    {
      ghost var s := JobState(Translating(model.value, resultDe), Current(), model);
      p := TranslateEnglish(env, obs, resultDe);
      MovedTranslate(Config(), env, obs, s, JobState(p, Current(), model));
      if p.IsTerminal() {
        return;
      }
      s := JobState(p, Current(), model);
      p := SaveOutputs(env, obs, p.german, p.english);
      MovedSave(Config(), env, obs, s, JobState(p, Current(), model));
      if p.IsTerminal() {
        return;
      }
      s := JobState(p, Current(), model);
      p := CleanUp(env);
      MovedClean(Config(), env, obs, s, JobState(p, Current(), model));
    }
  }

  /** What one pass of the loop of `generate_srt` does to the rest of the loop. */
  lemma CueWritten(obs: seq<bool>, path: string, cues: seq<string>, i: nat, w: World)
    requires i < |cues| && path in w.files
    ensures var w1 := Poll(obs, w);
            WriteCues(obs, path, cues, i, w)
            == if w1.cancelled then w1 else WriteCues(obs, path, cues, i + 1, w1.(files := w1.files[path := w1.files[path] + cues[i]]))
  {
  }

  /** Each step of the job moves the run on without changing where it ends. */
  lemma Moved(cfg: JobConfig, env: Backend, obs: seq<bool>, s: JobState, r: JobState)
    requires !s.phase.IsTerminal() && r == Step(cfg, env, obs, s)
    ensures Job.Run(cfg, env, obs, s) == Job.Run(cfg, env, obs, r)
    ensures r.phase.IsTerminal() ==> Job.Run(cfg, env, obs, r) == r
  {
  }

  lemma MovedInit(cfg: JobConfig, env: Backend, obs: seq<bool>, s: JobState, r: JobState)
    requires s.phase.Init? && r == InitStep(cfg, env, s)
    ensures Job.Run(cfg, env, obs, s) == Job.Run(cfg, env, obs, r)
    ensures r.phase.IsTerminal() ==> Job.Run(cfg, env, obs, r) == r
  {
    Moved(cfg, env, obs, s, r);
  }

  lemma MovedExtract(cfg: JobConfig, env: Backend, obs: seq<bool>, s: JobState, r: JobState)
    requires s.phase.Extracting? && r == ExtractStep(cfg, env, obs, s)
    ensures Job.Run(cfg, env, obs, s) == Job.Run(cfg, env, obs, r)
    ensures r.phase.IsTerminal() ==> Job.Run(cfg, env, obs, r) == r
  {
    Moved(cfg, env, obs, s, r);
  }

  lemma MovedLoad(cfg: JobConfig, env: Backend, obs: seq<bool>, s: JobState, r: JobState)
    requires s.phase.Loading? && r == LoadStep(cfg, env, obs, s)
    ensures Job.Run(cfg, env, obs, s) == Job.Run(cfg, env, obs, r)
    ensures r.phase.IsTerminal() ==> Job.Run(cfg, env, obs, r) == r
  {
    JobScenarios.StepLoading(cfg, env, obs, s);
    Moved(cfg, env, obs, s, r);
  }

  lemma MovedTranscribe(cfg: JobConfig, env: Backend, obs: seq<bool>, s: JobState, r: JobState)
    requires s.phase.Transcribing? && r == TranscribeStep(cfg, env, obs, s)
    ensures Job.Run(cfg, env, obs, s) == Job.Run(cfg, env, obs, r)
    ensures r.phase.IsTerminal() ==> Job.Run(cfg, env, obs, r) == r
  {
    Moved(cfg, env, obs, s, r);
  }

  lemma MovedTranslate(cfg: JobConfig, env: Backend, obs: seq<bool>, s: JobState, r: JobState)
    requires s.phase.Translating? && r == TranslateStep(cfg, env, obs, s)
    ensures Job.Run(cfg, env, obs, s) == Job.Run(cfg, env, obs, r)
    ensures r.phase.IsTerminal() ==> Job.Run(cfg, env, obs, r) == r
  {
    Moved(cfg, env, obs, s, r);
  }

  lemma MovedSave(cfg: JobConfig, env: Backend, obs: seq<bool>, s: JobState, r: JobState)
    requires s.phase.Saving? && r == SaveStep(cfg, env, obs, s)
    ensures Job.Run(cfg, env, obs, s) == Job.Run(cfg, env, obs, r)
    ensures r.phase.IsTerminal() ==> Job.Run(cfg, env, obs, r) == r
  {
    JobScenarios.StepSaving(cfg, env, obs, s);
    Moved(cfg, env, obs, s, r);
  }

  lemma MovedClean(cfg: JobConfig, env: Backend, obs: seq<bool>, s: JobState, r: JobState)
    requires s.phase.CleaningUp? && r == CleanStep(cfg, env, s)
    ensures Job.Run(cfg, env, obs, s) == Job.Run(cfg, env, obs, r)
    ensures r.phase.IsTerminal() ==> Job.Run(cfg, env, obs, r) == r
  {
    Moved(cfg, env, obs, s, r);
  }
}

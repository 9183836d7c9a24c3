/**
 * The transcription job of `TranscriptionWorker.run` as a state machine.
 *
 * A run goes through the phases Init, Extracting, Loading, Transcribing,
 * Translating, Saving and CleaningUp, in that order, and stops in one of
 * Succeeded, Cancelled or Failed. Each phase emits a fixed banner of
 * status and progress signals; the run ends with exactly one finished or
 * error signal. The world the job sees is the signal trace, a log of the
 * actions it performed, the directories and files it can see, and the
 * cancel flag. The cancel flag is read only at the checkpoints; `obs[k]`
 * says whether `cancel()` has been called by the time of the `k`-th read.
 * ffmpeg, Whisper and the file system are the oracles of a `Backend`.
 */
module Job {
  import opened Wrappers
  import opened Text
  import opened Paths
  import opened Catalog
  import opened Srt

  /** What a model pass is asked to do. */
  datatype Task = Transcribe | Translate

  /** The result of a model pass: the whole text and its timed segments. */
  datatype Transcription = Transcription(text: string, segments: seq<Segment>)

  /** A loaded Whisper model; the job only hands it back to the backend. */
  datatype ModelHandle = ModelHandle(id: nat)

  /** What a `status_signal` reports; `Text` is the string sent. */
  datatype Notice =
    | Initialising
    | ExtractingAudio
    | UsingCores(count: int)
    | LoadingModel(caption: string)
    | TranscribingGerman
    | TranslatingEnglish
    | SavingFiles
    | WavKept(path: string)
    | Cancelling
  {
    function Text(): string {
      match this
      case Initialising => "Initialisiere..."
      case ExtractingAudio => "Extrahiere Audio..."
      case UsingCores(n) => "Verwende " + IntToString(n) + " CPU-Kerne"
      case LoadingModel(caption) => "Lade Whisper-Modell (" + caption + ")..."
      case TranscribingGerman => "Erstelle deutsche Transkription..."
      case TranslatingEnglish => "Erstelle englische Übersetzung..."
      case SavingFiles => "Speichere Dateien..."
      case WavKept(path) => "WAV-Datei wurde behalten: " + path
      case Cancelling => "Transkription wird abgebrochen..."
    }
  }

  /** What an `error_signal` reports: a cancellation or an exception's text. */
  datatype Alarm = UserCancel | Exception(message: string)
  {
    function Text(): string {
      match this
      case UserCancel => "Transkription wurde abgebrochen"
      case Exception(m) => "Fehler: " + m
    }
  }

  /**
   * A signal emitted by the worker. `Finished` names the German text, the
   * English text and the subtitle file.
   */
  datatype Event =
    | Progress(percent: int)
    | Status(notice: Notice)
    | Finished(german: string, english: string, subtitles: string)
    | Error(alarm: Alarm)
  {
    /** `finished_signal` and `error_signal` end a run. */
    predicate IsTerminal() {
      Finished? || Error?
    }

    /** The string a status, finished or error signal carries. */
    function Message(): string
      requires !Progress?
    {
      match this
      case Status(n) => n.Text()
      case Finished(de, en, srt) =>
        "Transkription abgeschlossen!\nDateien gespeichert als:\n- " + de + "\n- " + en + "\n- " + srt
      case Error(a) => a.Text()
    }
  }

  /** Something the worker does outside itself, logged in order. */
  datatype Action =
    | MakeDirs(path: string)
    | CheckCancel(seen: bool)
    | ExtractAudio(video: string, wav: string)
    | SetThreads(count: int)
    | LoadModel(name: string, device: Device)
    | RunModel(audio: string, task: Task, language: string)
    | WriteFile(path: string)
    | RemoveFile(path: string)

  /**
   * The foreign calls: `os.makedirs`, the ffmpeg extraction (the audio it
   * writes), `whisper.load_model`, `model.transcribe`, `open(path, "w")` and
   * `os.remove`. A failure carries the text of the exception.
   */
  datatype Backend = Backend(
    makeDirs: string -> Outcome,
    extract: (string, string) -> Result<string>,
    load: (string, Device) -> Result<ModelHandle>,
    transcribe: (ModelHandle, string, Task, string) -> Result<Transcription>,
    open: string -> Outcome,
    remove: string -> Outcome)

  /** The worker's constructor arguments. */
  datatype JobConfig = JobConfig(
    video: string,
    base: string,
    modelCaption: string,
    device: Device,
    cores: Option<int>,
    keepWav: bool)
  {
    function WavPath(): string {
      base + ".wav"
    }

    function GermanPath(): string {
      base + "_de.txt"
    }

    function EnglishPath(): string {
      base + "_en.txt"
    }

    function SubtitlePath(): string {
      base + ".srt"
    }
  }

  /** What the job sees and changes. */
  datatype World = World(
    events: seq<Event>,
    actions: seq<Action>,
    dirs: set<string>,
    files: map<string, string>,
    flagReads: nat,
    cancelled: bool)
  {
    function Emit(e: Event): World {
      this.(events := events + [e])
    }

    function Do(a: Action): World {
      this.(actions := actions + [a])
    }

    /** `os.path.exists(p)`: a directory or a file has that name. */
    predicate Exists(p: string) {
      p in dirs || p in files
    }
  }

  /**
   * One read of the cancel flag: it is set if it was set before or if
   * `cancel()` has been called by the time of this read.
   */
  function Poll(obs: seq<bool>, w: World): (r: World)
    ensures r.cancelled <==> w.cancelled || (w.flagReads < |obs| && obs[w.flagReads])
    ensures r.actions == w.actions + [CheckCancel(r.cancelled)]
    ensures r == w.(flagReads := w.flagReads + 1, cancelled := r.cancelled, actions := r.actions)
  {
    var seen := w.cancelled || (w.flagReads < |obs| && obs[w.flagReads]);
    w.(flagReads := w.flagReads + 1, cancelled := seen, actions := w.actions + [CheckCancel(seen)])
  }

  /** Where a run stands: the next phase to execute, or how it ended. */
  datatype Phase =
    | Init
    | Extracting
    | Loading
    | Transcribing(model: ModelHandle)
    | Translating(model: ModelHandle, german: Transcription)
    | Saving(german: Transcription, english: Transcription)
    | CleaningUp
    | Succeeded
    | Cancelled
    | Failed(message: string)
  {
    predicate IsTerminal() {
      Succeeded? || Cancelled? || Failed?
    }
  }

  /** Phases still to go; every step lowers it. */
  function Rank(p: Phase): nat {
    match p
    case Init => 7
    case Extracting => 6
    case Loading => 5
    case Transcribing(_) => 4
    case Translating(_, _) => 3
    case Saving(_, _) => 2
    case CleaningUp => 1
    case _ => 0
  }

  /** The phase, the world and the worker's `model` field. */
  datatype JobState = JobState(phase: Phase, world: World, model: Option<ModelHandle>)

  /** What `os.makedirs('')` raises. */
  const EmptyPathError := "[Errno 2] No such file or directory: ''"

  /** The finished signal of a job, naming its three output files. */
  function FinishedSignal(cfg: JobConfig): Event {
    Finished(cfg.GermanPath(), cfg.EnglishPath(), cfg.SubtitlePath())
  }

  /** The status naming the thread count, sent only for the CPU with a core count. */
  function ThreadNotice(cfg: JobConfig): seq<Event> {
    if cfg.device == Cpu && cfg.cores.Some? then [Status(UsingCores(cfg.cores.value))] else []
  }

  /** The status naming the kept WAV file. */
  function KeptNotice(cfg: JobConfig): seq<Event> {
    if cfg.keepWav then [Status(WavKept(cfg.WavPath()))] else []
  }

  /** The signals a phase emits before it can end the run. */
  function Banner(cfg: JobConfig, p: Phase): seq<Event> {
    match p
    case Init => [Status(Initialising)]
    case Extracting => [Status(ExtractingAudio), Progress(10)]
    case Loading => ThreadNotice(cfg) + [Status(LoadingModel(cfg.modelCaption)), Progress(30)]
    case Transcribing(_) => [Status(TranscribingGerman), Progress(50)]
    case Translating(_, _) => [Status(TranslatingEnglish), Progress(70)]
    case Saving(_, _) => [Status(SavingFiles)]
    case CleaningUp => KeptNotice(cfg)
    case _ => []
  }

  /** The signals with which a run ends in phase `p`; none while it goes on. */
  function Closing(cfg: JobConfig, p: Phase): seq<Event> {
    match p
    case Succeeded => [Progress(100), FinishedSignal(cfg)]
    case Cancelled => [Error(UserCancel)]
    case Failed(m) => [Error(Exception(m))]
    case _ => []
  }

  /** No file removal among the actions logged after `before`. */
  ghost predicate NoRemovalAfter(before: seq<Action>, after: seq<Action>) {
    before <= after && forall i :: |before| <= i < |after| ==> !after[i].RemoveFile?
  }

  /**
   * What every step guarantees: it moves to the next phase or ends the run,
   * it emits its banner and then its closing signals, a cancellation is the
   * last thing it does, and unless it succeeds it removes no file.
   */
  ghost predicate Advances(cfg: JobConfig, s: JobState, r: JobState) {
    && (if r.phase.IsTerminal() then Rank(r.phase) < Rank(s.phase) else Rank(r.phase) == Rank(s.phase) - 1)
    && (r.phase.Succeeded? ==> s.phase.CleaningUp?)
    && r.world.events == s.world.events + Banner(cfg, s.phase) + Closing(cfg, r.phase)
    && s.world.actions <= r.world.actions
    && (r.phase.Cancelled? ==> |r.world.actions| > 0 && r.world.actions[|r.world.actions| - 1] == CheckCancel(true))
    && (!r.phase.Succeeded? ==> s.world.files.Keys <= r.world.files.Keys && NoRemovalAfter(s.world.actions, r.world.actions))
  }

  /** `raise InterruptedError(...)` caught by the handler of `run`. */
  function Abort(w: World, model: Option<ModelHandle>): JobState {
    JobState(Cancelled, w.Emit(Error(UserCancel)), model)
  }

  /** Any other exception caught by the handler of `run`. */
  function Raise(w: World, model: Option<ModelHandle>, message: string): JobState {
    JobState(Failed(message), w.Emit(Error(Exception(message))), model)
  }

  /** "Initialisiere...", then the output directory is created unless that path exists. */
  function InitStep(cfg: JobConfig, env: Backend, s: JobState): (r: JobState)
    requires s.phase.Init?
    ensures Advances(cfg, s, r)
    ensures r.phase.Extracting? || r.phase.Failed?
    ensures r.phase.Extracting? ==> r.world.Exists(DirName(cfg.base))
    ensures DirName(cfg.base) == "" ==> r.phase == Failed(EmptyPathError)
    ensures DirName(cfg.base) != "" && s.world.Exists(DirName(cfg.base)) ==>
              r.phase.Extracting? && r.world.actions == s.world.actions
    ensures DirName(cfg.base) != "" && !s.world.Exists(DirName(cfg.base)) ==>
              && r.world.actions == s.world.actions + [MakeDirs(DirName(cfg.base))]
              && (r.phase.Extracting? <==> env.makeDirs(DirName(cfg.base)).Pass?)
              && (r.phase.Failed? ==> r.phase.message == env.makeDirs(DirName(cfg.base)).message)
  {
    var w := s.world.Emit(Status(Initialising));
    var dir := DirName(cfg.base);
    if dir != "" && w.Exists(dir) then
      JobState(Extracting, w, s.model)
    else
      var w1 := w.Do(MakeDirs(dir));
      if dir == "" then
        Raise(w1, s.model, EmptyPathError)
      else
        match env.makeDirs(dir)
        case Fail(m) => Raise(w1, s.model, m)
        case Pass => JobState(Extracting, w1.(dirs := w1.dirs + {dir}), s.model)
  }

  /** "Extrahiere Audio...", progress 10, checkpoint, then ffmpeg writes the WAV file. */
  function ExtractStep(cfg: JobConfig, env: Backend, obs: seq<bool>, s: JobState): (r: JobState)
    requires s.phase.Extracting?
    ensures Advances(cfg, s, r)
    ensures r.phase.Loading? ==> cfg.WavPath() in r.world.files
  {
    var w := Poll(obs, s.world.Emit(Status(ExtractingAudio)).Emit(Progress(10)));
    if w.cancelled then
      Abort(w, s.model)
    else
      var wav := cfg.WavPath();
      var w1 := w.Do(ExtractAudio(cfg.video, wav));
      match env.extract(cfg.video, wav)
      case Fault(m) => Raise(w1, s.model, m)
      case Ok(audio) => JobState(Loading, w1.(files := w1.files[wav := audio]), s.model)
  }

  /** The `torch.set_num_threads` call, made for the CPU with a core count only. */
  function ThreadActions(cfg: JobConfig): seq<Action> {
    if cfg.device == Cpu && cfg.cores.Some? then [SetThreads(cfg.cores.value)] else []
  }

  /** `torch.set_num_threads` and its status, for the CPU with a core count only. */
  function UseCores(cfg: JobConfig, w: World): (r: World)
    ensures r.events == w.events + ThreadNotice(cfg)
    ensures r.actions == w.actions + ThreadActions(cfg)
    ensures r.files == w.files && r.dirs == w.dirs && r.cancelled == w.cancelled && r.flagReads == w.flagReads
    ensures NoRemovalAfter(w.actions, r.actions)
  {
    if cfg.device == Cpu && cfg.cores.Some? then
      w.Do(SetThreads(cfg.cores.value)).Emit(Status(UsingCores(cfg.cores.value)))
    else
      w
  }

  /** The thread count for the CPU, "Lade Whisper-Modell (...)...", progress 30, checkpoint, then the model. */
  function LoadStep(cfg: JobConfig, env: Backend, obs: seq<bool>, s: JobState): (r: JobState)
    requires s.phase.Loading?
    ensures r.phase.Transcribing? ==> r.model == Some(r.phase.model)
  {
    var w := Poll(obs, UseCores(cfg, s.world).Emit(Status(LoadingModel(cfg.modelCaption))).Emit(Progress(30)));
    if w.cancelled then
      Abort(w, s.model)
    else
      LoadWeights(cfg, env, Lookup(cfg.modelCaption), w, s.model)
  }

  /**
   * The model of the catalogue entry found for the caption is loaded onto
   * the device. An unknown caption raises `KeyError`, whose text is the
   * quoted caption.
   */
  function LoadWeights(cfg: JobConfig, env: Backend, found: Option<ModelEntry>, w: World, model: Option<ModelHandle>): (r: JobState)
    ensures r.phase.Transcribing? ==> r.model == Some(r.phase.model)
    ensures r.phase.Transcribing? || r.phase.Failed?
    ensures r.world.events == w.events + Closing(cfg, r.phase) && r.world.files == w.files
    ensures found.None? ==> r.phase == Failed("'" + cfg.modelCaption + "'") && r.world.actions == w.actions
    ensures found.Some? ==> r.world.actions == w.actions + [LoadModel(found.value.name, cfg.device)]
    ensures found.Some? ==> (r.phase.Transcribing? <==> env.load(found.value.name, cfg.device).Ok?)
    ensures found.Some? && r.phase.Transcribing? ==> r.phase.model == env.load(found.value.name, cfg.device).value
    ensures found.Some? && r.phase.Failed? ==> r.phase.message == env.load(found.value.name, cfg.device).message
  {
    match found
    case None => Raise(w, model, "'" + cfg.modelCaption + "'")
    case Some(entry) =>
      var w1 := w.Do(LoadModel(entry.name, cfg.device));
      match env.load(entry.name, cfg.device)
      case Fault(m) => Raise(w1, model, m)
      case Ok(h) => JobState(Transcribing(h), w1, Some(h))
  }

  /** "Erstelle deutsche Transkription...", progress 50, checkpoint, then a German pass. */
  function TranscribeStep(cfg: JobConfig, env: Backend, obs: seq<bool>, s: JobState): (r: JobState)
    requires s.phase.Transcribing?
    ensures Advances(cfg, s, r)
    ensures r.phase.Translating? ==> r.phase.model == s.phase.model && r.model == s.model
  {
    var w := Poll(obs, s.world.Emit(Status(TranscribingGerman)).Emit(Progress(50)));
    if w.cancelled then
      Abort(w, s.model)
    else
      var w1 := w.Do(RunModel(cfg.WavPath(), Transcribe, "de"));
      match env.transcribe(s.phase.model, cfg.WavPath(), Transcribe, "de")
      case Fault(m) => Raise(w1, s.model, m)
      case Ok(t) => JobState(Translating(s.phase.model, t), w1, s.model)
  }

  /**
   * "Erstelle englische Übersetzung...", progress 70, checkpoint, then a
   * translation pass; the language passed is "en".
   */
  function TranslateStep(cfg: JobConfig, env: Backend, obs: seq<bool>, s: JobState): (r: JobState)
    requires s.phase.Translating?
    ensures Advances(cfg, s, r)
    ensures r.phase.Saving? ==> r.phase.german == s.phase.german && r.model == s.model
  {
    var w := Poll(obs, s.world.Emit(Status(TranslatingEnglish)).Emit(Progress(70)));
    if w.cancelled then
      Abort(w, s.model)
    else
      var w1 := w.Do(RunModel(cfg.WavPath(), Translate, "en"));
      match env.transcribe(s.phase.model, cfg.WavPath(), Translate, "en")
      case Fault(m) => Raise(w1, s.model, m)
      case Ok(t) => JobState(Saving(s.phase.german, t), w1, s.model)
  }

  /** `open(path, "w")` and one write of `content`. */
  function Save(env: Backend, path: string, content: string, w: World): (r: Result<World>)
    ensures r.Ok? <==> env.open(path) == Pass
    ensures r.Ok? ==> r.value == w.Do(WriteFile(path)).(files := w.files[path := content])
    ensures r.Fault? ==> r.message == env.open(path).message
  {
    match env.open(path)
    case Fail(m) => Fault(m)
    case Pass => Ok(w.Do(WriteFile(path)).(files := w.files[path := content]))
  }

  /**
   * The loop of `generate_srt` from cue `i + 1` on, over the cues of the
   * segments: before each cue the cancel flag is read, and once it is set no
   * further cue is written.
   */
  function WriteCues(obs: seq<bool>, path: string, cues: seq<string>, i: nat, w: World): (r: World)
    requires i <= |cues| && path in w.files
    ensures r.events == w.events && r.dirs == w.dirs && r.files.Keys == w.files.Keys
    ensures forall p :: p in w.files && p != path ==> r.files[p] == w.files[p]
    ensures w.actions <= r.actions
    ensures forall k :: |w.actions| <= k < |r.actions| ==> r.actions[k].CheckCancel?
    decreases |cues| - i
  {
    if i == |cues| then
      w
    else
      var w1 := Poll(obs, w);
      if w1.cancelled then
        w1
      else
        WriteCues(obs, path, cues, i + 1, w1.(files := w1.files[path := w1.files[path] + cues[i]]))
  }

  /** "Speichere Dateien...", then the checkpoint before the files are written. */
  function SaveStep(cfg: JobConfig, env: Backend, obs: seq<bool>, s: JobState): (r: JobState)
    requires s.phase.Saving?
    ensures r.phase.CleaningUp? || r.phase.Cancelled? || r.phase.Failed?
  {
    var w := Poll(obs, s.world.Emit(Status(SavingFiles)));
    if w.cancelled then
      Abort(w, s.model)
    else
      SaveFiles(cfg, env, obs, s.phase.german, s.phase.english, w, s.model)
  }

  /** The German text, the English text, then the subtitles of the English segments. */
  function SaveFiles(cfg: JobConfig, env: Backend, obs: seq<bool>, german: Transcription, english: Transcription,
                     w: World, model: Option<ModelHandle>): (r: JobState)
    ensures r.phase.CleaningUp? || r.phase.Failed?
  {
    match Save(env, cfg.GermanPath(), german.text, w)
    case Fault(m) => Raise(w, model, m)
    case Ok(w1) =>
      match Save(env, cfg.EnglishPath(), english.text, w1)
      case Fault(m) => Raise(w1, model, m)
      case Ok(w2) =>
        WriteSubtitles(cfg, env, obs, CueList(english.segments), w2, model)
  }

  /** `generate_srt`: the subtitle file is opened, then the `cues` are written one by one. */
  function WriteSubtitles(cfg: JobConfig, env: Backend, obs: seq<bool>, cues: seq<string>,
                          w: World, model: Option<ModelHandle>): (r: JobState)
    ensures r.phase.CleaningUp? || r.phase.Failed?
  {
    match Save(env, cfg.SubtitlePath(), "", w)
    case Fault(m) => Raise(w, model, m)
    case Ok(w1) => JobState(CleaningUp, WriteCues(obs, cfg.SubtitlePath(), cues, 0, w1), model)
  }

  /** Progress 100 and the finished signal. */
  function Finish(cfg: JobConfig, w: World, model: Option<ModelHandle>): JobState {
    JobState(Succeeded, w.Emit(Progress(100)).Emit(FinishedSignal(cfg)), model)
  }

  /**
   * The WAV file is removed if it is not to be kept and exists; a kept one
   * is named in a status. Then the run finishes.
   */
  function CleanStep(cfg: JobConfig, env: Backend, s: JobState): (r: JobState)
    requires s.phase.CleaningUp?
    ensures Advances(cfg, s, r)
    ensures r.phase.Succeeded? ==> (cfg.WavPath() in r.world.files <==> cfg.WavPath() in s.world.files && cfg.keepWav)
  {
    var wav := cfg.WavPath();
    var w := s.world;
    if !cfg.keepWav && w.Exists(wav) then
      match env.remove(wav)
      case Fail(m) => Raise(w, s.model, m)
      case Pass => Finish(cfg, w.Do(RemoveFile(wav)).(files := w.files - {wav}), s.model)
    else if cfg.keepWav then
      Finish(cfg, w.Emit(Status(WavKept(wav))), s.model)
    else
      Finish(cfg, w, s.model)
  }

  /** The world `w` reached by a phase that has emitted its banner and removed nothing. */
  ghost predicate BannerDone(cfg: JobConfig, s: JobState, w: World) {
    && w.events == s.world.events + Banner(cfg, s.phase)
    && s.world.files.Keys <= w.files.Keys
    && NoRemovalAfter(s.world.actions, w.actions)
  }

  lemma RaiseAdvances(cfg: JobConfig, s: JobState, w: World, m: string)
    requires 0 < Rank(s.phase) && BannerDone(cfg, s, w)
    ensures Advances(cfg, s, Raise(w, s.model, m))
  {
  }

  lemma AbortAdvances(cfg: JobConfig, s: JobState, w: World)
    requires 0 < Rank(s.phase) && BannerDone(cfg, s, w)
    requires |w.actions| > 0 && w.actions[|w.actions| - 1] == CheckCancel(true)
    ensures Advances(cfg, s, Abort(w, s.model))
  {
  }

  lemma GoOnAdvances(cfg: JobConfig, s: JobState, r: JobState)
    requires !r.phase.IsTerminal() && Rank(r.phase) == Rank(s.phase) - 1 && BannerDone(cfg, s, r.world)
    ensures Advances(cfg, s, r)
  {
  }

  lemma LoadAdvances(cfg: JobConfig, env: Backend, obs: seq<bool>, s: JobState)
    requires s.phase.Loading?
    ensures Advances(cfg, s, LoadStep(cfg, env, obs, s))
  {
    var w0 := UseCores(cfg, s.world);
    var w := Poll(obs, w0.Emit(Status(LoadingModel(cfg.modelCaption))).Emit(Progress(30)));
    assert w.events == s.world.events + Banner(cfg, s.phase);
    NoRemovalTrans(s.world.actions, w0.actions, w.actions);
    assert BannerDone(cfg, s, w);
    if w.cancelled {
      AbortAdvances(cfg, s, w);
    } else {
      LoadWeightsAdvance(cfg, env, Lookup(cfg.modelCaption), s, w);
    }
  }

  lemma LoadWeightsAdvance(cfg: JobConfig, env: Backend, e: Option<ModelEntry>, s: JobState, w: World)
    requires s.phase.Loading? && BannerDone(cfg, s, w)
    ensures Advances(cfg, s, LoadWeights(cfg, env, e, w, s.model))
  {
    if e.None? {
      RaiseAdvances(cfg, s, w, "'" + cfg.modelCaption + "'");
    } else {
      var w1 := w.Do(LoadModel(e.value.name, cfg.device));
      BannerKept(cfg, s, w, w1);
      var h := env.load(e.value.name, cfg.device);
      if h.Fault? {
        RaiseAdvances(cfg, s, w1, h.message);
      } else {
        GoOnAdvances(cfg, s, JobState(Transcribing(h.value), w1, Some(h.value)));
      }
    }
  }

  /** Removing nothing from `a` to `b` and from `b` to `c` removes nothing from `a` to `c`. */
  lemma NoRemovalTrans(a: seq<Action>, b: seq<Action>, c: seq<Action>)
    requires NoRemovalAfter(a, b) && NoRemovalAfter(b, c)
    ensures NoRemovalAfter(a, c)
  {
    forall i | |a| <= i < |c| ensures !c[i].RemoveFile? {
      if i < |b| {
        assert c[i] == b[i];
      }
    }
  }

  /** A world that only grew after the banner still has the banner done. */
  lemma BannerKept(cfg: JobConfig, s: JobState, w: World, w': World)
    requires BannerDone(cfg, s, w)
    requires w'.events == w.events && w.files.Keys <= w'.files.Keys && NoRemovalAfter(w.actions, w'.actions)
    ensures BannerDone(cfg, s, w')
  {
    NoRemovalTrans(s.world.actions, w.actions, w'.actions);
  }

  /** A successful save keeps the banner done. */
  lemma SaveKeeps(cfg: JobConfig, s: JobState, env: Backend, path: string, content: string, w: World)
    requires BannerDone(cfg, s, w) && Save(env, path, content, w).Ok?
    ensures BannerDone(cfg, s, Save(env, path, content, w).value)
  {
    BannerKept(cfg, s, w, Save(env, path, content, w).value);
  }

  lemma SaveAdvances(cfg: JobConfig, env: Backend, obs: seq<bool>, s: JobState)
    requires s.phase.Saving?
    ensures Advances(cfg, s, SaveStep(cfg, env, obs, s))
  {
    var w := Poll(obs, s.world.Emit(Status(SavingFiles)));
    assert BannerDone(cfg, s, w);
    if w.cancelled {
      AbortAdvances(cfg, s, w);
    } else {
      SaveFilesAdvance(cfg, env, obs, s, w);
    }
  }

  lemma SaveFilesAdvance(cfg: JobConfig, env: Backend, obs: seq<bool>, s: JobState, w: World)
    requires s.phase.Saving? && BannerDone(cfg, s, w)
    ensures Advances(cfg, s, SaveFiles(cfg, env, obs, s.phase.german, s.phase.english, w, s.model))
  {
    var r1 := Save(env, cfg.GermanPath(), s.phase.german.text, w);
    if r1.Fault? {
      RaiseAdvances(cfg, s, w, r1.message);
    } else {
      var w1 := r1.value;
      SaveKeeps(cfg, s, env, cfg.GermanPath(), s.phase.german.text, w);
      var r2 := Save(env, cfg.EnglishPath(), s.phase.english.text, w1);
      if r2.Fault? {
        RaiseAdvances(cfg, s, w1, r2.message);
      } else {
        SaveKeeps(cfg, s, env, cfg.EnglishPath(), s.phase.english.text, w1);
        SubtitlesAdvance(cfg, env, obs, s, r2.value, CueList(s.phase.english.segments));
      }
    }
  }

  /** The last stage of `SaveFiles`: the subtitle file is opened and its cues written. */
  lemma SubtitlesAdvance(cfg: JobConfig, env: Backend, obs: seq<bool>, s: JobState, w2: World, cues: seq<string>)
    requires s.phase.Saving? && BannerDone(cfg, s, w2)
    ensures Advances(cfg, s, WriteSubtitles(cfg, env, obs, cues, w2, s.model))
  {
    var r3 := Save(env, cfg.SubtitlePath(), "", w2);
    if r3.Fault? {
      RaiseAdvances(cfg, s, w2, r3.message);
    } else {
      var w3 := r3.value;
      SaveKeeps(cfg, s, env, cfg.SubtitlePath(), "", w2);
      var w4 := WriteCues(obs, cfg.SubtitlePath(), cues, 0, w3);
      BannerKept(cfg, s, w3, w4);
      GoOnAdvances(cfg, s, JobState(CleaningUp, w4, s.model));
    }
  }

  /** One phase of `run`. */
  function Step(cfg: JobConfig, env: Backend, obs: seq<bool>, s: JobState): (r: JobState)
    requires !s.phase.IsTerminal()
    ensures Advances(cfg, s, r)
  {
    match s.phase
    case Init => InitStep(cfg, env, s)
    case Extracting => ExtractStep(cfg, env, obs, s)
    case Loading => LoadAdvances(cfg, env, obs, s); LoadStep(cfg, env, obs, s)
    case Transcribing(_) => TranscribeStep(cfg, env, obs, s)
    case Translating(_, _) => TranslateStep(cfg, env, obs, s)
    case Saving(_, _) => SaveAdvances(cfg, env, obs, s); SaveStep(cfg, env, obs, s)
    case CleaningUp => CleanStep(cfg, env, s)
  }

  /** `run` from state `s` to its end. */
  function Run(cfg: JobConfig, env: Backend, obs: seq<bool>, s: JobState): (r: JobState)
    ensures r.phase.IsTerminal()
    decreases Rank(s.phase)
  {
    if s.phase.IsTerminal() then s else Run(cfg, env, obs, Step(cfg, env, obs, s))
  }

  /** A run of a worker that has not run before. */
  function Start(w: World): JobState {
    JobState(Init, w, None)
  }
}

/**
 * Particular runs of the transcription job: the undisturbed run, a run
 * cancelled before it starts, and a run cancelled while the subtitles are
 * written.
 */
module JobScenarios {
  import opened Wrappers
  import opened Text
  import opened Paths
  import opened Catalog
  import opened Srt
  import opened Job
  import opened JobProperties

  /** The four files of a job have four different names. */
  lemma OutputPathsDistinct(cfg: JobConfig)
    ensures cfg.WavPath() != cfg.GermanPath() && cfg.WavPath() != cfg.EnglishPath()
    ensures cfg.WavPath() != cfg.SubtitlePath() && cfg.GermanPath() != cfg.EnglishPath()
    ensures cfg.GermanPath() != cfg.SubtitlePath() && cfg.EnglishPath() != cfg.SubtitlePath()
  {
    var n := |cfg.base|;
    assert cfg.WavPath()[n + 3] == 'v' && cfg.SubtitlePath()[n + 3] == 't';
    assert cfg.GermanPath()[n + 1] == 'd' && cfg.EnglishPath()[n + 1] == 'e';
  }

  /** `cancel()` is never called while the job runs, nor before. */
  ghost predicate NeverCancelled(obs: seq<bool>, w: World) {
    !w.cancelled && forall j :: 0 <= j < |obs| ==> !obs[j]
  }

  /**
   * Of the `n` flag reads starting with read number `from`, the first `k`
   * miss the flag and read `k` (when `k < n`) sees `cancel()` called: `k`
   * is the number of reads before the first one that sees the flag, or `n`
   * when none of them does.
   */
  ghost predicate StopsAt(obs: seq<bool>, from: nat, n: nat, k: nat) {
    && k <= n
    && (forall j :: from <= j < from + k ==> !(j < |obs| && obs[j]))
    && (k < n ==> from + k < |obs| && obs[from + k])
  }

  /** Every run of reads has such a first read, or none within `n`. */
  lemma {:induction false} StopsAtExists(obs: seq<bool>, from: nat, n: nat) returns (k: nat)
    ensures StopsAt(obs, from, n, k)
    decreases n
  {
    if n == 0 || (from < |obs| && obs[from]) {
      k := 0;
    } else {
      k := StopsAtExists(obs, from + 1, n - 1);
      k := k + 1;
    }
  }

  /** ... and only one. */
  lemma StopsAtUnique(obs: seq<bool>, from: nat, n: nat, k1: nat, k2: nat)
    requires StopsAt(obs, from, n, k1) && StopsAt(obs, from, n, k2)
    ensures k1 == k2
  {
  }

  /**
   * The subtitle loop writes the cues up to the first flag read that sees
   * the flag set, and all of them when no read does: when the reads for
   * cues `i` to `n - 1` miss the flag and the read for cue `n` sees it (or
   * the cues end at `n`), the file ends up holding the first `n` cues.
   */
  lemma {:induction false} WriteCuesPrefix(obs: seq<bool>, path: string, cues: seq<string>, i: nat, w: World, n: nat)
    requires i <= n <= |cues| && path in w.files && w.files[path] == Concat(cues[..i]) && !w.cancelled
    requires StopsAt(obs, w.flagReads, |cues| - i, n - i)
    ensures var r := WriteCues(obs, path, cues, i, w);
            r.files[path] == Concat(cues[..n]) && (r.cancelled <==> n < |cues|)
    decreases |cues| - i
  {
    var r := WriteCues(obs, path, cues, i, w);
    if i < |cues| {
      var w1 := Poll(obs, w);
      if i == n {
        assert w1.cancelled && r == w1;
      } else {
        assert !w1.cancelled;
        var w2 := w1.(files := w1.files[path := w1.files[path] + cues[i]]);
        assert r == WriteCues(obs, path, cues, i + 1, w2);
        assert w2.flagReads == w.flagReads + 1;
        ConcatNext(cues, i);
        WriteCuesPrefix(obs, path, cues, i + 1, w2, n);
      }
    }
  }

  /** Without a cancel the subtitle loop writes every cue. */
  lemma {:induction false} WriteCuesAll(obs: seq<bool>, path: string, cues: seq<string>, i: nat, w: World)
    requires i <= |cues| && path in w.files && w.files[path] == Concat(cues[..i])
    requires NeverCancelled(obs, w)
    ensures var r := WriteCues(obs, path, cues, i, w);
            r.files[path] == Concat(cues) && NeverCancelled(obs, r)
    decreases |cues| - i
  {
    var r := WriteCues(obs, path, cues, i, w);
    if i == |cues| {
      assert cues[..i] == cues;
    } else {
      var w1 := Poll(obs, w);
      assert !w1.cancelled;
      var w2 := w1.(files := w1.files[path := w1.files[path] + cues[i]]);
      assert r == WriteCues(obs, path, cues, i + 1, w2);
      ConcatNext(cues, i);
      WriteCuesAll(obs, path, cues, i + 1, w2);
    }
  }

  lemma RunUnfold(cfg: JobConfig, env: Backend, obs: seq<bool>, s: JobState)
    requires !s.phase.IsTerminal()
    ensures Run(cfg, env, obs, s) == Run(cfg, env, obs, Step(cfg, env, obs, s))
  {
  }

  lemma RunDone(cfg: JobConfig, env: Backend, obs: seq<bool>, s: JobState)
    requires s.phase.IsTerminal()
    ensures Run(cfg, env, obs, s) == s
  {
  }

  /** Everything the backend is asked for succeeds. */
  ghost predicate Smooth(cfg: JobConfig, env: Backend, w: World) {
    var dir := DirName(cfg.base);
    var wav := cfg.WavPath();
    && dir != ""
    && (w.Exists(dir) || env.makeDirs(dir) == Pass)
    && env.extract(cfg.video, wav).Ok?
    && Lookup(cfg.modelCaption).Some?
    && env.load(Lookup(cfg.modelCaption).value.name, cfg.device).Ok?
    && var h := env.load(Lookup(cfg.modelCaption).value.name, cfg.device).value;
    && env.transcribe(h, wav, Transcribe, "de").Ok?
    && env.transcribe(h, wav, Translate, "en").Ok?
    && env.open(cfg.GermanPath()) == Pass && env.open(cfg.EnglishPath()) == Pass
    && env.open(cfg.SubtitlePath()) == Pass
    && env.remove(wav) == Pass
  }

  lemma InitOk(cfg: JobConfig, env: Backend, obs: seq<bool>, s: JobState)
    requires s.phase.Init? && DirName(cfg.base) != ""
    requires s.world.Exists(DirName(cfg.base)) || env.makeDirs(DirName(cfg.base)) == Pass
    ensures var r := Step(cfg, env, obs, s);
            && r.phase == Extracting && r.model == s.model && r.world.files == s.world.files
            && r.world.cancelled == s.world.cancelled && r.world.flagReads == s.world.flagReads
            && r.world.actions == s.world.actions
               + (if s.world.Exists(DirName(cfg.base)) then [] else [MakeDirs(DirName(cfg.base))])
            && r.world.events == s.world.events + Banner(cfg, s.phase)
  {
  }

  lemma ExtractOk(cfg: JobConfig, env: Backend, obs: seq<bool>, s: JobState)
    requires s.phase.Extracting? && NeverCancelled(obs, s.world) && env.extract(cfg.video, cfg.WavPath()).Ok?
    ensures var r := Step(cfg, env, obs, s);
            && r.phase == Loading && r.model == s.model && NeverCancelled(obs, r.world)
            && r.world.files == s.world.files[cfg.WavPath() := env.extract(cfg.video, cfg.WavPath()).value]
            && r.world.events == s.world.events + Banner(cfg, s.phase)
  {
    var w := Poll(obs, s.world.Emit(Status(ExtractingAudio)).Emit(Progress(10)));
    assert !w.cancelled;
  }

  lemma LoadOk(cfg: JobConfig, env: Backend, obs: seq<bool>, s: JobState)
    requires s.phase.Loading? && NeverCancelled(obs, s.world) && Lookup(cfg.modelCaption).Some?
    requires env.load(Lookup(cfg.modelCaption).value.name, cfg.device).Ok?
    ensures var h := env.load(Lookup(cfg.modelCaption).value.name, cfg.device).value;
            var r := Step(cfg, env, obs, s);
            && r.phase == Transcribing(h) && r.model == Some(h) && NeverCancelled(obs, r.world)
            && r.world.files == s.world.files
            && r.world.events == s.world.events + Banner(cfg, s.phase)
  {
    StepLoading(cfg, env, obs, s);
    LoadStepOk(cfg, env, obs, s);
    GoOnEvents(cfg, s, Step(cfg, env, obs, s));
  }

  lemma StepLoading(cfg: JobConfig, env: Backend, obs: seq<bool>, s: JobState)
    requires s.phase.Loading?
    ensures Step(cfg, env, obs, s) == LoadStep(cfg, env, obs, s)
  {
  }

  lemma LoadStepOk(cfg: JobConfig, env: Backend, obs: seq<bool>, s: JobState)
    requires s.phase.Loading? && NeverCancelled(obs, s.world) && Lookup(cfg.modelCaption).Some?
    requires env.load(Lookup(cfg.modelCaption).value.name, cfg.device).Ok?
    ensures var h := env.load(Lookup(cfg.modelCaption).value.name, cfg.device).value;
            var r := LoadStep(cfg, env, obs, s);
            && r.phase == Transcribing(h) && r.model == Some(h) && NeverCancelled(obs, r.world)
            && r.world.files == s.world.files
  {
    var w0 := UseCores(cfg, s.world);
    assert NeverCancelled(obs, w0);
    var w := Poll(obs, w0.Emit(Status(LoadingModel(cfg.modelCaption))).Emit(Progress(30)));
    assert !w.cancelled;
  }

  /** A step that does not end the run appends exactly its banner. */
  lemma GoOnEvents(cfg: JobConfig, s: JobState, r: JobState)
    requires Advances(cfg, s, r) && !r.phase.IsTerminal()
    ensures r.world.events == s.world.events + Banner(cfg, s.phase)
  {
    assert Closing(cfg, r.phase) == [];
  }

  lemma TranscribeOk(cfg: JobConfig, env: Backend, obs: seq<bool>, s: JobState)
    requires s.phase.Transcribing? && NeverCancelled(obs, s.world)
    requires env.transcribe(s.phase.model, cfg.WavPath(), Transcribe, "de").Ok?
    ensures var r := Step(cfg, env, obs, s);
            && r.phase == Translating(s.phase.model, env.transcribe(s.phase.model, cfg.WavPath(), Transcribe, "de").value)
            && r.model == s.model && NeverCancelled(obs, r.world) && r.world.files == s.world.files
            && r.world.events == s.world.events + Banner(cfg, s.phase)
  {
    var w := Poll(obs, s.world.Emit(Status(TranscribingGerman)).Emit(Progress(50)));
    assert !w.cancelled;
  }

  lemma TranslateOk(cfg: JobConfig, env: Backend, obs: seq<bool>, s: JobState)
    requires s.phase.Translating? && NeverCancelled(obs, s.world)
    requires env.transcribe(s.phase.model, cfg.WavPath(), Translate, "en").Ok?
    ensures var r := Step(cfg, env, obs, s);
            && r.phase == Saving(s.phase.german, env.transcribe(s.phase.model, cfg.WavPath(), Translate, "en").value)
            && r.model == s.model && NeverCancelled(obs, r.world) && r.world.files == s.world.files
            && r.world.events == s.world.events + Banner(cfg, s.phase)
  {
    var w := Poll(obs, s.world.Emit(Status(TranslatingEnglish)).Emit(Progress(70)));
    assert !w.cancelled;
  }

  /** The saving phase when every file can be opened and the flag is not seen at its checkpoint. */
  lemma SaveOk(cfg: JobConfig, env: Backend, obs: seq<bool>, s: JobState)
    requires s.phase.Saving? && !s.world.cancelled
    requires s.world.flagReads >= |obs| || !obs[s.world.flagReads]
    requires env.open(cfg.GermanPath()) == Pass && env.open(cfg.EnglishPath()) == Pass
    requires env.open(cfg.SubtitlePath()) == Pass
    ensures var r := SaveStep(cfg, env, obs, s);
            var segs := s.phase.english.segments;
            && r.phase == CleaningUp && r.model == s.model
            && s.world.files.Keys + {cfg.GermanPath(), cfg.EnglishPath(), cfg.SubtitlePath()} == r.world.files.Keys
            && r.world.files[cfg.GermanPath()] == s.phase.german.text
            && r.world.files[cfg.EnglishPath()] == s.phase.english.text
            && (exists k: nat :: StopsAt(obs, s.world.flagReads + 1, |segs|, k)
                            && r.world.files[cfg.SubtitlePath()] == Render(segs[..k]))
            && (NeverCancelled(obs, s.world) ==> r.world.files[cfg.SubtitlePath()] == Render(segs))
  {
    var w := Poll(obs, s.world.Emit(Status(SavingFiles)));
    assert !w.cancelled && w.files == s.world.files && w.flagReads == s.world.flagReads + 1;
    assert SaveStep(cfg, env, obs, s) == SaveFiles(cfg, env, obs, s.phase.german, s.phase.english, w, s.model);
    assert NeverCancelled(obs, s.world) ==> NeverCancelled(obs, w);
    SaveAllPass(cfg, env, obs, s.phase.german, s.phase.english, w, s.model);
  }

  /**
   * All three files open: the German text, then the English text, then the
   * subtitle file, which holds the cues before the first flag read that
   * sees the flag.
   */
  lemma SaveAllPass(cfg: JobConfig, env: Backend, obs: seq<bool>, german: Transcription, english: Transcription,
                    w: World, model: Option<ModelHandle>)
    requires !w.cancelled
    requires env.open(cfg.GermanPath()) == Pass && env.open(cfg.EnglishPath()) == Pass
    requires env.open(cfg.SubtitlePath()) == Pass
    ensures var r := SaveFiles(cfg, env, obs, german, english, w, model);
            var segs := english.segments;
            && r.phase == CleaningUp && r.model == model
            && r.world.files.Keys == w.files.Keys + {cfg.GermanPath(), cfg.EnglishPath(), cfg.SubtitlePath()}
            && r.world.files[cfg.GermanPath()] == german.text
            && r.world.files[cfg.EnglishPath()] == english.text
            && (exists k: nat :: StopsAt(obs, w.flagReads, |segs|, k) && r.world.files[cfg.SubtitlePath()] == Render(segs[..k]))
            && (NeverCancelled(obs, w) ==> r.world.files[cfg.SubtitlePath()] == Render(segs))
            && w.actions + [WriteFile(cfg.GermanPath()), WriteFile(cfg.EnglishPath()), WriteFile(cfg.SubtitlePath())] <= r.world.actions
  {
    var segs := english.segments;
    TextsFirst(cfg, env, obs, german, english, w, model);
    var k := TextsThenSubtitles(cfg, env, obs, german, english, CueList(segs), w, model);
    CueListPrefix(segs, k);
    SavesInOrder(cfg, env, obs, german, english, w, model);
  }

  /** The German text is written first, the English text second and the subtitle file third. */
  lemma SavesInOrder(cfg: JobConfig, env: Backend, obs: seq<bool>, german: Transcription, english: Transcription,
                     w: World, model: Option<ModelHandle>)
    requires env.open(cfg.GermanPath()) == Pass && env.open(cfg.EnglishPath()) == Pass
    requires env.open(cfg.SubtitlePath()) == Pass
    ensures w.actions + [WriteFile(cfg.GermanPath()), WriteFile(cfg.EnglishPath()), WriteFile(cfg.SubtitlePath())]
            <= SaveFiles(cfg, env, obs, german, english, w, model).world.actions
  {
    TextsFirst(cfg, env, obs, german, english, w, model);
    var w2 := TextsSaved(cfg, german, english, w);
    SubtitleOpened(cfg, env, obs, CueList(english.segments), w2, model);
    var g, e, t := WriteFile(cfg.GermanPath()), WriteFile(cfg.EnglishPath()), WriteFile(cfg.SubtitlePath());
    assert [g, e] + [t] == [g, e, t];
    Assoc3(w.actions, [g, e], [t]);
  }

  /** Opening the subtitle file is the next action, whatever the cues. */
  lemma SubtitleOpened(cfg: JobConfig, env: Backend, obs: seq<bool>, cues: seq<string>, w: World, model: Option<ModelHandle>)
    requires env.open(cfg.SubtitlePath()) == Pass
    ensures w.actions + [WriteFile(cfg.SubtitlePath())] <= WriteSubtitles(cfg, env, obs, cues, w, model).world.actions
  {
    var sp := cfg.SubtitlePath();
    var w1 := w.Do(WriteFile(sp)).(files := w.files[sp := ""]);
    assert Save(env, sp, "", w) == Ok(w1);
  }

  /** The world after the German and the English text are written. */
  function TextsSaved(cfg: JobConfig, german: Transcription, english: Transcription, w: World): (r: World)
    ensures r.flagReads == w.flagReads && r.cancelled == w.cancelled
    ensures r.actions == w.actions + [WriteFile(cfg.GermanPath()), WriteFile(cfg.EnglishPath())]
    ensures r.files == w.files[cfg.GermanPath() := german.text][cfg.EnglishPath() := english.text]
  {
    var w1 := w.Do(WriteFile(cfg.GermanPath())).(files := w.files[cfg.GermanPath() := german.text]);
    w1.Do(WriteFile(cfg.EnglishPath())).(files := w1.files[cfg.EnglishPath() := english.text])
  }

  /** When both text files open, saving goes on to the subtitles of the English segments. */
  lemma TextsFirst(cfg: JobConfig, env: Backend, obs: seq<bool>, german: Transcription, english: Transcription,
                   w: World, model: Option<ModelHandle>)
    requires env.open(cfg.GermanPath()) == Pass && env.open(cfg.EnglishPath()) == Pass
    ensures SaveFiles(cfg, env, obs, german, english, w, model)
         == WriteSubtitles(cfg, env, obs, CueList(english.segments), TextsSaved(cfg, german, english, w), model)
  {
    var w1 := w.Do(WriteFile(cfg.GermanPath())).(files := w.files[cfg.GermanPath() := german.text]);
    assert Save(env, cfg.GermanPath(), german.text, w) == Ok(w1);
    assert Save(env, cfg.EnglishPath(), english.text, w1) == Ok(TextsSaved(cfg, german, english, w));
  }

  /** The two texts, then the subtitle `cues` before the first flag read that sees the flag. */
  lemma TextsThenSubtitles(cfg: JobConfig, env: Backend, obs: seq<bool>, german: Transcription, english: Transcription,
                           cues: seq<string>, w: World, model: Option<ModelHandle>) returns (k: nat)
    requires !w.cancelled && env.open(cfg.SubtitlePath()) == Pass
    ensures var r := WriteSubtitles(cfg, env, obs, cues, TextsSaved(cfg, german, english, w), model);
            && r.phase == CleaningUp && r.model == model
            && r.world.files.Keys == w.files.Keys + {cfg.GermanPath(), cfg.EnglishPath(), cfg.SubtitlePath()}
            && r.world.files[cfg.GermanPath()] == german.text
            && r.world.files[cfg.EnglishPath()] == english.text
            && StopsAt(obs, w.flagReads, |cues|, k) && r.world.files[cfg.SubtitlePath()] == Concat(cues[..k])
            && (NeverCancelled(obs, w) ==> r.world.files[cfg.SubtitlePath()] == Concat(cues))
  {
    OutputPathsDistinct(cfg);
    var w2 := TextsSaved(cfg, german, english, w);
    k := SubtitlesWritten(cfg, env, obs, cues, w2, model);
    assert w2.files[cfg.GermanPath()] == german.text;
    if NeverCancelled(obs, w) {
      assert NeverCancelled(obs, w2);
    }
  }

  /** The subtitle file opens: it holds the cues before the first flag read that sees the flag, and no other file changes. */
  lemma SubtitlesWritten(cfg: JobConfig, env: Backend, obs: seq<bool>, cues: seq<string>, w: World, model: Option<ModelHandle>)
    returns (k: nat)
    requires !w.cancelled && env.open(cfg.SubtitlePath()) == Pass
    ensures var r := WriteSubtitles(cfg, env, obs, cues, w, model);
            && r.phase == CleaningUp && r.model == model
            && r.world.files.Keys == w.files.Keys + {cfg.SubtitlePath()}
            && (forall p :: p in w.files && p != cfg.SubtitlePath() ==> r.world.files[p] == w.files[p])
            && StopsAt(obs, w.flagReads, |cues|, k) && r.world.files[cfg.SubtitlePath()] == Concat(cues[..k])
            && (NeverCancelled(obs, w) ==> r.world.files[cfg.SubtitlePath()] == Concat(cues))
  {
    var sp := cfg.SubtitlePath();
    var w1 := w.Do(WriteFile(sp)).(files := w.files[sp := ""]);
    assert Save(env, sp, "", w) == Ok(w1);
    k := StopsAtExists(obs, w.flagReads, |cues|);
    assert cues[..0] == [];
    WriteCuesPrefix(obs, sp, cues, 0, w1, k);
    if NeverCancelled(obs, w) {
      WriteCuesAll(obs, sp, cues, 0, w1);
    }
  }

  lemma StepSaving(cfg: JobConfig, env: Backend, obs: seq<bool>, s: JobState)
    requires s.phase.Saving?
    ensures Step(cfg, env, obs, s) == SaveStep(cfg, env, obs, s)
  {
    assert !s.phase.IsTerminal();
    assert s.phase == Saving(s.phase.german, s.phase.english);
  }

  lemma CleanOk(cfg: JobConfig, env: Backend, obs: seq<bool>, s: JobState)
    requires s.phase.CleaningUp? && cfg.WavPath() in s.world.files && env.remove(cfg.WavPath()) == Pass
    ensures var r := Step(cfg, env, obs, s);
            && r.phase == Succeeded && r.model == s.model
            && r.world.files == (if cfg.keepWav then s.world.files else s.world.files - {cfg.WavPath()})
            && r.world.events == s.world.events + (Banner(cfg, CleaningUp) + Closing(cfg, Succeeded))
            && |r.world.events| > 0 && Last(r.world.events) == FinishedSignal(cfg)
  {
  }

  /** Removing one key keeps the others. */
  lemma KeepOrDrop<K, V>(m: map<K, V>, x: K, keep: bool, r: map<K, V>, a: K, b: K, c: K)
    requires x in m && a in m && b in m && c in m && x != a && x != b && x != c
    requires r == if keep then m else m - {x}
    ensures (x in r <==> keep) && a in r && b in r && c in r && r[a] == m[a] && r[b] == m[b] && r[c] == m[c]
  {
  }
  /** Appended pieces, seen as one. */
  lemma Chain2<T>(e0: seq<T>, e1: seq<T>, e2: seq<T>, b0: seq<T>, b1: seq<T>)
    requires e1 == e0 + b0 && e2 == e1 + b1
    ensures e2 == e0 + (b0 + b1)
  {
  }

  lemma Chain3<T>(e0: seq<T>, e1: seq<T>, e2: seq<T>, e3: seq<T>, b0: seq<T>, b1: seq<T>, b2: seq<T>)
    requires e1 == e0 + b0 && e2 == e1 + b1 && e3 == e2 + b2
    ensures e3 == e0 + (b0 + b1 + b2)
  {
  }

  lemma Splice<T>(e0: seq<T>, e2: seq<T>, e5: seq<T>, b0: seq<T>, b1: seq<T>, b2: seq<T>, b3: seq<T>, b4: seq<T>)
    requires e2 == e0 + (b0 + b1) && e5 == e2 + (b2 + b3 + b4)
    ensures e5 == e0 + (b0 + b1 + b2 + b3 + b4)
  {
  }

  /** An undisturbed run up to the model loading. */
  lemma HappyUntilLoading(cfg: JobConfig, env: Backend, obs: seq<bool>, w: World) returns (s: JobState)
    requires Smooth(cfg, env, w) && NeverCancelled(obs, w)
    ensures && Run(cfg, env, obs, Start(w)) == Run(cfg, env, obs, s)
            && s.phase == Loading && s.model == None
            && NeverCancelled(obs, s.world) && cfg.WavPath() in s.world.files
            && s.world.events == w.events + (Banner(cfg, Init) + Banner(cfg, Extracting))
  {
    var s0 := Start(w);
    var s1 := Step(cfg, env, obs, s0);
    InitOk(cfg, env, obs, s0);
    s := Step(cfg, env, obs, s1);
    ExtractOk(cfg, env, obs, s1);
    RunUnfold(cfg, env, obs, s0);
    RunUnfold(cfg, env, obs, s1);
    Chain2(w.events, s1.world.events, s.world.events, Banner(cfg, Init), Banner(cfg, Extracting));
  }

  /** An undisturbed run from the model loading up to the saving phase. */
  lemma HappyLoadToSave(cfg: JobConfig, env: Backend, obs: seq<bool>, s: JobState) returns (r: JobState)
    requires s.phase == Loading && NeverCancelled(obs, s.world) && cfg.WavPath() in s.world.files
    requires Lookup(cfg.modelCaption).Some? && env.load(Lookup(cfg.modelCaption).value.name, cfg.device).Ok?
    requires var h := env.load(Lookup(cfg.modelCaption).value.name, cfg.device).value;
             env.transcribe(h, cfg.WavPath(), Transcribe, "de").Ok? && env.transcribe(h, cfg.WavPath(), Translate, "en").Ok?
    ensures var h := env.load(Lookup(cfg.modelCaption).value.name, cfg.device).value;
            var de := env.transcribe(h, cfg.WavPath(), Transcribe, "de").value;
            var en := env.transcribe(h, cfg.WavPath(), Translate, "en").value;
            && Run(cfg, env, obs, s) == Run(cfg, env, obs, r)
            && r.phase == Saving(de, en) && r.model == Some(h)
            && NeverCancelled(obs, r.world) && cfg.WavPath() in r.world.files
            && r.world.events == s.world.events + (Banner(cfg, Loading) + Banner(cfg, Transcribing(h))
                                                   + Banner(cfg, Translating(h, de)))
  {
    var h := env.load(Lookup(cfg.modelCaption).value.name, cfg.device).value;
    var s1 := Step(cfg, env, obs, s);
    LoadOk(cfg, env, obs, s);
    var s2 := Step(cfg, env, obs, s1);
    TranscribeOk(cfg, env, obs, s1);
    r := Step(cfg, env, obs, s2);
    TranslateOk(cfg, env, obs, s2);
    RunUnfold(cfg, env, obs, s);
    RunUnfold(cfg, env, obs, s1);
    RunUnfold(cfg, env, obs, s2);
    Chain3(s.world.events, s1.world.events, s2.world.events, r.world.events,
           Banner(cfg, Loading), Banner(cfg, Transcribing(h)), Banner(cfg, Translating(h, s2.phase.german)));
  }

  /** An undisturbed run up to the saving phase. */
  lemma HappyUntilSaving(cfg: JobConfig, env: Backend, obs: seq<bool>, w: World) returns (s: JobState)
    requires Smooth(cfg, env, w) && NeverCancelled(obs, w)
    ensures var h := env.load(Lookup(cfg.modelCaption).value.name, cfg.device).value;
            var de := env.transcribe(h, cfg.WavPath(), Transcribe, "de").value;
            var en := env.transcribe(h, cfg.WavPath(), Translate, "en").value;
            && Run(cfg, env, obs, Start(w)) == Run(cfg, env, obs, s)
            && s.phase == Saving(de, en) && s.model == Some(h)
            && NeverCancelled(obs, s.world) && cfg.WavPath() in s.world.files
            && s.world.events == w.events + (Banner(cfg, Init) + Banner(cfg, Extracting) + Banner(cfg, Loading)
                                             + Banner(cfg, Transcribing(h)) + Banner(cfg, Translating(h, de)))
  {
    var h := env.load(Lookup(cfg.modelCaption).value.name, cfg.device).value;
    var de := env.transcribe(h, cfg.WavPath(), Transcribe, "de").value;
    var s2 := HappyUntilLoading(cfg, env, obs, w);
    s := HappyLoadToSave(cfg, env, obs, s2);
    Splice(w.events, s2.world.events, s.world.events, Banner(cfg, Init), Banner(cfg, Extracting),
           Banner(cfg, Loading), Banner(cfg, Transcribing(h)), Banner(cfg, Translating(h, de)));
  }

  /** An undisturbed run from the saving phase on. */
  lemma HappyFromSaving(cfg: JobConfig, env: Backend, obs: seq<bool>, s: JobState)
    requires s.phase.Saving? && NeverCancelled(obs, s.world) && cfg.WavPath() in s.world.files
    requires env.open(cfg.GermanPath()) == Pass && env.open(cfg.EnglishPath()) == Pass
    requires env.open(cfg.SubtitlePath()) == Pass && env.remove(cfg.WavPath()) == Pass
    ensures var r := Run(cfg, env, obs, s);
            && r.phase.Succeeded? && r.model == s.model
            && r.world.events == s.world.events + (Banner(cfg, s.phase) + (Banner(cfg, CleaningUp) + Closing(cfg, Succeeded)))
            && cfg.GermanPath() in r.world.files && r.world.files[cfg.GermanPath()] == s.phase.german.text
            && cfg.EnglishPath() in r.world.files && r.world.files[cfg.EnglishPath()] == s.phase.english.text
            && cfg.SubtitlePath() in r.world.files && r.world.files[cfg.SubtitlePath()] == Render(s.phase.english.segments)
            && (cfg.WavPath() in r.world.files <==> cfg.keepWav)
  {
    OutputPathsDistinct(cfg);
    var s1 := SavedUndisturbed(cfg, env, obs, s);
    RunUnfold(cfg, env, obs, s);
    CleanRun(cfg, env, obs, s1);
    var r := Run(cfg, env, obs, s1);
    Assoc3(s.world.events, Banner(cfg, s.phase), Banner(cfg, CleaningUp) + Closing(cfg, Succeeded));
    KeepOrDrop(s1.world.files, cfg.WavPath(), cfg.keepWav, r.world.files, cfg.GermanPath(), cfg.EnglishPath(), cfg.SubtitlePath());
  }

  /** The saving step of an undisturbed run, as seen by the clean-up phase after it. */
  lemma SavedUndisturbed(cfg: JobConfig, env: Backend, obs: seq<bool>, s: JobState) returns (s1: JobState)
    requires s.phase.Saving? && NeverCancelled(obs, s.world) && cfg.WavPath() in s.world.files
    requires env.open(cfg.GermanPath()) == Pass && env.open(cfg.EnglishPath()) == Pass
    requires env.open(cfg.SubtitlePath()) == Pass
    ensures s1 == Step(cfg, env, obs, s)
    ensures s1.phase == CleaningUp && s1.model == s.model
    ensures s1.world.events == s.world.events + Banner(cfg, s.phase)
    ensures cfg.WavPath() in s1.world.files
    ensures cfg.GermanPath() in s1.world.files && s1.world.files[cfg.GermanPath()] == s.phase.german.text
    ensures cfg.EnglishPath() in s1.world.files && s1.world.files[cfg.EnglishPath()] == s.phase.english.text
    ensures cfg.SubtitlePath() in s1.world.files && s1.world.files[cfg.SubtitlePath()] == Render(s.phase.english.segments)
  {
    s1 := Step(cfg, env, obs, s);
    SaveOk(cfg, env, obs, s);
    StepSaving(cfg, env, obs, s);
    SaveAdvances(cfg, env, obs, s);
    GoOnEvents(cfg, s, s1);
  }

  /** The run from the clean-up phase on, when the WAV file can be removed. */
  lemma CleanRun(cfg: JobConfig, env: Backend, obs: seq<bool>, s: JobState)
    requires s.phase.CleaningUp? && cfg.WavPath() in s.world.files && env.remove(cfg.WavPath()) == Pass
    ensures var r := Run(cfg, env, obs, s);
            && r.phase.Succeeded? && r.model == s.model
            && r.world.events == s.world.events + (Banner(cfg, CleaningUp) + Closing(cfg, Succeeded))
            && |r.world.events| > 0 && Last(r.world.events) == FinishedSignal(cfg)
            && r.world.files == (if cfg.keepWav then s.world.files else s.world.files - {cfg.WavPath()})
  {
    CleanOk(cfg, env, obs, s);
    RunUnfold(cfg, env, obs, s);
    RunDone(cfg, env, obs, Step(cfg, env, obs, s));
  }

  /**
   * An undisturbed run: the signals come in their fixed order with progress
   * 10, 30, 50, 70, 100 and one finished signal; the German text, the
   * English text and the subtitles of the English segments are written; the
   * WAV file is left only when it is to be kept.
   */
  lemma HappyPath(cfg: JobConfig, env: Backend, obs: seq<bool>, w: World)
    requires Smooth(cfg, env, w) && NeverCancelled(obs, w)
    ensures var r := Run(cfg, env, obs, Start(w));
            var h := env.load(Lookup(cfg.modelCaption).value.name, cfg.device).value;
            var de := env.transcribe(h, cfg.WavPath(), Transcribe, "de").value;
            var en := env.transcribe(h, cfg.WavPath(), Translate, "en").value;
            && r.phase.Succeeded?
            && r.model == Some(h)
            && r.world.events == w.events + HappyBanners(cfg)
            && cfg.GermanPath() in r.world.files && r.world.files[cfg.GermanPath()] == de.text
            && cfg.EnglishPath() in r.world.files && r.world.files[cfg.EnglishPath()] == en.text
            && cfg.SubtitlePath() in r.world.files && r.world.files[cfg.SubtitlePath()] == Render(en.segments)
            && (cfg.WavPath() in r.world.files <==> cfg.keepWav)
  {
    var h := env.load(Lookup(cfg.modelCaption).value.name, cfg.device).value;
    var de := env.transcribe(h, cfg.WavPath(), Transcribe, "de").value;
    var en := env.transcribe(h, cfg.WavPath(), Translate, "en").value;
    var s := HappyUntilSaving(cfg, env, obs, w);
    HappyFromSaving(cfg, env, obs, s);
    HappyBannersAre(cfg, h, de, en);
    Assoc3(w.events, Banner(cfg, Init) + Banner(cfg, Extracting) + Banner(cfg, Loading)
                     + Banner(cfg, Transcribing(h)) + Banner(cfg, Translating(h, de)),
           Banner(cfg, Saving(de, en)) + (Banner(cfg, CleaningUp) + Closing(cfg, Succeeded)));
  }

  lemma Assoc3<T>(a: seq<T>, b: seq<T>, c: seq<T>)
    ensures a + b + c == a + (b + c)
  {
  }

  /** The signals of an undisturbed run, in order. */
  function HappyBanners(cfg: JobConfig): seq<Event> {
    [Status(Initialising), Status(ExtractingAudio), Progress(10)]
    + ThreadNotice(cfg)
    + [Status(LoadingModel(cfg.modelCaption)), Progress(30),
       Status(TranscribingGerman), Progress(50),
       Status(TranslatingEnglish), Progress(70),
       Status(SavingFiles)]
    + KeptNotice(cfg)
    + [Progress(100), FinishedSignal(cfg)]
  }

  /** The banners of the seven phases and the closing of a success are the signals of an undisturbed run. */
  lemma HappyBannersAre(cfg: JobConfig, h: ModelHandle, de: Transcription, en: Transcription)
    ensures (Banner(cfg, Init) + Banner(cfg, Extracting) + Banner(cfg, Loading) + Banner(cfg, Transcribing(h))
            + Banner(cfg, Translating(h, de))) + (Banner(cfg, Saving(de, en)) + (Banner(cfg, CleaningUp) + Closing(cfg, Succeeded)))
            == HappyBanners(cfg)
  {
  }

  /**
   * `cancel()` called before the run starts: the run initialises, sends
   * "Extrahiere Audio..." and progress 10, sees the flag and ends with the
   * cancel error; no audio is extracted and no file changes.
   */
  lemma CancelBeforeStart(cfg: JobConfig, env: Backend, obs: seq<bool>, w: World)
    requires w.cancelled
    requires DirName(cfg.base) != "" && (w.Exists(DirName(cfg.base)) || env.makeDirs(DirName(cfg.base)) == Pass)
    ensures var r := Run(cfg, env, obs, Start(w));
            && r.phase.Cancelled?
            && r.world.events == w.events
               + [Status(Initialising), Status(ExtractingAudio), Progress(10), Error(UserCancel)]
            && r.world.files == w.files
            && r.world.actions == w.actions
               + (if w.Exists(DirName(cfg.base)) then [] else [MakeDirs(DirName(cfg.base))])
               + [CheckCancel(true)]
  {
    var s0 := Start(w);
    var s1 := Step(cfg, env, obs, s0);
    InitOk(cfg, env, obs, s0);
    var s2 := Step(cfg, env, obs, s1);
    assert s2.phase.Cancelled?;
    RunUnfold(cfg, env, obs, s0);
    RunUnfold(cfg, env, obs, s1);
    RunDone(cfg, env, obs, s2);
  }

  /**
   * A cancel seen while the subtitles are written only cuts the subtitle
   * file short, after the cues whose flag reads passed: the run still
   * removes or keeps the WAV file, sends progress 100 and ends with the
   * finished signal.
   */
  lemma SubtitleCancelStillFinishes(cfg: JobConfig, env: Backend, obs: seq<bool>, s: JobState)
    requires s.phase.Saving? && !s.world.cancelled && cfg.WavPath() in s.world.files
    requires s.world.flagReads >= |obs| || !obs[s.world.flagReads]
    requires env.open(cfg.GermanPath()) == Pass && env.open(cfg.EnglishPath()) == Pass
    requires env.open(cfg.SubtitlePath()) == Pass && env.remove(cfg.WavPath()) == Pass
    ensures var r := Run(cfg, env, obs, s);
            var segs := s.phase.english.segments;
            && r.phase.Succeeded?
            && |r.world.events| > 0 && Last(r.world.events) == FinishedSignal(cfg)
            && cfg.SubtitlePath() in r.world.files
            && exists k: nat :: StopsAt(obs, s.world.flagReads + 1, |segs|, k) && r.world.files[cfg.SubtitlePath()] == Render(segs[..k])
  {
    OutputPathsDistinct(cfg);
    var segs := s.phase.english.segments;
    var s1 := Step(cfg, env, obs, s);
    SaveOk(cfg, env, obs, s);
    StepSaving(cfg, env, obs, s);
    RunUnfold(cfg, env, obs, s);
    CleanRun(cfg, env, obs, s1);
    var r := Run(cfg, env, obs, s1);
    KeepOrDrop(s1.world.files, cfg.WavPath(), cfg.keepWav, r.world.files, cfg.GermanPath(), cfg.EnglishPath(), cfg.SubtitlePath());
  }
}

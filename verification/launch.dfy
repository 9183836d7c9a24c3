/**
 * The decisions the main window takes around a job: whether pressing Start
 * launches a worker and with which arguments, the base name suggested for
 * a chosen video, and the extension filter for a dragged file.
 */
module Launch {
  import opened Wrappers
  import opened Text
  import opened Paths
  import opened Catalog
  import opened Job

  /**
   * What the window holds when Start is pressed. `present` is the set of
   * paths that exist; `leaveFree` is the parsed content of the core field,
   * None where `int()` raises `ValueError`; `overwriteConfirmed` is the
   * answer to the overwrite question.
   */
  datatype StartForm = StartForm(
    videoPath: Option<string>,
    outputDir: string,
    baseInput: string,
    leaveFree: Option<int>,
    totalCores: int,
    present: set<string>,
    overwriteConfirmed: bool,
    gpuSelected: bool,
    probe: CudaProbe,
    caption: string,
    keepWav: bool)

  /** Why Start did not launch a worker, in the order the checks run. */
  datatype Refusal =
    | NoVideo
    | VideoMissing(path: string)
    | NoOutputDir
    | NoBaseName
    | BadCoreCount
    | TooManyCoresLeft(total: int)
    | OverwriteDeclined(names: seq<string>)
    | UnknownModel(caption: string)
    | GpuMemoryShortage(requiredMB: nat, availableMB: int)
  {
    /** The warning shown; an unknown caption raises `KeyError` instead of showing one. */
    function Message(): string
      requires !UnknownModel? && !OverwriteDeclined?
    {
      match this
      case NoVideo => "Bitte wähle eine Video-Datei aus."
      case VideoMissing(p) => "Die Videodatei wurde nicht gefunden:\n" + p + "\n\nBitte wähle die Datei erneut aus."
      case NoOutputDir => "Bitte wähle einen Ausgabeordner."
      case NoBaseName => "Bitte gib einen Basisnamen für die Dateien ein."
      case BadCoreCount => "Bitte gib eine gültige Zahl für die freizulassenden CPU-Kerne ein."
      case TooManyCoresLeft(total) =>
        "Die Anzahl der freizulassenden Kerne muss kleiner als die Gesamtzahl (" + IntToString(total) + ") sein."
      case GpuMemoryShortage(required, available) =>
        "Nicht genügend GPU-Speicher verfügbar!\nBenötigt: " + NatToString(required)
        + " MB\nVerfügbar: " + IntToString(available) + " MB"
    }
  }

  /** Whether Start launches a worker, and with which arguments. */
  datatype Decision = Refuse(reason: Refusal) | Begin(job: JobConfig)

  const QuestionHead: string := "Die folgenden Dateien existieren bereits:\n"
  const QuestionTail: string := "\n\nMöchten Sie diese überschreiben?"

  /** The question asked before existing outputs are overwritten: the names, one per line, between a heading and the question. */
  function OverwriteQuestion(names: seq<string>): (r: string)
    ensures QuestionHead <= r && |r| >= |QuestionHead| + |QuestionTail|
    ensures r[|r| - |QuestionTail|..] == QuestionTail
    ensures r[|QuestionHead|..|r| - |QuestionTail|] == JoinLines(names)
  {
    var r := QuestionHead + JoinLines(names) + QuestionTail;
    assert r[|QuestionHead|..|r| - |QuestionTail|] == JoinLines(names);
    r
  }

  /** `chr(10).join(names)`. */
  function JoinLines(names: seq<string>): (r: string)
    ensures |names| == 1 ==> r == names[0]
    ensures |names| > 1 ==> names[0] + "\n" <= r
  {
    if names == [] then ""
    else if |names| == 1 then names[0]
    else names[0] + "\n" + JoinLines(names[1..])
  }

  /** `s.find(c)`: the index of the first `c` in `s`, or -1. */
  function FirstIndex(s: string, c: char): (r: int)
    ensures -1 <= r < |s|
    ensures r >= 0 ==> s[r] == c
    ensures forall i :: 0 <= i < |s| && (r < 0 || i < r) ==> s[i] != c
  {
    if s == [] then -1
    else if s[0] == c then 0
    else
      var r := FirstIndex(s[1..], c);
      if r < 0 then -1 else r + 1
  }

  /** `s.split("\n")`. */
  function SplitLines(s: string): (r: seq<string>)
    ensures |r| >= 1
    decreases |s|
  {
    var i := FirstIndex(s, '\n');
    if i < 0 then [s] else [s[..i]] + SplitLines(s[i + 1..])
  }

  /** Names without line breaks, joined with line breaks, split back into the same names. */
  lemma {:induction false} JoinLinesSplits(names: seq<string>)
    requires |names| >= 1
    requires forall k :: 0 <= k < |names| ==> '\n' !in names[k]
    ensures SplitLines(JoinLines(names)) == names
    decreases |names|
  {
    if |names| > 1 {
      var s := JoinLines(names);
      var n := names[0];
      assert s == n + "\n" + JoinLines(names[1..]);
      assert FirstIndex(s, '\n') == |n| by {
        assert forall i :: 0 <= i < |n| ==> s[i] == n[i];
        FirstIndexAt(s, '\n', |n|);
      }
      assert s[..|n|] == n;
      assert s[|n| + 1..] == JoinLines(names[1..]);
      JoinLinesSplits(names[1..]);
    }
  }

  lemma FirstIndexAt(s: string, c: char, k: nat)
    requires k < |s| && s[k] == c
    requires forall i :: 0 <= i < k ==> s[i] != c
    ensures FirstIndex(s, c) == k
  {
    if k > 0 {
      FirstIndexAt(s[1..], c, k - 1);
    }
  }

  /** The overwrite question names every existing output on a line of its own, so the list reads back. */
  lemma QuestionListsNames(names: seq<string>)
    requires |names| >= 1
    requires forall k :: 0 <= k < |names| ==> '\n' !in names[k]
    ensures var q := OverwriteQuestion(names);
            SplitLines(q[|QuestionHead|..|q| - |QuestionTail|]) == names
  {
    JoinLinesSplits(names);
  }

  /** `max(1, total - leaveFree)`: the cores the job may use. */
  function CoresToUse(total: int, leaveFree: int): int {
    if total - leaveFree > 1 then total - leaveFree else 1
  }

  /**
   * Start is only refused for the core field when `leaveFree >= total`;
   * otherwise the budget is `total - leaveFree`, at least one core, at most
   * `total` for a non-negative field, and more than `total` for a negative one.
   */
  lemma CoreBudget(total: int, leaveFree: int)
    requires leaveFree < total
    ensures CoresToUse(total, leaveFree) == total - leaveFree >= 1
    ensures leaveFree >= 0 ==> CoresToUse(total, leaveFree) <= total
    ensures leaveFree < 0 ==> CoresToUse(total, leaveFree) > total
  {
  }

  /** The suffixes of the outputs checked before a job starts. */
  const OutputSuffixes: seq<string> := ["_de.txt", "_en.txt", ".srt"]

  /** The file names, in suffix order, of those `base + suffix` that exist. */
  function Existing(base: string, suffixes: seq<string>, present: set<string>): (names: seq<string>)
    ensures |names| <= |suffixes|
    ensures names == [] <==> forall k :: 0 <= k < |suffixes| ==> base + suffixes[k] !in present
  {
    if suffixes == [] then []
    else
      var init := suffixes[..|suffixes| - 1];
      var path := base + suffixes[|suffixes| - 1];
      assert forall k :: 0 <= k < |init| ==> init[k] == suffixes[k];
      Existing(base, init, present) + (if path in present then [BaseName(path)] else [])
  }

  /** The names listed in the overwrite question. */
  function ExistingOutputs(base: string, present: set<string>): seq<string> {
    Existing(base, OutputSuffixes, present)
  }

  /** The loop that collects the names of the outputs that already exist. */
  method FindExistingOutputs(base: string, present: set<string>) returns (existingFiles: seq<string>)
    ensures existingFiles == ExistingOutputs(base, present)
  {
    existingFiles := CollectExisting(base, OutputSuffixes, present);
  }

  /** The names of those `base + suffix` that exist, collected suffix by suffix. */
  method CollectExisting(base: string, suffixes: seq<string>, present: set<string>) returns (existingFiles: seq<string>)
    ensures existingFiles == Existing(base, suffixes, present)
  {
    existingFiles := [];
    for k := 0 to |suffixes|
      invariant existingFiles == Existing(base, suffixes[..k], present)
    {
      var ext := suffixes[k];
      if base + ext in present {
        existingFiles := existingFiles + [BaseName(base + ext)];
      }
      assert suffixes[..k + 1][..k] == suffixes[..k];
    }
    assert suffixes[..|suffixes|] == suffixes;
  }

  /** The three files a job writes besides the WAV file are exactly those checked. */
  lemma ChecksJobOutputs(cfg: JobConfig, present: set<string>)
    ensures ExistingOutputs(cfg.base, present) == []
            <==> cfg.GermanPath() !in present && cfg.EnglishPath() !in present && cfg.SubtitlePath() !in present
  {
    var b := cfg.base;
    assert b + OutputSuffixes[0] == cfg.GermanPath();
    assert b + OutputSuffixes[1] == cfg.EnglishPath();
    assert b + OutputSuffixes[2] == cfg.SubtitlePath();
  }

  /**
   * The WAV file a job extracts is not among the checked outputs: an
   * existing `base.wav` never prompts the question and is replaced.
   */
  lemma WavNotChecked(cfg: JobConfig, present: set<string>)
    ensures ExistingOutputs(cfg.base, present + {cfg.WavPath()}) == ExistingOutputs(cfg.base, present)
  {
    var b := cfg.base;
    var wav := cfg.WavPath();
    assert wav[|b| + 1] == 'w';
    assert (b + OutputSuffixes[0])[|b|] == '_' && (b + OutputSuffixes[1])[|b|] == '_';
    assert (b + OutputSuffixes[2])[|b| + 1] == 's';
    forall k | 0 <= k < |OutputSuffixes| ensures b + OutputSuffixes[k] != wav { }
    ExistingIgnores(b, OutputSuffixes, present, wav);
  }

  /** Adding a path that is none of the checked ones does not change the list. */
  lemma {:induction false} ExistingIgnores(base: string, suffixes: seq<string>, present: set<string>, other: string)
    requires forall k :: 0 <= k < |suffixes| ==> base + suffixes[k] != other
    ensures Existing(base, suffixes, present + {other}) == Existing(base, suffixes, present)
  {
    if suffixes != [] {
      ExistingIgnores(base, suffixes[..|suffixes| - 1], present, other);
    }
  }

  /** A value is "truthy" for the video path: chosen and not empty. */
  predicate VideoChosen(f: StartForm) {
    f.videoPath.Some? && f.videoPath.value != ""
  }

  /** The checks of `start_transcription`, in source order. */
  function Decide(f: StartForm): (d: Decision)
    ensures d.Begin? ==>
              && VideoChosen(f) && d.job.video == f.videoPath.value
              && d.job.base == Join(f.outputDir, Strip(f.baseInput))
              && d.job.modelCaption == f.caption && Lookup(f.caption).Some?
              && d.job.device == ChooseDevice(f.gpuSelected, f.probe)
              && (d.job.cores.Some? <==> d.job.device == Cpu)
              && (d.job.cores.Some? ==> d.job.cores.value >= 1)
              && d.job.keepWav == f.keepWav
  {
    DecideWith(f, Lookup(f.caption))
  }

  /** `Decide` with the table entry of the caption, `found`, looked up. */
  function DecideWith(f: StartForm, found: Option<ModelEntry>): (d: Decision)
    ensures d.Begin? ==>
              && VideoChosen(f) && d.job.video == f.videoPath.value
              && d.job.base == Join(f.outputDir, Strip(f.baseInput))
              && d.job.modelCaption == f.caption && found.Some?
              && d.job.device == ChooseDevice(f.gpuSelected, f.probe)
              && (d.job.cores.Some? <==> d.job.device == Cpu)
              && (d.job.cores.Some? ==> d.job.cores.value >= 1)
              && d.job.keepWav == f.keepWav
  {
    if !VideoChosen(f) then Refuse(NoVideo)
    else if f.videoPath.value !in f.present then Refuse(VideoMissing(f.videoPath.value))
    else if f.outputDir == "" then Refuse(NoOutputDir)
    else if Strip(f.baseInput) == "" then Refuse(NoBaseName)
    else if f.leaveFree.None? then Refuse(BadCoreCount)
    else if f.leaveFree.value >= f.totalCores then Refuse(TooManyCoresLeft(f.totalCores))
    else
      var cores := CoresToUse(f.totalCores, f.leaveFree.value);
      Proceed(f, Join(f.outputDir, Strip(f.baseInput)), cores, found)
  }

  /**
   * The checks after the form is complete: the overwrite question, the
   * device choice, the caption's table entry `found` and the memory gate.
   */
  function Proceed(f: StartForm, outputBase: string, cores: int, found: Option<ModelEntry>): (d: Decision)
    requires f.videoPath.Some? && cores >= 1
    ensures d.Begin? ==>
              && found.Some? && d.job.video == f.videoPath.value && d.job.base == outputBase
              && d.job.modelCaption == f.caption
              && d.job.device == ChooseDevice(f.gpuSelected, f.probe)
              && d.job.cores == (if d.job.device == Cpu then Some(cores) else None)
              && d.job.keepWav == f.keepWav
  {
    var existing := ExistingOutputs(outputBase, f.present);
    if existing != [] && !f.overwriteConfirmed then Refuse(OverwriteDeclined(existing))
    else
      var device := ChooseDevice(f.gpuSelected, f.probe);
      match found
      case None => Refuse(UnknownModel(f.caption))
      case Some(entry) =>
        if GpuMemoryShort(entry, device, f.probe) then Refuse(GpuMemoryShortage(entry.memoryMB, FreeGpuMB(f.probe)))
        else Begin(JobConfig(f.videoPath.value, outputBase, f.caption, device, if device == Cpu then Some(cores) else None, f.keepWav))
  }

  /** The form's own checks pass: a video that exists, a folder, a base name and a core count below the total. */
  predicate FormComplete(f: StartForm) {
    && VideoChosen(f) && f.videoPath.value in f.present
    && f.outputDir != "" && Strip(f.baseInput) != ""
    && f.leaveFree.Some? && f.leaveFree.value < f.totalCores
  }

  /** The later checks pass: no unconfirmed overwrite, a known caption and enough accelerator memory. */
  predicate Cleared(f: StartForm, outputBase: string, found: Option<ModelEntry>) {
    && (f.overwriteConfirmed || ExistingOutputs(outputBase, f.present) == [])
    && found.Some?
    && !GpuMemoryShort(found.value, ChooseDevice(f.gpuSelected, f.probe), f.probe)
  }

  lemma ProceedExactlyWhen(f: StartForm, outputBase: string, cores: int, found: Option<ModelEntry>)
    requires f.videoPath.Some? && cores >= 1
    ensures Proceed(f, outputBase, cores, found).Begin? <==> Cleared(f, outputBase, found)
  {
  }

  lemma DecideWithExactlyWhen(f: StartForm, found: Option<ModelEntry>)
    ensures DecideWith(f, found).Begin? <==> FormComplete(f) && Cleared(f, Join(f.outputDir, Strip(f.baseInput)), found)
    ensures DecideWith(f, found).Begin? && DecideWith(f, found).job.device == Cpu ==>
              DecideWith(f, found).job.cores == Some(f.totalCores - f.leaveFree.value)
  {
    if FormComplete(f) {
      CoreBudget(f.totalCores, f.leaveFree.value);
      ProceedExactlyWhen(f, Join(f.outputDir, Strip(f.baseInput)), CoresToUse(f.totalCores, f.leaveFree.value), found);
    }
  }

  /** Start launches a worker exactly when every check passes, with `total - leaveFree` cores on the CPU. */
  lemma StartsExactlyWhen(f: StartForm)
    ensures Decide(f).Begin? <==> FormComplete(f) && Cleared(f, Join(f.outputDir, Strip(f.baseInput)), Lookup(f.caption))
    ensures Decide(f).Begin? && Decide(f).job.device == Cpu ==>
              Decide(f).job.cores == Some(f.totalCores - f.leaveFree.value)
  {
    DecideWithExactlyWhen(f, Lookup(f.caption));
  }

  /**
   * Without confirmation no launched job overwrites an existing text or
   * subtitle file.
   */
  lemma NoSilentOverwrite(f: StartForm)
    requires Decide(f).Begin? && !f.overwriteConfirmed
    ensures var cfg := Decide(f).job;
            cfg.GermanPath() !in f.present && cfg.EnglishPath() !in f.present && cfg.SubtitlePath() !in f.present
  {
    var cfg := Decide(f).job;
    StartsExactlyWhen(f);
    ChecksJobOutputs(cfg, f.present);
  }

  /**
   * The memory gate refuses exactly when every earlier check passed and the
   * accelerator's free memory is below the model's figure; the refusal
   * reports both numbers.
   */
  lemma MemoryRefusalExactlyWhen(f: StartForm, found: Option<ModelEntry>)
    ensures var d := DecideWith(f, found);
            d.Refuse? && d.reason.GpuMemoryShortage? <==>
              && FormComplete(f)
              && (f.overwriteConfirmed || ExistingOutputs(Join(f.outputDir, Strip(f.baseInput)), f.present) == [])
              && found.Some? && GpuMemoryShort(found.value, ChooseDevice(f.gpuSelected, f.probe), f.probe)
    ensures var d := DecideWith(f, found);
            d.Refuse? && d.reason.GpuMemoryShortage? ==>
              d.reason == GpuMemoryShortage(found.value.memoryMB, FreeGpuMB(f.probe))
  {
  }

  /** On the CPU the memory check never refuses a start, whatever the panel shows. */
  lemma CpuNeverRefusedForMemory(f: StartForm)
    requires ChooseDevice(f.gpuSelected, f.probe) == Cpu
    ensures !Decide(f).Refuse? || !Decide(f).reason.GpuMemoryShortage?
  {
    MemoryRefusalExactlyWhen(f, Lookup(f.caption));
  }

  /** `os.path.splitext(os.path.basename(video))[0]`. */
  function SuggestBaseName(videoPath: string): (r: Option<string>)
    ensures r.None? <==> videoPath == ""
    ensures r.Some? ==> '/' !in r.value && r.value <= BaseName(videoPath)
    ensures r.Some? ==> IsExtension(BaseName(videoPath)[|r.value|..])
  {
    if videoPath == "" then None
    else
      var parts := SplitExt(BaseName(videoPath));
      assert BaseName(videoPath)[|parts.0|..] == parts.1;
      Some(parts.0)
  }

  lemma LastIndexAt(s: string, c: char, k: int)
    requires -1 <= k < |s| && (k >= 0 ==> s[k] == c)
    requires forall i :: k < i < |s| ==> s[i] != c
    ensures LastIndex(s, c) == k
  {
  }

  /** The base name of `dir/name` is `name` when `name` holds no '/'. */
  lemma BaseNameAfterSlash(dir: string, name: string)
    requires '/' !in name
    ensures BaseName(dir + "/" + name) == name
  {
    var p := dir + "/" + name;
    assert forall i :: |dir| < i < |p| ==> p[i] == name[i - |dir| - 1];
    LastIndexAt(p, '/', |dir|);
    assert p[|dir| + 1..] == name;
  }

  /** A stem that is not all dots, followed by a non-empty extension, splits into the two. */
  lemma SplitsAtExtension(stem: string, ext: string)
    requires '/' !in stem && !AllChar(stem, '.')
    requires ext != "" && IsExtension(ext)
    ensures '/' !in stem + ext
    ensures SplitExt(stem + ext) == (stem, ext)
  {
    var name := stem + ext;
    assert forall i :: |stem| <= i < |name| ==> name[i] == ext[i - |stem|];
    LastIndexAt(name, '/', -1);
    LastIndexAt(name, '.', |stem|);
    assert name[0..|stem|] == stem;
    assert name[|stem|..] == ext;
  }

  /**
   * A video `dir/stem.ext` is suggested the base name `stem`, whatever
   * dots `stem` contains, unless it consists of dots only.
   */
  lemma SuggestsStem(dir: string, stem: string, ext: string)
    requires '/' !in stem && !AllChar(stem, '.')
    requires ext != "" && IsExtension(ext)
    ensures SuggestBaseName(dir + "/" + stem + ext) == Some(stem)
  {
    SplitsAtExtension(stem, ext);
    assert dir + "/" + stem + ext == dir + "/" + (stem + ext);
    BaseNameAfterSlash(dir, stem + ext);
  }

  /** The extensions accepted when a file is dragged onto the window. */
  const VideoExtensions: seq<string> := [".mp4", ".avi", ".mkv", ".mov"]

  /** `path.lower().endswith(('.mp4', '.avi', '.mkv', '.mov'))`. */
  predicate HasVideoExtension(path: string) {
    exists k :: 0 <= k < |VideoExtensions| && EndsWith(Lower(path), VideoExtensions[k])
  }

  /** The filter ignores case: a path and its lower-case form are both accepted or both refused. */
  lemma VideoFilterIgnoresCase(path: string)
    ensures HasVideoExtension(path) <==> HasVideoExtension(Lower(path))
  {
    LowerTwice(path);
  }

  lemma LowerTwice(s: string)
    ensures Lower(Lower(s)) == Lower(s)
  {
    assert forall i :: 0 <= i < |s| ==> LowerChar(LowerChar(s[i])) == LowerChar(s[i]);
  }

  /** Lower-casing commutes with taking a suffix. */
  lemma LowerSuffix(s: string, n: nat)
    requires n <= |s|
    ensures Lower(s)[|s| - n..] == Lower(s[|s| - n..])
  {
    var t := s[|s| - n..];
    var tail := Lower(s)[|s| - n..];
    var low := Lower(t);
    forall i | 0 <= i < n ensures tail[i] == low[i] {
      assert tail[i] == LowerChar(s[|s| - n + i]);
      assert low[i] == LowerChar(t[i]);
    }
  }

  /**
   * Every path whose `splitext` extension is a listed one in any case
   * passes the filter; the converse fails for a bare name such as ".mp4",
   * which passes although `splitext` sees no extension in it.
   */
  lemma FilterAcceptsVideoExtensions(path: string)
    requires Lower(SplitExt(path).1) in VideoExtensions
    ensures HasVideoExtension(path)
  {
    var ext := SplitExt(path).1;
    assert path[|path| - |ext|..] == ext;
    LowerSuffix(path, |ext|);
    var k :| 0 <= k < |VideoExtensions| && VideoExtensions[k] == Lower(ext);
    assert EndsWith(Lower(path), VideoExtensions[k]);
  }

  lemma BareExtensionAccepted()
    ensures HasVideoExtension(".mp4") && SplitExt(".mp4").1 == ""
  {
    BareNamePasses(".mp4");
    BareNameHasNoExtension(".mp4");
  }

  lemma BareNamePasses(p: string)
    requires p == VideoExtensions[0]
    ensures HasVideoExtension(p)
  {
    assert Lower(p) == p by {
      forall i | 0 <= i < |p| ensures LowerChar(p[i]) == p[i] { }
    }
    assert EndsWith(Lower(p), VideoExtensions[0]);
  }

  /** A name made of one dot and then no '.' or '/' has no extension for `splitext`. */
  lemma BareNameHasNoExtension(p: string)
    requires |p| > 0 && p[0] == '.' && forall i :: 0 < i < |p| ==> p[i] != '.' && p[i] != '/'
    ensures SplitExt(p).1 == ""
  {
    LastIndexAt(p, '/', -1);
    LastIndexAt(p, '.', 0);
    assert AllChar(p[0..0], '.');
  }
}

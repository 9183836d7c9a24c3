# whisper-transcribe: a verified model of the transcription job

whisper-transcribe is a desktop application (PyQt) that turns the speech
of a video into a German transcript, an English translation and English
subtitles with OpenAI's Whisper. This project models its core in Dafny:

- the worker thread `TranscriptionWorker`. Its `run` extracts the audio with
  ffmpeg, loads the model, transcribes, translates, saves three files and
  removes or keeps the WAV file. It checks the cancel flag at five points.
  `generate_srt` writes the subtitle file cue by cue.
- the SubRip timestamps and cues, and the remaining-time estimate.
- the checks `start_transcription` makes before it launches a worker:
  - the core budget;
  - the overwrite question;
  - the device choice;
  - the accelerator memory gate.
- the model table, the device manager and the memory panel.
- the base name suggested for a video, and the extension filter for dropped files.

The worker is modelled twice, and the two are proved equal.

- `Job` is a state machine over values. `JobState` holds the phase, the
  world and the worker's `model` field. Each phase of `run` is one step
  function. `Run` iterates the steps until a terminal phase: `Succeeded`,
  `Cancelled` or `Failed`.
- `Worker.TranscriptionWorker` is a class whose fields the methods update
  in place. Each phase is a method whose postcondition equals the matching
  step function. `Run` equals the whole machine.

The foreign calls are oracles in a `Backend` value: `os.makedirs`, ffmpeg,
`whisper.load_model`, `model.transcribe`, `open` and `os.remove`. Each can
succeed or fail with a message. The world also records:

- every signal emitted;
- a log of actions (foreign calls, flag reads, file writes, removals);
- the directories and files.

`JobControl` states how a run stops early. A checkpoint that sees the
cancel flag ends it cancelled at once, and a foreign call that raises ends
it failed with the exception's text. Nothing else ends it early.

`cancel()` is called from the GUI thread. It is modelled by an observation
sequence `obs`: `obs[k]` says whether `cancel()` has been called by the
time of the `k`-th read of the flag. The flag only ever becomes set.

## Model

| member | source | states |
|---|---|---|
| Catalog.Find | main.py:24-33 | the table has an entry for a caption exactly when some entry carries it, and the entry found is that one |
| Catalog.Lookup | main.py:24-33 | `WHISPER_MODELS[caption]` finds an entry exactly for the eight captions of the table |
| Catalog.ModelInfo | main.py:428-451 | the panel shows the accelerator exactly when the GPU button is checked and CUDA is present: the model's figure against total minus allocated memory. Otherwise it shows twice the figure against system RAM. "sufficient" means available >= required |
| Catalog.PanelAgreesWithGate | main.py:587-604 | on the accelerator the start gate refuses exactly when the panel reports too little memory; on the CPU the gate never refuses |
| Catalog.DeviceManager.constructor | main.py:49-52 | the current device is CUDA exactly when the probe found it |
| Catalog.DeviceManager.SetDevice | main.py:60-64 | asking for CUDA without CUDA fails with "CUDA ist nicht verfügbar" and leaves the device; any other request sets it |
| Timing.SecondsOf | main.py:199-202 | `timedelta.seconds` lies in 0..86399 |
| Timing.FieldsRecompose | main.py:199-202 | days, seconds and microseconds of a timedelta add back up to the duration |
| Timing.Timestamp | main.py:201-202 | a timestamp has 12 characters with ':' ':' ',' at positions 2, 5 and 8 |
| Timing.ReadTimestampFields | main.py:201-202 | the hours, minutes, seconds and milliseconds fields of a well-formed timestamp (hours below 24, minutes and seconds below 60) are each recovered from the milliseconds it denotes |
| Timing.ReadTimestampInjective | main.py:201-202 | two well-formed timestamps that denote the same milliseconds are the same text |
| Timing.TimestampRoundTrip | main.py:199-202 | a timestamp is well formed (two-digit fields, hours below 24, minutes and seconds below 60) and reads back as the duration truncated to whole milliseconds, within the day |
| Timing.TimestampWrapsDaily | main.py:199-202 | a duration one day longer renders the same timestamp: hours wrap at 24 |
| Timing.EstimateRemaining | main.py:89-95 | "still computing" exactly without a start time or with progress <= 0; otherwise elapsed*100/progress minus elapsed |
| Timing.EstimateBounds | main.py:89-95 | for progress 1..100 the remainder is never negative, is zero at 100 and equals the elapsed time at 50 |
| Timing.EstimateShrinks | main.py:89-95 | more progress never gives a larger remainder |
| Timing.ClockText | main.py:94 | the `H:MM:SS` part of `str(timedelta)` has 7 or 8 characters, the hours unpadded (7 characters exactly below ten hours), then two-digit minutes and seconds |
| Timing.ClockTextReadsBack | main.py:94 | the `H:MM:SS` text reads back to the seconds it was made from |
| Timing.DurationText | main.py:94 | `str(remaining_time).split('.')[0]` ends with the clock text of the seconds field; it is exactly that clock text when the days field is zero, and starts with the days count and " day" otherwise |
| Timing.DurationTextWithinDay | main.py:94 | below one day the text is the clock text alone and reads back to the whole seconds of the duration |
| Timing.DurationTextWithDays | main.py:94 | from one day on (either sign) the text is the days count, "day," (for a count of 1 or -1) or "days,", and the clock text, separated by single spaces; the count reads back as the days field and the clock text as the seconds field |
| Text.IntToStringRoundTrip | main.py:94 | `str` of an integer has no space, is an optional '-' and decimal digits, and reads back as the integer |
| Timing.EstimateText | main.py:89-95 | the label reads "Wird berechnet..." exactly while there is no estimate; otherwise it is the duration text of the remainder |
| Worker.TranscriptionWorker.EstimateRemainingTime | main.py:89-95 | "Wird berechnet..." exactly without a start time or with progress <= 0; with a start time and progress > 0 it is exactly the estimate text of `EstimateRemaining(startTime, now, progress)`; for progress up to 100 and a clock not behind the start that is the duration text of a non-negative remainder |
| Text.Strip | main.py:203 | `str.strip()`: a slice of the input with only whitespace cut at both ends, no whitespace left at either end |
| Text.NatToStringRoundTrip | main.py:204 | the decimal cue number reads back as the number |
| Srt.CueList | main.py:196-204 | one cue per segment, numbered from 1 in segment order |
| Srt.CueFields | main.py:196-204 | a cue reads back field by field as its number, start and end (milliseconds within the day), the stripped text and a blank line, also for an empty text |
| Srt.RenderSnoc | main.py:196-204 | one more segment appends exactly one cue, numbered after the others |
| Srt.RenderPrefix | main.py:196-198 | the file for a prefix of the segments is a prefix of the whole file |
| Job.Poll | main.py:116-117 | a flag read sees the flag set when it was set before or `cancel()` came by then, and is logged |
| Job.InitStep | main.py:99-110 | "Initialisiere..."; an empty directory name fails with the text of `os.makedirs('')`; an existing path (a directory or a file, as `os.path.exists` accepts either) is used without a call; otherwise `os.makedirs` is called once and the run goes on exactly when it succeeds, failing with its text when not |
| Job.ExtractStep | main.py:113-121 | "Extrahiere Audio...", 10, checkpoint, then ffmpeg writes the WAV file or the run fails |
| Job.UseCores | main.py:124-126 | `torch.set_num_threads` is called and its status emitted exactly for the CPU with a core count, and nothing else changes |
| Job.LoadStep | main.py:129-138 | loading status, 30, checkpoint, then the table lookup and `load_model`; the handle is kept in `model` |
| Job.LoadWeights | main.py:135-138 | an unknown caption fails with the quoted caption and calls nothing; a known one calls `load_model` with the entry's name and the device once, goes on exactly when it succeeds, holding and storing the handle it returns, and otherwise fails with its text |
| Job.TranscribeStep | main.py:141-147 | status, 50, checkpoint, the German transcription; the model is unchanged |
| Job.TranslateStep | main.py:150-157 | status, 70, checkpoint, the translation; the German result and the model are kept |
| Job.Save | main.py:166-169 | a file is written exactly when it can be opened, with exactly the given content; otherwise the open error is raised |
| Job.WriteCues | main.py:196-198 | the cue loop changes only the subtitle file, emits no signal, and only reads the flag |
| Job.SaveStep | main.py:160-172 | "Speichere Dateien...", checkpoint, then the three files; it ends in clean-up, cancel or failure |
| Job.SaveFiles | main.py:166-172 | German text, English text, then the subtitles; it ends in clean-up or failure |
| JobControl.SaveFilesOutcome | main.py:166-172 | a failed `open` of the German file changes nothing; of the English file it leaves the German text written; of the subtitle file it leaves both texts written; each fails with the open error, and saving goes on exactly when all three open |
| JobScenarios.SaveAllPass | main.py:166-204 | when all three files open: both texts are written, the subtitle file holds the cues before the first flag read that sees the flag, and all cues without a cancel |
| JobScenarios.SavesInOrder | main.py:166-172 | the German text is written first, the English text second and the subtitle file third |
| Job.WriteSubtitles | main.py:194-204 | the subtitle file is opened, then its cues are written; it ends in clean-up or failure |
| Job.CleanStep | main.py:176-187 | the WAV file is removed when it is not to be kept and `os.path.exists` finds it (a file or a directory of that name), else announced if kept; then 100 and the finished signal |
| Job.SaveAdvances | main.py:160-192 | the saving phase emits its banner, then its closing, removes nothing unless it succeeds, and ends on the read that saw a cancel |
| Job.LoadAdvances | main.py:124-138 | the same for the loading phase |
| Job.Step | main.py:97-192 | every step moves to the next phase or ends the run, with its banner and closing signals |
| Job.Run | main.py:97-192 | from any state the run reaches a terminal phase: succeeded, cancelled or failed |
| JobProperties.RunSignals | main.py:97-192 | every run ends with exactly one finished-or-error signal, as its last signal, naming how it ended; the progress values are a prefix of 10, 30, 50, 70, 100, and all five exactly when it succeeds |
| JobProperties.CancelIsLastAction | main.py:116-190 | a cancelled run does nothing after the read that saw the flag |
| JobProperties.UnfinishedRunRemovesNothing | main.py:174-192 | a cancelled or failed run keeps every file and never removes the WAV file |
| JobScenarios.OutputPathsDistinct | main.py:107-110 | the four files of a job have four different names |
| JobScenarios.StopsAtExists | main.py:197-198 | every run of flag reads has a first read that sees the flag, or none within it |
| JobScenarios.StopsAtUnique | main.py:197-198 | that first read is unique |
| JobScenarios.WriteCuesPrefix | main.py:196-204 | when the first flag read of the subtitle loop that sees the flag is the one for cue `n`, the file holds exactly the first `n` cues and the loop ends cancelled exactly when `n` is short of the end |
| JobScenarios.WriteCuesAll | main.py:196-204 | without a cancel the loop writes all cues, one flag read per cue |
| JobScenarios.HappyPath | main.py:97-192 | without faults or cancel the signals are exactly the banners of the seven phases with 10, 30, 50, 70, 100 and one finished signal; the files hold the German text, the English text and the rendered subtitles; the WAV file remains exactly when it is to be kept |
| JobScenarios.CancelBeforeStart | main.py:97-117 | a cancel before the start gives "Initialisiere...", "Extrahiere Audio...", 10 and the cancel error; no audio is extracted and no file changes |
| JobScenarios.SubtitleCancelStillFinishes | main.py:172-198 | a cancel seen in the subtitle loop leaves the subtitle file with exactly the cues before the first read that saw it, and the run still succeeds with the finished signal |
| JobControl.CheckpointStops | main.py:113-190 | a checkpoint that sees the flag ends the step cancelled: the banner, the thread count in the loading phase, the flag read and the cancel error are all it adds, and no file or directory changes |
| JobControl.CheckpointPasses | main.py:97-192 | a step whose checkpoint does not see the flag, and a step without a checkpoint, never ends cancelled |
| JobControl.CancelledExactlyAtCheckpoints | main.py:116-190 | a step ends the run cancelled exactly when it is a checkpoint that sees the flag |
| JobControl.CancelledRun | main.py:116-190 | from a checkpoint that sees the flag the whole run ends there, cancelled, with the cancel error last and no finished signal |
| JobControl.FailsExactlyWhenCallFails | main.py:97-192 | a step fails with text `m` exactly when its foreign call raises with `m` (makedirs or the empty directory, ffmpeg, the table lookup or `load_model`, a model pass, an `open`, the removal) |
| JobControl.FailedRun | main.py:97-192 | from a step whose foreign call raises with `m` the whole run ends there, failed with `m`, adding the phase's banner and the error carrying `m` and keeping every file |
| Worker.TranscriptionWorker.constructor | main.py:73-83 | a new worker holds its arguments, is not cancelled, has no start time and no model |
| Worker.TranscriptionWorker.Cancel | main.py:85-87 | the flag is set and "Transkription wird abgebrochen..." is emitted; nothing else changes |
| Worker.TranscriptionWorker.ReadCancelFlag | main.py:116-117 | a flag read changes the state as `Job.Poll` says |
| Worker.TranscriptionWorker.Initialise | main.py:99-110 | equal to `Job.InitStep` on the worker's state |
| Worker.TranscriptionWorker.ExtractAudio | main.py:113-121 | equal to `Job.ExtractStep` |
| Worker.TranscriptionWorker.LoadModel | main.py:124-138 | equal to `Job.LoadStep` |
| Worker.TranscriptionWorker.LoadNamedModel | main.py:135-138 | equal to `Job.LoadWeights` for the table entry found |
| Worker.TranscriptionWorker.TranscribeGerman | main.py:141-147 | equal to `Job.TranscribeStep` |
| Worker.TranscriptionWorker.TranslateEnglish | main.py:150-157 | equal to `Job.TranslateStep` |
| Worker.TranscriptionWorker.WriteText | main.py:166-169 | writes the file exactly as `Job.Save` says, or leaves the state unchanged and reports the error |
| Worker.TranscriptionWorker.GenerateSrt | main.py:194-204 | opens the subtitle file and writes the cues as `Job.WriteCues` says, or reports the open error |
| Worker.TranscriptionWorker.WriteCueLoop | main.py:196-204 | the loop over the segments writes exactly what `Job.WriteCues` writes for their cues |
| Worker.TranscriptionWorker.WriteCue | main.py:197-204 | one flag read, then the cue is appended unless the flag was seen |
| Worker.TranscriptionWorker.SaveOutputs | main.py:160-172 | equal to `Job.SaveStep` |
| Worker.TranscriptionWorker.CleanUp | main.py:174-187 | equal to `Job.CleanStep` |
| Worker.TranscriptionWorker.Run | main.py:97-192 | records the start time and ends in the state `Job.Run` gives from the initial phase, so every property proved of `Job.Run` holds for it |
| Worker.TranscriptionWorker.RunFromLoading | main.py:128-192 | from the loading phase on, equal to `Job.Run` |
| Worker.TranscriptionWorker.RunFromTranscribing | main.py:141-192 | from the German transcription on, equal to `Job.Run` |
| Worker.TranscriptionWorker.RunFromTranslating | main.py:149-192 | from the translation phase on, equal to `Job.Run` |
| Launch.CoreBudget | main.py:552-561 | below the total, the budget is total minus the cores left free, at least 1, at most the total for a non-negative field, and more than the total for a negative one |
| Launch.Existing | main.py:569-573 | the list of existing outputs is empty exactly when none of the checked paths exists |
| Launch.FindExistingOutputs | main.py:569-573 | the loop collects exactly the names of the outputs that exist, in suffix order |
| Launch.CollectExisting | main.py:570-573 | the same loop over any list of suffixes |
| Launch.ChecksJobOutputs | main.py:569-573 | the check covers exactly the German, English and subtitle paths of the job |
| Launch.WavNotChecked | main.py:569-573 | an existing WAV file never prompts the question and is overwritten |
| Launch.Decide | main.py:525-624 | a launched job runs the chosen existing video on the joined output base and the chosen caption; cores are passed exactly on the CPU and are at least 1 |
| Launch.Proceed | main.py:566-624 | the same for the checks after the form |
| Launch.DecideWith | main.py:525-624 | `Decide` with the table entry looked up |
| Launch.StartsExactlyWhen | main.py:525-604 | a worker is launched exactly when every check passes; on the CPU it gets total minus the cores left free |
| Launch.NoSilentOverwrite | main.py:569-584 | without confirmation a launched job overwrites none of the three outputs |
| Launch.MemoryRefusalExactlyWhen | main.py:586-604 | the memory gate refuses exactly when all earlier checks passed and free memory is below the model's figure, reporting both numbers |
| Launch.CpuNeverRefusedForMemory | main.py:587-604 | on the CPU a start is never refused for memory |
| Launch.SuggestBaseName | main.py:499-503 | a name is suggested exactly when a video is chosen; it is a prefix of the video's base name without '/', and the rest of the base name is an extension |
| Launch.SuggestsStem | main.py:499-503 | a video `dir/stem.ext` is suggested exactly `stem`, whatever dots it holds, unless it is all dots |
| Launch.OverwriteQuestion | main.py:575-581 | the question is the heading, the names joined by line breaks, and the closing question |
| Launch.JoinLines | main.py:579 | `chr(10).join`: one name alone is itself, and several start with the first name and a line break |
| Launch.JoinLinesSplits | main.py:579 | names without line breaks, joined, split back into the same names |
| Launch.QuestionListsNames | main.py:569-581 | the question lists every existing output on a line of its own, in order |
| Launch.VideoFilterIgnoresCase | main.py:453-457 | a path and its lower-case form are accepted or refused alike |
| Launch.FilterAcceptsVideoExtensions | main.py:453-457 | a path whose `splitext` extension is .mp4, .avi, .mkv or .mov in any case is accepted |
| Launch.BareExtensionAccepted | main.py:456 | the bare name ".mp4" passes the filter although `splitext` finds no extension in it |
| Paths.SplitExt | main.py:502 | `splitext` splits the path into root and an extension: empty, or one leading '.' and no other '.' or '/'; a non-empty extension starts at the last '.' |
| Paths.SplitExtFindsExtension | main.py:502 | the extension is non-empty exactly when the last component has a '.' after some character other than '.' |
| Paths.DirName | main.py:103 | `dirname` is a prefix of the path, and empty for a path without '/'; otherwise it is non-empty, ends at or before the last '/', and only '/' follows it up to that '/'; it ends in '/' only when it is the all-slash head up to the last '/' |
| Paths.Join | main.py:567 | `join` is the second part when that starts with '/'; otherwise it starts with the first part, ends with the second, and puts a '/' between them when the first does not end in one; its length is exactly the two parts plus that one '/', so the parts never overlap |
| Paths.BaseName | main.py:502 | `basename` is the tail after the last '/' and contains none |
| Paths.JoinSplit | main.py:567 | joining a directory and a plain name and splitting again gives both back |

## Left out

- The GUI: widgets, the video player, the labels, the progress bar, and the slots that only copy signals into labels.
- `QThread` scheduling. The thread and `cancel()` interleave only at flag reads, and `obs` models that.
- Floating point. Times are whole microseconds and memory is whole megabytes. Rounding a float to a `timedelta`, the `.0f` formatting and the float division in the estimate are not modelled.
- `datetime.now()` is a parameter `now`, and `psutil`/`torch.cuda` readings are parameters.
- `Text.Lower` lower-cases ASCII letters only. Python's `str.lower` covers all of Unicode.
- `os.makedirs` creates all missing parents. The model records only the target directory.
- The texts of foreign exceptions are whatever the `Backend` oracle returns. The `KeyError` text is the quoted caption without Python's escaping.
- `int()` parsing of the core field is given as an `Option<int>`, where `None` stands for `ValueError`.
- A failure of `torch.set_num_threads` is not modelled; the call always succeeds.
- Job.Save: only `open` can fail. A `write` that raises after a successful `open` (a full disk, an encoding error), and the truncated file it leaves, are not modelled; the same holds for the writes of Job.WriteCues.
- `DeviceManager.get_device_info` only formats a label and is not modelled.
- `time_estimate_signal` is never emitted by `run`, so no estimate is part of a run's signals. `estimate_remaining_time` is modelled on its own.
- Launch.Decide: after a missing video it does not model the GUI reset of `video_path` and the labels.
- Launch.Decide: an unknown caption raises `KeyError` inside the slot. It is modelled as a refusal without a message box.
- Worker.TranscriptionWorker.Cancel: the status text is emitted on the GUI thread. The model appends it to the same signal list as the worker's own signals.
- The files and directories a worker sees are held in its own fields rather than a shared file system, so aliasing between two workers is not modelled.

/**
 * What every run of the transcription job guarantees, whatever the
 * backend does and whenever `cancel()` is called.
 */
module JobProperties {
  import opened Wrappers
  import opened Paths
  import opened Srt
  import opened Job

  function Last<T>(s: seq<T>): T
    requires |s| > 0
  {
    s[|s| - 1]
  }

  /** The number of finished and error signals among `events`. */
  function TerminalCount(events: seq<Event>): nat
    decreases |events|
  {
    if events == [] then 0
    else TerminalCount(events[..|events| - 1]) + (if Last(events).IsTerminal() then 1 else 0)
  }

  /** The values of the progress signals among `events`, in order. */
  function Percents(events: seq<Event>): seq<int>
    decreases |events|
  {
    if events == [] then []
    else Percents(events[..|events| - 1]) + (if Last(events).Progress? then [Last(events).percent] else [])
  }

  lemma {:induction false} CountsAppend(a: seq<Event>, b: seq<Event>)
    ensures TerminalCount(a + b) == TerminalCount(a) + TerminalCount(b)
    ensures Percents(a + b) == Percents(a) + Percents(b)
    decreases |b|
  {
    if b == [] {
      assert a + b == a;
    } else {
      var c := b[..|b| - 1];
      CountsAppend(a, c);
      assert (a + b)[..|a + b| - 1] == a + c;
    }
  }

  /** The progress values of a complete run. */
  const FullProgress: seq<int> := [10, 30, 50, 70, 100]

  /** The progress values sent before phase `p` starts. */
  function Announced(p: Phase): seq<int> {
    match p
    case Init => []
    case Extracting => []
    case Loading => [10]
    case Transcribing(_) => [10, 30]
    case Translating(_, _) => [10, 30, 50]
    case Saving(_, _) => [10, 30, 50, 70]
    case CleaningUp => [10, 30, 50, 70]
    case _ => FullProgress
  }

  lemma CountsOne(e: Event)
    ensures TerminalCount([e]) == (if e.IsTerminal() then 1 else 0)
    ensures Percents([e]) == (if e.Progress? then [e.percent] else [])
  {
    assert [e][..0] == [];
  }

  lemma CountsTwo(e: Event, f: Event)
    ensures TerminalCount([e, f]) == TerminalCount([e]) + TerminalCount([f])
    ensures Percents([e, f]) == Percents([e]) + Percents([f])
  {
    CountsAppend([e], [f]);
    assert [e] + [f] == [e, f];
  }

  lemma {:induction false} BannerCounts(cfg: JobConfig, p: Phase)
    requires !p.IsTerminal()
    ensures TerminalCount(Banner(cfg, p)) == 0
    ensures Announced(p) + Percents(Banner(cfg, p)) <= [10, 30, 50, 70]
    ensures p.CleaningUp? || Announced(p) + Percents(Banner(cfg, p)) == Announced(NextPhase(p))
  {
    var b := Banner(cfg, p);
    assert TerminalCount([]) == 0 && Percents([]) == [];
    match p
    case Loading =>
      LoadingCounts(ThreadNotice(cfg), Status(LoadingModel(cfg.modelCaption)));
    case CleaningUp =>
      if b != [] {
        CountsOne(b[0]);
        assert b == [b[0]];
      }
    case Init =>
      CountsOne(b[0]);
    case Saving(_, _) =>
      CountsOne(b[0]);
    case Extracting =>
      BannerPair(b);
    case Transcribing(_) =>
      BannerPair(b);
    case Translating(_, _) =>
      BannerPair(b);
    case _ =>
      assert false;
  }

  /** The banner of the loading phase: an optional status, a status and progress 30. */
  lemma LoadingCounts(t: seq<Event>, e: Event)
    requires |t| <= 1 && (t != [] ==> t[0].Status?) && e.Status?
    ensures TerminalCount(t + [e, Progress(30)]) == 0
    ensures Percents(t + [e, Progress(30)]) == [30]
  {
    CountsAppend(t, [e, Progress(30)]);
    CountsTwo(e, Progress(30));
    CountsOne(e);
    CountsOne(Progress(30));
    if t != [] {
      CountsOne(t[0]);
      assert t == [t[0]];
    } else {
      assert TerminalCount(t) == 0 && Percents(t) == [];
    }
  }

  lemma BannerPair(b: seq<Event>)
    requires |b| == 2
    ensures TerminalCount(b) == TerminalCount([b[0]]) + TerminalCount([b[1]])
    ensures Percents(b) == Percents([b[0]]) + Percents([b[1]])
    ensures TerminalCount([b[0]]) == (if b[0].IsTerminal() then 1 else 0)
    ensures TerminalCount([b[1]]) == (if b[1].IsTerminal() then 1 else 0)
    ensures Percents([b[0]]) == (if b[0].Progress? then [b[0].percent] else [])
    ensures Percents([b[1]]) == (if b[1].Progress? then [b[1].percent] else [])
  {
    CountsTwo(b[0], b[1]);
    CountsOne(b[0]);
    CountsOne(b[1]);
    assert b == [b[0], b[1]];
  }

  /** A representative of the phase after `p`, used only through `Announced`. */
  function NextPhase(p: Phase): Phase
    requires !p.IsTerminal()
  {
    match p
    case Init => Extracting
    case Extracting => Loading
    case Loading => Transcribing(ModelHandle(0))
    case Transcribing(h) => Translating(h, Transcription("", []))
    case Translating(_, de) => Saving(de, de)
    case Saving(_, _) => CleaningUp
    case CleaningUp => Succeeded
  }

  lemma NextPhaseRank(p: Phase)
    requires !p.IsTerminal()
    ensures Rank(NextPhase(p)) == Rank(p) - 1
    ensures NextPhase(p).IsTerminal() <==> p.CleaningUp?
  {
  }

  lemma AnnouncedByRank(p: Phase, q: Phase)
    requires !p.IsTerminal() && !q.IsTerminal() && Rank(p) == Rank(q)
    ensures Announced(p) == Announced(q)
  {
  }

  lemma ClosingCounts(cfg: JobConfig, p: Phase)
    ensures !p.IsTerminal() ==> Closing(cfg, p) == []
    ensures TerminalCount(Closing(cfg, p)) == (if p.IsTerminal() then 1 else 0)
    ensures Percents(Closing(cfg, p)) == (if p.Succeeded? then [100] else [])
    ensures p.IsTerminal() ==> |Closing(cfg, p)| > 0 && Last(Closing(cfg, p)).IsTerminal()
  {
    var c := Closing(cfg, p);
    assert TerminalCount([]) == 0 && Percents([]) == [];
    if |c| == 1 {
      CountsOne(c[0]);
      assert c == [c[0]];
    } else if |c| == 2 {
      CountsTwo(c[0], c[1]);
      CountsOne(c[0]);
      CountsOne(c[1]);
      assert c == [c[0], c[1]];
    }
  }

  /** What holds of every state a run from `w0` passes through. */
  ghost predicate Inv(cfg: JobConfig, w0: World, s: JobState) {
    && SignalInv(cfg, w0, s)
    && w0.actions <= s.world.actions
    && (s.phase.Cancelled? ==> |s.world.actions| > 0 && Last(s.world.actions) == CheckCancel(true))
    && (!s.phase.Succeeded? ==> w0.files.Keys <= s.world.files.Keys && NoRemovalAfter(w0.actions, s.world.actions))
  }

  /** The signal part of `Inv`. */
  ghost predicate SignalInv(cfg: JobConfig, w0: World, s: JobState) {
    && w0.events <= s.world.events
    && var added := s.world.events[|w0.events|..];
    && (!s.phase.IsTerminal() ==> TerminalCount(added) == 0 && Percents(added) == Announced(s.phase))
    && (s.phase.IsTerminal() ==>
          && TerminalCount(added) == 1 && |added| > 0 && Last(added) == Last(Closing(cfg, s.phase))
          && Percents(added) <= FullProgress
          && (Percents(added) == FullProgress <==> s.phase.Succeeded?))
  }

  /**
   * One step keeps the signal invariant, knowing only the counts of the
   * banner `b` and the closing `c` it appends.
   */
  lemma StepSignals(cfg: JobConfig, w0: World, s: JobState, r: JobState, b: seq<Event>, c: seq<Event>)
    requires !s.phase.IsTerminal() && SignalInv(cfg, w0, s)
    requires r.world.events == s.world.events + b + c
    requires !r.phase.IsTerminal() ==> Rank(r.phase) == Rank(s.phase) - 1
    requires r.phase.Succeeded? ==> s.phase.CleaningUp?
    requires TerminalCount(b) == 0 && Announced(s.phase) + Percents(b) <= [10, 30, 50, 70]
    requires s.phase.CleaningUp? || Announced(s.phase) + Percents(b) == Announced(NextPhase(s.phase))
    requires TerminalCount(c) == (if r.phase.IsTerminal() then 1 else 0)
    requires Percents(c) == (if r.phase.Succeeded? then [100] else [])
    requires r.phase.IsTerminal() ==> |c| > 0 && Last(c) == Last(Closing(cfg, r.phase))
    requires !r.phase.IsTerminal() ==> c == []
    ensures SignalInv(cfg, w0, r)
  {
    var added := OngoingSignals(cfg, w0, s);
    Regroup(w0.events, added, b, c);
    NextPhaseRank(s.phase);
    if !r.phase.IsTerminal() {
      GoOnStep(cfg, w0, s, r, added, b, c);
    } else {
      var before := Announced(s.phase);
      assert r.phase.Succeeded? ==> before == [10, 30, 50, 70];
      EndStep(cfg, w0, r, added, b, c, before);
    }
  }

  /** The signals added since `w0` by a run that has not ended. */
  lemma OngoingSignals(cfg: JobConfig, w0: World, s: JobState) returns (added: seq<Event>)
    requires !s.phase.IsTerminal() && SignalInv(cfg, w0, s)
    ensures s.world.events == w0.events + added
    ensures TerminalCount(added) == 0 && Percents(added) == Announced(s.phase)
  {
    added := s.world.events[|w0.events|..];
    assert s.world.events == w0.events + added;
  }

  lemma EndStep(cfg: JobConfig, w0: World, r: JobState, added: seq<Event>, b: seq<Event>, c: seq<Event>, before: seq<int>)
    requires r.phase.IsTerminal() && r.world.events == w0.events + ((added + b) + c)
    requires TerminalCount(added) == 0 && Percents(added) == before
    requires TerminalCount(b) == 0 && before + Percents(b) <= [10, 30, 50, 70]
    requires r.phase.Succeeded? ==> before == [10, 30, 50, 70]
    requires TerminalCount(c) == 1 && |c| > 0 && Last(c) == Last(Closing(cfg, r.phase))
    requires Percents(c) == (if r.phase.Succeeded? then [100] else [])
    ensures SignalInv(cfg, w0, r)
  {
    EndSignals(added, b, c, before, r.phase.Succeeded?);
    SignalsOf(cfg, w0, r, (added + b) + c);
  }

  lemma Regroup<T>(w: seq<T>, a: seq<T>, b: seq<T>, c: seq<T>)
    ensures w + a + b + c == w + ((a + b) + c)
  {
  }

  lemma GoOnStep(cfg: JobConfig, w0: World, s: JobState, r: JobState, added: seq<Event>, b: seq<Event>, c: seq<Event>)
    requires !s.phase.IsTerminal() && !r.phase.IsTerminal() && !s.phase.CleaningUp?
    requires Rank(r.phase) == Rank(s.phase) - 1 && Rank(NextPhase(s.phase)) == Rank(s.phase) - 1
    requires !NextPhase(s.phase).IsTerminal()
    requires r.world.events == w0.events + ((added + b) + c) && c == []
    requires TerminalCount(added) == 0 && TerminalCount(b) == 0
    requires Percents(added) + Percents(b) == Announced(NextPhase(s.phase))
    ensures SignalInv(cfg, w0, r)
  {
    AnnouncedByRank(r.phase, NextPhase(s.phase));
    GoOnSignals(added, b, c, Announced(NextPhase(s.phase)));
    SignalsOf(cfg, w0, r, (added + b) + c);
  }

  lemma SignalsOf(cfg: JobConfig, w0: World, r: JobState, all: seq<Event>)
    requires r.world.events == w0.events + all
    requires !r.phase.IsTerminal() ==> TerminalCount(all) == 0 && Percents(all) == Announced(r.phase)
    requires r.phase.IsTerminal() ==>
               && TerminalCount(all) == 1 && |all| > 0 && Last(all) == Last(Closing(cfg, r.phase))
               && Percents(all) <= FullProgress
               && (Percents(all) == FullProgress <==> r.phase.Succeeded?)
    ensures SignalInv(cfg, w0, r)
  {
    assert r.world.events[|w0.events|..] == all;
  }

  lemma GoOnSignals(added: seq<Event>, b: seq<Event>, c: seq<Event>, after: seq<int>)
    requires c == [] && TerminalCount(added) == 0 && TerminalCount(b) == 0
    requires Percents(added) + Percents(b) == after
    ensures TerminalCount((added + b) + c) == 0 && Percents((added + b) + c) == after
  {
    assert (added + b) + c == added + b;
    CountsAppend(added, b);
  }

  lemma EndSignals(added: seq<Event>, b: seq<Event>, c: seq<Event>, before: seq<int>, success: bool)
    requires TerminalCount(added) == 0 && Percents(added) == before
    requires TerminalCount(b) == 0 && before + Percents(b) <= [10, 30, 50, 70]
    requires success ==> before == [10, 30, 50, 70]
    requires TerminalCount(c) == 1 && |c| > 0
    requires Percents(c) == (if success then [100] else [])
    ensures var all := (added + b) + c;
            && TerminalCount(all) == 1 && |all| > 0 && Last(all) == Last(c)
            && Percents(all) <= FullProgress
            && (Percents(all) == FullProgress <==> success)
  {
    CountsAppend(added, b);
    CountsAppend(added + b, c);
    var q := before + Percents(b);
    assert Percents((added + b) + c) == q + Percents(c);
    if success {
      assert Percents(b) == [];
    }
  }

  lemma StepInv(cfg: JobConfig, env: Backend, obs: seq<bool>, w0: World, s: JobState)
    requires !s.phase.IsTerminal() && Inv(cfg, w0, s)
    ensures Inv(cfg, w0, Step(cfg, env, obs, s))
  {
    var r := Step(cfg, env, obs, s);
    BannerCounts(cfg, s.phase);
    ClosingCounts(cfg, r.phase);
    StepSignals(cfg, w0, s, r, Banner(cfg, s.phase), Closing(cfg, r.phase));
    if !r.phase.Succeeded? {
      assert NoRemovalAfter(w0.actions, r.world.actions);
    }
  }

  lemma {:induction false} RunInv(cfg: JobConfig, env: Backend, obs: seq<bool>, w0: World, s: JobState)
    requires Inv(cfg, w0, s)
    ensures Inv(cfg, w0, Run(cfg, env, obs, s))
    decreases Rank(s.phase)
  {
    if !s.phase.IsTerminal() {
      StepInv(cfg, env, obs, w0, s);
      RunInv(cfg, env, obs, w0, Step(cfg, env, obs, s));
    }
  }

  lemma StartInv(cfg: JobConfig, w: World)
    ensures Inv(cfg, w, Start(w))
  {
    assert w.events[|w.events|..] == [];
  }

  /**
   * Every run ends with exactly one finished or error signal, as its last
   * signal, and that signal says how the run ended. The progress values
   * sent are the first ones of 10, 30, 50, 70, 100, and all five exactly
   * when the run succeeds.
   */
  lemma RunSignals(cfg: JobConfig, env: Backend, obs: seq<bool>, w: World)
    ensures w.events <= Run(cfg, env, obs, Start(w)).world.events
    ensures var r := Run(cfg, env, obs, Start(w));
            var added := r.world.events[|w.events|..];
            && TerminalCount(added) == 1 && |added| > 0 && Last(added).IsTerminal()
            && Last(added) == Last(Closing(cfg, r.phase))
            && Percents(added) <= FullProgress
            && (Percents(added) == FullProgress <==> r.phase.Succeeded?)
  {
    StartInv(cfg, w);
    RunInv(cfg, env, obs, w, Start(w));
    ClosingCounts(cfg, Run(cfg, env, obs, Start(w)).phase);
  }

  /** A cancelled run stops at the read that saw the flag: nothing is done after it. */
  lemma CancelIsLastAction(cfg: JobConfig, env: Backend, obs: seq<bool>, w: World)
    ensures var r := Run(cfg, env, obs, Start(w));
            r.phase.Cancelled? ==> |r.world.actions| > 0 && Last(r.world.actions) == CheckCancel(true)
  {
    StartInv(cfg, w);
    RunInv(cfg, env, obs, w, Start(w));
  }

  /**
   * A run that is cancelled or fails keeps every file that existed or was
   * written, and never reaches the removal of the WAV file.
   */
  lemma UnfinishedRunRemovesNothing(cfg: JobConfig, env: Backend, obs: seq<bool>, w: World)
    ensures var r := Run(cfg, env, obs, Start(w));
            !r.phase.Succeeded? ==>
              && w.files.Keys <= r.world.files.Keys
              && w.actions <= r.world.actions
              && forall i :: |w.actions| <= i < |r.world.actions| ==> !r.world.actions[i].RemoveFile?
  {
    StartInv(cfg, w);
    RunInv(cfg, env, obs, w, Start(w));
  }
}

/** The dashboard page's analysis run: a fixed sequence of phases, each
    entered after a timed wait, that drives the audio processor and ends with
    mock results. The waits become separate steps so that a stop arriving
    between two of them can be placed; nothing in the run checks for it. */
module Dashboard {
  import opened Wrappers
  import opened Health
  import Chat
  import Text

  datatype Phase = Idle | Calibrating | Emitting | Recording | Analyzing | Complete

  /** The state updates `startAnalysis` makes after each wait. */
  datatype Step = EnterCalibrating | EnterEmitting | EnterRecording | EnterAnalyzing | EnterComplete | SetShowAIChat

  /** Calls the page makes on the audio processor through its ref. */
  datatype ProcessorCall = StartCapture | StopCapture

  /** The page's state. */
  datatype View = View(
    phase: Phase,
    progress: int,
    isPlaying: bool,
    isRecording: bool,
    results: Option<AnalysisResults>,
    showAIChat: bool,   // set at the end of a run; nothing reads it
    processorCalls: seq<ProcessorCall>)

  const InitialView := View(Idle, 0, false, false, None, false, [])

  /** The results every completed run produces. */
  const MockResults := AnalysisResults(
    Some("Normal"), Percent(87.0), [],
    Some(["Continue regular monitoring", "Maintain good respiratory health"]))

  /** `startAnalysis`, in order. */
  const RunSteps: seq<Step> := [EnterCalibrating, EnterEmitting, EnterRecording, EnterAnalyzing, EnterComplete, SetShowAIChat]

  /** One step of `startAnalysis`. `hasProcessor` says whether the audio
      processor ref is set. */
  function ApplyStep(v: View, step: Step, hasProcessor: bool): View {
    match step
    case EnterCalibrating => v.(phase := Calibrating, progress := 10)
    case EnterEmitting =>
      v.(phase := Emitting, progress := 25, isPlaying := true,
         processorCalls := v.processorCalls + (if hasProcessor then [StartCapture] else []))
    case EnterRecording => v.(phase := Recording, progress := 50, isRecording := true, isPlaying := false)
    case EnterAnalyzing => v.(phase := Analyzing, progress := 75, isRecording := false)
    case EnterComplete => v.(phase := Complete, progress := 100, results := Some(MockResults))
    case SetShowAIChat => v.(showAIChat := true)
  }

  /** The view after the first `k` steps of a run started from `v`. */
  function AfterSteps(v: View, k: nat, hasProcessor: bool): View
    requires k <= |RunSteps|
  {
    if k == 0 then v else ApplyStep(AfterSteps(v, k - 1, hasProcessor), RunSteps[k - 1], hasProcessor)
  }

  /** The steps of a run from step `k` on, applied to whatever view `w` the
      page has by then. */
  function ResumeFrom(w: View, k: nat, hasProcessor: bool): View
    requires k <= |RunSteps|
    decreases |RunSteps| - k
  {
    if k == |RunSteps| then w else ResumeFrom(ApplyStep(w, RunSteps[k], hasProcessor), k + 1, hasProcessor)
  }

  /** `stopAnalysis`. The results are left as they are. */
  function StopView(v: View, hasProcessor: bool): View {
    v.(phase := Idle, isRecording := false, isPlaying := false, progress := 0,
       processorCalls := v.processorCalls + (if hasProcessor then [StopCapture] else []))
  }

  /** Left alone after step `k`, a run resumes to the same end as the whole
      run. */
  lemma {:induction false} ResumeCompletesRun(v: View, k: nat, hasProcessor: bool)
    requires k <= |RunSteps|
    ensures ResumeFrom(AfterSteps(v, k, hasProcessor), k, hasProcessor) == AfterSteps(v, |RunSteps|, hasProcessor)
    decreases |RunSteps| - k
  {
    if k < |RunSteps| {
      ResumeCompletesRun(v, k + 1, hasProcessor);
    }
  }

  /** Every intermediate view of a run, written out. */
  lemma RunTrace(v: View, hasProcessor: bool)
    ensures var calls := v.processorCalls + (if hasProcessor then [StartCapture] else []);
            && AfterSteps(v, 0, hasProcessor) == v
            && AfterSteps(v, 1, hasProcessor) == v.(phase := Calibrating, progress := 10)
            && AfterSteps(v, 2, hasProcessor) == v.(phase := Emitting, progress := 25, isPlaying := true, processorCalls := calls)
            && AfterSteps(v, 3, hasProcessor) == v.(phase := Recording, progress := 50, isPlaying := false, isRecording := true, processorCalls := calls)
            && AfterSteps(v, 4, hasProcessor) == v.(phase := Analyzing, progress := 75, isPlaying := false, isRecording := false, processorCalls := calls)
            && AfterSteps(v, 5, hasProcessor) == v.(phase := Complete, progress := 100, isPlaying := false, isRecording := false, processorCalls := calls, results := Some(MockResults))
            && AfterSteps(v, 6, hasProcessor) == v.(phase := Complete, progress := 100, isPlaying := false, isRecording := false, processorCalls := calls, results := Some(MockResults), showAIChat := true)
  {
  }

  const RunPhases: seq<Phase> := [Calibrating, Emitting, Recording, Analyzing, Complete]

  /** A run visits calibrating, emitting, recording, analyzing and complete in
      that order, with progress rising strictly through 10, 25, 50, 75 and
      100; the results are left as they were until complete, which sets the
      mock ones. */
  lemma RunVisitsPhasesInOrder(v: View, hasProcessor: bool)
    ensures forall k :: 1 <= k <= 5 ==> AfterSteps(v, k, hasProcessor).phase == RunPhases[k - 1]
    ensures AfterSteps(v, 1, hasProcessor).progress == 10 && AfterSteps(v, 5, hasProcessor).progress == 100
    ensures forall k :: 1 <= k < 5 ==> AfterSteps(v, k, hasProcessor).progress < AfterSteps(v, k + 1, hasProcessor).progress
    ensures forall k :: 0 <= k < 5 ==> AfterSteps(v, k, hasProcessor).results == v.results
    ensures var end := AfterSteps(v, |RunSteps|, hasProcessor);
            end.phase == Complete && end.progress == 100 && end.results == Some(MockResults) && end.showAIChat
  {
    RunTrace(v, hasProcessor);
  }

  /** Neither `stopAnalysis` nor `startAnalysis` clears the results, so a run
      started after a completed run and a stop shows the previous results
      from its first step until its own complete step. */
  lemma RerunShowsPreviousResults(hasProcessor: bool)
    ensures var done := AfterSteps(InitialView, |RunSteps|, hasProcessor);
            var stopped := StopView(done, hasProcessor);
            && stopped.phase == Idle
            && forall k :: 1 <= k < 5 ==>
                 AfterSteps(stopped, k, hasProcessor).results == Some(MockResults)
                 && AfterSteps(stopped, k, hasProcessor).phase != Complete
  {
    var done := AfterSteps(InitialView, |RunSteps|, hasProcessor);
    RunVisitsPhasesInOrder(InitialView, hasProcessor);
    RunVisitsPhasesInOrder(StopView(done, hasProcessor), hasProcessor);
  }

  /** Starting from a page with neither flag set, `isPlaying` holds only
      after the emitting step and `isRecording` only after the recording
      step, so the run never has both set. */
  lemma RunNeverPlaysAndRecords(v: View, hasProcessor: bool)
    requires !v.isPlaying && !v.isRecording
    ensures forall k :: 0 <= k <= |RunSteps| ==>
              (AfterSteps(v, k, hasProcessor).isPlaying <==> k == 2)
              && (AfterSteps(v, k, hasProcessor).isRecording <==> k == 3)
  {
    RunTrace(v, hasProcessor);
  }

  /** `isActive={isRecording || isPlaying}`: the prop the audio processor gets. */
  predicate ProcessorActive(v: View) {
    v.isRecording || v.isPlaying
  }

  /** During a run from the idle page, the audio processor is active exactly
      in the emitting and recording phases. */
  lemma ActiveWhileEmittingOrRecording(v: View, hasProcessor: bool)
    requires v.phase == Idle && !v.isPlaying && !v.isRecording
    ensures forall k :: 0 <= k <= |RunSteps| ==>
              (ProcessorActive(AfterSteps(v, k, hasProcessor))
               <==> AfterSteps(v, k, hasProcessor).phase in {Emitting, Recording})
  {
    RunTrace(v, hasProcessor);
  }

  /** The steps of a run from step `k` on, applied to any view `w`: whatever
      `w` was, they end at complete with the mock results and the
      `showAIChat` flag set, and they start the processor again when they include the
      emitting step. */
  lemma {:induction false} ResumeEndsComplete(w: View, k: nat, hasProcessor: bool)
    requires k <= 4
    ensures var end := ResumeFrom(w, k, hasProcessor);
            && end.phase == Complete && end.progress == 100
            && end.results == Some(MockResults) && end.showAIChat
            && end.isPlaying == (if k <= 2 then false else w.isPlaying)
            && end.isRecording == (if k <= 3 then false else w.isRecording)
            && end.processorCalls == w.processorCalls + (if k <= 1 && hasProcessor then [StartCapture] else [])
    decreases 4 - k
  {
    if k < 4 {
      ResumeEndsComplete(ApplyStep(w, RunSteps[k], hasProcessor), k + 1, hasProcessor);
    }
  }

  /** `startAnalysis` never looks for a stop: a stop after any of the first
      four steps sends the page to idle, yet the remaining steps still take
      it to complete with the mock results and `showAIChat` set, and a stop
      during calibration is even followed by starting the processor. */
  lemma StopDoesNotCancel(v: View, k: nat, hasProcessor: bool)
    requires k <= 4
    ensures var stopped := StopView(AfterSteps(v, k, hasProcessor), hasProcessor);
            var end := ResumeFrom(stopped, k, hasProcessor);
            && stopped.phase == Idle
            && end.phase == Complete && end.progress == 100 && end.results == Some(MockResults) && end.showAIChat
            && !end.isPlaying && !end.isRecording
            && end.processorCalls == AfterSteps(v, k, hasProcessor).processorCalls
                                     + (if hasProcessor then [StopCapture] else [])
                                     + (if k <= 1 && hasProcessor then [StartCapture] else [])
  {
    ResumeEndsComplete(StopView(AfterSteps(v, k, hasProcessor), hasProcessor), k, hasProcessor);
  }

  /** The single-run guarantee does not survive overlapping runs: stopping
      during emitting and starting again lets the old run's recording step
      and the new run's emitting step set both flags. */
  lemma OverlappingRunsCanPlayAndRecord()
    ensures var a1 := ApplyStep(InitialView, EnterCalibrating, true);
            var a2 := ApplyStep(a1, EnterEmitting, true);
            var stopped := StopView(a2, true);
            var b1 := ApplyStep(stopped, EnterCalibrating, true);
            var a3 := ApplyStep(b1, EnterRecording, true);
            var b2 := ApplyStep(a3, EnterEmitting, true);
            b2.isPlaying && b2.isRecording && b2.phase == Emitting
  {
  }

  /** `stopAnalysis` resets the phase, the progress and both flags and keeps
      the results. */
  lemma StopResets(v: View, hasProcessor: bool)
    ensures var s := StopView(v, hasProcessor);
            s.phase == Idle && s.progress == 0 && !s.isPlaying && !s.isRecording
            && s.results == v.results && s.showAIChat == v.showAIChat
  {
  }

  /** `getPhaseDescription`; idle takes the default branch. */
  function PhaseDescription(phase: Phase): string {
    match phase
    case Calibrating => "Calibrating audio system..."
    case Emitting => "Emitting sound pulses..."
    case Recording => "Recording chest reverberations..."
    case Analyzing => "Analyzing audio patterns..."
    case Complete => "Analysis complete"
    case Idle => "Ready to start analysis"
  }

  /** `getPhaseColor`; idle takes the default branch. */
  function PhaseColor(phase: Phase): string {
    match phase
    case Calibrating => "from-blue-400 to-cyan-400"
    case Emitting => "from-purple-400 to-pink-400"
    case Recording => "from-red-400 to-orange-400"
    case Analyzing => "from-green-400 to-teal-400"
    case Complete => "from-emerald-400 to-cyan-400"
    case Idle => "from-slate-400 to-slate-500"
  }

  /** Each phase has its own description and its own colour. */
  lemma PhaseLabelsDistinct(p: Phase, q: Phase)
    ensures p != q ==> PhaseDescription(p) != PhaseDescription(q) && PhaseColor(p) != PhaseColor(q)
  {
  }

  /** The Start button shows in idle, Stop otherwise. */
  predicate ShowsStartButton(v: View) {
    v.phase == Idle
  }

  /** The progress bar shows only while the progress is positive. */
  predicate ShowsProgressBar(v: View) {
    v.progress > 0
  }

  /** Once a run has taken a step, Stop replaces Start and the progress bar
      is visible; after a stop it is the other way round. */
  lemma ControlsDuringRun(v: View, hasProcessor: bool)
    ensures forall k :: 1 <= k <= |RunSteps| ==>
              !ShowsStartButton(AfterSteps(v, k, hasProcessor)) && ShowsProgressBar(AfterSteps(v, k, hasProcessor))
    ensures ShowsStartButton(StopView(v, hasProcessor)) && !ShowsProgressBar(StopView(v, hasProcessor))
  {
    RunTrace(v, hasProcessor);
  }

  /** Were the mock results passed to the chat, they would select its
      high-confidence normal opening; the page never passes them on. */
  lemma MockResultsOpenWithGreatNews()
    ensures Chat.InitialMessage(Some(MockResults)) == Chat.GreatNews(Percent(87.0))
  {
    assert Text.ToLower("Normal") == "normal";
  }

  /** The dashboard page's state. */
  class DashboardPage {
    var phase: Phase
    var progress: int
    var isPlaying: bool
    var isRecording: bool
    var results: Option<AnalysisResults>
    var showAIChat: bool
    var processorCalls: seq<ProcessorCall>
    /** Whether `audioProcessorRef.current` is set. */
    const hasProcessor: bool

    function State(): View
      reads this
    {
      View(phase, progress, isPlaying, isRecording, results, showAIChat, processorCalls)
    }

    constructor (hasProcessor: bool)
      ensures State() == InitialView && this.hasProcessor == hasProcessor
    {
      phase, progress, isPlaying, isRecording := Idle, 0, false, false;
      results, showAIChat, processorCalls := None, false, [];
      this.hasProcessor := hasProcessor;
    }

    /** `startAnalysis` run to the end without interruption. */
    method StartAnalysis()
      modifies this
      ensures State() == AfterSteps(old(State()), |RunSteps|, hasProcessor)
    {
      ghost var v0 := State();
      RunTrace(v0, hasProcessor);
      phase := Calibrating;
      progress := 10;
      // the calibration wait
      phase := Emitting;
      progress := 25;
      isPlaying := true;
      if hasProcessor {
        processorCalls := processorCalls + [StartCapture];
      }
      // the emission wait
      phase := Recording;
      progress := 50;
      isRecording := true;
      isPlaying := false;
      // the recording wait
      phase := Analyzing;
      progress := 75;
      isRecording := false;
      // the analysis wait
      phase := Complete;
      progress := 100;
      results := Some(MockResults);
      // the wait before `showAIChat` is set; nothing reads the flag
      showAIChat := true;
    }

    /** `stopAnalysis`. */
    method StopAnalysis()
      modifies this
      ensures State() == StopView(old(State()), hasProcessor)
    {
      phase := Idle;
      isRecording := false;
      isPlaying := false;
      progress := 0;
      if hasProcessor {
        processorCalls := processorCalls + [StopCapture];
      }
    }
  }
}

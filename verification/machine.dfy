/** The phase machine: the user actions and timer ticks a session receives,
    which of them the current screen offers, and the invariant every reachable
    session satisfies. */
module Machine {
  import opened Wrappers
  import opened Fixtures
  import opened Game

  /** One event: a button, radio, text-area or timer event of the component. */
  datatype Command =
    | EnterGame                      // intro: "Enter Game"
    | StartGame                      // instructions: "Start Game"
    | StartInvestigation             // briefing: "Start Investigation"
    | Collect(source: EvidenceSource) // investigation: a source's collect button
    | ProceedToAnalysis              // investigation: "Proceed to Analysis"
    | Select(value: string)          // analysis: a hypothesis radio button
    | SubmitAnalysisCmd              // analysis: "Submit Analysis"
    | EditFindings(text: string)     // solution: the report text area
    | SubmitSolutionCmd              // solution: "Submit Final Report"
    | TryNewCase                     // results: "Try New Case"
    | TimerTick                      // the countdown effect firing

  /** The command is available on the current screen: its control is
      rendered there and not disabled. */
  predicate Offered(s: Session, c: Command) {
    match c
    case EnterGame => s.currentPhase == Intro
    case StartGame => s.currentPhase == Instructions
    case StartInvestigation => s.currentPhase == Briefing
    case Collect(source) =>
      s.currentPhase == Investigation && source in EvidenceSources
      && !Collected(s.evidence, source.id)
    case ProceedToAnalysis => s.currentPhase == Investigation && |s.evidence| >= 3
    case Select(value) =>
      s.currentPhase == Analysis && FindOption(AnalysisOptions, value).Some?
    case SubmitAnalysisCmd => s.currentPhase == Analysis && s.selectedAnalysis != ""
    case EditFindings(_) => s.currentPhase == Solution
    case SubmitSolutionCmd => s.currentPhase == Solution
    case TryNewCase => s.currentPhase == Results
    case TimerTick => true
  }

  /** The edges of the phase graph: the linear walk through a case and the
      single way back from the results to a new briefing. */
  predicate Edge(from: Phase, to: Phase) {
    || (from == Intro && to == Instructions)
    || (from == Instructions && to == Briefing)
    || (from == Briefing && to == Investigation)
    || (from == Investigation && to == Analysis)
    || (from == Analysis && to == Solution)
    || (from == Solution && to == Results)
    || (from == Results && to == Briefing)
  }

  /** The effect of a command; one the screen does not offer changes nothing. */
  function Step(s: Session, c: Command): (r: Session)
    ensures !Offered(s, c) ==> r == s
    ensures r.currentPhase == s.currentPhase || Edge(s.currentPhase, r.currentPhase)
    ensures s.currentPhase == Investigation && r.currentPhase == Analysis ==> |s.evidence| >= 3
    ensures s.playerLevel == JuniorAnalyst ==> r.playerLevel == JuniorAnalyst
    ensures r.playerLevel != s.playerLevel ==> s.currentPhase == Solution && r.score >= PromotionScore
    ensures r.score >= s.score || (c == TryNewCase && r.currentPhase == Briefing && r.score == 0)
    // what an offered button or field does
    ensures c == EnterGame && Offered(s, c) ==> r == s.(currentPhase := Instructions)
    ensures c == StartGame && Offered(s, c) ==> r == s.(currentPhase := Briefing)
    ensures c == StartInvestigation && Offered(s, c) ==> r == s.(currentPhase := Investigation)
    ensures c == ProceedToAnalysis && Offered(s, c) ==> r == s.(currentPhase := Analysis)
    ensures c.Select? && Offered(s, c) ==> r == s.(selectedAnalysis := c.value)
    ensures c.EditFindings? && Offered(s, c) ==> r == s.(findings := c.text)
    // the countdown event always runs the tick, which itself checks the phase
    ensures c == TimerTick ==> r == Tick(s)
  {
    if !Offered(s, c) then s
    else
      match c
      case EnterGame => GoTo(s, Instructions)
      case StartGame => GoTo(s, Briefing)
      case StartInvestigation => GoTo(s, Investigation)
      case Collect(source) => CollectEvidence(s, source)
      case ProceedToAnalysis => GoTo(s, Analysis)
      case Select(value) => SelectAnalysis(s, value)
      case SubmitAnalysisCmd => SubmitAnalysis(s)
      case EditFindings(text) => UpdateFindings(s, text)
      case SubmitSolutionCmd => SubmitSolution(s)
      case TryNewCase => NewCase(s)
      case TimerTick => Tick(s)
  }

  /** The session after a sequence of commands. */
  function Run(s: Session, cmds: seq<Command>): (r: Session)
    decreases |cmds|
  {
    if cmds == [] then s else Run(Step(s, cmds[0]), cmds[1..])
  }

  /** The badges earned by the collections that bring the evidence board to
      `n` sources. */
  function CollectionBadges(n: nat): seq<Badge> {
    (if n >= 2 then [FirstEvidence] else []) + (if n >= 4 then [ThoroughInvestigator] else [])
  }

  /** The badge earned by submitting hypothesis `o`. */
  function AnalysisBadges(o: HypothesisOption): seq<Badge> {
    if o.correctness >= SharpThreshold then [SharpAnalyst] else []
  }

  /** The badge earned by a report bonus of `bonus`. */
  function ReportBadges(bonus: nat): seq<Badge> {
    if bonus >= 50 then [SolutionMaster] else []
  }

  /** Fields as the start of a case sets them. */
  predicate Fresh(s: Session) {
    && s.score == 0 && s.evidence == [] && s.selectedAnalysis == ""
    && s.findings == "" && s.timeLeft == InitialTime && s.badges == []
  }

  /** The evidence board holds fixture sources, none twice. */
  predicate EvidenceOk(evidence: seq<EvidenceSource>) {
    && (forall k :: 0 <= k < |evidence| ==> evidence[k] in EvidenceSources)
    && DistinctIds(evidence)
  }

  /** During collection: the score is 25 per source and the badges are those
      the collections earned. */
  ghost predicate Collecting(s: Session) {
    && EvidenceOk(s.evidence)
    && 0 <= s.timeLeft <= InitialTime
    && s.score == EvidencePoints * |s.evidence|
    && s.badges == CollectionBadges(|s.evidence|)
  }

  /** After the analysis: the selection names a hypothesis and the score and
      badges are what the collections, that hypothesis and a report bonus of
      `bonus` earned. */
  ghost predicate Analysed(s: Session, bonus: nat) {
    && EvidenceOk(s.evidence)
    && |s.evidence| >= 3
    && 0 <= s.timeLeft <= InitialTime
    && FindOption(AnalysisOptions, s.selectedAnalysis).Some?
    && var o := FindOption(AnalysisOptions, s.selectedAnalysis).value;
    && s.score == EvidencePoints * |s.evidence| + o.correctness + bonus
    && s.badges == CollectionBadges(|s.evidence|) + AnalysisBadges(o) + ReportBadges(bonus)
  }

  /** The invariant of reachable sessions, phase by phase. */
  ghost predicate Valid(s: Session) {
    match s.currentPhase
    case Intro => Fresh(s) && s.playerLevel == ApprenticeDetective
    case Instructions => Fresh(s) && s.playerLevel == ApprenticeDetective
    case Briefing => Fresh(s)
    case Investigation => Collecting(s) && s.selectedAnalysis == "" && s.findings == ""
    case Analysis =>
      && Collecting(s) && |s.evidence| >= 3 && s.findings == ""
      && (s.selectedAnalysis == "" || FindOption(AnalysisOptions, s.selectedAnalysis).Some?)
    case Solution => Analysed(s, 0)
    case Results =>
      && Analysed(s, Bonus(s.findings))
      && (s.score >= PromotionScore ==> s.playerLevel == JuniorAnalyst)
  }

  lemma InitialValid()
    ensures Valid(Initial)
  {
  }

  /** Collecting a new fixture source keeps the board well-formed. */
  lemma CollectKeepsBoard(evidence: seq<EvidenceSource>, source: EvidenceSource)
    requires EvidenceOk(evidence) && source in EvidenceSources && !Collected(evidence, source.id)
    ensures EvidenceOk(evidence + [source])
  {
    var ev := evidence + [source];
    forall i, j | 0 <= i < j < |ev|
      ensures ev[i].id != ev[j].id
    {
      if j == |evidence| {
        assert evidence[i].id != source.id;
      }
    }
  }

  /** A collection on the investigation screen keeps the invariant: the
      score stays 25 per source and the badges those the collections earned. */
  lemma CollectValid(s: Session, source: EvidenceSource)
    requires Valid(s) && Offered(s, Collect(source))
    ensures Valid(CollectEvidence(s, source))
  {
    var n := |s.evidence|;
    var r := CollectEvidence(s, source);
    CollectKeepsBoard(s.evidence, source);
    assert |r.evidence| == n + 1;
    assert r.score == EvidencePoints * (n + 1);
    if n == 1 {
      assert r.badges == [FirstEvidence];
    } else if n == 3 {
      assert r.badges == [FirstEvidence, ThoroughInvestigator];
    } else {
      assert r.badges == s.badges;
    }
  }

  /** Submitting the analysis keeps the invariant. */
  lemma SubmitAnalysisValid(s: Session)
    requires Valid(s) && Offered(s, SubmitAnalysisCmd)
    ensures Valid(SubmitAnalysis(s))
  {
    var r := SubmitAnalysis(s);
    if FindOption(AnalysisOptions, s.selectedAnalysis).Some? {
      var o := FindOption(AnalysisOptions, s.selectedAnalysis).value;
      assert r.badges == CollectionBadges(|s.evidence|) + AnalysisBadges(o) + ReportBadges(0);
    }
  }

  /** Submitting the report keeps the invariant. */
  lemma SubmitSolutionValid(s: Session)
    requires Valid(s) && Offered(s, SubmitSolutionCmd)
    ensures Valid(SubmitSolution(s))
  {
    var r := SubmitSolution(s);
    var o := FindOption(AnalysisOptions, s.selectedAnalysis).value;
    var b := Bonus(s.findings);
    assert s.badges == CollectionBadges(|s.evidence|) + AnalysisBadges(o) + ReportBadges(0);
    assert r.badges == s.badges + ReportBadges(b);
    assert r.score == EvidencePoints * |s.evidence| + o.correctness + b;
  }

  /** Every command keeps the invariant. */
  lemma {:induction false} StepValid(s: Session, c: Command)
    requires Valid(s)
    ensures Valid(Step(s, c))
  {
    if Offered(s, c) {
      match c
      case Collect(source) => CollectValid(s, source);
      case SubmitAnalysisCmd => SubmitAnalysisValid(s);
      case SubmitSolutionCmd => SubmitSolutionValid(s);
      case _ =>
    }
  }

  /** Every session reachable from a valid one is valid. */
  lemma {:induction false} RunValid(s: Session, cmds: seq<Command>)
    requires Valid(s)
    ensures Valid(Run(s, cmds))
    decreases |cmds|
  {
    if cmds != [] {
      StepValid(s, cmds[0]);
      RunValid(Step(s, cmds[0]), cmds[1..]);
    }
  }

  /** The board without its `i`-th source. */
  function RemoveAt(evidence: seq<EvidenceSource>, i: nat): (rest: seq<EvidenceSource>)
    requires i < |evidence|
    ensures |rest| == |evidence| - 1
    ensures forall k :: 0 <= k < |rest| ==> rest[k] == evidence[if k < i then k else k + 1]
  {
    evidence[..i] + evidence[i + 1..]
  }

  /** Removing one source keeps the remaining identifiers distinct, and none
      of them is the removed one's. */
  lemma RemoveAtDistinct(evidence: seq<EvidenceSource>, i: nat)
    requires i < |evidence| && DistinctIds(evidence)
    ensures DistinctIds(RemoveAt(evidence, i))
    ensures forall k :: 0 <= k < |evidence| - 1 ==> RemoveAt(evidence, i)[k].id != evidence[i].id
  {
    var rest := RemoveAt(evidence, i);
    forall a, b | 0 <= a < b < |rest|
      ensures rest[a].id != rest[b].id
    {
      var a' := if a < i then a else a + 1;
      var b' := if b < i then b else b + 1;
      assert rest[a] == evidence[a'] && rest[b] == evidence[b'] && a' < b';
    }
  }

  /** A board of distinct sources drawn from `pool` is no longer than `pool`. */
  lemma {:induction false} BoardWithin(evidence: seq<EvidenceSource>, pool: seq<EvidenceSource>)
    requires DistinctIds(evidence)
    requires forall k :: 0 <= k < |evidence| ==> evidence[k] in pool
    ensures |evidence| <= |pool|
    decreases |pool|
  {
    if evidence != [] {
      assert evidence[0] in pool;
      if i :| 0 <= i < |evidence| && evidence[i] == pool[0] {
        var rest := RemoveAt(evidence, i);
        RemoveAtDistinct(evidence, i);
        forall k | 0 <= k < |rest|
          ensures rest[k] in pool[1..]
        {
          assert rest[k] in pool && rest[k] != pool[0];
        }
        BoardWithin(rest, pool[1..]);
      } else {
        forall k | 0 <= k < |evidence|
          ensures evidence[k] in pool[1..]
        {
          assert evidence[k] != pool[0];
        }
        BoardWithin(evidence, pool[1..]);
      }
    }
  }

  /** No badge is listed twice. */
  ghost predicate NoRepeats(badges: seq<Badge>) {
    forall i, j :: 0 <= i < j < |badges| ==> badges[i] != badges[j]
  }

  /** What the invariant guarantees of every reachable session: at most the
      four fixture sources, none twice; the countdown within [0, 300]; while
      evidence is being collected and analysed, 25 points per source; and a
      score between 0 and 275 (100 for the sources, 100 for the best
      hypothesis, 75 for the best report). */
  lemma Bounds(s: Session)
    requires Valid(s)
    ensures DistinctIds(s.evidence) && |s.evidence| <= 4
    ensures 0 <= s.timeLeft <= InitialTime
    ensures s.currentPhase in {Investigation, Analysis} ==> s.score == EvidencePoints * |s.evidence|
    ensures 0 <= s.score <= 275
  {
    BoardWithin(s.evidence, EvidenceSources);
    BonusDecodes(s.findings);
    if s.currentPhase in {Solution, Results} {
      var o := FindOption(AnalysisOptions, s.selectedAnalysis).value;
      assert o in AnalysisOptions;
      assert o.correctness <= 100;
    }
  }

  /** The position of a badge in the order a play-through can earn them. */
  function EarnOrder(b: Badge): nat {
    match b
    case FirstEvidence => 0
    case ThoroughInvestigator => 1
    case SharpAnalyst => 2
    case SolutionMaster => 3
  }

  /** Badges listed in strictly increasing earning order. */
  ghost predicate InEarnOrder(badges: seq<Badge>) {
    forall i, j :: 0 <= i < j < |badges| ==> EarnOrder(badges[i]) < EarnOrder(badges[j])
  }

  /** Appending a badge later in the order than every listed one keeps the order. */
  lemma AppendInOrder(badges: seq<Badge>, extra: seq<Badge>)
    requires InEarnOrder(badges) && |extra| <= 1
    requires forall i, j :: 0 <= i < |badges| && 0 <= j < |extra| ==> EarnOrder(badges[i]) < EarnOrder(extra[j])
    ensures InEarnOrder(badges + extra)
  {
  }

  /** Collection, analysis and report badges, in that order, are in earning
      order whenever the board holds at most four sources. */
  lemma EarnedInOrder(n: nat, o: HypothesisOption, bonus: nat)
    requires n <= 4
    ensures InEarnOrder(CollectionBadges(n))
    ensures InEarnOrder(CollectionBadges(n) + AnalysisBadges(o) + ReportBadges(bonus))
  {
    var c := CollectionBadges(n);
    assert c == [] || c == [FirstEvidence] || c == [FirstEvidence, ThoroughInvestigator];
    AppendInOrder(c, AnalysisBadges(o));
    AppendInOrder(c + AnalysisBadges(o), ReportBadges(bonus));
  }

  /** The badges of a reachable session are in earning order, so none is
      listed twice. */
  lemma BadgesDistinct(s: Session)
    requires Valid(s)
    ensures InEarnOrder(s.badges)
    ensures NoRepeats(s.badges)
  {
    BoardWithin(s.evidence, EvidenceSources);
    var n := |s.evidence|;
    match s.currentPhase
    case Solution =>
      EarnedInOrder(n, FindOption(AnalysisOptions, s.selectedAnalysis).value, 0);
    case Results =>
      EarnedInOrder(n, FindOption(AnalysisOptions, s.selectedAnalysis).value, Bonus(s.findings));
    case _ =>
      EarnedInOrder(n, HypothesisOption("", 0), 0);
  }

  /** The "Proceed to Analysis" button is there exactly when at least three
      sources have been collected. */
  lemma ProceedGate(s: Session)
    requires s.currentPhase == Investigation
    ensures Step(s, ProceedToAnalysis).currentPhase == Analysis <==> |s.evidence| >= 3
    ensures Step(s, ProceedToAnalysis).currentPhase != Analysis ==> Step(s, ProceedToAnalysis) == s
  {
  }

  /** A source's collect button is disabled once that source is collected,
      which the handler's own guard would make a no-op anyway: on the
      investigation screen a fixture source's button acts exactly as the
      handler does. */
  lemma CollectButtonGate(s: Session, source: EvidenceSource)
    requires s.currentPhase == Investigation && source in EvidenceSources
    ensures Step(s, Collect(source)) == CollectEvidence(s, source)
    ensures Collected(s.evidence, source.id) ==> Step(s, Collect(source)) == s
  {
  }

  /** The radio buttons only ever record an option identifier, so on a
      reachable analysis screen the selection is empty or names an option. */
  lemma RadioValues(s: Session, value: string)
    requires Valid(s) && s.currentPhase == Analysis
    ensures s.selectedAnalysis == "" || FindOption(AnalysisOptions, s.selectedAnalysis).Some?
    ensures var r := Step(s, Select(value));
      r.selectedAnalysis == "" || FindOption(AnalysisOptions, r.selectedAnalysis).Some?
    ensures Step(s, Select(value)).selectedAnalysis == value <==>
      FindOption(AnalysisOptions, value).Some? || s.selectedAnalysis == value
  {
    var chosen := FindOption(AnalysisOptions, value).Some?;
    if chosen {
      assert Step(s, Select(value)) == s.(selectedAnalysis := value);
    } else {
      assert Step(s, Select(value)) == s;
    }
  }

  /** "Submit Analysis" is disabled while nothing is selected; on a
      reachable analysis screen, once it is enabled, it always finds the
      option and moves on to the solution screen. */
  lemma SubmitButtonGate(s: Session)
    requires Valid(s) && s.currentPhase == Analysis
    ensures Offered(s, SubmitAnalysisCmd) <==> s.selectedAnalysis != ""
    ensures s.selectedAnalysis != "" ==> Step(s, SubmitAnalysisCmd).currentPhase == Solution
    ensures s.selectedAnalysis == "" ==> Step(s, SubmitAnalysisCmd) == s
    ensures Step(s, SubmitAnalysisCmd) == SubmitAnalysis(s)
  {
  }

  /** The report text area and "Submit Final Report" are never disabled: on
      the solution screen they act exactly as their handlers, and nowhere
      else do they change anything. */
  lemma SolutionControls(s: Session, text: string)
    ensures s.currentPhase == Solution ==>
      Step(s, EditFindings(text)) == UpdateFindings(s, text)
      && Step(s, SubmitSolutionCmd) == SubmitSolution(s)
    ensures s.currentPhase != Solution ==>
      Step(s, SubmitSolutionCmd) == s && Step(s, EditFindings(text)) == s
  {
  }

  /** "Try New Case" is never disabled: on the results screen it resets the
      case, and nowhere else does it change anything. */
  lemma NewCaseControl(s: Session)
    ensures s.currentPhase == Results ==> Step(s, TryNewCase) == NewCase(s)
    ensures s.currentPhase != Results ==> Step(s, TryNewCase) == s
  {
  }

  /** Until the first "Try New Case", the rank is Junior Analyst exactly on
      the results screen of a report that brought the score to 200. */
  ghost predicate FirstRound(s: Session) {
    s.playerLevel == JuniorAnalyst <==> s.currentPhase == Results && s.score >= PromotionScore
  }

  /** Every command but "Try New Case" keeps that characterisation. */
  lemma FirstRoundStep(s: Session, c: Command)
    requires Valid(s) && FirstRound(s) && c != TryNewCase
    ensures FirstRound(Step(s, c))
  {
    if Offered(s, c) && c == SubmitSolutionCmd {
      assert s.playerLevel == ApprenticeDetective;
    }
  }

  /** Along any run without "Try New Case", the rank is Junior Analyst
      exactly on the results screen of a score of at least 200. */
  lemma {:induction false} FirstRoundRank(s: Session, cmds: seq<Command>)
    requires Valid(s) && FirstRound(s)
    requires forall k :: 0 <= k < |cmds| ==> cmds[k] != TryNewCase
    ensures FirstRound(Run(s, cmds))
    decreases |cmds|
  {
    if cmds != [] {
      StepValid(s, cmds[0]);
      FirstRoundStep(s, cmds[0]);
      FirstRoundRank(Step(s, cmds[0]), cmds[1..]);
    }
  }

  /** Running a command first and the rest afterwards. */
  lemma RunCons(s: Session, c: Command, rest: seq<Command>)
    ensures Run(s, [c] + rest) == Run(Step(s, c), rest)
  {
    assert ([c] + rest)[1..] == rest;
  }

  /** Collecting the fixture sources in display order: the `k`-th collection
      extends the board by the `k`-th source and earns 25 points. */
  lemma CollectInOrder(s: Session, k: nat)
    requires s.currentPhase == Investigation && k < |EvidenceSources|
    requires s.evidence == EvidenceSources[..k]
    ensures Step(s, Collect(EvidenceSources[k])) == CollectEvidence(s, EvidenceSources[k])
    ensures Step(s, Collect(EvidenceSources[k])).evidence == EvidenceSources[..k + 1]
    ensures Step(s, Collect(EvidenceSources[k])).score == s.score + EvidencePoints
  {
    var e := EvidenceSources;
    assert forall i, j :: 0 <= i < j < 4 ==> e[i].id != e[j].id;
    assert !Collected(s.evidence, e[k].id);
    assert e[..k] + [e[k]] == e[..k + 1];
  }

  /** The board after collecting all four sources from a fresh investigation. */
  const FullBoard: Session :=
    Initial.(currentPhase := Investigation, evidence := EvidenceSources, score := 100,
             badges := [FirstEvidence, ThoroughInvestigator])

  /** From the mount state, "Enter Game", "Start Game" and "Start
      Investigation" reach a fresh investigation with the full countdown. */
  lemma Opening()
    ensures Run(Initial, [EnterGame, StartGame, StartInvestigation])
      == Initial.(currentPhase := Investigation)
  {
    var s1 := Step(Initial, EnterGame);
    var s2 := Step(s1, StartGame);
    RunCons(Initial, EnterGame, [StartGame, StartInvestigation]);
    RunCons(s1, StartGame, [StartInvestigation]);
    RunCons(s2, StartInvestigation, []);
  }

  /** Running one sequence of commands and then another. */
  lemma {:induction false} RunAppend(s: Session, first: seq<Command>, second: seq<Command>)
    ensures Run(s, first + second) == Run(Run(s, first), second)
    decreases |first|
  {
    if first == [] {
      assert first + second == second;
    } else {
      assert (first + second)[1..] == first[1..] + second;
      RunAppend(Step(s, first[0]), first[1..], second);
    }
  }

  /** From the mount state, the three opening buttons and then the four
      collections fill the board, earn 100 points and both collection badges. */
  lemma CollectAllExample()
    ensures Run(Initial,
                [EnterGame, StartGame, StartInvestigation,
                 Collect(EvidenceSources[0]), Collect(EvidenceSources[1]),
                 Collect(EvidenceSources[2]), Collect(EvidenceSources[3])]) == FullBoard
  {
    var e := EvidenceSources;
    var opening := [EnterGame, StartGame, StartInvestigation];
    var collects := [Collect(e[0]), Collect(e[1]), Collect(e[2]), Collect(e[3])];
    assert opening + collects ==
      [EnterGame, StartGame, StartInvestigation, Collect(e[0]), Collect(e[1]), Collect(e[2]), Collect(e[3])];
    RunAppend(Initial, opening, collects);
    Opening();
    CollectFromFresh();
  }

  /** From a fresh investigation, the four collections fill the board. */
  lemma CollectFromFresh()
    ensures Run(Initial.(currentPhase := Investigation),
                [Collect(EvidenceSources[0]), Collect(EvidenceSources[1]),
                 Collect(EvidenceSources[2]), Collect(EvidenceSources[3])]) == FullBoard
  {
    var e := EvidenceSources;
    var s0 := Initial.(currentPhase := Investigation);
    assert s0.evidence == e[..0];
    CollectInOrder(s0, 0);
    var s1 := Step(s0, Collect(e[0]));
    CollectInOrder(s1, 1);
    var s2 := Step(s1, Collect(e[1]));
    CollectInOrder(s2, 2);
    var s3 := Step(s2, Collect(e[2]));
    CollectInOrder(s3, 3);
    var s4 := Step(s3, Collect(e[3]));
    assert s4.badges == [FirstEvidence, ThoroughInvestigator];
    assert e[..4] == e;
    RunCons(s0, Collect(e[0]), [Collect(e[1]), Collect(e[2]), Collect(e[3])]);
    RunCons(s1, Collect(e[1]), [Collect(e[2]), Collect(e[3])]);
    RunCons(s2, Collect(e[2]), [Collect(e[3])]);
    RunCons(s3, Collect(e[3]), []);
  }

  /** The top analysis on a full board: whatever the report, the score
      reaches 200 plus the report bonus, the player is promoted, and the
      badges are the two collection badges, "Sharp Analyst" and, for a bonus
      of at least 50, "Solution Master". */
  lemma FullMarksPromote(s: Session)
    requires Valid(s) && s.currentPhase == Solution
    requires |s.evidence| == 4 && s.selectedAnalysis == "technical_bugs"
    ensures Step(s, SubmitSolutionCmd).score == 200 + Bonus(s.findings)
    ensures Step(s, SubmitSolutionCmd).playerLevel == JuniorAnalyst
    ensures Step(s, SubmitSolutionCmd).badges[..3] == [FirstEvidence, ThoroughInvestigator, SharpAnalyst]
  {
    OptionTable("technical_bugs");
    assert s.score == 200;
  }
}

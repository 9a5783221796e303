/** The play-through state and the component's event handlers, each one an
    atomic `Session -> Session` function. The handlers are modelled as the
    component defines them, without regard to which screen is showing; which
    handler a screen offers is the business of the `Machine` module. */
module Game {
  import opened Wrappers
  import opened Text
  import opened Fixtures

  /** The screens of a play-through. */
  datatype Phase = Intro | Instructions | Briefing | Investigation | Analysis | Solution | Results

  /** The player's rank label. */
  datatype Rank = ApprenticeDetective | JuniorAnalyst

  datatype Badge = FirstEvidence | ThoroughInvestigator | SharpAnalyst | SolutionMaster

  /** The component's state fields, one per `useState`. */
  datatype Session = Session(
    score: int,
    playerLevel: Rank,
    evidence: seq<EvidenceSource>,
    selectedAnalysis: string,
    findings: string,
    timeLeft: int,
    badges: seq<Badge>,
    currentPhase: Phase)

  /** Seconds on the countdown at the start of a case (five minutes). */
  const InitialTime: int := 300
  /** Points for each newly collected evidence source. */
  const EvidencePoints: int := 25
  /** Total score from which a report promotes the player to Junior Analyst. */
  const PromotionScore: int := 200

  /** The state when the component mounts. */
  const Initial: Session :=
    Session(0, ApprenticeDetective, [], "", "", InitialTime, [], Intro)

  /** The phase's name as the component stores it. */
  function PhaseName(p: Phase): string {
    match p
    case Intro => "intro"
    case Instructions => "instructions"
    case Briefing => "briefing"
    case Investigation => "investigation"
    case Analysis => "analysis"
    case Solution => "solution"
    case Results => "results"
  }

  /** The render switch: the screen shown for a stored phase name; any name
      that is not a phase shows the briefing. */
  function ScreenFor(name: string): (p: Phase)
    ensures (exists q :: PhaseName(q) == name) ==> PhaseName(p) == name
    ensures (forall q :: PhaseName(q) != name) ==> p == Briefing
  {
    if name == "intro" then Intro
    else if name == "instructions" then Instructions
    else if name == "briefing" then Briefing
    else if name == "investigation" then Investigation
    else if name == "analysis" then Analysis
    else if name == "solution" then Solution
    else if name == "results" then Results
    else Briefing
  }

  /** `evidence.find(e => e.id === id)` finds something. */
  predicate Collected(evidence: seq<EvidenceSource>, id: string) {
    exists k :: 0 <= k < |evidence| && evidence[k].id == id
  }

  /** No identifier is collected twice. */
  predicate DistinctIds(evidence: seq<EvidenceSource>) {
    forall i, j :: 0 <= i < j < |evidence| ==> evidence[i].id != evidence[j].id
  }

  /** `collectEvidence(source)`. A source not yet collected is appended and
      earns 25 points; the collection that finds exactly one source already
      collected earns "First Evidence", the one that finds exactly three earns
      "Thorough Investigator". A source already collected changes nothing. */
  function CollectEvidence(s: Session, source: EvidenceSource): (r: Session)
    ensures Collected(s.evidence, source.id) ==> r == s
    ensures !Collected(s.evidence, source.id) ==>
      && r.evidence == s.evidence + [source]
      && r.score == s.score + EvidencePoints
      && r == s.(evidence := r.evidence, score := r.score, badges := r.badges)
    ensures |s.badges| <= |r.badges| <= |s.badges| + 1 && r.badges[..|s.badges|] == s.badges
    ensures |r.badges| == |s.badges| + 1 <==>
      !Collected(s.evidence, source.id) && (|s.evidence| == 1 || |s.evidence| == 3)
    ensures FirstEvidence in r.badges[|s.badges|..] <==>
      !Collected(s.evidence, source.id) && |s.evidence| == 1
    ensures ThoroughInvestigator in r.badges[|s.badges|..] <==>
      !Collected(s.evidence, source.id) && |s.evidence| == 3
    ensures DistinctIds(s.evidence) ==> DistinctIds(r.evidence)
    ensures Collected(r.evidence, source.id)
  {
    if Collected(s.evidence, source.id) then s
    else
      var n := |s.evidence|;
      var badges :=
        if n == 1 then s.badges + [FirstEvidence]
        else if n == 3 then s.badges + [ThoroughInvestigator]
        else s.badges;
      var ev := s.evidence + [source];
      assert ev[n].id == source.id;
      s.(evidence := ev, score := s.score + EvidencePoints, badges := badges)
  }

  /** The radio buttons' `onChange`: records the chosen option identifier. */
  function SelectAnalysis(s: Session, value: string): (r: Session) {
    s.(selectedAnalysis := value)
  }

  /** `submitAnalysis()`. When the selection names an option, its percentage
      is added to the score, "Sharp Analyst" is appended for a weight of at
      least 0.8, and the game moves to the solution screen. When it names no
      option (the empty selection included) nothing changes. */
  function SubmitAnalysis(s: Session): (r: Session)
    ensures FindOption(AnalysisOptions, s.selectedAnalysis).None? ==> r == s
    ensures FindOption(AnalysisOptions, s.selectedAnalysis).Some? ==>
      var o := FindOption(AnalysisOptions, s.selectedAnalysis).value;
      && r.currentPhase == Solution
      && r.score == s.score + o.correctness
      && (o.correctness >= SharpThreshold ==> r.badges == s.badges + [SharpAnalyst])
      && (o.correctness < SharpThreshold ==> r.badges == s.badges)
      && r == s.(score := r.score, badges := r.badges, currentPhase := Solution)
  {
    match FindOption(AnalysisOptions, s.selectedAnalysis)
    case None => s
    case Some(o) =>
      var badges := if o.correctness >= SharpThreshold then s.badges + [SharpAnalyst] else s.badges;
      s.(score := s.score + o.correctness, badges := badges, currentPhase := Solution)
  }

  /** The text area's `onChange`: records the report text. */
  function UpdateFindings(s: Session, text: string): (r: Session) {
    s.(findings := text)
  }

  /** Words that earn the technical bonus. */
  const TechnicalWords: seq<string> := ["technical", "bug"]
  /** Words that earn the recommendation bonus. */
  const RecommendationWords: seq<string> := ["recommendation", "solution"]

  /** The report mentions one of `words`, ignoring case. */
  predicate Mentions(findings: string, words: seq<string>) {
    exists k :: 0 <= k < |words| && Contains(Lower(findings), words[k])
  }

  /** The report bonus: 30 for more than 100 characters, 20 for mentioning
      "technical" or "bug", 25 for mentioning "recommendation" or "solution". */
  function Bonus(findings: string): (b: nat) {
    (if |findings| > 100 then 30 else 0)
    + (if Mentions(findings, TechnicalWords) then 20 else 0)
    + (if Mentions(findings, RecommendationWords) then 25 else 0)
  }

  /** The bonus takes one of eight values, at most 75, and its value tells
      exactly which of the three rules fired. A bonus of at least 50 (the
      "Solution Master" bar) needs a report longer than 100 characters. */
  lemma BonusDecodes(findings: string)
    ensures var b := Bonus(findings);
      && b in {0, 20, 25, 30, 45, 50, 55, 75}
      && b <= 75
      && (|findings| > 100 <==> b in {30, 50, 55, 75})
      && (Mentions(findings, TechnicalWords) <==> b in {20, 45, 50, 75})
      && (Mentions(findings, RecommendationWords) <==> b in {25, 45, 55, 75})
      && (b >= 50 ==> |findings| > 100)
  {
  }

  /** `submitSolution()`. Adds the report bonus to the score, appends
      "Solution Master" when the bonus is at least 50, promotes the player to
      Junior Analyst when the new total is at least 200, and moves to the
      results screen. A rank once reached is kept. */
  function SubmitSolution(s: Session): (r: Session)
    ensures r.currentPhase == Results
    ensures r.score == s.score + Bonus(s.findings)
    ensures r.badges == s.badges + [SolutionMaster] <==> Bonus(s.findings) >= 50
    ensures r.badges == s.badges <==> Bonus(s.findings) < 50
    ensures r.playerLevel == JuniorAnalyst <==>
      r.score >= PromotionScore || s.playerLevel == JuniorAnalyst
    ensures r == s.(score := r.score, badges := r.badges, playerLevel := r.playerLevel, currentPhase := Results)
  {
    var bonus := Bonus(s.findings);
    var badges := if bonus >= 50 then s.badges + [SolutionMaster] else s.badges;
    var level := if s.score + bonus >= PromotionScore then JuniorAnalyst else s.playerLevel;
    assert s.badges + [SolutionMaster] != s.badges by {
      assert |s.badges + [SolutionMaster]| != |s.badges|;
    }
    s.(score := s.score + bonus, badges := badges, playerLevel := level, currentPhase := Results)
  }

  /** One second of the countdown effect: it runs only on the investigation
      screen with time left, and then takes exactly one second off. */
  function Tick(s: Session): (r: Session)
    ensures r == s.(timeLeft := r.timeLeft)
    ensures r.timeLeft != s.timeLeft <==> s.currentPhase == Investigation && s.timeLeft > 0
    ensures r.timeLeft != s.timeLeft ==> r.timeLeft == s.timeLeft - 1
    ensures 0 <= s.timeLeft <= InitialTime ==> 0 <= r.timeLeft <= InitialTime
  {
    if s.currentPhase == Investigation && s.timeLeft > 0 then s.(timeLeft := s.timeLeft - 1) else s
  }

  /** "Try New Case": back to the briefing with score, evidence, selection,
      report, countdown and badges as at the start. The rank is kept. */
  function NewCase(s: Session): (r: Session)
    ensures r.currentPhase == Briefing && r.playerLevel == s.playerLevel
    ensures r == Initial.(playerLevel := s.playerLevel, currentPhase := Briefing)
  {
    s.(currentPhase := Briefing, score := 0, evidence := [], selectedAnalysis := "",
       findings := "", timeLeft := InitialTime, badges := [])
  }

  /** A button whose only effect is to show another screen. */
  function GoTo(s: Session, p: Phase): (r: Session) {
    s.(currentPhase := p)
  }
}

/**
 The drafter's deterministic floor: one sentence per exhibit, phrased from the exhibit's
 query and unit alone, its quantity left to a slot.
 */
module Floor {
  import opened Wrappers
  import opened Spans
  import opened Gate
  import opened Phrasing
  import T = Templates

  /** The prose of a one-slot template, or a whole slot-free one. */
  datatype Frame = Fixed(text: string) | Around(before: string, after: string)

  function Written(f: Frame, handle: string): string {
    match f
    case Fixed(text) => text
    case Around(before, after) => before + "{" + handle + "}" + after
  }

  const NOTHING_WAITING := "No decisions are waiting for your attention."

  function VerdictPhrase(verdict: Option<string>): Option<string> {
    if verdict == Some("FORBID") then Some("forbidden")
    else if verdict == Some("PERMIT") then Some("permitted")
    else if verdict == Some("HELD") || verdict == Some("ABSTAIN") then Some("held for you")
    else None
  }

  function Verb(verdict: Option<string>): string {
    match VerdictPhrase(verdict)
    case Some(v) => v
    case None => "sealed"
  }

  function WindowClause(window: Option<string>): string {
    if window == Some("today") then " today"
    else if window == Some("yesterday") then " yesterday"
    else if window == Some("this week") then " this week"
    else if window == Some("this month") then " this month"
    else if window == Some("in total") then " in total"
    else if window == Some("recent") then " recently"
    else ""
  }

  predicate HasUnit(e: Exhibit) { e.unit.Some? && e.unit.value != "" }

  function UnitOr(e: Exhibit, otherwise: string): string { if HasUnit(e) then e.unit.value else otherwise }

  function Singular(noun: string): string {
    if noun != "" && noun[|noun| - 1] == 's' then noun[..|noun| - 1] else noun
  }

  function CountFrame(e: Exhibit): Frame {
    var noun, clause := UnitOr(e, "decisions"), WindowClause(e.query.window);
    var verb := Verb(e.query.verdict);
    if e.query.tool == "count_held_waiting" then
      if e.query.isZero then Fixed(NOTHING_WAITING)
      else if e.query.isOne then Around("", " decision is waiting for your attention.")
      else Around("", " decisions are waiting for your attention.")
    else if noun == "agents" && e.query.verdict.None? then
      if e.query.isZero then Fixed("No agents are running.")
      else if e.query.isOne then Around("", " agent is running.")
      else Around("", " agents are running.")
    else if e.query.isZero then Fixed("No " + noun + " were " + verb + clause + ".")
    else if e.query.isOne then Around("", " " + Singular(noun) + " was " + verb + clause + ".")
    else if VerdictPhrase(e.query.verdict).Some? then Around("", " " + noun + " were " + verb + clause + ".")
    else Around("", " " + noun + " " + verb + clause + ".")
  }

  function ListFrame(e: Exhibit): Frame {
    if e.query.tool == "list_held_waiting" then
      if e.query.isZero then Fixed(NOTHING_WAITING)
      else if e.query.isOne then Around("Waiting for your attention: ", ".")
      else Around("Waiting for your attention: ", ". I can walk you through them.")
    else Around("The " + UnitOr(e, "agents") + WindowClause(e.query.window) + ": ", ".")
  }

  function RecordFrame(e: Exhibit): Frame {
    if HasUnit(e) then Around("The " + e.unit.value + " is ", ".") else Around("", ".")
  }

  function FloorFrame(e: Exhibit): Frame {
    if e.kind == "count" then CountFrame(e)
    else if e.kind == "list" then ListFrame(e)
    else if e.kind == "record" then RecordFrame(e)
    else Around("", ".")
  }

  /** Counts, and exhibits of no known kind, show their value; lists and records are voiced. */
  function FloorRendering(e: Exhibit): Rendering {
    if e.kind == "list" || e.kind == "record" then SPOKEN else RAW
  }

  function FloorProposal(e: Exhibit): Proposal {
    Proposal(Written(FloorFrame(e), e.handle), [Slot(e.handle, FloorRendering(e))])
  }

  function FloorDraft(exs: seq<Exhibit>): (ps: seq<Proposal>)
    ensures |ps| == if |exs| < 3 then |exs| else 3
    ensures forall i :: 0 <= i < |ps| ==> ps[i] == FloorProposal(exs[i])
  {
    seq(if |exs| < 3 then |exs| else 3, i requires 0 <= i < |exs| => FloorProposal(exs[i]))
  }

  /** The loop over the first three exhibits. */
  method DraftFloor(exs: seq<Exhibit>) returns (proposals: seq<Proposal>)
    ensures proposals == FloorDraft(exs)
  {
    proposals := [];
    var first := if |exs| < 3 then exs else exs[..3];
    for i := 0 to |first|
      invariant |proposals| == i
      invariant forall k :: 0 <= k < i ==> proposals[k] == FloorProposal(exs[k])
    {
      var e := first[i];
      proposals := proposals + [FloorProposal(e)];
    }
  }

  // ----- the floor's prose is silent ----------------------------------------------------

  /** The one word of a floor sentence that comes from the exhibit: its unit, or the unit's
      singular, or nothing where the sentence is fixed. */
  function BorrowedNoun(e: Exhibit): string {
    if e.kind == "count" then
      var noun := UnitOr(e, "decisions");
      if e.query.tool == "count_held_waiting" || (noun == "agents" && e.query.verdict.None?) then ""
      else if !e.query.isZero && e.query.isOne then Singular(noun)
      else noun
    else if e.kind == "list" then if e.query.tool == "list_held_waiting" then "" else UnitOr(e, "agents")
    else if e.kind == "record" && HasUnit(e) then e.unit.value
    else ""
  }

  ghost predicate FrameSilent(law: Law, f: Frame) {
    match f
    case Fixed(text) => Silent(law, text)
    case Around(before, after) => Silent(law, before) && Silent(law, after)
  }

  predicate FrameUnbraced(f: Frame) {
    match f
    case Fixed(text) => Unbraced(text)
    case Around(before, after) => Unbraced(before) && Unbraced(after)
  }

  predicate VerbsFree(lexicon: set<string>) {
    && "forbidden" !in lexicon && "permitted" !in lexicon && "held" !in lexicon && "for" !in lexicon
    && "you" !in lexicon && "sealed" !in lexicon
  }

  predicate WindowsFree(lexicon: set<string>) {
    && "today" !in lexicon && "yesterday" !in lexicon && "this" !in lexicon && "week" !in lexicon
    && "month" !in lexicon && "in" !in lexicon && "total" !in lexicon && "recently" !in lexicon
  }

  predicate CapitalsFree(lexicon: set<string>) {
    && "no" !in lexicon && "the" !in lexicon && "waiting" !in lexicon
  }

  predicate CopulasFree(lexicon: set<string>) {
    && "was" !in lexicon && "were" !in lexicon && "is" !in lexicon && "are" !in lexicon
  }

  predicate WaitingFree(lexicon: set<string>) {
    && "decision" !in lexicon && "decisions" !in lexicon && "waiting" !in lexicon && "for" !in lexicon
    && "your" !in lexicon && "attention" !in lexicon
  }

  predicate WalkFree(lexicon: set<string>) {
    && "i" !in lexicon && "can" !in lexicon && "walk" !in lexicon && "you" !in lexicon
    && "through" !in lexicon && "them" !in lexicon
  }

  predicate RunningFree(lexicon: set<string>) {
    && "agent" !in lexicon && "agents" !in lexicon && "running" !in lexicon
  }

  /** A lexicon that leaves the floor its words. */
  predicate FloorFree(lexicon: set<string>) {
    && VerbsFree(lexicon) && WindowsFree(lexicon) && CapitalsFree(lexicon) && CopulasFree(lexicon)
    && WaitingFree(lexicon) && WalkFree(lexicon) && RunningFree(lexicon)
  }

  lemma NumberWordsVerbsFree()
    ensures VerbsFree(NUMBER_WORDS)
  {
  }

  lemma NumberWordsWindowsFree()
    ensures WindowsFree(NUMBER_WORDS)
  {
  }

  lemma NumberWordsCapitalsFree()
    ensures CapitalsFree(NUMBER_WORDS)
  {
  }

  lemma NumberWordsCopulasFree()
    ensures CopulasFree(NUMBER_WORDS)
  {
  }

  lemma NumberWordsWaitingFree()
    ensures WaitingFree(NUMBER_WORDS)
  {
  }

  lemma NumberWordsWalkFree()
    ensures WalkFree(NUMBER_WORDS)
  {
  }

  lemma NumberWordsRunningFree()
    ensures RunningFree(NUMBER_WORDS)
  {
  }

  /** The shipped lexicon does. */
  lemma NumberWordsFloorFree()
    ensures FloorFree(NUMBER_WORDS)
  {
    NumberWordsVerbsFree();
    NumberWordsWindowsFree();
    NumberWordsCapitalsFree();
    NumberWordsCopulasFree();
    NumberWordsWaitingFree();
    NumberWordsWalkFree();
    NumberWordsRunningFree();
  }

  lemma VerbJoint(law: Law, verdict: Option<string>)
    requires PlainLaw(law) && VerbsFree(law.lexicon)
    ensures Joint(law, " " + Verb(verdict))
  {
    match VerdictPhrase(verdict) {
      case None => JointWord(law, "sealed");
      case Some(v) =>
        if v == "forbidden" {
          JointWord(law, "forbidden");
        } else if v == "permitted" {
          JointWord(law, "permitted");
        } else {
          JointWords3(law, "held", "for", "you");
          assert " " + "held for you" == " " + "held" + (" " + "for" + (" " + "you"));
        }
    }
  }

  /** A window's clause in front of what follows it keeps it silent. */
  lemma ClauseJoint(law: Law, window: Option<string>, end: string)
    requires PlainLaw(law) && WindowsFree(law.lexicon) && Joint(law, end)
    ensures Joint(law, WindowClause(window) + end)
  {
    var clause := WindowClause(window);
    if clause == "" {
      assert clause + end == end;
    } else {
      ClauseItself(law, window);
      JointConcat(law, clause, end);
    }
  }

  lemma ClauseItself(law: Law, window: Option<string>)
    requires PlainLaw(law) && WindowsFree(law.lexicon) && WindowClause(window) != ""
    ensures Joint(law, WindowClause(window))
  {
    var clause := WindowClause(window);
    if clause == " today" {
      JointWord(law, "today");
      assert " " + "today" == clause;
    } else if clause == " yesterday" {
      JointWord(law, "yesterday");
      assert " " + "yesterday" == clause;
    } else if clause == " recently" {
      JointWord(law, "recently");
      assert " " + "recently" == clause;
    } else {
      TwoWordClause(law, clause);
    }
  }

  lemma TwoWordClause(law: Law, clause: string)
    requires PlainLaw(law) && WindowsFree(law.lexicon)
    requires clause == " this week" || clause == " this month" || clause == " in total"
    ensures Joint(law, clause)
  {
    if clause == " this week" {
      JointWords2(law, "this", "week");
      assert clause == " " + "this" + (" " + "week");
    } else if clause == " this month" {
      JointWords2(law, "this", "month");
      assert clause == " " + "this" + (" " + "month");
    } else {
      JointWords2(law, "in", "total");
      assert clause == " " + "in" + (" " + "total");
    }
  }

  /** Verb, window, stop. */
  lemma PredicateJoint(law: Law, verdict: Option<string>, window: Option<string>)
    requires PlainLaw(law) && VerbsFree(law.lexicon) && WindowsFree(law.lexicon)
    ensures Joint(law, " " + Verb(verdict) + (WindowClause(window) + "."))
  {
    JointStops(law);
    VerbJoint(law, verdict);
    ClauseJoint(law, window, ".");
    JointConcat(law, " " + Verb(verdict), WindowClause(window) + ".");
  }

  lemma CapitalsQuiet(law: Law)
    requires CapitalsFree(law.lexicon)
    ensures QuietWord(law, "No") && QuietWord(law, "The") && QuietWord(law, "Waiting")
  {
    assert Lower("No") == "no" && Lower("The") == "the" && Lower("Waiting") == "waiting";
  }

  /** The prose around a count is silent exactly when the noun it borrows is: the four ways a
      tally is said, over any end. */
  lemma TallyForms(law: Law, noun: string, end: string)
    requires PlainLaw(law) && CopulasFree(law.lexicon) && CapitalsFree(law.lexicon) && Joint(law, end)
    ensures Silent(law, "No" + (" " + (noun + (" were" + end)))) <==> Silent(law, noun)
    ensures Silent(law, " " + (noun + (" was" + end))) <==> Silent(law, noun)
    ensures Silent(law, " " + (noun + (" were" + end))) <==> Silent(law, noun)
    ensures Silent(law, " " + (noun + end)) <==> Silent(law, noun)
  {
    CapitalsQuiet(law);
    JointWord(law, "was");
    JointWord(law, "were");
    assert " " + "was" == " was" && " " + "were" == " were";
    JointConcat(law, " was", end);
    JointConcat(law, " were", end);
    NounThen(law, noun, " was" + end);
    NounThen(law, noun, " were" + end);
    NounThen(law, noun, end);
    WordThenNoun(law, "No", noun, " were" + end);
  }

  /** The same, as the templates are written. */
  lemma TallyShapes(noun: string, verb: string, clause: string)
    ensures var end := " " + verb + (clause + ".");
      && "No " + noun + " were " + verb + clause + "." == "No" + (" " + (noun + (" were" + end)))
      && " " + noun + " was " + verb + clause + "." == " " + (noun + (" was" + end))
      && " " + noun + " were " + verb + clause + "." == " " + (noun + (" were" + end))
      && " " + noun + " " + verb + clause + "." == " " + (noun + end)
  {
    var end := " " + verb + (clause + ".");
    assert "No " + noun + " were " + verb + clause + "." == "No" + (" " + (noun + (" were" + end)));
    assert " " + noun + " was " + verb + clause + "." == " " + (noun + (" was" + end));
    assert " " + noun + " were " + verb + clause + "." == " " + (noun + (" were" + end));
    assert " " + noun + " " + verb + clause + "." == " " + (noun + end);
  }

  lemma ListSilent(law: Law, noun: string, window: Option<string>)
    requires PlainLaw(law) && WindowsFree(law.lexicon) && CapitalsFree(law.lexicon)
    ensures Silent(law, "The " + noun + WindowClause(window) + ": ") <==> Silent(law, noun)
  {
    CapitalsQuiet(law);
    JointStops(law);
    ClauseJoint(law, window, ": ");
    var end := WindowClause(window) + ": ";
    WordThenNoun(law, "The", noun, end);
    assert "The " + noun + WindowClause(window) + ": " == "The" + (" " + (noun + end));
  }

  lemma RecordSilent(law: Law, noun: string)
    requires PlainLaw(law) && CapitalsFree(law.lexicon) && CopulasFree(law.lexicon)
    ensures Silent(law, "The " + noun + " is ") <==> Silent(law, noun)
  {
    CapitalsQuiet(law);
    JointStops(law);
    JointWord(law, "is");
    JointConcat(law, " " + "is", " ");
    assert " " + "is" + " " == " is ";
    WordThenNoun(law, "The", noun, " is ");
    assert "The " + noun + " is " == "The" + (" " + (noun + " is "));
  }

  lemma AttentionJoint(law: Law)
    requires PlainLaw(law) && WaitingFree(law.lexicon)
    ensures Joint(law, " for your attention")
  {
    JointWords3(law, "for", "your", "attention");
    assert " for your attention" == " " + "for" + (" " + "your" + (" " + "attention"));
  }

  lemma AreWaitingShape()
    ensures " decisions are waiting for your attention." == " decisions are waiting" + (" for your attention" + ".")
  {
  }

  lemma IsWaitingShape()
    ensures " decision is waiting for your attention." == " decision is waiting" + (" for your attention" + ".")
  {
  }

  lemma NothingWaitingShape()
    ensures NOTHING_WAITING == "No" + " decisions are waiting for your attention."
  {
  }

  /** Silent prose, three free words in front of it. */
  lemma ThreeThen(law: Law, u: string, v: string, w: string, end: string, said: string)
    requires PlainLaw(law) && Free(law, u) && Free(law, v) && Free(law, w) && Joint(law, end)
    requires said == " " + u + (" " + v + (" " + w))
    ensures Joint(law, said + end)
  {
    JointWords3(law, u, v, w);
    JointConcat(law, said, end);
  }

  lemma AreWaitingJoint(law: Law)
    requires PlainLaw(law) && WaitingFree(law.lexicon) && CopulasFree(law.lexicon)
    ensures Joint(law, " decisions are waiting for your attention.")
  {
    JointStops(law);
    AttentionJoint(law);
    JointConcat(law, " for your attention", ".");
    ThreeThen(law, "decisions", "are", "waiting", " for your attention" + ".", " decisions are waiting");
    AreWaitingShape();
  }

  lemma IsWaitingJoint(law: Law)
    requires PlainLaw(law) && WaitingFree(law.lexicon) && CopulasFree(law.lexicon)
    ensures Joint(law, " decision is waiting for your attention.")
  {
    JointStops(law);
    AttentionJoint(law);
    JointConcat(law, " for your attention", ".");
    ThreeThen(law, "decision", "is", "waiting", " for your attention" + ".", " decision is waiting");
    IsWaitingShape();
  }

  lemma NothingWaitingSilent(law: Law)
    requires PlainLaw(law) && WaitingFree(law.lexicon) && CopulasFree(law.lexicon) && CapitalsFree(law.lexicon)
    ensures Silent(law, NOTHING_WAITING)
  {
    CapitalsQuiet(law);
    AreWaitingJoint(law);
    WordThen(law, "No", " decisions are waiting for your attention.");
    NothingWaitingShape();
  }

  lemma QueueSilent(law: Law)
    requires PlainLaw(law) && WaitingFree(law.lexicon) && CapitalsFree(law.lexicon)
    ensures Silent(law, "Waiting for your attention: ")
  {
    CapitalsQuiet(law);
    JointStops(law);
    AttentionJoint(law);
    JointConcat(law, " for your attention", ": ");
    WordThen(law, "Waiting", " for your attention" + ": ");
    assert "Waiting for your attention: " == "Waiting" + (" for your attention" + ": ");
  }

  lemma WalkSilent(law: Law)
    requires PlainLaw(law) && WalkFree(law.lexicon)
    ensures Silent(law, ". I can walk you through them.")
  {
    JointStops(law);
    assert Lower("I") == "i";
    WordIsSilent(law, "I");
    SilentMark(law, ' ', "I");
    JointWords2(law, "can", "walk");
    assert " can walk" == " " + "can" + (" " + "walk");
    JointWords3(law, "you", "through", "them");
    assert " you through them" == " " + "you" + (" " + "through" + (" " + "them"));
    JointConcat(law, " I", " can walk");
    JointConcat(law, " I" + " can walk", " you through them");
    JointConcat(law, " I" + " can walk" + " you through them", ".");
    SilentMark(law, '.', " I" + " can walk" + " you through them" + ".");
    WalkShape();
  }

  lemma WalkShape()
    ensures ". I can walk you through them." == ['.'] + (" I" + " can walk" + " you through them" + ".")
  {
  }

  lemma RunningShapes()
    ensures " agent is running" == " " + "agent" + (" " + "is" + (" " + "running"))
    ensures " agents are running" == " " + "agents" + (" " + "are" + (" " + "running"))
    ensures " agent is running." == " agent is running" + "."
    ensures " agents are running." == " agents are running" + "."
  {
  }

  lemma IsRunningJoint(law: Law)
    requires PlainLaw(law) && RunningFree(law.lexicon) && CopulasFree(law.lexicon)
    ensures Joint(law, " agent is running.")
  {
    JointStops(law);
    RunningShapes();
    ThreeThen(law, "agent", "is", "running", ".", " agent is running");
  }

  lemma AreRunningJoint(law: Law)
    requires PlainLaw(law) && RunningFree(law.lexicon) && CopulasFree(law.lexicon)
    ensures Joint(law, " agents are running.")
  {
    JointStops(law);
    RunningShapes();
    ThreeThen(law, "agents", "are", "running", ".", " agents are running");
  }

  lemma NoneRunningShape()
    ensures "No agents are running." == "No" + " agents are running."
  {
  }

  lemma NoneRunningSilent(law: Law)
    requires PlainLaw(law) && RunningFree(law.lexicon) && CopulasFree(law.lexicon) && CapitalsFree(law.lexicon)
    ensures Silent(law, "No agents are running.")
  {
    CapitalsQuiet(law);
    AreRunningJoint(law);
    WordThen(law, "No", " agents are running.");
    NoneRunningShape();
  }

  lemma CountFrameSilent(law: Law, e: Exhibit)
    requires PlainLaw(law) && FloorFree(law.lexicon) && e.kind == "count"
    ensures FrameSilent(law, CountFrame(e)) <==> Silent(law, BorrowedNoun(e))
  {
    var noun := UnitOr(e, "decisions");
    JointStops(law);
    if e.query.tool == "count_held_waiting" {
      NothingWaitingSilent(law);
      AreWaitingJoint(law);
      IsWaitingJoint(law);
    } else if noun == "agents" && e.query.verdict.None? {
      NoneRunningSilent(law);
      IsRunningJoint(law);
      AreRunningJoint(law);
    } else {
      var verb, clause := Verb(e.query.verdict), WindowClause(e.query.window);
      var end := " " + verb + (clause + ".");
      PredicateJoint(law, e.query.verdict, e.query.window);
      TallyForms(law, noun, end);
      TallyForms(law, Singular(noun), end);
      TallyShapes(noun, verb, clause);
      TallyShapes(Singular(noun), verb, clause);
    }
  }

  lemma ListFrameSilent(law: Law, e: Exhibit)
    requires PlainLaw(law) && FloorFree(law.lexicon) && e.kind == "list"
    ensures FrameSilent(law, ListFrame(e)) <==> Silent(law, BorrowedNoun(e))
  {
    JointStops(law);
    if e.query.tool == "list_held_waiting" {
      NothingWaitingSilent(law);
      QueueSilent(law);
      WalkSilent(law);
    } else {
      ListSilent(law, UnitOr(e, "agents"), e.query.window);
    }
  }

  /** Whatever the exhibit, the floor's own words are silent: a floor sentence speaks a
      quantity in its prose exactly when the noun it borrows from the exhibit does. */
  lemma FloorFrameSilent(law: Law, e: Exhibit)
    requires PlainLaw(law) && FloorFree(law.lexicon)
    ensures FrameSilent(law, FloorFrame(e)) <==> Silent(law, BorrowedNoun(e))
  {
    JointStops(law);
    if e.kind == "count" {
      CountFrameSilent(law, e);
    } else if e.kind == "list" {
      ListFrameSilent(law, e);
    } else if e.kind == "record" && HasUnit(e) {
      RecordSilent(law, e.unit.value);
    }
  }

  // ----- reading a frame back -----------------------------------------------------------

  lemma AroundIsInterleaved(before: string, after: string, mid: string)
    ensures T.Interleave([before, after], [mid]) == before + mid + after
  {
    assert [before, after][1..] == [after] && [mid][1..] == [];
    assert T.Interleave([after], []) == after;
  }

  lemma FrameReads(f: Frame, h: string)
    requires FrameUnbraced(f) && T.IsHandle(h)
    ensures T.Segments(T.Tokenize(Written(f, h))) == (if f.Fixed? then [f.text] else [f.before, f.after])
    ensures T.Handles(T.Tokenize(Written(f, h))) == (if f.Fixed? then [] else [h])
  {
    match f {
      case Fixed(text) => FixedReads(text);
      case Around(before, after) => AroundReads(before, after, h);
    }
  }

  lemma FixedReads(text: string)
    requires Unbraced(text)
    ensures T.Segments(T.Tokenize(text)) == [text] && T.Handles(T.Tokenize(text)) == []
  {
    ReadsBack([text], []);
    assert T.Interleave([text], T.Each([], T.Braced())) == text;
  }

  lemma AroundReads(before: string, after: string, h: string)
    requires Unbraced(before) && Unbraced(after) && T.IsHandle(h)
    ensures T.Segments(T.Tokenize(before + "{" + h + "}" + after)) == [before, after]
    ensures T.Handles(T.Tokenize(before + "{" + h + "}" + after)) == [h]
  {
    AroundIsWritten(before, after, h);
    var segs := [before, after];
    assert segs[0] == before && segs[1] == after;
    ReadsBack(segs, [h]);
  }

  lemma AroundIsWritten(before: string, after: string, h: string)
    ensures T.Interleave([before, after], T.Each([h], T.Braced())) == before + "{" + h + "}" + after
  {
    var mid := "{" + h + "}";
    assert T.Each([h], T.Braced()) == [mid];
    AroundIsInterleaved(before, after, mid);
    assert before + mid + after == before + "{" + h + "}" + after;
  }

  lemma FrameLint(law: Law, f: Frame, h: string, known: set<string>)
    requires PlainLaw(law) && FrameUnbraced(f) && T.IsHandle(h) && h in known
    ensures LintTemplate(law, Written(f, h), known).None? <==> FrameSilent(law, f)
  {
    LintIsExact(law, Written(f, h), known);
    FrameReads(f, h);
    if f.Around? {
      assert [f.before, f.after][0] == f.before && [f.before, f.after][1] == f.after;
    } else {
      assert [f.text][0] == f.text;
    }
  }

  lemma SilentIsUnbraced(law: Law, f: Frame)
    requires FrameSilent(law, f)
    ensures FrameUnbraced(f)
  {
  }

  /** A floor template passes the lint when the noun it borrows is silent. */
  lemma FloorLints(law: Law, e: Exhibit, known: set<string>)
    requires PlainLaw(law) && FloorFree(law.lexicon) && T.IsHandle(e.handle) && e.handle in known && Silent(law, BorrowedNoun(e))
    ensures LintTemplate(law, FloorProposal(e).template, known).None?
  {
    FloorFrameSilent(law, e);
    SilentIsUnbraced(law, FloorFrame(e));
    FrameLint(law, FloorFrame(e), e.handle, known);
  }

  /** And, for sentences without stray braces, only then. */
  lemma FloorLintsOnlyIf(law: Law, e: Exhibit, known: set<string>)
    requires PlainLaw(law) && FloorFree(law.lexicon) && T.IsHandle(e.handle) && e.handle in known && FrameUnbraced(FloorFrame(e))
    ensures LintTemplate(law, FloorProposal(e).template, known).None? <==> Silent(law, BorrowedNoun(e))
  {
    FloorFrameSilent(law, e);
    FrameLint(law, FloorFrame(e), e.handle, known);
  }
}

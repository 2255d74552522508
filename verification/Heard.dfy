/** The words of a spoken count: which verdict and which window a listener hears. */
module Heard {
  import opened Wrappers
  import opened Spans
  import opened Phrasing
  import opened Floor
  import opened Answer
  import T = Templates

  // ----- words of composed text -----------------------------------------------------------

  predicate Letters(w: string) { w != "" && forall i :: 0 <= i < |w| ==> T.Alpha(w[i]) }

  lemma SpacedWord(w: string)
    requires Letters(w)
    ensures T.Words(" " + w) == [w]
  {
    assert (" " + w)[1..] == w;
    OneWord(w);
  }

  lemma {:induction false} NoLettersNoWords(s: string)
    requires forall i :: 0 <= i < |s| ==> !T.Alpha(s[i])
    ensures T.Words(s) == []
  {
    if s != [] {
      NoLettersNoWords(s[1..]);
    }
  }

  lemma DigitsSayNoWord(n: nat)
    ensures T.Words(NatDecimal(n)) == []
  {
    DecimalRoundTrip(n);
    NoLettersNoWords(NatDecimal(n));
  }

  lemma DecimalSaysNoWord(n: int)
    ensures T.Words(Decimal(n)) == []
  {
    if n < 0 {
      DigitsSayNoWord(-n);
      assert ("-" + NatDecimal(-n))[1..] == NatDecimal(-n);
    } else {
      DigitsSayNoWord(n);
    }
  }

  /** Text that can follow a word, and the words in it. */
  ghost predicate Says(s: string, ws: seq<string>) { s != "" && !T.Alpha(s[0]) && T.Words(s) == ws }

  lemma SaysBoth(a: string, ws: seq<string>, b: string, vs: seq<string>)
    requires Says(a, ws) && Says(b, vs)
    ensures Says(a + b, ws + vs)
  {
    T.WordsSplit(a, b);
  }

  lemma SaysWord(w: string)
    requires Letters(w)
    ensures Says(" " + w, [w])
  {
    SpacedWord(w);
  }

  lemma SaysTwo(v: string, w: string)
    requires Letters(v) && Letters(w)
    ensures Says(" " + v + (" " + w), [v, w])
  {
    SaysWord(v);
    SaysWord(w);
    SaysBoth(" " + v, [v], " " + w, [w]);
    assert [v] + [w] == [v, w];
  }

  lemma SaysStop()
    ensures Says(".", [])
  {
    NoLettersNoWords(".");
  }

  // ----- the words of a tally -------------------------------------------------------------

  function VerbWords(verdict: Option<string>): seq<string> {
    if Verb(verdict) == "held for you" then ["held", "for", "you"] else [Verb(verdict)]
  }

  function ClauseWords(window: Option<string>): seq<string> {
    if window == Some("today") then ["today"]
    else if window == Some("yesterday") then ["yesterday"]
    else if window == Some("this week") then ["this", "week"]
    else if window == Some("this month") then ["this", "month"]
    else if window == Some("in total") then ["in", "total"]
    else if window == Some("recent") then ["recently"]
    else []
  }

  lemma SaysVerb(verdict: Option<string>)
    ensures Says(" " + Verb(verdict), VerbWords(verdict))
  {
    if Verb(verdict) == "held for you" {
      SaysTwo("for", "you");
      SaysWord("held");
      SaysBoth(" " + "held", ["held"], " " + "for" + (" " + "you"), ["for", "you"]);
      assert " " + "held for you" == " " + "held" + (" " + "for" + (" " + "you"));
      assert ["held"] + ["for", "you"] == ["held", "for", "you"];
    } else {
      SaysWord(Verb(verdict));
    }
  }

  lemma SaysTwoWordClause(clause: string, v: string, w: string)
    requires Letters(v) && Letters(w) && clause == " " + v + (" " + w)
    ensures Says(clause, [v, w])
  {
    SaysTwo(v, w);
  }

  lemma SaysClause(window: Option<string>)
    requires WindowClause(window) != ""
    ensures Says(WindowClause(window), ClauseWords(window))
  {
    if window == Some("today") {
      SaysWord("today");
      assert " today" == " " + "today";
    } else if window == Some("yesterday") {
      SaysWord("yesterday");
      assert " yesterday" == " " + "yesterday";
    } else if window == Some("recent") {
      SaysWord("recently");
      assert " recently" == " " + "recently";
    } else {
      SaysLongClause(window);
    }
  }

  lemma SaysThisWeek()
    ensures Says(" this week", ["this", "week"])
  {
    SaysTwoWordClause(" this week", "this", "week");
  }

  lemma SaysThisMonth()
    ensures Says(" this month", ["this", "month"])
  {
    SaysTwoWordClause(" this month", "this", "month");
  }

  lemma SaysInTotal()
    ensures Says(" in total", ["in", "total"])
  {
    SaysTwoWordClause(" in total", "in", "total");
  }

  lemma SaysLongClause(window: Option<string>)
    requires window == Some("this week") || window == Some("this month") || window == Some("in total")
    ensures Says(WindowClause(window), ClauseWords(window))
  {
    if window == Some("this week") {
      SaysThisWeek();
    } else if window == Some("this month") {
      SaysThisMonth();
    } else {
      SaysInTotal();
    }
  }

  lemma SaysClauseStop(window: Option<string>)
    ensures Says(WindowClause(window) + ".", ClauseWords(window))
  {
    SaysStop();
    if WindowClause(window) == "" {
      assert WindowClause(window) + "." == "." && ClauseWords(window) == [];
    } else {
      SaysClause(window);
      SaysBoth(WindowClause(window), ClauseWords(window), ".", []);
      assert ClauseWords(window) + [] == ClauseWords(window);
    }
  }

  /** The end every tally shares. */
  lemma SaysEnd(verdict: Option<string>, window: Option<string>)
    ensures Says(" " + Verb(verdict) + (WindowClause(window) + "."), VerbWords(verdict) + ClauseWords(window))
  {
    SaysVerb(verdict);
    SaysClauseStop(window);
    SaysBoth(" " + Verb(verdict), VerbWords(verdict), WindowClause(window) + ".", ClauseWords(window));
  }

  // ----- what the words tell --------------------------------------------------------------

  /** Of the four verdict words exactly the one of this verdict is among them. */
  ghost predicate TellsVerdict(ws: seq<string>, verdict: Option<string>) {
    && ("forbidden" in ws <==> verdict == Some("FORBID"))
    && ("permitted" in ws <==> verdict == Some("PERMIT"))
    && ("held" in ws <==> verdict == Some("HELD") || verdict == Some("ABSTAIN"))
    && ("sealed" in ws <==>
          verdict != Some("FORBID") && verdict != Some("PERMIT") && verdict != Some("HELD") && verdict != Some("ABSTAIN"))
  }

  /** Of the six window words exactly the one of this window is among them. */
  ghost predicate TellsWindow(ws: seq<string>, window: Option<string>) {
    && ("today" in ws <==> window == Some("today"))
    && ("yesterday" in ws <==> window == Some("yesterday"))
    && ("week" in ws <==> window == Some("this week"))
    && ("month" in ws <==> window == Some("this month"))
    && ("total" in ws <==> window == Some("in total"))
    && ("recently" in ws <==> window == Some("recent"))
  }

  ghost predicate NoVerdictWord(ws: seq<string>) {
    "forbidden" !in ws && "permitted" !in ws && "held" !in ws && "sealed" !in ws
  }

  ghost predicate NoWindowWord(ws: seq<string>) {
    && "today" !in ws && "yesterday" !in ws && "week" !in ws
    && "month" !in ws && "total" !in ws && "recently" !in ws
  }

  lemma VerbTells(verdict: Option<string>)
    ensures TellsVerdict(VerbWords(verdict), verdict) && NoWindowWord(VerbWords(verdict))
  {
  }

  lemma ClauseTells(window: Option<string>)
    ensures TellsWindow(ClauseWords(window), window) && NoVerdictWord(ClauseWords(window))
  {
  }

  lemma TogetherTell(lead: seq<string>, verdict: Option<string>, window: Option<string>)
    requires NoVerdictWord(lead) && NoWindowWord(lead)
    ensures TellsVerdict(lead + (VerbWords(verdict) + ClauseWords(window)), verdict)
    ensures TellsWindow(lead + (VerbWords(verdict) + ClauseWords(window)), window)
  {
    VerbTells(verdict);
    ClauseTells(window);
  }

  // ----- the sentence ---------------------------------------------------------------------

  /** A tally exhibit, as the decision counter mints it. */
  predicate DecisionTally(e: Exhibit, n: int) {
    && e.kind == "count" && e.value == IntValue(n) && e.unit == Some("decisions") && e.query.tool == "count_decisions"
    && e.query.isZero == (n == 0) && e.query.isOne == (n == 1)
  }

  lemma TallyWords(e: Exhibit, n: int, lead: string, ws: seq<string>, end: string)
    requires T.Words(lead) == ws && FloorText(e) == lead + end
    requires end == " " + Verb(e.query.verdict) + (WindowClause(e.query.window) + ".")
    requires NoVerdictWord(ws) && NoWindowWord(ws)
    ensures TellsVerdict(T.Words(FloorText(e)), e.query.verdict) && TellsWindow(T.Words(FloorText(e)), e.query.window)
  {
    SaysEnd(e.query.verdict, e.query.window);
    T.WordsSplit(lead, end);
    TogetherTell(ws, e.query.verdict, e.query.window);
  }

  lemma SaysDecisionsWere()
    ensures Says(" decisions were", ["decisions", "were"])
  {
    SaysTwo("decisions", "were");
    assert " decisions were" == " " + "decisions" + (" " + "were");
  }

  /** A word in front is one word more. */
  lemma WordThenSays(w: string, said: string, ws: seq<string>)
    requires Letters(w) && Says(said, ws)
    ensures T.Words(w + said) == [w] + ws
  {
    OneWord(w);
    T.WordsSplit(w, said);
  }

  lemma NoIsLetters()
    ensures Letters("No")
  {
  }

  lemma NoShape()
    ensures "No decisions were" == "No" + " decisions were"
  {
  }

  lemma LeadNo()
    ensures T.Words("No decisions were") == ["No"] + ["decisions", "were"]
  {
    SaysDecisionsWere();
    NoIsLetters();
    WordThenSays("No", " decisions were", ["decisions", "were"]);
    NoShape();
  }

  /** A number in front adds no word. */
  lemma NumberThen(n: int, said: string, ws: seq<string>)
    requires Says(said, ws)
    ensures T.Words(Decimal(n) + said) == ws
  {
    DecimalSaysNoWord(n);
    T.WordsSplit(Decimal(n), said);
    assert [] + ws == ws;
  }

  lemma LeadOne(n: int)
    ensures T.Words(Decimal(n) + " decision was") == ["decision", "was"]
  {
    SaysTwo("decision", "was");
    assert " decision was" == " " + "decision" + (" " + "was");
    NumberThen(n, " decision was", ["decision", "was"]);
  }

  lemma LeadMany(n: int)
    ensures T.Words(Decimal(n) + " decisions were") == ["decisions", "were"]
  {
    SaysDecisionsWere();
    NumberThen(n, " decisions were", ["decisions", "were"]);
  }

  lemma LeadBare(n: int)
    ensures T.Words(Decimal(n) + " decisions") == ["decisions"]
  {
    SaysWord("decisions");
    assert " decisions" == " " + "decisions";
    NumberThen(n, " decisions", ["decisions"]);
  }

  /** What a listener hears of a decision count: of the verdict words exactly the one for the
      verdict counted ("sealed" for an untyped tally), and of the window words exactly the one for
      the window counted. */
  lemma CountTellsWhatItCounts(e: Exhibit, n: int)
    requires DecisionTally(e, n)
    ensures TellsVerdict(T.Words(FloorText(e)), e.query.verdict) && TellsWindow(T.Words(FloorText(e)), e.query.window)
  {
    var verb, clause := Verb(e.query.verdict), WindowClause(e.query.window);
    var end := " " + verb + (clause + ".");
    SaidText(e, n, verb, clause, end);
    if n == 0 {
      LeadNo();
      TallyWords(e, n, "No decisions were", ["No"] + ["decisions", "were"], end);
    } else if n == 1 {
      LeadOne(n);
      TallyWords(e, n, Decimal(n) + " decision was", ["decision", "was"], end);
    } else if VerdictPhrase(e.query.verdict).Some? {
      LeadMany(n);
      TallyWords(e, n, Decimal(n) + " decisions were", ["decisions", "were"], end);
    } else {
      LeadBare(n);
      TallyWords(e, n, Decimal(n) + " decisions", ["decisions"], end);
    }
  }

  /** The frame of a decision tally, case by case. */
  lemma TallyFrame(e: Exhibit, n: int, verb: string, clause: string)
    requires DecisionTally(e, n) && verb == Verb(e.query.verdict) && clause == WindowClause(e.query.window)
    ensures n == 0 ==> CountFrame(e) == Fixed("No " + "decisions" + " were " + verb + clause + ".")
    ensures n == 1 ==> CountFrame(e) == Around("", " " + Singular("decisions") + " was " + verb + clause + ".")
    ensures n != 0 && n != 1 && VerdictPhrase(e.query.verdict).Some? ==>
      CountFrame(e) == Around("", " " + "decisions" + " were " + verb + clause + ".")
    ensures n != 0 && n != 1 && VerdictPhrase(e.query.verdict).None? ==>
      CountFrame(e) == Around("", " " + "decisions" + " " + verb + clause + ".")
  {
  }

  lemma LeadShape(a: string, noun: string, mid: string, end: string)
    ensures a + (" " + (noun + (mid + end))) == a + " " + noun + mid + end
  {
  }

  lemma NumberShape(d: string, noun: string, mid: string, end: string, lead: string, said: string)
    requires lead == " " + noun + mid && said == " " + (noun + (mid + end))
    ensures "" + d + said == d + lead + end
  {
  }

  lemma NoLead()
    ensures "No" + " " + "decisions" + " were" == "No decisions were"
  {
  }

  lemma SaidNone(verb: string, clause: string, end: string)
    requires end == " " + verb + (clause + ".")
    ensures "No " + "decisions" + " were " + verb + clause + "." == "No decisions were" + end
  {
    TallyShapes("decisions", verb, clause);
    LeadShape("No", "decisions", " were", end);
    NoLead();
  }

  lemma SaidOne(d: string, verb: string, clause: string, end: string)
    requires end == " " + verb + (clause + ".")
    ensures "" + d + (" " + Singular("decisions") + " was " + verb + clause + ".") == d + " decision was" + end
  {
    assert Singular("decisions") == "decision";
    TallyShapes("decision", verb, clause);
    NumberShape(d, "decision", " was", end, " decision was", " " + "decision" + " was " + verb + clause + ".");
  }

  lemma SaidMany(d: string, verb: string, clause: string, end: string)
    requires end == " " + verb + (clause + ".")
    ensures "" + d + (" " + "decisions" + " were " + verb + clause + ".") == d + " decisions were" + end
  {
    TallyShapes("decisions", verb, clause);
    NumberShape(d, "decisions", " were", end, " decisions were", " " + "decisions" + " were " + verb + clause + ".");
  }

  lemma SaidBare(d: string, verb: string, clause: string, end: string)
    requires end == " " + verb + (clause + ".")
    ensures "" + d + (" " + "decisions" + " " + verb + clause + ".") == d + " decisions" + end
  {
    TallyShapes("decisions", verb, clause);
    assert "" + end == end;
    NumberShape(d, "decisions", "", end, " decisions", " " + "decisions" + " " + verb + clause + ".");
  }

  lemma SaidText(e: Exhibit, n: int, verb: string, clause: string, end: string)
    requires DecisionTally(e, n) && verb == Verb(e.query.verdict) && clause == WindowClause(e.query.window)
    requires end == " " + verb + (clause + ".")
    ensures FloorText(e) ==
      (if n == 0 then "No decisions were"
       else if n == 1 then Decimal(n) + " decision was"
       else if VerdictPhrase(e.query.verdict).Some? then Decimal(n) + " decisions were"
       else Decimal(n) + " decisions") + end
  {
    CountText(e, n);
    TallyFrame(e, n, verb, clause);
    if n == 0 {
      SaidNone(verb, clause, end);
    } else if n == 1 {
      SaidOne(Decimal(n), verb, clause, end);
    } else if VerdictPhrase(e.query.verdict).Some? {
      SaidMany(Decimal(n), verb, clause, end);
    } else {
      SaidBare(Decimal(n), verb, clause, end);
    }
  }
}

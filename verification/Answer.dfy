/**
 The answer route from exhibits to sealed speech: proposals become spans, spans pass the
 gate, survivors are spoken. The intent has been parsed already.
 */
module Answer {
  import opened Wrappers
  import opened Spans
  import opened Gate
  import opened Phrasing
  import opened Floor
  import opened Drafter
  import X = Exhibits
  import T = Templates

  // ----- proposals to spans -----------------------------------------------------------------

  /** Fill the template as the gate will; a proposal that says nothing yields no span. */
  function ProposalToSpan(p: Proposal, exs: seq<Exhibit>): Option<Span> {
    if p.template == "" || (exists s :: s in p.slots && s.handle == "") then None
    else
      match Fill(p.template, p.slots, exs)
      case None => None
      case Some(text) => if text == "" then None else Some(Span(p.template, text, p.slots, ABSTAINED, None))
  }

  function SpansOf(ps: seq<Proposal>, exs: seq<Exhibit>): seq<Span> {
    if ps == [] then []
    else
      SpansOf(ps[..|ps| - 1], exs) +
      (match ProposalToSpan(ps[|ps| - 1], exs) case Some(s) => [s] case None => [])
  }

  /** A proposal's own text always byte-matches: the gate can only object to its template. */
  lemma OnlyTheLintKills(law: Law, digest: Digest, p: Proposal, exs: seq<Exhibit>)
    requires ProposalToSpan(p, exs).Some?
    ensures Judge(law, digest, ProposalToSpan(p, exs).value, exs).Some?
       <==> LintTemplate(law, p.template, KnownHandles(exs)).None?
  {
  }

  lemma {:induction false} LintedSpansSurvive(law: Law, digest: Digest, ps: seq<Proposal>, exs: seq<Exhibit>)
    requires forall p :: p in ps ==> LintTemplate(law, p.template, KnownHandles(exs)).None?
    ensures forall s :: s in SpansOf(ps, exs) ==> Judge(law, digest, s, exs).Some?
  {
    if ps != [] {
      var n := |ps| - 1;
      LintedSpansSurvive(law, digest, ps[..n], exs);
      assert ps[n] in ps;
      if ProposalToSpan(ps[n], exs).Some? {
        OnlyTheLintKills(law, digest, ps[n], exs);
      }
    }
  }

  lemma {:induction false} AllSurvive(law: Law, digest: Digest, spans: seq<Span>, exs: seq<Exhibit>)
    requires forall s :: s in spans ==> Judge(law, digest, s, exs).Some?
    ensures !SomeDied(law, digest, spans, exs)
    ensures var out := Survivors(law, digest, spans, exs);
      |out| == |spans| && forall i :: 0 <= i < |spans| ==> Judge(law, digest, spans[i], exs) == Some(out[i])
  {
    if spans != [] {
      var n := |spans| - 1;
      assert spans == spans[..n] + [spans[n]];
      assert spans[n] in spans;
      AllSurvive(law, digest, spans[..n], exs);
      SurvivorsSnoc(law, digest, spans[..n], spans[n], exs);
      SomeDiedSnoc(law, digest, spans[..n], spans[n], exs);
    }
  }

  // ----- the floor reaches the caller -------------------------------------------------------

  /** An exhibit the floor can speak: a word-safe handle, a scalar where digits are shown, and
      a unit that names no quantity. */
  ghost predicate Speakable(law: Law, e: Exhibit) {
    T.IsHandle(e.handle) && Silent(law, BorrowedNoun(e)) && RenderSlot(e, FloorRendering(e)).Some?
  }

  function FloorText(e: Exhibit): string {
    match FloorFrame(e)
    case Fixed(text) => text
    case Around(before, after) =>
      before + (match RenderSlot(e, FloorRendering(e)) case Some(v) => v case None => "") + after
  }

  lemma FrameFills(f: Frame, h: string, slots: seq<Slot>, exs: seq<Exhibit>, v: string)
    requires FrameUnbraced(f) && T.IsHandle(h) && Voice(slots, exs, h) == Some(v)
    ensures Fill(Written(f, h), slots, exs) == Some(if f.Fixed? then f.text else f.before + v + f.after)
  {
    var ts := T.Tokenize(Written(f, h));
    var g := VoiceOrNothing(slots, exs);
    FrameReads(f, h);
    T.RenderInterleaves(ts, g);
    if f.Fixed? {
      assert T.Each([], g) == [];
    } else {
      assert T.Each([h], g) == [v];
      AroundIsInterleaved(f.before, f.after, v);
    }
  }

  lemma FloorVoice(e: Exhibit, exs: seq<Exhibit>)
    requires DistinctHandles(exs) && e in exs
    ensures Voice([Slot(e.handle, FloorRendering(e))], exs, e.handle) == RenderSlot(e, FloorRendering(e))
  {
    DistinctLookup(exs, e.handle);
    var slots := [Slot(e.handle, FloorRendering(e))];
    assert slots[|slots| - 1].handle == e.handle;
  }

  lemma FloorTextNonEmpty(e: Exhibit)
    ensures FloorProposal(e).template != "" && FloorText(e) != ""
  {
  }

  /** The floor's proposal for a speakable exhibit becomes a span, and the gate seals it. */
  lemma FloorSpanSealed(law: Law, e: Exhibit, exs: seq<Exhibit>)
    requires PlainLaw(law) && FloorFree(law.lexicon)
    requires DistinctHandles(exs) && e in exs && Speakable(law, e)
    ensures FloorHolds(law, e, exs)
  {
    var f := FloorFrame(e);
    FloorFrameSilent(law, e);
    SilentIsUnbraced(law, f);
    FloorVoice(e, exs);
    FrameFills(f, e.handle, FloorProposal(e).slots, exs, RenderSlot(e, FloorRendering(e)).value);
    FloorTextNonEmpty(e);
    FloorLints(law, e, KnownHandles(exs));
  }

  function FloorSpan(e: Exhibit): Span {
    Span(FloorProposal(e).template, FloorText(e), FloorProposal(e).slots, ABSTAINED, None)
  }

  ghost predicate FloorHolds(law: Law, e: Exhibit, exs: seq<Exhibit>) {
    && ProposalToSpan(FloorProposal(e), exs) == Some(FloorSpan(e))
    && LintTemplate(law, FloorProposal(e).template, KnownHandles(exs)).None?
  }

  lemma SpansOfSnoc(ps: seq<Proposal>, p: Proposal, exs: seq<Exhibit>, s: Span)
    requires ProposalToSpan(p, exs) == Some(s)
    ensures SpansOf(ps + [p], exs) == SpansOf(ps, exs) + [s]
  {
    assert (ps + [p])[..|ps|] == ps;
  }

  lemma {:induction false} SpansOfAll(ps: seq<Proposal>, exs: seq<Exhibit>, spans: seq<Span>)
    requires |ps| == |spans| && forall i :: 0 <= i < |ps| ==> ProposalToSpan(ps[i], exs) == Some(spans[i])
    ensures SpansOf(ps, exs) == spans
    decreases |ps|
  {
    if ps != [] {
      var n := |ps| - 1;
      SpansOfAll(ps[..n], exs, spans[..n]);
      assert ps == ps[..n] + [ps[n]] && spans == spans[..n] + [spans[n]];
      SpansOfSnoc(ps[..n], ps[n], exs, spans[n]);
    }
  }

  lemma FloorSpansAll(law: Law, exs: seq<Exhibit>)
    requires PlainLaw(law) && FloorFree(law.lexicon)
    requires DistinctHandles(exs) && forall e :: e in exs ==> Speakable(law, e)
    ensures SpansOf(FloorDraft(exs), exs)
         == seq(|FloorDraft(exs)|, i requires 0 <= i < |FloorDraft(exs)| => FloorSpan(exs[i]))
    ensures forall p :: p in FloorDraft(exs) ==> LintTemplate(law, p.template, KnownHandles(exs)).None?
  {
    var ps := FloorDraft(exs);
    forall i | 0 <= i < |ps|
      ensures FloorHolds(law, exs[i], exs)
    {
      FloorSpanSealed(law, exs[i], exs);
    }
    var spans := seq(|ps|, i requires 0 <= i < |ps| => FloorSpan(exs[i]));
    forall i | 0 <= i < |ps|
      ensures ProposalToSpan(ps[i], exs) == Some(spans[i])
    {
      assert FloorHolds(law, exs[i], exs);
    }
    SpansOfAll(ps, exs, spans);
    forall p | p in ps
      ensures LintTemplate(law, p.template, KnownHandles(exs)).None?
    {
      var i :| 0 <= i < |ps| && ps[i] == p;
      assert FloorHolds(law, exs[i], exs);
    }
  }

  lemma SealKeepsText(law: Law, digest: Digest, s: Span, exs: seq<Exhibit>, x: Span)
    requires Judge(law, digest, s, exs) == Some(x)
    ensures x.text == s.text
  {
  }

  /** Floor and gate agree: every sentence the floor proposes over speakable exhibits survives
      the gate, in order, with the exhibit's own value in its slot, and nothing dies. */
  lemma FloorSurvives(law: Law, digest: Digest, exs: seq<Exhibit>)
    requires PlainLaw(law) && FloorFree(law.lexicon)
    requires DistinctHandles(exs) && forall e :: e in exs ==> Speakable(law, e)
    ensures !SomeDied(law, digest, SpansOf(FloorDraft(exs), exs), exs)
    ensures Speaks(Survivors(law, digest, SpansOf(FloorDraft(exs), exs), exs), exs, |FloorDraft(exs)|)
  {
    var ps := FloorDraft(exs);
    var spans := SpansOf(ps, exs);
    FloorSpansAll(law, exs);
    assert |spans| == |ps| && forall i :: 0 <= i < |ps| ==> spans[i] == FloorSpan(exs[i]);
    LintedSpansSurvive(law, digest, ps, exs);
    AllSurvive(law, digest, spans, exs);
    FloorTexts(law, digest, exs, spans, Survivors(law, digest, spans, exs));
  }

  /** The first n exhibits, one floor text each. */
  ghost predicate Speaks(out: seq<Span>, exs: seq<Exhibit>, n: nat) {
    |out| == n <= |exs| && forall i :: 0 <= i < n ==> out[i].text == FloorText(exs[i])
  }

  lemma FloorTexts(law: Law, digest: Digest, exs: seq<Exhibit>, spans: seq<Span>, out: seq<Span>)
    requires |out| == |spans| <= |exs|
    requires forall i :: 0 <= i < |spans| ==> spans[i] == FloorSpan(exs[i])
    requires forall i :: 0 <= i < |spans| ==> Judge(law, digest, spans[i], exs) == Some(out[i])
    ensures Speaks(out, exs, |spans|)
  {
    forall i | 0 <= i < |spans|
      ensures out[i].text == FloorText(exs[i])
    {
      SealKeepsText(law, digest, spans[i], exs, out[i]);
    }
  }

  /** Whatever model drafts, the gate kills nothing of what was drafted over speakable exhibits:
      two attempts and a floor leave it only lint-clean templates. */
  lemma DraftedNeverDies(law: Law, digest: Digest, question: string, exs: seq<Exhibit>, llm: Option<Llm>)
    requires PlainLaw(law) && FloorFree(law.lexicon) && exs != []
    requires DistinctHandles(exs) && forall e :: e in exs ==> Speakable(law, e)
    ensures !SomeDied(law, digest, SpansOf(DraftOf(law, question, exs, llm).proposals, exs), exs)
  {
    var ps := DraftOf(law, question, exs, llm).proposals;
    DraftContract(law, question, exs, llm);
    if ps == FloorDraft(exs) {
      FloorSpansAll(law, exs);
    } else {
      assert forall p :: p in ps ==> Vetted(law, p, KnownHandles(exs));
    }
    LintedSpansSurvive(law, digest, ps, exs);
    AllSurvive(law, digest, SpansOf(ps, exs), exs);
  }

  // ----- tier -------------------------------------------------------------------------------

  function Rank(v: Verdict): nat {
    match v
    case ABSTAINED => 0
    case DERIVED => 1
    case SEALED => 2
  }

  /** The weakest tier among the spans, SEALED when there are none. */
  method OverallTier(spans: seq<Span>) returns (tier: Verdict)
    ensures forall s :: s in spans ==> Rank(tier) <= Rank(s.verdict)
    ensures tier == SEALED || exists s :: s in spans && s.verdict == tier
  {
    tier := SEALED;
    for i := 0 to |spans|
      invariant forall k :: 0 <= k < i ==> Rank(tier) <= Rank(spans[k].verdict)
      invariant tier == SEALED || exists s :: s in spans && s.verdict == tier
    {
      if Rank(spans[i].verdict) < Rank(tier) {
        tier := spans[i].verdict;
      }
    }
  }

  // ----- the route --------------------------------------------------------------------------

  datatype Response =
    | Abstention(reason: string)
    | Answered(spans: seq<Span>, exhibits: seq<Exhibit>, spokenText: string, tier: Verdict)

  datatype Intent =
    | CountIntent(verdict: Option<string>, window: X.Window)
    | ListIntent(listed: Option<string>)
    | RecordIntent(id: Option<string>, held: bool)
    | HeldCountIntent | HeldListIntent | AgentsCountIntent | AgentsListIntent

  /** What the route reads: the stores may be absent. */
  datatype World = World(
    env: X.Env, store: Option<X.Store>, get: string -> Option<X.Row>, registry: Option<seq<X.Agent>>,
    resolutions: X.Resolutions, recent: Option<int>)

  function Gather(w: World, intent: Intent, tenant: string): Result<seq<Exhibit>, X.Error> {
    if intent.AgentsCountIntent? || intent.AgentsListIntent? then
      if w.registry.None? then Ok([])
      else
        One(if intent.AgentsListIntent? then X.AgentListAnswer(w.env, w.registry.value, Some(tenant), 10)
            else X.AgentCountAnswer(w.env, w.registry.value, Some(tenant)))
    else if w.store.None? then Ok([])
    else One(FromStore(w, w.store.value, intent, tenant))
  }

  function FromStore(w: World, store: X.Store, intent: Intent, tenant: string): Result<Exhibit, X.Error>
    requires !intent.AgentsCountIntent? && !intent.AgentsListIntent?
  {
    match intent
    case HeldListIntent => X.HeldListAnswer(w.env, store, Some(tenant), w.resolutions, w.recent, 10)
    case HeldCountIntent => X.HeldCountAnswer(w.env, store, Some(tenant), w.resolutions, w.recent)
    case RecordIntent(id, held) =>
      X.RecordAnswer(w.env, store, w.get, id, Some(tenant), if held then Some("HELD") else None)
    case ListIntent(verdict) => X.ListAnswer(w.env, store, Some(tenant), verdict, None, None, 10)
    case CountIntent(verdict, window) => X.CountAnswer(w.env, store, Some(tenant), verdict, window)
  }

  function One(r: Result<Exhibit, X.Error>): Result<seq<Exhibit>, X.Error> {
    match r
    case Ok(e) => Ok([e])
    case Err(error) => Err(error)
  }

  predicate Within(s: Option<string>, most: nat) { s.Some? ==> |s.value| <= most }

  /** The exhibit model's own field bounds. */
  predicate WellFormed(e: Exhibit) {
    && 1 <= |e.handle| <= 64 && e.kind in {"count", "list", "record"} && e.spoken != ""
    && e.unit.Some? && 1 <= |e.unit.value| <= 64
    && 1 <= |e.query.tool| <= 200 && 1 <= |e.query.tenant| <= 200
    && Within(e.query.verdict, 50) && Within(e.query.window, 64) && Within(e.anchor, 64)
    && 1 <= |e.computedAt| <= 64
  }

  function Texts(spans: seq<Span>): seq<string> { seq(|spans|, i requires 0 <= i < |spans| => spans[i].text) }

  function ResponseOf(law: Law, digest: Digest, w: World, intent: Intent, tenant: string): Response {
    match Gather(w, intent, tenant)
    case Err(e) => Abstention(if e == X.NotFound then "no_scoped_tool" else "exhibit_error")
    case Ok(exs) =>
      if exs == [] then Abstention("no_scoped_tool")
      else if exists e :: e in exs && !WellFormed(e) then Abstention("exhibit_error")
      else
        var out := Survivors(law, digest, SpansOf(FloorDraft(exs), exs), exs);
        if out == [] then Abstention("gate_killed_all")
        else Answered(out, exs, X.Join(Texts(out), " "), SEALED)
  }

  method Respond(law: Law, digest: Digest, w: World, intent: Intent, tenant: string, question: string)
    returns (r: Response)
    ensures r == ResponseOf(law, digest, w, intent, tenant)
  {
    var gathered := Gather(w, intent, tenant);
    if gathered.Err? {
      return Abstention(if gathered.error == X.NotFound then "no_scoped_tool" else "exhibit_error");
    }
    var exs := gathered.value;
    if exs == [] {
      return Abstention("no_scoped_tool");
    }
    if exists e :: e in exs && !WellFormed(e) {
      return Abstention("exhibit_error");
    }
    var proposals, _ := Draft(law, question, exs, None);
    var spans := BuildSpans(proposals, exs);
    var survivors, _ := GateAll(law, digest, spans, exs);
    if survivors == [] {
      return Abstention("gate_killed_all");
    }
    var tier := OverallTier(survivors);
    SurvivorVerdicts(law, digest, spans, exs);
    return Answered(survivors, exs, X.Join(Texts(survivors), " "), tier);
  }

  lemma SurvivorVerdicts(law: Law, digest: Digest, spans: seq<Span>, exs: seq<Exhibit>)
    ensures forall s :: s in Survivors(law, digest, spans, exs) ==> s.verdict == SEALED
  {
    SurvivorsAreSealed(law, digest, spans, exs);
    forall s | s in Survivors(law, digest, spans, exs)
      ensures s.verdict == SEALED
    {
      assert Sealed(law, digest, s, exs);
    }
  }

  method BuildSpans(proposals: seq<Proposal>, exs: seq<Exhibit>) returns (spans: seq<Span>)
    ensures spans == SpansOf(proposals, exs)
  {
    spans := [];
    for i := 0 to |proposals|
      invariant spans == SpansOf(proposals[..i], exs)
    {
      assert proposals[..i + 1][..i] == proposals[..i];
      var span := ProposalToSpan(proposals[i], exs);
      if span.Some? {
        spans := spans + [span.value];
      }
    }
    assert proposals[..|proposals|] == proposals;
  }

  // ----- every minted exhibit is spoken -----------------------------------------------------

  /** What all the tools mint. */
  predicate Minted(e: Exhibit) {
    && e.handle == "e1"
    && match e.kind
       case "count" => e.value.IntValue? && (e.unit == Some("decisions") || (e.unit == Some("agents") && e.query.verdict.None?))
       case "list" => e.unit == Some("decisions") || e.unit == Some("agents")
       case "record" => e.unit == Some("decision")
       case _ => false
  }

  lemma NounSilent(law: Law, noun: string)
    requires PlainLaw(law) && Free(law, noun)
    ensures Silent(law, noun)
  {
    FreeIsQuiet(law, noun);
    WordIsSilent(law, noun);
  }

  lemma MintedNouns(law: Law)
    requires PlainLaw(law) && WaitingFree(law.lexicon) && RunningFree(law.lexicon)
    ensures Silent(law, "decisions") && Silent(law, "decision") && Silent(law, "agents") && Silent(law, "")
    ensures Singular("decisions") == "decision"
  {
    NounSilent(law, "decisions");
    NounSilent(law, "decision");
    NounSilent(law, "agents");
    JointStops(law);
  }

  lemma MintedIsSpeakable(law: Law, e: Exhibit)
    requires PlainLaw(law) && FloorFree(law.lexicon) && Minted(e)
    ensures Speakable(law, e)
  {
    MintedNouns(law);
  }

  lemma GatheredIsMinted(w: World, intent: Intent, tenant: string)
    requires Gather(w, intent, tenant).Ok?
    ensures var exs := Gather(w, intent, tenant).value;
      |exs| <= 1 && forall e :: e in exs ==> Minted(e)
  {
  }

  lemma OneSurvivor(law: Law, digest: Digest, e: Exhibit)
    requires PlainLaw(law) && FloorFree(law.lexicon) && Speakable(law, e)
    ensures var out := Survivors(law, digest, SpansOf(FloorDraft([e]), [e]), [e]);
      |out| == 1 && out[0].text == FloorText(e)
  {
    FloorSurvives(law, digest, [e]);
    assert [e][0] == e;
    assert |FloorDraft([e])| == 1;
  }

  lemma OneIsAnswered(law: Law, digest: Digest, w: World, intent: Intent, tenant: string, e: Exhibit, out: seq<Span>)
    requires Gather(w, intent, tenant) == Ok([e]) && WellFormed(e)
    requires out == Survivors(law, digest, SpansOf(FloorDraft([e]), [e]), [e]) && |out| == 1
    ensures ResponseOf(law, digest, w, intent, tenant) == Answered(out, [e], out[0].text, SEALED)
  {
    assert Texts(out) == [out[0].text];
  }

  /** For every store content, registry, tenant and intent: if a well-formed exhibit was
      measured it is spoken, as one sealed sentence; the gate never kills the floor. */
  lemma MeasuredIsSpoken(law: Law, digest: Digest, w: World, intent: Intent, tenant: string, e: Exhibit)
    requires PlainLaw(law) && FloorFree(law.lexicon)
    requires Gather(w, intent, tenant) == Ok([e]) && WellFormed(e)
    ensures var r := ResponseOf(law, digest, w, intent, tenant);
      && r.Answered? && r.exhibits == [e] && |r.spans| == 1 && r.tier == SEALED
      && r.spans[0].text == FloorText(e) && r.spokenText == FloorText(e)
  {
    assert Speakable(law, e) by {
      GatheredIsMinted(w, intent, tenant);
      assert e in [e];
      MintedIsSpeakable(law, e);
    }
    OneSurvivor(law, digest, e);
    OneIsAnswered(law, digest, w, intent, tenant, e, Survivors(law, digest, SpansOf(FloorDraft([e]), [e]), [e]));
  }

  /** The route abstains exactly when nothing could be measured, or what was is malformed. */
  lemma AbstainsIffUnmeasured(law: Law, digest: Digest, w: World, intent: Intent, tenant: string)
    requires PlainLaw(law) && FloorFree(law.lexicon)
    ensures var g := Gather(w, intent, tenant);
      ResponseOf(law, digest, w, intent, tenant).Abstention?
      <==> g.Err? || g.value == [] || exists e :: e in g.value && !WellFormed(e)
    ensures ResponseOf(law, digest, w, intent, tenant) != Abstention("gate_killed_all")
  {
    var g := Gather(w, intent, tenant);
    if g.Ok? && g.value != [] {
      GatheredIsMinted(w, intent, tenant);
      var e := g.value[0];
      assert g.value == [e];
      if WellFormed(e) {
        MeasuredIsSpoken(law, digest, w, intent, tenant, e);
      }
    }
  }

  // ----- what a count says ------------------------------------------------------------------

  predicate SaysNo(text: string) { "No " <= text }

  lemma DecimalIsNotNo(n: int, rest: string)
    ensures !SaysNo(Decimal(n) + rest)
  {
    assert (Decimal(n) + rest)[0] == Decimal(n)[0] != 'N';
  }

  lemma CountText(e: Exhibit, n: int)
    requires e.kind == "count" && e.value == IntValue(n)
    ensures FloorText(e) == (match CountFrame(e) case Fixed(text) => text case Around(b, a) => b + Decimal(n) + a)
  {
  }

  lemma FrameSays(law: Law, f: Frame, n: int, text: string)
    requires FrameSilent(law, f)
    requires if n == 0 then f.Fixed? && SaysNo(f.text) else f.Around? && f.before == ""
    requires text == (match f case Fixed(t) => t case Around(b, a) => b + Decimal(n) + a)
    ensures SaysNo(text) <==> n == 0
    ensures n == 0 ==> Silent(law, text)
    ensures n != 0 ==> exists rest :: text == Decimal(n) + rest && Silent(law, rest)
  {
    if n != 0 {
      assert "" + Decimal(n) + f.after == Decimal(n) + f.after;
      DecimalIsNotNo(n, f.after);
    }
  }

  /** A count whose zero flag is honest says "No ..." exactly when the count is zero; otherwise
      its decimal, then prose that says no quantity at all. */
  lemma CountSaysItsNumber(law: Law, e: Exhibit, n: int)
    requires PlainLaw(law) && FloorFree(law.lexicon) && Minted(e) && e.kind == "count"
    requires e.value == IntValue(n) && (e.query.isZero <==> n == 0)
    ensures SaysNo(FloorText(e)) <==> n == 0
    ensures n == 0 ==> Silent(law, FloorText(e))
    ensures n != 0 ==> exists rest :: FloorText(e) == Decimal(n) + rest && Silent(law, rest)
  {
    assert Silent(law, BorrowedNoun(e)) by {
      MintedIsSpeakable(law, e);
    }
    CountFrameSilent(law, e);
    CountFrameShape(e);
    CountText(e, n);
    FrameSays(law, CountFrame(e), n, FloorText(e));
  }

  lemma CountFrameShape(e: Exhibit)
    requires e.kind == "count"
    ensures if e.query.isZero then CountFrame(e).Fixed? && SaysNo(CountFrame(e).text)
            else CountFrame(e).Around? && CountFrame(e).before == ""
  {
  }

  /** The zero flag of a gathered count is honest. */
  lemma GatheredCountIsHonest(w: World, intent: Intent, tenant: string, e: Exhibit)
    requires Gather(w, intent, tenant) == Ok([e]) && e.kind == "count"
    ensures Minted(e) && (e.query.isZero <==> e.value.n == 0)
  {
    GatheredIsMinted(w, intent, tenant);
    assert e in [e];
  }

  /** Lists and records say their spoken form: the sentence is silent prose around exactly it,
      unless a waiting list is empty. */
  lemma VoicedSaysItsSpoken(law: Law, e: Exhibit)
    requires PlainLaw(law) && FloorFree(law.lexicon) && Minted(e) && (e.kind == "list" || e.kind == "record")
    ensures if e.kind == "list" && e.query.tool == "list_held_waiting" && e.query.isZero then FloorText(e) == NOTHING_WAITING
            else exists before, after :: FloorText(e) == before + e.spoken + after && Silent(law, before) && Silent(law, after)
  {
    assert Silent(law, BorrowedNoun(e)) by {
      MintedIsSpeakable(law, e);
    }
    FloorFrameSilent(law, e);
    var f := FloorFrame(e);
    if f.Around? {
      assert FloorText(e) == f.before + e.spoken + f.after;
    }
  }

  /** End to end, for every count intent and every store: what is spoken is the measured number,
      "No ..." exactly when it is zero and else its decimal followed by silent prose. */
  lemma CountIsSpoken(law: Law, digest: Digest, w: World, intent: Intent, tenant: string, e: Exhibit)
    requires PlainLaw(law) && FloorFree(law.lexicon)
    requires Gather(w, intent, tenant) == Ok([e]) && WellFormed(e) && e.kind == "count"
    ensures e.value.IntValue?
    ensures var r := ResponseOf(law, digest, w, intent, tenant);
      && r.Answered?
      && (SaysNo(r.spokenText) <==> e.value.n == 0)
      && (e.value.n != 0 ==> exists rest :: r.spokenText == Decimal(e.value.n) + rest && Silent(law, rest))
  {
    GatheredCountIsHonest(w, intent, tenant, e);
    CountSaysItsNumber(law, e, e.value.n);
    MeasuredIsSpoken(law, digest, w, intent, tenant, e);
  }

  /** And the number measured for a decision count is the store's count of that tenant, verdict
      and window. */
  lemma GatheredCountIsTheCount(w: World, verdict: Option<string>, window: X.Window, tenant: string, v: Option<string>, e: Exhibit)
    requires w.store.Some? && X.NormalizeVerdict(w.env, verdict) == Ok(v)
    requires Gather(w, CountIntent(verdict, window), tenant) == Ok([e])
    ensures e.value.IntValue?
    ensures X.CountOf(w.env, w.store.value, X.Filter(w.env.fold(w.env.strip(tenant)), v, window.since, window.until)) == Ok(e.value.n)
  {
    var one := FromStore(w, w.store.value, CountIntent(verdict, window), tenant);
    assert one.Ok? && [one.value][0] == [e][0];
  }

  // ----- the tool each intent reaches -----------------------------------------------------

  /** Every intent reaches its own tool. */
  lemma GatherReaches(w: World, intent: Intent, tenant: string, e: Exhibit)
    requires Gather(w, intent, tenant) == Ok([e])
    ensures e.query.tool ==
      match intent
      case CountIntent(_, _) => "count_decisions"
      case ListIntent(_) => "list_decisions"
      case RecordIntent(_, _) => "get_decision_record"
      case HeldCountIntent => "count_held_waiting"
      case HeldListIntent => "list_held_waiting"
      case AgentsCountIntent => "count_agents"
      case AgentsListIntent => "list_agents"
  {
    var one := if intent.AgentsListIntent? then X.AgentListAnswer(w.env, w.registry.value, Some(tenant), 10)
               else if intent.AgentsCountIntent? then X.AgentCountAnswer(w.env, w.registry.value, Some(tenant))
               else FromStore(w, w.store.value, intent, tenant);
    assert one.Ok? && [one.value][0] == [e][0];
  }

  /** The held floor: whatever the router made of it, a record question with a held word is never
      answered with a row of another verdict, as long as no durable read answers instead. */
  lemma HeldRecordIsHeld(w: World, id: Option<string>, tenant: string, e: Exhibit)
    requires Gather(w, RecordIntent(id, true), tenant) == Ok([e])
    requires w.env.upper(w.env.strip("HELD")) == "HELD"
    requires id.None? ==>
      w.store.Some? && w.store.value.finder(X.LatestFilter(w.env, tenant, Some("ABSTAIN")), Some(1)).None?
    ensures e.query.verdict == Some("ABSTAIN")
  {
    var one := FromStore(w, w.store.value, RecordIntent(id, true), tenant);
    assert one.Ok? && [one.value][0] == [e][0];
    X.RecordIsVisible(w.env, w.store.value, w.get, id, tenant, Some("HELD"));
  }
}

/**
 The drafter: redaction, validation of a model's reply, two attempts, then the floor. The
 model is an arbitrary function of every prompt it has been shown; a reply may be a raised
 exception, text that is no JSON, or any JSON value.
 */
module Drafter {
  import opened Wrappers
  import opened Spans
  import opened Gate
  import opened Phrasing
  import opened Floor
  import T = Templates

  /** An exhibit without value, spoken form, anchor and rows. */
  datatype Redacted = Redacted(handle: string, kind: string, unit: Option<string>, query: Query, computedAt: string)

  function Redact(e: Exhibit): Redacted { Redacted(e.handle, e.kind, e.unit, e.query, e.computedAt) }

  function RedactAll(exs: seq<Exhibit>): (r: seq<Redacted>)
    ensures |r| == |exs| && forall i :: 0 <= i < |exs| ==> r[i] == Redact(exs[i])
  {
    seq(|exs|, i requires 0 <= i < |exs| => Redact(exs[i]))
  }

  datatype Json =
    | JNull | JBool(b: bool) | JNumber(n: int) | JString(s: string)
    | JList(items: seq<Json>) | JObject(fields: map<string, Json>)

  datatype Reason =
    | MalformedJson | NotASpanList | SpanNotObject | SpanMissingFields | Lint(lint: LintReason)
    | SlotNotObject | UnknownSlotHandle | LlmCallFailed

  datatype Prompt = Prompt(question: string, exhibits: seq<Redacted>, retry: Option<Reason>)

  datatype Reply = Raises | NotJson | Replied(json: Json)

  /** What the model says, given all prompts so far (the last one is being answered). */
  type Llm = seq<Prompt> -> Reply

  /** A check's outcome: passed with a value, refused with a reason, or an exception. */
  datatype Checked<T> = Good(value: T) | Bad(reason: Reason) | Threw

  function Field(fields: map<string, Json>, key: string): Json {
    if key in fields then fields[key] else JNull
  }

  // ----- slots --------------------------------------------------------------------------

  function RenderingOf(j: Json): Rendering { if j == JString("raw") then RAW else SPOKEN }

  /** A list or an object cannot be looked up in the set of handles: that throws. */
  function CheckSlot(j: Json, handles: set<string>): Checked<Slot> {
    match j
    case JObject(fields) =>
      (match Field(fields, "handle")
       case JString(h) => if h in handles then Good(Slot(h, RenderingOf(Field(fields, "rendering")))) else Bad(UnknownSlotHandle)
       case JList(_) => Threw
       case JObject(_) => Threw
       case _ => Bad(UnknownSlotHandle))
    case _ => Bad(SlotNotObject)
  }

  /** The first slot that does not pass decides. */
  function CheckSlots(items: seq<Json>, handles: set<string>): Checked<seq<Slot>> {
    if items == [] then Good([])
    else
      match CheckSlots(items[..|items| - 1], handles)
      case Good(before) =>
        (match CheckSlot(items[|items| - 1], handles)
         case Good(slot) => Good(before + [slot])
         case Bad(reason) => Bad(reason)
         case Threw => Threw)
      case Bad(reason) => Bad(reason)
      case Threw => Threw
  }

  lemma {:induction false} SlotFailureStays(items: seq<Json>, handles: set<string>, k: nat)
    requires k <= |items| && !CheckSlots(items[..k], handles).Good?
    ensures CheckSlots(items, handles) == CheckSlots(items[..k], handles)
  {
    if k < |items| {
      assert items[..|items| - 1][..k] == items[..k];
      SlotFailureStays(items[..|items| - 1], handles, k);
    } else {
      assert items[..k] == items;
    }
  }

  method CleanSlots(items: seq<Json>, handles: set<string>) returns (r: Checked<seq<Slot>>)
    ensures r == CheckSlots(items, handles)
  {
    var clean: seq<Slot> := [];
    for i := 0 to |items|
      invariant CheckSlots(items[..i], handles) == Good(clean)
    {
      assert items[..i + 1][..i] == items[..i];
      match CheckSlot(items[i], handles) {
        case Good(slot) =>
          clean := clean + [slot];
        case Bad(reason) =>
          SlotFailureStays(items, handles, i + 1);
          return Bad(reason);
        case Threw =>
          SlotFailureStays(items, handles, i + 1);
          return Threw;
      }
    }
    assert items[..|items|] == items;
    return Good(clean);
  }

  // ----- spans --------------------------------------------------------------------------

  function CheckSpan(law: Law, j: Json, handles: set<string>): Checked<Proposal> {
    match j
    case JObject(fields) =>
      (match (Field(fields, "template"), Field(fields, "slots"))
       case (JString(template), JList(slots)) =>
         (match LintTemplate(law, template, handles)
          case Some(reason) => Bad(Lint(reason))
          case None =>
            match CheckSlots(slots, handles)
            case Good(clean) => Good(Proposal(template, clean))
            case Bad(reason) => Bad(reason)
            case Threw => Threw)
       case _ => Bad(SpanMissingFields))
    case _ => Bad(SpanNotObject)
  }

  function CheckSpans(law: Law, items: seq<Json>, handles: set<string>): Checked<seq<Proposal>> {
    if items == [] then Good([])
    else
      match CheckSpans(law, items[..|items| - 1], handles)
      case Good(before) =>
        (match CheckSpan(law, items[|items| - 1], handles)
         case Good(p) => Good(before + [p])
         case Bad(reason) => Bad(reason)
         case Threw => Threw)
      case Bad(reason) => Bad(reason)
      case Threw => Threw
  }

  function FirstThree<X>(xs: seq<X>): seq<X> { if |xs| <= 3 then xs else xs[..3] }

  function CheckReply(law: Law, reply: Reply, handles: set<string>): Checked<seq<Proposal>> {
    match reply
    case Raises => Threw
    case NotJson => Bad(MalformedJson)
    case Replied(json) =>
      if json.JList? && json.items != [] then CheckSpans(law, FirstThree(json.items), handles) else Bad(NotASpanList)
  }

  lemma {:induction false} SpanFailureStays(law: Law, items: seq<Json>, handles: set<string>, k: nat)
    requires k <= |items| && !CheckSpans(law, items[..k], handles).Good?
    ensures CheckSpans(law, items, handles) == CheckSpans(law, items[..k], handles)
    decreases |items|
  {
    if k < |items| {
      assert items[..|items| - 1][..k] == items[..k];
      SpanFailureStays(law, items[..|items| - 1], handles, k);
    } else {
      assert items[..k] == items;
    }
  }

  method CleanSpan(law: Law, span: Json, handles: set<string>) returns (r: Checked<Proposal>)
    ensures r == CheckSpan(law, span, handles)
  {
    if !span.JObject? {
      return Bad(SpanNotObject);
    }
    var template, slots := Field(span.fields, "template"), Field(span.fields, "slots");
    if !template.JString? || !slots.JList? {
      return Bad(SpanMissingFields);
    }
    var lint := LintTemplate(law, template.s, handles);
    if lint.Some? {
      return Bad(Lint(lint.value));
    }
    var clean := CleanSlots(slots.items, handles);
    match clean {
      case Good(s) => return Good(Proposal(template.s, s));
      case Bad(reason) => return Bad(reason);
      case Threw => return Threw;
    }
  }

  /** One span more: it joins the good ones, or its failure is the whole list's. */
  lemma CheckSpansStep(law: Law, items: seq<Json>, handles: set<string>, i: nat, ps: seq<Proposal>)
    requires i < |items| && CheckSpans(law, items[..i], handles) == Good(ps)
    ensures match CheckSpan(law, items[i], handles)
            case Good(p) => CheckSpans(law, items[..i + 1], handles) == Good(ps + [p])
            case Bad(reason) => CheckSpans(law, items, handles) == Bad(reason)
            case Threw => CheckSpans(law, items, handles) == Threw
  {
    assert items[..i + 1][..i] == items[..i];
    if !CheckSpan(law, items[i], handles).Good? {
      SpanFailureStays(law, items, handles, i + 1);
    }
  }

  method CleanSpans(law: Law, items: seq<Json>, handles: set<string>) returns (r: Checked<seq<Proposal>>)
    ensures r == CheckSpans(law, items, handles)
  {
    var proposals: seq<Proposal> := [];
    for i := 0 to |items|
      invariant CheckSpans(law, items[..i], handles) == Good(proposals)
    {
      CheckSpansStep(law, items, handles, i, proposals);
      var one := CleanSpan(law, items[i], handles);
      match one {
        case Good(p) => proposals := proposals + [p];
        case Bad(reason) => return Bad(reason);
        case Threw => return Threw;
      }
    }
    assert items[..|items|] == items;
    return Good(proposals);
  }

  method ParseAndValidate(law: Law, reply: Reply, handles: set<string>) returns (r: Checked<seq<Proposal>>)
    ensures r == CheckReply(law, reply, handles)
  {
    if reply.Raises? {
      return Threw;
    }
    if reply.NotJson? {
      return Bad(MalformedJson);
    }
    if !reply.json.JList? || reply.json.items == [] {
      return Bad(NotASpanList);
    }
    r := CleanSpans(law, FirstThree(reply.json.items), handles);
  }

  // ----- what a validated reply is --------------------------------------------------------

  ghost predicate SlotFits(j: Json, slot: Slot, handles: set<string>) {
    && j.JObject? && Field(j.fields, "handle") == JString(slot.handle) && slot.handle in handles
    && (slot.rendering == RAW <==> Field(j.fields, "rendering") == JString("raw"))
  }

  ghost predicate SpanFits(law: Law, j: Json, p: Proposal, handles: set<string>) {
    && j.JObject? && Field(j.fields, "template") == JString(p.template)
    && LintTemplate(law, p.template, handles).None?
    && Field(j.fields, "slots").JList?
    && var items := Field(j.fields, "slots").items;
      |items| == |p.slots| && forall i :: 0 <= i < |items| ==> SlotFits(items[i], p.slots[i], handles)
  }

  ghost predicate AllSlotsFit(items: seq<Json>, handles: set<string>, slots: seq<Slot>) {
    |items| == |slots| && forall i :: 0 <= i < |items| ==> SlotFits(items[i], slots[i], handles)
  }

  lemma AllSlotsFitPush(items: seq<Json>, j: Json, handles: set<string>, slots: seq<Slot>, slot: Slot)
    ensures AllSlotsFit(items + [j], handles, slots + [slot])
       <==> AllSlotsFit(items, handles, slots) && SlotFits(j, slot, handles)
  {
    if AllSlotsFit(items + [j], handles, slots + [slot]) {
      assert (items + [j])[|items|] == j && (slots + [slot])[|slots|] == slot;
      forall i | 0 <= i < |items|
        ensures SlotFits(items[i], slots[i], handles)
      {
        assert (items + [j])[i] == items[i] && (slots + [slot])[i] == slots[i];
      }
    }
  }

  lemma CheckSlotsPush(items: seq<Json>, j: Json, handles: set<string>, slots: seq<Slot>, slot: Slot)
    ensures CheckSlots(items + [j], handles) == Good(slots + [slot])
       <==> CheckSlots(items, handles) == Good(slots) && CheckSlot(j, handles) == Good(slot)
  {
    assert (items + [j])[..|items + [j]| - 1] == items;
    if CheckSlots(items + [j], handles) == Good(slots + [slot]) {
      var before := CheckSlots(items, handles).value;
      assert (before + [CheckSlot(j, handles).value])[..|before|] == before && (slots + [slot])[..|slots|] == slots;
    }
  }

  lemma {:induction false} SlotsFit(items: seq<Json>, handles: set<string>, slots: seq<Slot>)
    ensures CheckSlots(items, handles) == Good(slots) <==> AllSlotsFit(items, handles, slots)
    decreases |items|
  {
    if items != [] && slots != [] {
      var most, j := items[..|items| - 1], items[|items| - 1];
      var before, slot := slots[..|slots| - 1], slots[|slots| - 1];
      assert items == most + [j] && slots == before + [slot];
      SlotsFit(most, handles, before);
      SlotFitsIff(j, handles, slot);
      CheckSlotsPush(most, j, handles, before, slot);
      AllSlotsFitPush(most, j, handles, before, slot);
    }
  }

  lemma SlotFitsIff(j: Json, handles: set<string>, slot: Slot)
    ensures CheckSlot(j, handles) == Good(slot) <==> SlotFits(j, slot, handles)
  {
  }

  lemma SpanFitsIff(law: Law, j: Json, handles: set<string>, p: Proposal)
    ensures CheckSpan(law, j, handles) == Good(p) <==> SpanFits(law, j, p, handles)
  {
    if j.JObject? && Field(j.fields, "slots").JList? {
      SlotsFit(Field(j.fields, "slots").items, handles, p.slots);
    }
  }

  ghost predicate AllSpansFit(law: Law, items: seq<Json>, handles: set<string>, ps: seq<Proposal>) {
    |items| == |ps| && forall i :: 0 <= i < |items| ==> SpanFits(law, items[i], ps[i], handles)
  }

  lemma AllSpansFitPush(law: Law, items: seq<Json>, j: Json, handles: set<string>, ps: seq<Proposal>, p: Proposal)
    ensures AllSpansFit(law, items + [j], handles, ps + [p])
       <==> AllSpansFit(law, items, handles, ps) && SpanFits(law, j, p, handles)
  {
    if AllSpansFit(law, items + [j], handles, ps + [p]) {
      assert (items + [j])[|items|] == j && (ps + [p])[|ps|] == p;
      forall i | 0 <= i < |items|
        ensures SpanFits(law, items[i], ps[i], handles)
      {
        assert (items + [j])[i] == items[i] && (ps + [p])[i] == ps[i];
      }
    }
  }

  lemma CheckSpansPush(law: Law, items: seq<Json>, j: Json, handles: set<string>, ps: seq<Proposal>, p: Proposal)
    ensures CheckSpans(law, items + [j], handles) == Good(ps + [p])
       <==> CheckSpans(law, items, handles) == Good(ps) && CheckSpan(law, j, handles) == Good(p)
  {
    assert (items + [j])[..|items + [j]| - 1] == items;
    if CheckSpans(law, items + [j], handles) == Good(ps + [p]) {
      var before := CheckSpans(law, items, handles).value;
      assert (before + [CheckSpan(law, j, handles).value])[..|before|] == before && (ps + [p])[..|ps|] == ps;
    }
  }

  lemma {:induction false} SpansFit(law: Law, items: seq<Json>, handles: set<string>, ps: seq<Proposal>)
    ensures CheckSpans(law, items, handles) == Good(ps) <==> AllSpansFit(law, items, handles, ps)
    decreases |items|
  {
    if items != [] && ps != [] {
      var most, j := items[..|items| - 1], items[|items| - 1];
      var before, p := ps[..|ps| - 1], ps[|ps| - 1];
      assert items == most + [j] && ps == before + [p];
      SpansFit(law, most, handles, before);
      SpanFitsIff(law, j, handles, p);
      CheckSpansPush(law, most, j, handles, before, p);
      AllSpansFitPush(law, most, j, handles, before, p);
    }
  }

  /** Validation is exact: a reply yields these proposals exactly when it is a non-empty list
      whose first three entries are well-formed spans carrying them. */
  lemma ReplyIsExact(law: Law, reply: Reply, handles: set<string>, ps: seq<Proposal>)
    ensures CheckReply(law, reply, handles) == Good(ps)
       <==> && reply.Replied? && reply.json.JList? && reply.json.items != []
            && |ps| == (if |reply.json.items| < 3 then |reply.json.items| else 3)
            && forall i :: 0 <= i < |ps| ==> SpanFits(law, reply.json.items[i], ps[i], handles)
  {
    if reply.Replied? && reply.json.JList? {
      SpansFit(law, FirstThree(reply.json.items), handles, ps);
    }
  }

  // ----- drafting -----------------------------------------------------------------------

  /** An exception is a failed call, whatever it was. */
  function FailureOf(c: Checked<seq<Proposal>>): Reason
    requires !c.Good?
  {
    match c
    case Bad(reason) => reason
    case Threw => LlmCallFailed
  }

  datatype Drafting = Drafting(proposals: seq<Proposal>, prompts: seq<Prompt>)

  function DraftOf(law: Law, question: string, exs: seq<Exhibit>, llm: Option<Llm>): Drafting {
    if exs == [] then Drafting([], [])
    else if llm.None? then Drafting(FloorDraft(exs), [])
    else
      var handles := KnownHandles(exs);
      var first := [Prompt(question, RedactAll(exs), None)];
      var c1 := CheckReply(law, llm.value(first), handles);
      if c1.Good? then Drafting(c1.value, first)
      else
        var both := first + [Prompt(question, RedactAll(exs), Some(FailureOf(c1)))];
        var c2 := CheckReply(law, llm.value(both), handles);
        Drafting(if c2.Good? then c2.value else FloorDraft(exs), both)
  }

  method Draft(law: Law, question: string, exs: seq<Exhibit>, llm: Option<Llm>)
    returns (proposals: seq<Proposal>, prompts: seq<Prompt>)
    ensures Drafting(proposals, prompts) == DraftOf(law, question, exs, llm)
  {
    prompts := [];
    if exs == [] {
      return [], [];
    }
    if llm.None? {
      proposals := DraftFloor(exs);
      return;
    }
    var handles := KnownHandles(exs);
    prompts := prompts + [Prompt(question, RedactAll(exs), None)];
    assert prompts == [Prompt(question, RedactAll(exs), None)];
    var attempt := ParseAndValidate(law, llm.value(prompts), handles);
    if attempt.Good? {
      return attempt.value, prompts;
    }
    prompts := prompts + [Prompt(question, RedactAll(exs), Some(FailureOf(attempt)))];
    attempt := ParseAndValidate(law, llm.value(prompts), handles);
    if attempt.Good? {
      return attempt.value, prompts;
    }
    proposals := DraftFloor(exs);
  }

  /** A proposal the model wrote: lint-clean, over known exhibits only. */
  ghost predicate Vetted(law: Law, p: Proposal, handles: set<string>) {
    LintTemplate(law, p.template, handles).None? && forall s :: s in p.slots ==> s.handle in handles
  }

  lemma SpanFitsVets(law: Law, j: Json, p: Proposal, handles: set<string>)
    requires SpanFits(law, j, p, handles)
    ensures Vetted(law, p, handles)
  {
    var items := Field(j.fields, "slots").items;
    forall s | s in p.slots
      ensures s.handle in handles
    {
      var i :| 0 <= i < |p.slots| && p.slots[i] == s;
      assert SlotFits(items[i], p.slots[i], handles);
    }
  }

  lemma ReplyVets(law: Law, reply: Reply, handles: set<string>)
    requires CheckReply(law, reply, handles).Good?
    ensures var ps := CheckReply(law, reply, handles).value;
      1 <= |ps| <= 3 && forall p :: p in ps ==> Vetted(law, p, handles)
  {
    var ps := CheckReply(law, reply, handles).value;
    ReplyIsExact(law, reply, handles, ps);
    forall p | p in ps
      ensures Vetted(law, p, handles)
    {
      var i :| 0 <= i < |ps| && ps[i] == p;
      SpanFitsVets(law, reply.json.items[i], p, handles);
    }
  }

  /** For any model whatever: one to three proposals, at most two calls, none without a model,
      every prompt over redacted exhibits, the retry carrying a reason and made only after a
      refusal; and what comes back is the floor or vetted in full. */
  lemma DraftContract(law: Law, question: string, exs: seq<Exhibit>, llm: Option<Llm>)
    requires exs != []
    ensures var d := DraftOf(law, question, exs, llm);
      && 1 <= |d.proposals| <= 3
      && |d.prompts| <= 2 && (d.prompts == [] <==> llm.None?)
      && (forall i :: 0 <= i < |d.prompts| ==>
            d.prompts[i] == Prompt(question, RedactAll(exs), d.prompts[i].retry)
            && (d.prompts[i].retry.None? <==> i == 0))
      && (|d.prompts| == 2 ==>
            var refused := CheckReply(law, llm.value(d.prompts[..1]), KnownHandles(exs));
            && !refused.Good?
            && d.prompts[1].retry == Some(if refused.Threw? then LlmCallFailed else refused.reason))
      && (d.proposals == FloorDraft(exs) || forall p :: p in d.proposals ==> Vetted(law, p, KnownHandles(exs)))
  {
    if llm.Some? {
      var handles := KnownHandles(exs);
      var first := [Prompt(question, RedactAll(exs), None)];
      var c1 := CheckReply(law, llm.value(first), handles);
      if c1.Good? {
        ReplyVets(law, llm.value(first), handles);
      } else {
        var both := first + [Prompt(question, RedactAll(exs), Some(FailureOf(c1)))];
        assert both[..1] == first;
        if CheckReply(law, llm.value(both), handles).Good? {
          ReplyVets(law, llm.value(both), handles);
        }
      }
    }
  }

  // ----- noninterference ----------------------------------------------------------------

  lemma FloorSeesRedacted(a: Exhibit, b: Exhibit)
    requires Redact(a) == Redact(b)
    ensures FloorProposal(a) == FloorProposal(b)
  {
  }

  lemma SameRedaction(xs: seq<Exhibit>, ys: seq<Exhibit>)
    requires RedactAll(xs) == RedactAll(ys)
    ensures |xs| == |ys| && (forall i :: 0 <= i < |xs| ==> Redact(xs[i]) == Redact(ys[i]))
    ensures KnownHandles(xs) == KnownHandles(ys)
  {
    forall i | 0 <= i < |xs|
      ensures Redact(xs[i]) == Redact(ys[i])
    {
      assert RedactAll(xs)[i] == RedactAll(ys)[i];
    }
    forall h
      ensures h in KnownHandles(xs) <==> h in KnownHandles(ys)
    {
      if e :| e in xs && e.handle == h {
        var i :| 0 <= i < |xs| && xs[i] == e;
        assert ys[i].handle == h;
      }
      if e :| e in ys && e.handle == h {
        var i :| 0 <= i < |ys| && ys[i] == e;
        assert xs[i].handle == h;
      }
    }
  }

  lemma FloorDraftSeesRedacted(xs: seq<Exhibit>, ys: seq<Exhibit>)
    requires RedactAll(xs) == RedactAll(ys)
    ensures FloorDraft(xs) == FloorDraft(ys)
  {
    SameRedaction(xs, ys);
    forall i | 0 <= i < |FloorDraft(xs)|
      ensures FloorDraft(xs)[i] == FloorDraft(ys)[i]
    {
      FloorSeesRedacted(xs[i], ys[i]);
    }
  }

  /** Noninterference: for any model, exhibits that agree after redaction are drafted alike and
      the model is shown the same prompts. No draft depends on value, spoken form, anchor or rows. */
  lemma Noninterference(law: Law, question: string, xs: seq<Exhibit>, ys: seq<Exhibit>, llm: Option<Llm>)
    requires RedactAll(xs) == RedactAll(ys)
    ensures DraftOf(law, question, xs, llm) == DraftOf(law, question, ys, llm)
  {
    SameRedaction(xs, ys);
    FloorDraftSeesRedacted(xs, ys);
  }

  /** A one-span reply whose template is the given mark. */
  function MarkReply(c: char): Reply {
    Replied(JList([JObject(map["template" := JString([c]), "slots" := JList([])])]))
  }

  lemma MarkReplyPasses(law: Law, c: char, handles: set<string>)
    requires !law.numeric(c) && !T.Alpha(c) && c != '{' && c != '}'
    ensures CheckReply(law, MarkReply(c), handles) == Good([Proposal([c], [])])
  {
    MarkLints(law, c, handles);
    var fields := map["template" := JString([c]), "slots" := JList([])];
    var span := JObject(fields);
    assert Field(fields, "template") == JString([c]) && Field(fields, "slots") == JList([]);
    assert CheckSlots([], handles) == Good([]);
    assert CheckSpan(law, span, handles) == Good(Proposal([c], []));
    OneSpan(law, span, handles);
  }

  lemma OneSpan(law: Law, span: Json, handles: set<string>)
    requires CheckSpan(law, span, handles).Good?
    ensures CheckReply(law, Replied(JList([span])), handles) == Good([CheckSpan(law, span, handles).value])
  {
    var items := [span];
    assert items[..|items| - 1] == [];
    assert CheckSpans(law, [], handles) == Good([]);
    var p := CheckSpan(law, span, handles).value;
    assert [] + [p] == [p];
    assert CheckSpans(law, items, handles) == Good([p]);
    assert FirstThree(items) == items && |items| == 1;
  }

  lemma MarkLints(law: Law, c: char, known: set<string>)
    requires !law.numeric(c) && !T.Alpha(c) && c != '{' && c != '}'
    ensures LintTemplate(law, [c], known).None?
  {
    T.TokenizeProse(c, "");
    assert [c] + "" == [c];
    assert T.Tokenize([c]) == [T.Prose(c)] + [];
    T.RenderCons(T.Prose(c), [], (_: string) => " ");
    assert StripSlots([c]) == [c];
    assert [c][1..] == [];
    assert T.Words([c]) == [];
    assert T.Handles([T.Prose(c)]) == [];
    assert [T.Prose(c)] + [] == [T.Prose(c)];
  }

  /** The model that answers one view of the exhibits with a stop and any other with a bang. */
  function Discerning(seen: seq<Redacted>): Llm {
    (ps: seq<Prompt>) => MarkReply(if ps != [] && ps[|ps| - 1].exhibits == seen then '.' else '!')
  }

  lemma DiscerningDraft(law: Law, question: string, exs: seq<Exhibit>, seen: seq<Redacted>)
    requires PlainLaw(law) && exs != []
    ensures DraftOf(law, question, exs, Some(Discerning(seen))).proposals
         == [Proposal([if RedactAll(exs) == seen then '.' else '!'], [])]
  {
    MarkReplyPasses(law, if RedactAll(exs) == seen then '.' else '!', KnownHandles(exs));
  }

  /** And it is exact: whatever redaction leaves can be heard. Exhibits that differ after
      redaction (in `computedAt` alone, say) are told apart by some model. */
  lemma RedactionIsTheWholeView(law: Law, question: string, xs: seq<Exhibit>, ys: seq<Exhibit>)
    requires PlainLaw(law) && xs != [] && ys != [] && RedactAll(xs) != RedactAll(ys)
    ensures exists llm: Llm :: DraftOf(law, question, xs, Some(llm)).proposals != DraftOf(law, question, ys, Some(llm)).proposals
  {
    var llm := Discerning(RedactAll(xs));
    DiscerningDraft(law, question, xs, RedactAll(xs));
    DiscerningDraft(law, question, ys, RedactAll(xs));
    assert [Proposal(['.'], [])][0].template[0] != [Proposal(['!'], [])][0].template[0];
    assert DraftOf(law, question, xs, Some(llm)).proposals != DraftOf(law, question, ys, Some(llm)).proposals;
  }

  /** What the drafter and the model can see of exhibits: exactly handle, kind, unit, query and the
      time of computation; the latter although only the first four are said to be shown. */
  lemma RedactionShows(a: Exhibit, b: Exhibit)
    ensures Redact(a) == Redact(b)
       <==> a.handle == b.handle && a.kind == b.kind && a.unit == b.unit && a.query == b.query && a.computedAt == b.computedAt
  {
  }

  /** So the time of computation alone can sway a draft. */
  lemma ComputedAtIsHeard(law: Law, question: string, e: Exhibit, at: string)
    requires PlainLaw(law) && at != e.computedAt
    ensures exists llm: Llm ::
      DraftOf(law, question, [e], Some(llm)).proposals != DraftOf(law, question, [e.(computedAt := at)], Some(llm)).proposals
  {
    var other := e.(computedAt := at);
    RedactionShows(e, other);
    assert RedactAll([e])[0] != RedactAll([other])[0];
    RedactionIsTheWholeView(law, question, [e], [other]);
  }
}

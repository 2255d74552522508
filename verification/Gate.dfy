/**
 The truth gate: lint a template, re-derive its text from sealed exhibits, seal the span or
 let it die. The numeric characters are an arbitrary class (`Law.numeric`), the digest an
 arbitrary function; a sorted list of exhibit anchors is their multiset.
 */
module Gate {
  import opened Wrappers
  import opened Spans
  import T = Templates

  /** What the lint forbids in prose: a class of numeric characters and a lexicon. */
  datatype Law = Law(numeric: char -> bool, lexicon: set<string>)

  type Digest = (string, seq<Slot>, string, multiset<string>) -> string

  const NUMBER_WORDS: set<string> := {
    "zero", "one", "two", "three", "four", "five", "six", "seven", "eight", "nine", "ten",
    "eleven", "twelve", "thirteen", "fourteen", "fifteen", "sixteen", "seventeen", "eighteen", "nineteen",
    "twenty", "thirty", "forty", "fifty", "sixty", "seventy", "eighty", "ninety",
    "hundred", "thousand", "million", "billion", "trillion", "dozen", "dozens", "couple", "score"
  }

  function LowerChar(c: char): char { if 'A' <= c <= 'Z' then c - 'A' + 'a' else c }

  function Lower(s: string): (r: string)
    ensures |r| == |s|
  {
    seq(|s|, i requires 0 <= i < |s| => LowerChar(s[i]))
  }

  predicate SpellsNumber(law: Law, prose: string) { exists w :: w in T.Words(prose) && Lower(w) in law.lexicon }

  predicate HasNumeric(law: Law, prose: string) { exists c :: c in prose && law.numeric(c) }

  // ----- lint ---------------------------------------------------------------------------

  datatype LintReason = MalformedSlot | DigitInTemplate | NumberWordInTemplate | UnknownHandle(handle: string)

  /** The template's prose with every slot replaced by a space. */
  function StripSlots(template: string): string { T.Render(T.Tokenize(template), (_: string) => " ") }

  function FirstUnknown(hs: seq<string>, known: set<string>): Option<string> {
    if hs == [] then None else if hs[0] !in known then Some(hs[0]) else FirstUnknown(hs[1..], known)
  }

  /** None means clean; otherwise the first rule broken. */
  function LintTemplate(law: Law, template: string, known: set<string>): Option<LintReason> {
    var prose := StripSlots(template);
    if '{' in prose || '}' in prose then Some(MalformedSlot)
    else if HasNumeric(law, prose) then Some(DigitInTemplate)
    else if SpellsNumber(law, prose) then Some(NumberWordInTemplate)
    else
      match FirstUnknown(T.Handles(T.Tokenize(template)), known)
      case Some(h) => Some(UnknownHandle(h))
      case None => None
  }

  // ----- fill ---------------------------------------------------------------------------

  /** Lookup in a dictionary built from a list: the last entry wins. */
  function ExhibitFor(exs: seq<Exhibit>, h: string): Option<Exhibit> {
    if exs == [] then None
    else if exs[|exs| - 1].handle == h then Some(exs[|exs| - 1])
    else ExhibitFor(exs[..|exs| - 1], h)
  }

  function RenderingFor(slots: seq<Slot>, h: string): Option<Rendering> {
    if slots == [] then None
    else if slots[|slots| - 1].handle == h then Some(slots[|slots| - 1].rendering)
    else RenderingFor(slots[..|slots| - 1], h)
  }

  /** Raw is legal only for scalars. */
  function RenderSlot(ex: Exhibit, r: Rendering): Option<string> {
    match r
    case SPOKEN => Some(ex.spoken)
    case RAW =>
      match ex.value
      case IntValue(n) => Some(Decimal(n))
      case TextValue(s) => Some(s)
      case ListValue(_) => None
  }

  /** The value that fills a handle, when everything about it resolves. */
  function Voice(slots: seq<Slot>, exs: seq<Exhibit>, h: string): Option<string> {
    match (ExhibitFor(exs, h), RenderingFor(slots, h))
    case (Some(ex), Some(r)) => RenderSlot(ex, r)
    case _ => None
  }

  function VoiceOrNothing(slots: seq<Slot>, exs: seq<Exhibit>): string -> string {
    (h: string) => match Voice(slots, exs, h) case Some(v) => v case None => ""
  }

  predicate AllVoiced(slots: seq<Slot>, exs: seq<Exhibit>, hs: seq<string>) {
    forall i :: 0 <= i < |hs| ==> Voice(slots, exs, hs[i]).Some?
  }

  function Fill(template: string, slots: seq<Slot>, exs: seq<Exhibit>): Option<string> {
    var ts := T.Tokenize(template);
    if AllVoiced(slots, exs, T.Handles(ts)) then Some(T.Render(ts, VoiceOrNothing(slots, exs))) else None
  }

  // ----- verify and gate ----------------------------------------------------------------

  function Anchors(exs: seq<Exhibit>, hs: seq<string>): multiset<string> {
    if exs == [] then multiset{}
    else
      var e := exs[|exs| - 1];
      Anchors(exs[..|exs| - 1], hs) +
      (if e.handle in hs && e.anchor.Some? && e.anchor.value != "" then multiset{e.anchor.value} else multiset{})
  }

  function SpanAnchor(digest: Digest, s: Span, exs: seq<Exhibit>): string {
    digest(s.template, s.slots, s.text, Anchors(exs, T.Handles(T.Tokenize(s.template))))
  }

  function Verify(digest: Digest, s: Span, exs: seq<Exhibit>): Option<Span> {
    if Fill(s.template, s.slots, exs) != Some(s.text) then None
    else Some(s.(verdict := SEALED, anchor := Some(SpanAnchor(digest, s, exs))))
  }

  function KnownHandles(exs: seq<Exhibit>): set<string> { set e | e in exs :: e.handle }

  /** What the gate makes of one span. */
  function Judge(law: Law, digest: Digest, s: Span, exs: seq<Exhibit>): Option<Span> {
    if LintTemplate(law, s.template, KnownHandles(exs)).Some? then None else Verify(digest, s, exs)
  }

  function Survivors(law: Law, digest: Digest, spans: seq<Span>, exs: seq<Exhibit>): seq<Span> {
    if spans == [] then []
    else
      Survivors(law, digest, spans[..|spans| - 1], exs) +
      (match Judge(law, digest, spans[|spans| - 1], exs) case Some(s) => [s] case None => [])
  }

  /** Something died: some span was not sealed. */
  ghost predicate SomeDied(law: Law, digest: Digest, spans: seq<Span>, exs: seq<Exhibit>) {
    exists i :: 0 <= i < |spans| && Judge(law, digest, spans[i], exs).None?
  }

  lemma SomeDiedSnoc(law: Law, digest: Digest, spans: seq<Span>, s: Span, exs: seq<Exhibit>)
    ensures SomeDied(law, digest, spans + [s], exs)
       <==> SomeDied(law, digest, spans, exs) || Judge(law, digest, s, exs).None?
  {
    var all := spans + [s];
    assert all[|spans|] == s && forall i :: 0 <= i < |spans| ==> all[i] == spans[i];
  }

  lemma SurvivorsSnoc(law: Law, digest: Digest, spans: seq<Span>, s: Span, exs: seq<Exhibit>)
    ensures Survivors(law, digest, spans + [s], exs)
         == Survivors(law, digest, spans, exs) +
            (match Judge(law, digest, s, exs) case Some(x) => [x] case None => [])
  {
    assert (spans + [s])[..|spans|] == spans;
  }

  /** One pass of the gate's loop: lint, then verify. */
  method GateOne(law: Law, digest: Digest, span: Span, exs: seq<Exhibit>, known: set<string>)
    returns (sealed: Option<Span>)
    requires known == KnownHandles(exs)
    ensures sealed == Judge(law, digest, span, exs)
  {
    var lint := LintTemplate(law, span.template, known);
    if lint.Some? {
      return None;
    }
    sealed := Verify(digest, span, exs);
  }

  method GateAll(law: Law, digest: Digest, spans: seq<Span>, exs: seq<Exhibit>)
    returns (survivors: seq<Span>, anythingDied: bool)
    ensures survivors == Survivors(law, digest, spans, exs)
    ensures anythingDied <==> SomeDied(law, digest, spans, exs)
  {
    survivors, anythingDied := [], false;
    var known := KnownHandles(exs);
    for i := 0 to |spans|
      invariant survivors == Survivors(law, digest, spans[..i], exs)
      invariant anythingDied <==> SomeDied(law, digest, spans[..i], exs)
    {
      assert spans[..i + 1] == spans[..i] + [spans[i]];
      SurvivorsSnoc(law, digest, spans[..i], spans[i], exs);
      SomeDiedSnoc(law, digest, spans[..i], spans[i], exs);
      var sealed := GateOne(law, digest, spans[i], exs, known);
      match sealed {
        case None => anythingDied := true;
        case Some(x) => survivors := survivors + [x];
      }
    }
    assert spans[..|spans|] == spans;
  }

  // ----- what survival means ------------------------------------------------------------

  /** Prose that speaks no quantity of its own. */
  predicate Silent(law: Law, prose: string) {
    !HasNumeric(law, prose) && !SpellsNumber(law, prose) && Unbraced(prose)
  }

  predicate Unbraced(prose: string) { '{' !in prose && '}' !in prose }

  ghost predicate AllUnbraced(segs: seq<string>) { forall i :: 0 <= i < |segs| ==> Unbraced(segs[i]) }

  ghost predicate AllSilent(law: Law, segs: seq<string>) {
    forall i :: 0 <= i < |segs| ==> Silent(law, segs[i])
  }

  lemma SpaceEach(hs: seq<string>)
    ensures T.Each(hs, (_: string) => " ") == T.Spaces(|hs|)
  {
  }

  lemma StrippedIsInterleaved(template: string)
    ensures StripSlots(template)
         == T.Interleave(T.Segments(T.Tokenize(template)), T.Spaces(|T.Handles(T.Tokenize(template))|))
  {
    var ts := T.Tokenize(template);
    T.RenderInterleaves(ts, (_: string) => " ");
    SpaceEach(T.Handles(ts));
  }

  lemma {:induction false} NoUnknownMeansKnown(hs: seq<string>, known: set<string>)
    ensures FirstUnknown(hs, known).None? <==> forall h :: h in hs ==> h in known
  {
    if hs != [] {
      NoUnknownMeansKnown(hs[1..], known);
      assert hs == [hs[0]] + hs[1..];
    }
  }

  lemma LoudSegment(law: Law, segs: seq<string>, i: nat)
    requires i < |segs| && !Silent(law, segs[i])
    ensures !Silent(law, T.Interleave(segs, T.Spaces(|segs| - 1)))
  {
    T.CharsOfSegments(segs, '{');
    T.CharsOfSegments(segs, '}');
    if c :| c in segs[i] && law.numeric(c) {
      T.CharsOfSegments(segs, c);
    }
    if w :| w in T.Words(segs[i]) && Lower(w) in law.lexicon {
      T.WordsOfSegments(segs, w);
    }
  }

  lemma LoudChar(law: Law, segs: seq<string>, c: char)
    requires |segs| > 0 && c in T.Interleave(segs, T.Spaces(|segs| - 1)) && c != ' '
    requires law.numeric(c) || c == '{' || c == '}'
    ensures !AllSilent(law, segs)
  {
    T.CharsOfSegments(segs, c);
    var i :| 0 <= i < |segs| && c in segs[i];
    assert !Silent(law, segs[i]);
  }

  lemma LoudWord(law: Law, segs: seq<string>, w: string)
    requires |segs| > 0 && w in T.Words(T.Interleave(segs, T.Spaces(|segs| - 1))) && Lower(w) in law.lexicon
    ensures !AllSilent(law, segs)
  {
    T.WordsOfSegments(segs, w);
    var i :| 0 <= i < |segs| && w in T.Words(segs[i]);
    assert SpellsNumber(law, segs[i]);
    assert !Silent(law, segs[i]);
  }

  lemma LoudNumeric(law: Law, segs: seq<string>)
    requires |segs| > 0 && !law.numeric(' ') && HasNumeric(law, T.Interleave(segs, T.Spaces(|segs| - 1)))
    ensures !AllSilent(law, segs)
  {
    var c :| c in T.Interleave(segs, T.Spaces(|segs| - 1)) && law.numeric(c);
    LoudChar(law, segs, c);
  }

  lemma LoudSpelling(law: Law, segs: seq<string>)
    requires |segs| > 0 && SpellsNumber(law, T.Interleave(segs, T.Spaces(|segs| - 1)))
    ensures !AllSilent(law, segs)
  {
    var w :| w in T.Words(T.Interleave(segs, T.Spaces(|segs| - 1))) && Lower(w) in law.lexicon;
    LoudWord(law, segs, w);
  }

  lemma LoudProse(law: Law, segs: seq<string>)
    requires |segs| > 0 && !law.numeric(' ')
    requires !Silent(law, T.Interleave(segs, T.Spaces(|segs| - 1)))
    ensures !AllSilent(law, segs)
  {
    var prose := T.Interleave(segs, T.Spaces(|segs| - 1));
    if HasNumeric(law, prose) {
      LoudNumeric(law, segs);
    } else if SpellsNumber(law, prose) {
      LoudSpelling(law, segs);
    } else {
      LoudChar(law, segs, if '{' in prose then '{' else '}');
    }
  }

  /** Blanking the slots hides nothing and invents nothing: the blanked prose is silent
      exactly when every segment is. */
  lemma SilentSegments(law: Law, segs: seq<string>)
    requires |segs| > 0 && !law.numeric(' ')
    ensures Silent(law, T.Interleave(segs, T.Spaces(|segs| - 1))) <==> AllSilent(law, segs)
  {
    if !AllSilent(law, segs) {
      var i :| 0 <= i < |segs| && !Silent(law, segs[i]);
      LoudSegment(law, segs, i);
    } else if !Silent(law, T.Interleave(segs, T.Spaces(|segs| - 1))) {
      LoudProse(law, segs);
    }
  }

  ghost predicate Clean(law: Law, ts: seq<T.Token>, known: set<string>) {
    AllSilent(law, T.Segments(ts)) && forall h :: h in T.Handles(ts) ==> h in known
  }

  /** The lint accepts exactly the templates whose every prose segment is silent and whose
      every slot names a known exhibit. */
  lemma LintIsExact(law: Law, template: string, known: set<string>)
    requires !law.numeric(' ')
    ensures LintTemplate(law, template, known).None? <==> Clean(law, T.Tokenize(template), known)
  {
    var ts := T.Tokenize(template);
    StrippedIsInterleaved(template);
    SilentSegments(law, T.Segments(ts));
    NoUnknownMeansKnown(T.Handles(ts), known);
  }

  /** What survives: its text is its template's prose, unchanged and silent, with each slot
      replaced by the deterministic rendering of the exhibit it names. */
  ghost predicate Decomposes(law: Law, s: Span, exs: seq<Exhibit>, segs: seq<string>, hs: seq<string>) {
    && |segs| == |hs| + 1
    && s.template == T.Interleave(segs, T.Each(hs, T.Braced()))
    && AllVoiced(s.slots, exs, hs)
    && s.text == T.Interleave(segs, T.Each(hs, VoiceOrNothing(s.slots, exs)))
    && AllSilent(law, segs)
    && (forall h :: h in hs ==> T.IsHandle(h) && h in KnownHandles(exs))
  }

  lemma {:induction false} HandleTokens(ts: seq<T.Token>)
    requires forall i :: 0 <= i < |ts| && ts[i].Slot? ==> T.IsHandle(ts[i].handle)
    ensures forall h :: h in T.Handles(ts) ==> T.IsHandle(h)
  {
    if ts != [] {
      HandleTokens(ts[1..]);
    }
  }

  /** Gate decomposition: a span survives exactly when its text decomposes along its
      template's own segments and handles. */
  lemma SurvivesIffDecomposes(law: Law, digest: Digest, s: Span, exs: seq<Exhibit>)
    requires !law.numeric(' ')
    ensures Judge(law, digest, s, exs).Some?
       <==> Decomposes(law, s, exs, T.Segments(T.Tokenize(s.template)), T.Handles(T.Tokenize(s.template)))
  {
    var ts := T.Tokenize(s.template);
    LintIsExact(law, s.template, KnownHandles(exs));
    T.WriteAfterRead(s.template);
    T.RenderInterleaves(ts, T.Braced());
    T.RenderInterleaves(ts, VoiceOrNothing(s.slots, exs));
    T.HandlesAreHandles(s.template);
    HandleTokens(ts);
  }

  // ----- the decomposition is unique ----------------------------------------------------

  /** The tokens that segments and handles alternate to. */
  function Weave(segs: seq<string>, hs: seq<string>): seq<T.Token>
    requires |segs| == |hs| + 1
    decreases |hs|, if hs == [] then 0 else 1
  {
    if hs == [] then ProseTokens(segs[0])
    else ProseTokens(segs[0]) + ([T.Slot(hs[0])] + Weave(segs[1..], hs[1..]))
  }

  function ProseTokens(s: string): (ts: seq<T.Token>)
    ensures |ts| == |s| && forall i :: 0 <= i < |s| ==> ts[i] == T.Prose(s[i])
  {
    seq(|s|, i requires 0 <= i < |s| => T.Prose(s[i]))
  }

  lemma ProseCons(c: char, s: string, ts: seq<T.Token>)
    ensures ProseTokens([c] + s) + ts == [T.Prose(c)] + (ProseTokens(s) + ts)
  {
  }

  lemma SegmentsCons(c: char, ts: seq<T.Token>, first: string, more: seq<string>)
    requires T.Segments(ts) == [first] + more
    ensures T.Segments([T.Prose(c)] + ts) == [[c] + first] + more
    ensures T.Handles([T.Prose(c)] + ts) == T.Handles(ts)
  {
    assert ([T.Prose(c)] + ts)[1..] == ts;
  }

  lemma ProseRenderStep(c: char, rest: string, ts: seq<T.Token>, f: string -> string, said: string)
    requires T.Render(ProseTokens(rest) + ts, f) == rest + said
    ensures T.Render(ProseTokens([c] + rest) + ts, f) == [c] + rest + said
  {
    ProseCons(c, rest, ts);
    T.RenderCons(T.Prose(c), ProseTokens(rest) + ts, f);
  }

  lemma {:induction false} ProseRenders(s: string, ts: seq<T.Token>, f: string -> string)
    ensures T.Render(ProseTokens(s) + ts, f) == s + T.Render(ts, f)
    decreases |s|
  {
    if s == "" {
      assert ProseTokens(s) + ts == ts;
    } else {
      ProseRenders(s[1..], ts, f);
      ProseRenderStep(s[0], s[1..], ts, f, T.Render(ts, f));
      assert s == [s[0]] + s[1..];
    }
  }

  /** Prose in front joins the first segment and names no handle. */
  lemma {:induction false} ProseSegments(s: string, ts: seq<T.Token>, first: string, more: seq<string>)
    requires T.Segments(ts) == [first] + more
    ensures T.Segments(ProseTokens(s) + ts) == [s + first] + more
    ensures T.Handles(ProseTokens(s) + ts) == T.Handles(ts)
    decreases |s|
  {
    if s == "" {
      assert ProseTokens(s) + ts == ts;
      assert s + first == first;
    } else {
      var c, rest := s[0], s[1..];
      assert s == [c] + rest;
      ProseCons(c, rest, ts);
      ProseSegments(rest, ts, first, more);
      SegmentsCons(c, ProseTokens(rest) + ts, rest + first, more);
      assert [c] + (rest + first) == s + first;
    }
  }

  lemma {:induction false} WeavePlain(segs: seq<string>, hs: seq<string>)
    requires |segs| == |hs| + 1 && AllUnbraced(segs)
    requires forall h :: h in hs ==> T.IsHandle(h)
    ensures T.Plain(Weave(segs, hs))
    decreases |hs|
  {
    assert Unbraced(segs[0]);
    if hs != [] {
      WeavePlain(segs[1..], hs[1..]);
    }
  }

  lemma {:induction false} WeaveRenders(segs: seq<string>, hs: seq<string>)
    requires |segs| == |hs| + 1
    ensures T.Render(Weave(segs, hs), T.Braced()) == T.Interleave(segs, T.Each(hs, T.Braced()))
    decreases |hs|
  {
    if hs == [] {
      ProseRenders(segs[0], [], T.Braced());
      assert ProseTokens(segs[0]) + [] == ProseTokens(segs[0]);
    } else {
      WeaveRenders(segs[1..], hs[1..]);
      var rest := Weave(segs[1..], hs[1..]);
      ProseRenders(segs[0], [T.Slot(hs[0])] + rest, T.Braced());
      T.RenderCons(T.Slot(hs[0]), rest, T.Braced());
      assert T.Each(hs, T.Braced())[1..] == T.Each(hs[1..], T.Braced());
    }
  }

  lemma SlotFirst(h: string, ts: seq<T.Token>)
    ensures T.Segments([T.Slot(h)] + ts) == [""] + T.Segments(ts)
    ensures T.Handles([T.Slot(h)] + ts) == [h] + T.Handles(ts)
  {
    assert ([T.Slot(h)] + ts)[1..] == ts;
  }

  lemma WeaveLast(seg: string)
    ensures T.Segments(ProseTokens(seg)) == [seg] && T.Handles(ProseTokens(seg)) == []
  {
    ProseSegments(seg, [], "", []);
    assert ProseTokens(seg) + [] == ProseTokens(seg) && seg + "" == seg;
  }

  lemma WeaveOne(seg: string, h: string, ts: seq<T.Token>)
    ensures T.Segments(ProseTokens(seg) + ([T.Slot(h)] + ts)) == [seg] + T.Segments(ts)
    ensures T.Handles(ProseTokens(seg) + ([T.Slot(h)] + ts)) == [h] + T.Handles(ts)
  {
    SlotFirst(h, ts);
    ProseSegments(seg, [T.Slot(h)] + ts, "", T.Segments(ts));
    assert seg + "" == seg;
  }

  lemma {:induction false} WeaveSegments(segs: seq<string>, hs: seq<string>)
    requires |segs| == |hs| + 1
    ensures T.Segments(Weave(segs, hs)) == segs && T.Handles(Weave(segs, hs)) == hs
    decreases |hs|
  {
    if hs == [] {
      WeaveLast(segs[0]);
    } else {
      WeaveSegments(segs[1..], hs[1..]);
      WeaveOne(segs[0], hs[0], Weave(segs[1..], hs[1..]));
    }
  }

  /** Brace-free prose around well-formed handles is read back as just that. */
  lemma ReadsBack(segs: seq<string>, hs: seq<string>)
    requires |segs| == |hs| + 1 && AllUnbraced(segs)
    requires forall h :: h in hs ==> T.IsHandle(h)
    ensures T.Segments(T.Tokenize(T.Interleave(segs, T.Each(hs, T.Braced())))) == segs
    ensures T.Handles(T.Tokenize(T.Interleave(segs, T.Each(hs, T.Braced())))) == hs
  {
    WeavePlain(segs, hs);
    WeaveRenders(segs, hs);
    WeaveSegments(segs, hs);
    T.ReadAfterWrite(Weave(segs, hs));
  }

  /** Uniqueness: silent prose and slots that spell a template are its own tokenization, so a
      span's text decomposes in at most one way. */
  lemma DecompositionUnique(law: Law, s: Span, exs: seq<Exhibit>, segs: seq<string>, hs: seq<string>)
    requires Decomposes(law, s, exs, segs, hs)
    ensures segs == T.Segments(T.Tokenize(s.template)) && hs == T.Handles(T.Tokenize(s.template))
  {
    forall i | 0 <= i < |segs|
      ensures Unbraced(segs[i])
    {
      assert Silent(law, segs[i]);
    }
    ReadsBack(segs, hs);
  }

  // ----- gating again -------------------------------------------------------------------

  lemma JudgeAgain(law: Law, digest: Digest, s: Span, exs: seq<Exhibit>)
    requires Judge(law, digest, s, exs).Some?
    ensures Judge(law, digest, Judge(law, digest, s, exs).value, exs) == Judge(law, digest, s, exs)
  {
    var x := Judge(law, digest, s, exs).value;
    assert x.template == s.template && x.slots == s.slots && x.text == s.text;
  }

  ghost predicate Sealed(law: Law, digest: Digest, s: Span, exs: seq<Exhibit>) {
    Judge(law, digest, s, exs) == Some(s)
  }

  /** Every survivor is its own seal: the sealed form of a span that was put in. */
  lemma {:induction false} SurvivorsAreSealed(law: Law, digest: Digest, spans: seq<Span>, exs: seq<Exhibit>)
    ensures forall x :: x in Survivors(law, digest, spans, exs) ==>
      Sealed(law, digest, x, exs) && exists s :: s in spans && Judge(law, digest, s, exs) == Some(x)
  {
    if spans != [] {
      var n := |spans| - 1;
      SurvivorsAreSealed(law, digest, spans[..n], exs);
      assert spans[n] in spans;
      if Judge(law, digest, spans[n], exs).Some? {
        JudgeAgain(law, digest, spans[n], exs);
      }
    }
  }

  lemma {:induction false} SealedAllSurvive(law: Law, digest: Digest, spans: seq<Span>, exs: seq<Exhibit>)
    requires forall x :: x in spans ==> Sealed(law, digest, x, exs)
    ensures Survivors(law, digest, spans, exs) == spans && !SomeDied(law, digest, spans, exs)
  {
    if spans != [] {
      var most, last := spans[..|spans| - 1], spans[|spans| - 1];
      SealedAllSurvive(law, digest, most, exs);
      assert spans == most + [last];
      assert Sealed(law, digest, last, exs);
      SurvivorsSnoc(law, digest, most, last, exs);
      SomeDiedSnoc(law, digest, most, last, exs);
    }
  }

  /** Gating the survivors again returns them unchanged, and nothing dies. */
  lemma GateIdempotent(law: Law, digest: Digest, spans: seq<Span>, exs: seq<Exhibit>)
    ensures Survivors(law, digest, Survivors(law, digest, spans, exs), exs) == Survivors(law, digest, spans, exs)
    ensures !SomeDied(law, digest, Survivors(law, digest, spans, exs), exs)
  {
    SurvivorsAreSealed(law, digest, spans, exs);
    SealedAllSurvive(law, digest, Survivors(law, digest, spans, exs), exs);
  }

  /** Whatever the gate lets through decomposes, in one way only, into silent prose and
      renderings of known exhibits. */
  lemma GateDecomposition(law: Law, digest: Digest, spans: seq<Span>, exs: seq<Exhibit>, x: Span)
    requires !law.numeric(' ') && x in Survivors(law, digest, spans, exs)
    ensures x.verdict == SEALED && x.anchor == Some(SpanAnchor(digest, x, exs))
    ensures exists segs, hs :: Decomposes(law, x, exs, segs, hs)
    ensures forall segs, hs :: Decomposes(law, x, exs, segs, hs) ==>
      segs == T.Segments(T.Tokenize(x.template)) && hs == T.Handles(T.Tokenize(x.template))
  {
    SurvivorsAreSealed(law, digest, spans, exs);
    SurvivesIffDecomposes(law, digest, x, exs);
    forall segs, hs | Decomposes(law, x, exs, segs, hs)
      ensures segs == T.Segments(T.Tokenize(x.template)) && hs == T.Handles(T.Tokenize(x.template))
    {
      DecompositionUnique(law, x, exs, segs, hs);
    }
  }

  ghost predicate InjectiveDigest(digest: Digest) {
    forall t, ss, x, a, t', ss', x', a' :: digest(t, ss, x, a) == digest(t', ss', x', a') ==>
      t == t' && ss == ss' && x == x' && a == a'
  }

  /** The seal binds: two sealed spans with one anchor, even over different exhibits, have the
      same template, slots and text, and rest on the same exhibit anchors. */
  lemma AnchorBinds(law: Law, digest: Digest, x: Span, xs: seq<Exhibit>, y: Span, ys: seq<Exhibit>)
    requires InjectiveDigest(digest) && Sealed(law, digest, x, xs) && Sealed(law, digest, y, ys) && x.anchor == y.anchor
    ensures x == y
    ensures Anchors(xs, T.Handles(T.Tokenize(x.template))) == Anchors(ys, T.Handles(T.Tokenize(x.template)))
  {
    assert x.anchor == Some(SpanAnchor(digest, x, xs)) && y.anchor == Some(SpanAnchor(digest, y, ys));
    assert x.verdict == SEALED && y.verdict == SEALED;
  }

  // ----- the vendored lint --------------------------------------------------------------

  /** The drafter's own copy: the same lexicon, but it scans for decimal digits only. */
  function VendoredLint(decimal: char -> bool, template: string, known: set<string>): Option<LintReason> {
    LintTemplate(Law(decimal, NUMBER_WORDS), template, known)
  }

  /** The gate's lint accepts exactly what the vendored lint accepts and is free of numeric
      characters that are not decimal digits: the copy can only be the weaker one. */
  lemma VendoredLintIsWeaker(law: Law, decimal: char -> bool, template: string, known: set<string>)
    requires law.lexicon == NUMBER_WORDS && forall c :: decimal(c) ==> law.numeric(c)
    ensures LintTemplate(law, template, known).None?
       <==> VendoredLint(decimal, template, known).None? && !HasNumeric(law, StripSlots(template))
  {
    var mine := Law(decimal, NUMBER_WORDS);
    var prose := StripSlots(template);
    assert SpellsNumber(mine, prose) == SpellsNumber(law, prose);
  }

  /** And it is weaker: any numeric character that is no decimal digit tells them apart. */
  lemma VendoredLintDiffers(law: Law, decimal: char -> bool, c: char)
    requires law.numeric(c) && !decimal(c) && c != '{' && c != '}'
    ensures VendoredLint(decimal, [c], {}).None? && LintTemplate(law, [c], {}).Some?
  {
    assert T.Tokenize([c]) == [T.Prose(c)] by {
      T.TokenizeProse(c, "");
      assert [c] + "" == [c];
    }
    T.RenderCons(T.Prose(c), [], (_: string) => " ");
    assert [T.Prose(c)] + [] == [T.Prose(c)];
    assert StripSlots([c]) == [c];
    if T.Alpha(c) {
      assert T.AlphaRun([c]) == 1 && [c][..1] == [c] && [c][1..] == [];
      assert T.Words([c]) == [[c]];
      assert |Lower([c])| == 1 && Lower([c]) !in NUMBER_WORDS;
    } else {
      assert [c][1..] == [];
      assert T.Words([c]) == [];
    }
    assert T.Handles([T.Prose(c)]) == [];
  }

  // ----- the seal does not depend on the order of the exhibits ---------------------------

  lemma {:induction false} AnchorsConcat(xs: seq<Exhibit>, ys: seq<Exhibit>, hs: seq<string>)
    ensures Anchors(xs + ys, hs) == Anchors(xs, hs) + Anchors(ys, hs)
    decreases |ys|
  {
    if ys == [] {
      assert xs + ys == xs;
    } else {
      assert (xs + ys)[..|xs + ys| - 1] == xs + ys[..|ys| - 1];
      AnchorsConcat(xs, ys[..|ys| - 1], hs);
    }
  }

  /** Taking one element out of two equal bags leaves equal bags. */
  lemma TakeOut(xs: seq<Exhibit>, ys: seq<Exhibit>) returns (i: nat)
    requires xs != [] && multiset(xs) == multiset(ys)
    ensures i < |ys| && ys[i] == xs[|xs| - 1]
    ensures ys == ys[..i] + ([ys[i]] + ys[i + 1..])
    ensures multiset(xs[..|xs| - 1]) == multiset(ys[..i] + ys[i + 1..])
  {
    var n := |xs| - 1;
    assert xs == xs[..n] + [xs[n]];
    assert xs[n] in multiset(ys);
    i :| 0 <= i < |ys| && ys[i] == xs[n];
    assert ys == ys[..i] + ([ys[i]] + ys[i + 1..]);
    assert multiset(xs[..n]) == multiset(xs) - multiset{xs[n]};
    assert multiset(ys[..i] + ys[i + 1..]) == multiset(ys) - multiset{xs[n]};
  }

  lemma AnchorsMiddle(xs: seq<Exhibit>, e: Exhibit, ys: seq<Exhibit>, hs: seq<string>)
    ensures Anchors(xs + ([e] + ys), hs) == Anchors(xs + ys, hs) + Anchors([e], hs)
  {
    AnchorsConcat(xs, [e] + ys, hs);
    AnchorsConcat([e], ys, hs);
    AnchorsConcat(xs, ys, hs);
  }

  lemma {:induction false} AnchorsOrderFree(xs: seq<Exhibit>, ys: seq<Exhibit>, hs: seq<string>)
    requires multiset(xs) == multiset(ys)
    ensures Anchors(xs, hs) == Anchors(ys, hs)
    decreases |xs|
  {
    if xs == [] {
      assert |ys| == |multiset(ys)| == 0;
    } else {
      var n := |xs| - 1;
      var i := TakeOut(xs, ys);
      AnchorsOrderFree(xs[..n], ys[..i] + ys[i + 1..], hs);
      AnchorsMiddle(ys[..i], ys[i], ys[i + 1..], hs);
      AnchorsConcat(xs[..n], [xs[n]], hs);
      assert xs == xs[..n] + [xs[n]];
    }
  }

  /** The positions at which an exhibit named by these handles carries this anchor. */
  function Carriers(exs: seq<Exhibit>, hs: seq<string>, a: string): set<nat> {
    set i: nat | i < |exs| && exs[i].handle in hs && exs[i].anchor == Some(a)
  }

  lemma {:induction false} AnchorsCount(exs: seq<Exhibit>, hs: seq<string>, a: string)
    ensures Anchors(exs, hs)[a] == if a == "" then 0 else |Carriers(exs, hs, a)|
  {
    if exs == [] {
      assert Carriers(exs, hs, a) == {};
    } else {
      var n := |exs| - 1;
      var most, e := exs[..n], exs[n];
      AnchorsCount(most, hs, a);
      var here := if e.handle in hs && e.anchor == Some(a) then {n} else {};
      assert Carriers(exs, hs, a) == Carriers(most, hs, a) + here;
      assert n !in Carriers(most, hs, a);
    }
  }

  /** What the seal is taken over: the template, the slots, the text, and each non-empty anchor as
      often as exhibits the template names carry it. */
  lemma SealIsOver(digest: Digest, s: Span, exs: seq<Exhibit>)
    ensures exists anchors ::
      && SpanAnchor(digest, s, exs) == digest(s.template, s.slots, s.text, anchors)
      && CountsCarriers(anchors, exs, T.Handles(T.Tokenize(s.template)))
  {
    var hs := T.Handles(T.Tokenize(s.template));
    forall a
      ensures Anchors(exs, hs)[a] == if a == "" then 0 else |Carriers(exs, hs, a)|
    {
      AnchorsCount(exs, hs, a);
    }
    assert CountsCarriers(Anchors(exs, hs), exs, hs);
  }

  ghost predicate CountsCarriers(anchors: multiset<string>, exs: seq<Exhibit>, hs: seq<string>) {
    forall a :: anchors[a] == if a == "" then 0 else |Carriers(exs, hs, a)|
  }

  /** The seal feels an exhibit's anchor exactly when the span names that exhibit. */
  lemma SealFeelsNamed(digest: Digest, s: Span, xs: seq<Exhibit>, i: nat, anchor: string)
    requires InjectiveDigest(digest) && i < |xs| && anchor != "" && xs[i].anchor != Some(anchor)
    ensures SpanAnchor(digest, s, xs) != SpanAnchor(digest, s, xs[i := xs[i].(anchor := Some(anchor))])
       <==> xs[i].handle in T.Handles(T.Tokenize(s.template))
  {
    var hs := T.Handles(T.Tokenize(s.template));
    var e := xs[i].(anchor := Some(anchor));
    var ys := xs[i := e];
    assert xs == xs[..i] + ([xs[i]] + xs[i + 1..]) && ys == xs[..i] + ([e] + xs[i + 1..]);
    AnchorsMiddle(xs[..i], xs[i], xs[i + 1..], hs);
    AnchorsMiddle(xs[..i], e, xs[i + 1..], hs);
    OneAnchor(xs[i], hs);
    OneAnchor(e, hs);
    DifferentBags(Anchors(xs[..i] + xs[i + 1..], hs), Anchors([xs[i]], hs), Anchors([e], hs), anchor);
  }

  lemma DifferentBags(rest: multiset<string>, a: multiset<string>, b: multiset<string>, x: string)
    ensures a[x] != b[x] ==> rest + a != rest + b
  {
    assert (rest + a)[x] == rest[x] + a[x] && (rest + b)[x] == rest[x] + b[x];
  }

  lemma OneAnchor(e: Exhibit, hs: seq<string>)
    ensures Anchors([e], hs) == if e.handle in hs && e.anchor.Some? && e.anchor.value != "" then multiset{e.anchor.value} else multiset{}
  {
    assert [e][..0] == [];
  }

  // ----- looking things up by handle ----------------------------------------------------

  /** With repeated handles the last entry speaks. */
  lemma {:induction false} LastExhibitWins(exs: seq<Exhibit>, h: string, i: nat)
    requires i < |exs| && exs[i].handle == h && forall j :: i < j < |exs| ==> exs[j].handle != h
    ensures ExhibitFor(exs, h) == Some(exs[i])
  {
    if i < |exs| - 1 {
      LastExhibitWins(exs[..|exs| - 1], h, i);
    }
  }

  lemma {:induction false} LastSlotWins(slots: seq<Slot>, h: string, i: nat)
    requires i < |slots| && slots[i].handle == h && forall j :: i < j < |slots| ==> slots[j].handle != h
    ensures RenderingFor(slots, h) == Some(slots[i].rendering)
  {
    if i < |slots| - 1 {
      LastSlotWins(slots[..|slots| - 1], h, i);
    }
  }

  /** What fills a handle: the spoken form, or the digits or text of a scalar; a structure has no
      raw voice, and a handle without exhibit or slot none at all. */
  lemma VoiceIs(slots: seq<Slot>, exs: seq<Exhibit>, h: string, i: nat, j: nat)
    requires i < |exs| && exs[i].handle == h && forall k :: i < k < |exs| ==> exs[k].handle != h
    requires j < |slots| && slots[j].handle == h && forall k :: j < k < |slots| ==> slots[k].handle != h
    ensures slots[j].rendering == SPOKEN ==> Voice(slots, exs, h) == Some(exs[i].spoken)
    ensures slots[j].rendering == RAW && exs[i].value.IntValue? ==> Voice(slots, exs, h) == Some(Decimal(exs[i].value.n))
    ensures slots[j].rendering == RAW && exs[i].value.TextValue? ==> Voice(slots, exs, h) == Some(exs[i].value.s)
    ensures slots[j].rendering == RAW && exs[i].value.ListValue? ==> Voice(slots, exs, h) == None
  {
    LastExhibitWins(exs, h, i);
    LastSlotWins(slots, h, j);
  }

  ghost predicate DistinctHandles(exs: seq<Exhibit>) {
    forall i, j :: 0 <= i < j < |exs| ==> exs[i].handle != exs[j].handle
  }

  lemma {:induction false} DistinctLookup(exs: seq<Exhibit>, h: string)
    requires DistinctHandles(exs)
    ensures forall e :: ExhibitFor(exs, h) == Some(e) <==> e in exs && e.handle == h
  {
    if exs != [] {
      var n := |exs| - 1;
      assert exs == exs[..n] + [exs[n]];
      DistinctLookup(exs[..n], h);
    }
  }

  lemma LookupOrderFree(xs: seq<Exhibit>, ys: seq<Exhibit>, h: string)
    requires DistinctHandles(xs) && DistinctHandles(ys) && multiset(xs) == multiset(ys)
    ensures ExhibitFor(xs, h) == ExhibitFor(ys, h)
  {
    SameMembers(xs, ys);
    DistinctLookup(xs, h);
    DistinctLookup(ys, h);
  }

  lemma FillOrderFree(template: string, slots: seq<Slot>, xs: seq<Exhibit>, ys: seq<Exhibit>)
    requires forall h :: ExhibitFor(xs, h) == ExhibitFor(ys, h)
    ensures Fill(template, slots, xs) == Fill(template, slots, ys)
  {
    assert forall h :: Voice(slots, xs, h) == Voice(slots, ys, h);
    RenderSame(T.Tokenize(template), VoiceOrNothing(slots, xs), VoiceOrNothing(slots, ys));
  }

  /** With distinct handles, reordering the exhibits changes neither the ruling nor the seal. */
  lemma JudgeOrderFree(law: Law, digest: Digest, s: Span, xs: seq<Exhibit>, ys: seq<Exhibit>)
    requires DistinctHandles(xs) && DistinctHandles(ys) && multiset(xs) == multiset(ys)
    ensures Judge(law, digest, s, xs) == Judge(law, digest, s, ys)
  {
    KnownOrderFree(xs, ys);
    AnchorsOrderFree(xs, ys, T.Handles(T.Tokenize(s.template)));
    forall h
      ensures ExhibitFor(xs, h) == ExhibitFor(ys, h)
    {
      LookupOrderFree(xs, ys, h);
    }
    FillOrderFree(s.template, s.slots, xs, ys);
  }

  lemma KnownOrderFree(xs: seq<Exhibit>, ys: seq<Exhibit>)
    requires multiset(xs) == multiset(ys)
    ensures KnownHandles(xs) == KnownHandles(ys)
  {
    SameMembers(xs, ys);
  }

  lemma SameMembers(xs: seq<Exhibit>, ys: seq<Exhibit>)
    requires multiset(xs) == multiset(ys)
    ensures forall e :: e in xs <==> e in ys
  {
    forall e
      ensures e in xs <==> e in ys
    {
      assert e in xs <==> e in multiset(xs);
    }
  }

  lemma {:induction false} RenderSame(ts: seq<T.Token>, f: string -> string, g: string -> string)
    requires forall h :: f(h) == g(h)
    ensures T.Render(ts, f) == T.Render(ts, g)
  {
    if ts != [] {
      RenderSame(ts[1..], f, g);
    }
  }
}

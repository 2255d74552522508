/**
 Templates as the slot pattern reads them: a left-to-right tokenizer into prose characters
 and {handle} slots, the prose around the slots, and the words of that prose.
 */
module Templates {
  predicate HandleChar(c: char) {
    'A' <= c <= 'Z' || 'a' <= c <= 'z' || '0' <= c <= '9' || c == '_'
  }

  predicate Alpha(c: char) { 'A' <= c <= 'Z' || 'a' <= c <= 'z' }

  datatype Token = Prose(c: char) | Slot(handle: string)

  /** Length of the longest run of handle characters at the front. */
  function HandleRun(s: string): (n: nat)
    ensures n <= |s|
  {
    if s == [] || !HandleChar(s[0]) then 0 else 1 + HandleRun(s[1..])
  }

  /** Length of a slot at the front of s, 0 when there is none. */
  function SlotLength(s: string): (n: nat)
    ensures n <= |s| && (n > 0 ==> n >= 3)
  {
    if s == [] || s[0] != '{' then 0
    else
      var k := HandleRun(s[1..]);
      if k > 0 && k + 1 < |s| && s[k + 1] == '}' then k + 2 else 0
  }

  function Tokenize(s: string): seq<Token> {
    if s == [] then []
    else
      var n := SlotLength(s);
      if n > 0 then [Slot(s[1..n - 1])] + Tokenize(s[n..]) else [Prose(s[0])] + Tokenize(s[1..])
  }

  /** Write the tokens back, each slot through `f`. */
  function Render(ts: seq<Token>, f: string -> string): string {
    if ts == [] then ""
    else
      Piece(ts[0], f) + Render(ts[1..], f)
  }

  function Piece(t: Token, f: string -> string): string {
    match t
    case Prose(c) => [c]
    case Slot(h) => f(h)
  }

  lemma RenderCons(t: Token, ts: seq<Token>, f: string -> string)
    ensures Render([t] + ts, f) == Piece(t, f) + Render(ts, f)
  {
    assert ([t] + ts)[1..] == ts;
  }

  function Braced(): string -> string { (h: string) => "{" + h + "}" }

  function Handles(ts: seq<Token>): seq<string> {
    if ts == [] then [] else (if ts[0].Slot? then [ts[0].handle] else []) + Handles(ts[1..])
  }

  /** A token list that no re-reading of its text could read differently. */
  predicate Plain(ts: seq<Token>) {
    forall i :: 0 <= i < |ts| ==>
      match ts[i]
      case Prose(c) => c != '{' && c != '}'
      case Slot(h) => IsHandle(h)
  }

  predicate IsHandle(h: string) { h != "" && forall i :: 0 <= i < |h| ==> HandleChar(h[i]) }

  // ----- reading and writing are inverse ------------------------------------------------

  lemma {:induction false} HandleRunOnly(s: string)
    ensures forall i :: 0 <= i < HandleRun(s) ==> HandleChar(s[i])
    ensures HandleRun(s) < |s| ==> !HandleChar(s[HandleRun(s)])
  {
    if s != [] && HandleChar(s[0]) {
      HandleRunOnly(s[1..]);
    }
  }

  lemma {:induction false} HandleRunOf(h: string, rest: string)
    requires forall i :: 0 <= i < |h| ==> HandleChar(h[i])
    requires rest != [] && !HandleChar(rest[0])
    ensures HandleRun(h + rest) == |h|
  {
    if h == "" {
      assert h + rest == rest;
    } else {
      assert (h + rest)[1..] == h[1..] + rest;
      HandleRunOf(h[1..], rest);
    }
  }

  lemma SlotAtFront(s: string)
    requires SlotLength(s) > 0
    ensures IsHandle(s[1..SlotLength(s) - 1])
    ensures s == "{" + s[1..SlotLength(s) - 1] + "}" + s[SlotLength(s)..]
  {
    HandleRunOnly(s[1..]);
  }

  /** No text is lost: writing the tokens back gives the template. */
  lemma {:induction false} WriteAfterRead(s: string)
    ensures Render(Tokenize(s), Braced()) == s
  {
    if s != [] {
      var n := SlotLength(s);
      if n > 0 {
        SlotAtFront(s);
        WriteAfterRead(s[n..]);
        RenderCons(Slot(s[1..n - 1]), Tokenize(s[n..]), Braced());
      } else {
        WriteAfterRead(s[1..]);
        RenderCons(Prose(s[0]), Tokenize(s[1..]), Braced());
        assert s == [s[0]] + s[1..];
      }
    }
  }

  lemma {:induction false} HandlesAreHandles(s: string)
    ensures forall i :: 0 <= i < |Tokenize(s)| && Tokenize(s)[i].Slot? ==> IsHandle(Tokenize(s)[i].handle)
  {
    if s != [] {
      var n := SlotLength(s);
      if n > 0 {
        SlotAtFront(s);
        HandlesAreHandles(s[n..]);
      } else {
        HandlesAreHandles(s[1..]);
      }
    }
  }

  lemma SlotLengthOf(h: string, rest: string)
    requires IsHandle(h)
    ensures SlotLength("{" + h + "}" + rest) == |h| + 2
  {
    var s := "{" + h + "}" + rest;
    assert s[1..] == h + ("}" + rest);
    HandleRunOf(h, "}" + rest);
    assert s[|h| + 1] == '}';
  }

  lemma TokenizeSlot(h: string, rest: string)
    requires IsHandle(h)
    ensures Tokenize("{" + h + "}" + rest) == [Slot(h)] + Tokenize(rest)
  {
    var s := "{" + h + "}" + rest;
    SlotLengthOf(h, rest);
    SlotParts(s, h, rest);
    TokenizeFront(s, |h| + 2, h, rest);
  }

  lemma SlotParts(s: string, h: string, rest: string)
    requires s == "{" + h + "}" + rest
    ensures s[1..|h| + 1] == h && s[|h| + 2..] == rest
  {
  }

  lemma TokenizeFront(s: string, n: nat, h: string, rest: string)
    requires n == SlotLength(s) > 0 && s[1..n - 1] == h && s[n..] == rest
    ensures Tokenize(s) == [Slot(h)] + Tokenize(rest)
  {
  }

  lemma TokenizeProse(c: char, rest: string)
    requires c != '{'
    ensures Tokenize([c] + rest) == [Prose(c)] + Tokenize(rest)
  {
    assert ([c] + rest)[1..] == rest;
  }

  /** The tokenization is unique: reading what plain tokens write gives them back. */
  lemma {:induction false} ReadAfterWrite(ts: seq<Token>)
    requires Plain(ts)
    ensures Tokenize(Render(ts, Braced())) == ts
  {
    if ts != [] {
      var rest := Render(ts[1..], Braced());
      ReadAfterWrite(ts[1..]);
      assert ts == [ts[0]] + ts[1..];
      match ts[0] {
        case Prose(c) => TokenizeProse(c, rest);
        case Slot(h) => TokenizeSlot(h, rest);
      }
    }
  }

  // ----- prose between the slots --------------------------------------------------------

  /** The prose segments: what precedes, separates and follows the slots. */
  function Segments(ts: seq<Token>): (ss: seq<string>)
    ensures |ss| == |Handles(ts)| + 1
  {
    if ts == [] then [""]
    else
      var rest := Segments(ts[1..]);
      match ts[0]
      case Prose(c) => [[c] + rest[0]] + rest[1..]
      case Slot(h) => [""] + rest
  }

  /** segs[0] + mids[0] + segs[1] + ... + segs[n]. */
  function Interleave(segs: seq<string>, mids: seq<string>): string
    requires |segs| == |mids| + 1
    decreases |mids|
  {
    if mids == [] then segs[0] else segs[0] + mids[0] + Interleave(segs[1..], mids[1..])
  }

  function Each(hs: seq<string>, f: string -> string): (r: seq<string>)
    ensures |r| == |hs| && forall i :: 0 <= i < |hs| ==> r[i] == f(hs[i])
  {
    seq(|hs|, i requires 0 <= i < |hs| => f(hs[i]))
  }

  lemma InterleaveProse(c: char, segs: seq<string>, mids: seq<string>)
    requires |segs| == |mids| + 1
    ensures Interleave([[c] + segs[0]] + segs[1..], mids) == [c] + Interleave(segs, mids)
  {
    var mine := [[c] + segs[0]] + segs[1..];
    assert mine[1..] == segs[1..];
    if mids != [] {
      assert [c] + segs[0] + mids[0] + Interleave(segs[1..], mids[1..])
          == [c] + (segs[0] + mids[0] + Interleave(segs[1..], mids[1..]));
    }
  }

  lemma InterleaveSlot(v: string, segs: seq<string>, mids: seq<string>)
    requires |segs| == |mids| + 1
    ensures Interleave([""] + segs, [v] + mids) == v + Interleave(segs, mids)
  {
    var ss, ms := [""] + segs, [v] + mids;
    assert ss[1..] == segs && ms[1..] == mids;
    assert Interleave(ss, ms) == ss[0] + ms[0] + Interleave(segs, mids);
    assert "" + v == v;
  }

  /** Rendering is interleaving: the prose as it stands, and one value per slot in order. */
  lemma {:induction false} RenderInterleaves(ts: seq<Token>, f: string -> string)
    ensures Render(ts, f) == Interleave(Segments(ts), Each(Handles(ts), f))
  {
    if ts != [] {
      RenderInterleaves(ts[1..], f);
      var segs, hs := Segments(ts[1..]), Handles(ts[1..]);
      match ts[0] {
        case Prose(c) =>
          assert Handles(ts) == hs;
          InterleaveProse(c, segs, Each(hs, f));
        case Slot(h) =>
          assert Each(Handles(ts), f) == [f(h)] + Each(hs, f);
          InterleaveSlot(f(h), segs, Each(hs, f));
      }
    }
  }

  // ----- words --------------------------------------------------------------------------

  function AlphaRun(s: string): (n: nat)
    ensures n <= |s| && (s != [] && Alpha(s[0]) ==> n > 0)
  {
    if s == [] || !Alpha(s[0]) then 0 else 1 + AlphaRun(s[1..])
  }

  /** The maximal runs of letters. */
  function Words(s: string): seq<string> {
    if s == [] then []
    else if Alpha(s[0]) then [s[..AlphaRun(s)]] + Words(s[AlphaRun(s)..])
    else Words(s[1..])
  }

  lemma {:induction false} AlphaRunStops(a: string, b: string)
    requires b != [] && !Alpha(b[0])
    ensures AlphaRun(a + b) == AlphaRun(a)
  {
    if a == [] {
      assert a + b == b;
    } else if Alpha(a[0]) {
      assert (a + b)[1..] == a[1..] + b;
      AlphaRunStops(a[1..], b);
    }
  }

  /** No word spans a break that starts with a non-letter. */
  lemma {:induction false} WordsSplit(a: string, b: string)
    requires b != [] && !Alpha(b[0])
    ensures Words(a + b) == Words(a) + Words(b)
    decreases |a|
  {
    if a == [] {
      assert a + b == b;
    } else if Alpha(a[0]) {
      var k := AlphaRun(a);
      AlphaRunStops(a, b);
      assert (a + b)[k..] == a[k..] + b && (a + b)[..k] == a[..k];
      WordsSplit(a[k..], b);
    } else {
      assert (a + b)[1..] == a[1..] + b;
      WordsSplit(a[1..], b);
    }
  }

  function Spaces(n: nat): seq<string> { seq(n, _ => " ") }

  /** The words of the prose with every slot replaced by a space are exactly the words of its
      segments. */
  lemma {:induction false} WordsOfSegments(segs: seq<string>, w: string)
    requires |segs| > 0
    ensures w in Words(Interleave(segs, Spaces(|segs| - 1))) <==> exists i :: 0 <= i < |segs| && w in Words(segs[i])
    decreases |segs|
  {
    if |segs| > 1 {
      var rest := segs[1..];
      WordsOfSegments(rest, w);
      assert Spaces(|segs| - 1)[1..] == Spaces(|rest| - 1);
      var tail := Interleave(rest, Spaces(|rest| - 1));
      var b := " " + tail;
      assert Interleave(segs, Spaces(|segs| - 1)) == segs[0] + b;
      WordsSplit(segs[0], b);
      assert b[1..] == tail;
      assert Words(b) == Words(tail);
      if i :| 0 <= i < |rest| && w in Words(rest[i]) {
        assert segs[i + 1] == rest[i];
      }
      if i :| 0 <= i < |segs| && w in Words(segs[i]) {
        assert i > 0 ==> rest[i - 1] == segs[i];
      }
    }
  }

  /** The characters of that prose are the segments' characters and, between them, spaces. */
  lemma {:induction false} CharsOfSegments(segs: seq<string>, c: char)
    requires |segs| > 0
    ensures c in Interleave(segs, Spaces(|segs| - 1))
       <==> (c == ' ' && |segs| > 1) || exists i :: 0 <= i < |segs| && c in segs[i]
    decreases |segs|
  {
    if |segs| > 1 {
      var rest := segs[1..];
      CharsOfSegments(rest, c);
      assert Spaces(|segs| - 1)[1..] == Spaces(|rest| - 1);
      if i :| 0 <= i < |rest| && c in rest[i] {
        assert segs[i + 1] == rest[i];
      }
      if i :| 0 <= i < |segs| && c in segs[i] {
        assert i > 0 ==> rest[i - 1] == segs[i];
      }
    }
  }
}

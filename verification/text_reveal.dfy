/**
 * components/effects/TextReveal.tsx: `TextReveal` splits its text into
 * words (`trim().split(/\s+/).filter(Boolean)`) and gives word i a CSS
 * animation delay of `delay/1000 + 0.08 i` seconds; `LetterReveal` splits
 * its text into characters, shows a space as a non-breaking space, and
 * staggers the letters through framer-motion variants unless motion is
 * reduced.
 */
module TextReveal {
  import opened Wrappers
  import opened Motion

  /** JavaScript's `\s` (and the set `trim` removes). */
  predicate IsSpace(c: char) {
    c == ' ' || c == '\t' || c == '\n' || c == '\r' || c == '\U{000B}' || c == '\U{000C}' ||
    c == '\U{00A0}' || c == '\U{1680}' || ('\U{2000}' <= c <= '\U{200A}') ||
    c == '\U{2028}' || c == '\U{2029}' || c == '\U{202F}' || c == '\U{205F}' ||
    c == '\U{3000}' || c == '\U{FEFF}'
  }

  predicate NoSpace(w: string) {
    forall i :: 0 <= i < |w| ==> !IsSpace(w[i])
  }

  /** Leading whitespace removed. */
  function TrimStart(s: string): (r: string)
    ensures |r| <= |s| && r == s[|s| - |r|..]
    ensures forall i :: 0 <= i < |s| - |r| ==> IsSpace(s[i])
    ensures r != [] ==> !IsSpace(r[0])
  {
    if s != [] && IsSpace(s[0]) then TrimStart(s[1..]) else s
  }

  /** Trailing whitespace removed. */
  function TrimEnd(s: string): (r: string)
    ensures |r| <= |s| && r == s[..|r|]
    ensures forall i :: |r| <= i < |s| ==> IsSpace(s[i])
    ensures r != [] ==> !IsSpace(r[|r| - 1])
  {
    if s != [] && IsSpace(s[|s| - 1]) then TrimEnd(s[..|s| - 1]) else s
  }

  /** `String.prototype.trim`. */
  function Trim(s: string): (r: string)
    ensures r != [] ==> !IsSpace(r[0]) && !IsSpace(r[|r| - 1])
  {
    TrimEnd(TrimStart(s))
  }

  /**
   * `t.split(/\s+/)`: the pieces between maximal runs of whitespace. A
   * leading or trailing run yields an empty piece; the empty string yields
   * one empty piece.
   */
  function Split(t: string): (pieces: seq<string>)
    ensures |pieces| >= 1
    decreases |t|
  {
    if t == [] then [[]]
    else if IsSpace(t[0]) then [[]] + Split(TrimStart(t[1..]))
    else
      var rest := Split(t[1..]);
      [[t[0]] + rest[0]] + rest[1..]
  }

  /** `.filter(Boolean)`: the non-empty pieces, in order. */
  function NonEmpty(pieces: seq<string>): (r: seq<string>)
    ensures |r| <= |pieces|
    ensures forall i :: 0 <= i < |r| ==> r[i] != []
  {
    if pieces == [] then []
    else if pieces[0] == [] then NonEmpty(pieces[1..])
    else [pieces[0]] + NonEmpty(pieces[1..])
  }

  /** The words `TextReveal` renders. */
  function Words(text: string): seq<string> {
    NonEmpty(Split(Trim(text)))
  }

  /** The pieces joined with one space between neighbours. */
  function JoinSpaced(pieces: seq<string>): string {
    if |pieces| == 0 then []
    else if |pieces| == 1 then pieces[0]
    else pieces[0] + " " + JoinSpaced(pieces[1..])
  }

  /** Reference: every maximal whitespace run replaced by a single space. */
  function Collapse(t: string): string
    decreases |t|
  {
    if t == [] then []
    else if IsSpace(t[0]) then " " + Collapse(TrimStart(t[1..]))
    else [t[0]] + Collapse(t[1..])
  }

  /** No piece of a split contains whitespace. */
  lemma {:induction false} SplitPiecesHaveNoSpace(t: string)
    ensures forall i :: 0 <= i < |Split(t)| ==> NoSpace(Split(t)[i])
    decreases |t|
  {
    if t == [] {
    } else if IsSpace(t[0]) {
      SplitPiecesHaveNoSpace(TrimStart(t[1..]));
      var s := Split(TrimStart(t[1..]));
      assert Split(t) == [[]] + s;
    } else {
      SplitPiecesHaveNoSpace(t[1..]);
      var rest := Split(t[1..]);
      assert NoSpace([t[0]] + rest[0]);
      assert Split(t) == [[t[0]] + rest[0]] + rest[1..];
    }
  }

  /** A head character joins the first piece. */
  lemma JoinConsHead(c: char, first: string, more: seq<string>)
    ensures JoinSpaced([[c] + first] + more) == [c] + JoinSpaced([first] + more)
  {
    var ps := [[c] + first] + more;
    var qs := [first] + more;
    assert ps[0] == [c] + first && ps[1..] == more;
    assert qs[0] == first && qs[1..] == more;
    if more != [] {
      var tail := JoinSpaced(more);
      assert ([c] + first) + " " + tail == [c] + (first + " " + tail);
    }
  }

  /** Splitting and re-joining with single spaces collapses every whitespace run. */
  lemma {:induction false} JoinSplitIsCollapse(t: string)
    ensures JoinSpaced(Split(t)) == Collapse(t)
    decreases |t|
  {
    if t == [] {
    } else if IsSpace(t[0]) {
      var d := TrimStart(t[1..]);
      JoinSplitIsCollapse(d);
      var s := Split(d);
      assert ([[]] + s)[1..] == s;
    } else {
      JoinSplitIsCollapse(t[1..]);
      var rest := Split(t[1..]);
      assert rest == [rest[0]] + rest[1..];
      JoinConsHead(t[0], rest[0], rest[1..]);
    }
  }

  /** A text that starts and ends with a non-space splits into non-empty pieces only. */
  lemma {:induction false} SplitTrimmedHasNoEmptyPiece(t: string)
    requires t != [] && !IsSpace(t[0]) && !IsSpace(t[|t| - 1])
    ensures forall i :: 0 <= i < |Split(t)| ==> Split(t)[i] != []
    decreases |t|
  {
    var tail := t[1..];
    if tail == [] {
      assert Split(tail) == [[]];
      assert [t[0]] + [] == [t[0]];
    } else if IsSpace(tail[0]) {
      var s := tail[1..];
      assert |s| > 0 && s[|s| - 1] == t[|t| - 1];
      var d := TrimStart(s);
      assert d != [];
      assert d[|d| - 1] == t[|t| - 1];
      SplitTrimmedHasNoEmptyPiece(d);
      var rest := Split(tail);
      assert rest == [[]] + Split(d);
      assert [t[0]] + rest[0] == [t[0]];
      assert Split(t) == [[t[0]]] + Split(d);
    } else {
      assert tail[|tail| - 1] == t[|t| - 1];
      SplitTrimmedHasNoEmptyPiece(tail);
      var rest := Split(tail);
      assert Split(t) == [[t[0]] + rest[0]] + rest[1..];
      assert forall i :: 1 <= i < |Split(t)| ==> Split(t)[i] == rest[i];
    }
  }

  lemma {:induction false} NonEmptyKeepsAll(pieces: seq<string>)
    requires forall i :: 0 <= i < |pieces| ==> pieces[i] != []
    ensures NonEmpty(pieces) == pieces
  {
    if pieces != [] {
      NonEmptyKeepsAll(pieces[1..]);
    }
  }

  /**
   * The words are non-empty and free of whitespace, and joined with single
   * spaces they give back the trimmed text with its whitespace runs collapsed.
   */
  lemma WordsSpec(text: string)
    ensures forall i :: 0 <= i < |Words(text)| ==> Words(text)[i] != [] && NoSpace(Words(text)[i])
    ensures JoinSpaced(Words(text)) == Collapse(Trim(text))
  {
    var t := Trim(text);
    SplitPiecesHaveNoSpace(t);
    JoinSplitIsCollapse(t);
    if t == [] {
      assert Words(text) == [];
    } else {
      SplitTrimmedHasNoEmptyPiece(t);
      NonEmptyKeepsAll(Split(t));
    }
  }

  /** Delay, in seconds, of word i: `delay / 1000 + index * 0.08`. */
  function WordDelay(delay: real, index: nat): real {
    Seconds(delay) + (index as real) * 0.08
  }

  /** A rendered word: its text and its animation delay in seconds. */
  datatype WordSpan = WordSpan(word: string, delay: real)

  /** One span per word, each later word starting 80 ms after the one before. */
  function WordSpans(text: string, delay: real): (spans: seq<WordSpan>)
    ensures |spans| == |Words(text)|
    ensures forall i :: 0 <= i < |spans| ==> spans[i].word == Words(text)[i]
    ensures forall i :: 0 <= i < |spans| ==> spans[i].delay == delay / 1000.0 + (i as real) * 0.08
    ensures forall i, j :: 0 <= i < j < |spans| ==> spans[i].delay < spans[j].delay
    ensures |spans| > 0 ==> spans[0].delay == delay / 1000.0
  {
    var words := Words(text);
    seq(|words|, i requires 0 <= i < |words| => WordSpan(words[i], WordDelay(delay, i)))
  }

  /** How a letter span is laid out. */
  datatype Display = Inline | InlineBlock

  /** A rendered letter: the character shown and its display. */
  datatype LetterSpan = LetterSpan(shown: char, display: Display)

  const NoBreakSpace: char := '\U{00A0}'

  /** One span per character of `text.split('')`, in order. */
  function LetterSpans(text: string): (spans: seq<LetterSpan>)
    ensures |spans| == |text|
    ensures forall i :: 0 <= i < |text| && text[i] == ' ' ==> spans[i] == LetterSpan(NoBreakSpace, Inline)
    ensures forall i :: 0 <= i < |text| && text[i] != ' ' ==> spans[i] == LetterSpan(text[i], InlineBlock)
  {
    if text == [] then []
    else [if text[0] == ' ' then LetterSpan(NoBreakSpace, Inline) else LetterSpan(text[0], InlineBlock)]
         + LetterSpans(text[1..])
  }

  /** The container variants: the text fades in and staggers its letters. */
  datatype ContainerVariants = ContainerVariants(fade: Variants, stagger: Stagger)

  datatype InitialState = Hidden | Visible

  /** `{ type: 'spring', damping, stiffness }`: the transition declared on a pose. */
  datatype Spring = Spring(damping: real, stiffness: real)

  /**
   * What `LetterReveal` hands to framer-motion. `letterSpring` is the spring
   * declared on both letter poses; the reduced-motion fade declares none.
   */
  datatype LetterRevealConfig = LetterRevealConfig(
    initial: InitialState,
    container: Option<ContainerVariants>,
    letter: Variants,
    letterSpring: Option<Spring>)

  const LetterStagger: real := 0.03
  const LetterSpring: Spring := Spring(12.0, 200.0)

  function LetterReveal(delay: real, prefersReducedMotion: bool): (c: LetterRevealConfig)
    ensures prefersReducedMotion ==> c.initial == Visible && c.container == None && c.letter == PlainFade
    ensures !prefersReducedMotion ==>
              (c.initial == Hidden && c.container.Some? &&
               c.container.value.stagger == Stagger(0.03, delay / 1000.0))
    ensures !prefersReducedMotion ==>
              (c.letter.hidden.y == Some(10.0) && c.letter.visible.y == Some(0.0))
    ensures prefersReducedMotion <==> c.letterSpring == None
    ensures !prefersReducedMotion ==> c.letterSpring == Some(Spring(12.0, 200.0))
  {
    if prefersReducedMotion then
      LetterRevealConfig(Visible, None, PlainFade, None)
    else
      LetterRevealConfig(
        Hidden,
        Some(ContainerVariants(PlainFade, Stagger(LetterStagger, Seconds(delay)))),
        Variants(Pose(Some(0.0), None, Some(10.0), None, None),
                 Pose(Some(1.0), None, Some(0.0), None, None)),
        Some(LetterSpring))
  }

  /** Without reduced motion letter i starts 30 ms after letter i - 1, the first at `delay`. */
  lemma LetterOnsets(delay: real, i: nat, j: nat)
    requires i < j
    ensures var st := LetterReveal(delay, false).container.value.stagger;
            StaggerOnset(st, 0) == delay / 1000.0 && StaggerOnset(st, i) < StaggerOnset(st, j)
  {
  }

  /** Under reduced motion no letter moves: only opacity is animated. */
  lemma ReducedLettersOnlyFade(delay: real)
    ensures OpacityOnly(LetterReveal(delay, true).letter)
    ensures !OpacityOnly(LetterReveal(delay, false).letter)
  {
  }
}

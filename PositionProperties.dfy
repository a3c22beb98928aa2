/** What the annotator promises: the shape of a label, the layout of a marker,
    which notes are left alone, and the central rule that within a trombone
    part the markers appended are exactly the labels with consecutive repeats
    suppressed, starting from NoPosition. */
module PositionProperties {
  import opened Wrappers
  import opened JsText
  import opened MusicXml
  import opened TrombonePosition

  // ---------------------------------------------------------------------------
  // Repetition suppression, as an independent definition

  /** The labels of `ls` that differ from the label before them, the label
      before the first being `c`. */
  function Suppress(ls: seq<string>, c: string): seq<string> {
    if ls == [] then []
    else if ls[0] == c then Suppress(ls[1..], c)
    else [ls[0]] + Suppress(ls[1..], ls[0])
  }

  /** The last label of `ls`, or `c` when there is none. */
  function LastOr(ls: seq<string>, c: string): string {
    if ls == [] then c else ls[|ls| - 1]
  }

  lemma {:induction false} SuppressAppend(a: seq<string>, b: seq<string>, c: string)
    ensures Suppress(a + b, c) == Suppress(a, c) + Suppress(b, LastOr(a, c))
  {
    if a == [] {
      assert a + b == b;
    } else {
      assert (a + b)[0] == a[0];
      assert (a + b)[1..] == a[1..] + b;
      if a[0] == c {
        SuppressAppend(a[1..], b, c);
        assert LastOr(a[1..], c) == LastOr(a, c);
      } else {
        SuppressAppend(a[1..], b, a[0]);
        assert LastOr(a[1..], a[0]) == LastOr(a, c);
        assert Suppress(a + b, c) == [a[0]] + (Suppress(a[1..], a[0]) + Suppress(b, LastOr(a, c)));
      }
    }
  }

  /** What suppression yields: no label equal to its predecessor, none equal
      to `c` at the front, and nothing that is not in the input. */
  lemma {:induction false} SuppressHasNoRepeats(ls: seq<string>, c: string)
    ensures var r := Suppress(ls, c);
      && (r != [] ==> r[0] != c)
      && (forall k :: 0 < k < |r| ==> r[k - 1] != r[k])
      && (forall x :: x in r ==> x in ls)
  {
    if ls != [] {
      SuppressHasNoRepeats(ls[1..], if ls[0] == c then c else ls[0]);
    }
  }

  /** A sequence that already has no repeats, and does not start with `c`, is
      kept whole. */
  lemma {:induction false} SuppressKeepsChanges(ls: seq<string>, c: string)
    requires ls != [] ==> ls[0] != c
    requires forall k :: 0 < k < |ls| ==> ls[k - 1] != ls[k]
    ensures Suppress(ls, c) == ls
  {
    if ls != [] {
      SuppressKeepsChanges(ls[1..], ls[0]);
    }
  }

  // ---------------------------------------------------------------------------
  // Labels and markers

  /** The labels of the processed notes among `cs`, in order. */
  function ChildLabel(c: Child): seq<string> {
    if c.NoteElem? && NoteLabel(c.note).Some? then [NoteLabel(c.note).value] else []
  }

  function ChildLabels(cs: seq<Child>): seq<string> {
    if cs == [] then [] else ChildLabels(cs[..|cs| - 1]) + ChildLabel(cs[|cs| - 1])
  }

  function MeasureLabels(ms: seq<Measure>): seq<string> {
    if ms == [] then [] else MeasureLabels(ms[..|ms| - 1]) + ChildLabels(ms[|ms| - 1].children)
  }

  /** The marker lyrics for a sequence of labels. */
  function Markers(ls: seq<string>): (r: seq<Lyric>)
    ensures |r| == |ls|
  {
    seq(|ls|, k requires 0 <= k < |ls| => PositionLyric(ls[k]))
  }

  /** The lyrics a child gained at its end. */
  function Appended(before: Child, after: Child): seq<Lyric> {
    if before.NoteElem? && after.NoteElem? && |before.note.lyrics| <= |after.note.lyrics|
    then after.note.lyrics[|before.note.lyrics|..]
    else []
  }

  /** The lyrics gained by the children of one measure, in order. */
  function Emitted(before: seq<Child>, after: seq<Child>): seq<Lyric> {
    if before == [] || |before| != |after| then []
    else Emitted(before[..|before| - 1], after[..|after| - 1]) + Appended(before[|before| - 1], after[|after| - 1])
  }

  /** The lyrics gained by the notes of a part, measure by measure. */
  function EmittedMeasures(before: seq<Measure>, after: seq<Measure>): seq<Lyric> {
    if before == [] || |before| != |after| then []
    else
      EmittedMeasures(before[..|before| - 1], after[..|after| - 1])
        + Emitted(before[|before| - 1].children, after[|after| - 1].children)
  }

  /** The form of a label: one digit from 1 to 7, optionally followed by a
      newline and a run of `#` or `b` glyphs. */
  predicate LabelForm(l: string) {
    && |l| >= 1 && '1' <= l[0] <= '7'
    && (|l| == 1 || (|l| >= 3 && l[1] == '\n' && forall k :: 2 <= k < |l| ==> l[k] == '#' || l[k] == 'b'))
  }

  /** A label is the position's digit, then a newline and the accidental
      glyph when the note is altered by one or two semitones. */
  lemma LabelShape(n: Note)
    requires NoteLabel(n).Some?
    ensures var info := ExtractNoteInfo(n).value;
      var s := SlidePositionForNote(info).value;
      var glyph := GetAccidentalSymbol(info.alter);
      && NoteLabel(n).value == [DigitChar(s.position)] + (if glyph == "" then "" else "\n" + glyph)
      && LabelForm(NoteLabel(n).value)
  {
    var info := ExtractNoteInfo(n).value;
    var s := SlidePositionForNote(info).value;
    assert NumberText(Int(s.position)) == [DigitChar(s.position)];
  }

  /** The text shown drops the newline of a label, and different labels show
      different texts; no label is NoPosition. */
  lemma DisplayOfLabel(l: string)
    requires LabelForm(l)
    ensures Display(l) == if |l| == 1 then l else [l[0]] + l[2..]
    ensures l != NoPosition
  {
    assert l[..1] != "\n" by {
      assert l[..1][0] == l[0];
    }
    if |l| == 1 {
      assert FirstIndexOf(l[1..], "\n") == None;
    } else {
      assert l[1..][..1] == "\n";
      assert FirstIndexOf(l[1..], "\n") == Some(0);
      assert Display(l) == l[..1] + "" + l[2..];
    }
    assert l[0] != NoPosition[0];
  }

  lemma DisplayInjective(a: string, b: string)
    requires LabelForm(a) && LabelForm(b) && Display(a) == Display(b)
    ensures a == b
  {
    DisplayOfLabel(a);
    DisplayOfLabel(b);
    if |a| > 1 {
      assert Display(a)[0] == a[0] && Display(b)[0] == b[0];
      assert |b| > 1;
      assert a[2..] == Display(a)[1..] == Display(b)[1..] == b[2..];
      assert a == [a[0]] + [a[1]] + a[2..];
      assert b == [b[0]] + [b[1]] + b[2..];
    }
  }

  lemma {:induction false} ChildLabelsWellFormed(cs: seq<Child>)
    ensures forall l :: l in ChildLabels(cs) ==> LabelForm(l)
  {
    if cs != [] {
      ChildLabelsWellFormed(cs[..|cs| - 1]);
      var c := cs[|cs| - 1];
      if c.NoteElem? && NoteLabel(c.note).Some? {
        LabelShape(c.note);
      }
    }
  }

  lemma {:induction false} LabelsWellFormed(ms: seq<Measure>)
    ensures forall l :: l in MeasureLabels(ms) ==> LabelForm(l)
  {
    if ms != [] {
      LabelsWellFormed(ms[..|ms| - 1]);
      ChildLabelsWellFormed(ms[|ms| - 1].children);
    }
  }

  // ---------------------------------------------------------------------------
  // One note

  /** The walk changes only a note's lyrics. A note it does not process is
      left alone; a processed note keeps its lyrics, each non-marker moved to
      number "2", and gains one marker for its label exactly when the label
      differs from the cursor, which then becomes that label. */
  lemma AnnotateNoteEffect(n: Note, cursor: string)
    ensures var (m, cursor') := AnnotateNote(n, cursor);
      && m.(lyrics := n.lyrics) == n
      && (!Eligible(n) ==> m == n && cursor' == cursor)
      && (Eligible(n) ==>
            && |n.lyrics| <= |m.lyrics|
            && m.lyrics[..|n.lyrics|] == RenumberLyrics(n.lyrics)
            && (forall k :: 0 <= k < |n.lyrics| ==>
                  m.lyrics[k].number == (if IsMarker(n.lyrics[k]) then n.lyrics[k].number else Some("2"))))
      && (match NoteLabel(n)
          case None => |m.lyrics| == |n.lyrics| && cursor' == cursor
          case Some(l) =>
            && cursor' == l
            && (l != cursor ==> m.lyrics == RenumberLyrics(n.lyrics) + [PositionLyric(l)])
            && (l == cursor ==> m.lyrics == RenumberLyrics(n.lyrics)))
  {
  }

  /** A marker sits at verse 1, 30 tenths below the staff, as a middle
      syllable, and is recognised as a marker. */
  lemma MarkerLayout(l: string)
    ensures var m := PositionLyric(l);
      && IsMarker(m)
      && m.idAttr == Some(MarkerId) && m.id == Some(MarkerId)
      && m.number == Some("1") && m.relativeY == Some("-30") && m.syllabic == Some("middle")
      && m.text == Some(Display(l))
  {
  }

  lemma AnnotateChildAppends(x: Child, cursor: string)
    ensures var (y, cursor') := AnnotateChild(x, cursor);
      && Appended(x, y) == Markers(Suppress(ChildLabel(x), cursor))
      && cursor' == LastOr(ChildLabel(x), cursor)
  {
    var (y, cursor') := AnnotateChild(x, cursor);
    if x.NoteElem? {
      AnnotateNoteEffect(x.note, cursor);
      match NoteLabel(x.note)
      case None =>
        assert ChildLabel(x) == [];
      case Some(l) =>
        assert ChildLabel(x) == [l];
        assert Suppress([l], cursor) == if l == cursor then [] else [l];
    }
  }

  // ---------------------------------------------------------------------------
  // The walk

  /** One step of the walk on labels alone: markers for a prefix, then for
      one more run of labels from the cursor the prefix left. */
  lemma EmitStep(before: seq<string>, own: seq<string>, cursor: string)
    ensures Markers(Suppress(before, cursor)) + Markers(Suppress(own, LastOr(before, cursor)))
         == Markers(Suppress(before + own, cursor))
    ensures LastOr(own, LastOr(before, cursor)) == LastOr(before + own, cursor)
  {
    SuppressAppend(before, own, cursor);
    MarkersAppend(Suppress(before, cursor), Suppress(own, LastOr(before, cursor)));
    LastOrAppend(before, own, cursor);
  }

  lemma {:induction false} ChildrenEmitSuppressed(cs: seq<Child>, cursor: string)
    ensures var (out, cursor') := AnnotateChildren(cs, cursor);
      && Emitted(cs, out) == Markers(Suppress(ChildLabels(cs), cursor))
      && cursor' == LastOr(ChildLabels(cs), cursor)
  {
    if cs != [] {
      var n := |cs| - 1;
      ChildrenEmitSuppressed(cs[..n], cursor);
      var (init, cur) := AnnotateChildren(cs[..n], cursor);
      var (last, cur') := AnnotateChild(cs[n], cur);
      AnnotateChildAppends(cs[n], cur);
      var out := init + [last];
      assert AnnotateChildren(cs, cursor) == (out, cur');
      assert out[..n] == init;
      assert Emitted(cs, out) == Emitted(cs[..n], init) + Appended(cs[n], last);
      assert ChildLabels(cs) == ChildLabels(cs[..n]) + ChildLabel(cs[n]);
      EmitStep(ChildLabels(cs[..n]), ChildLabel(cs[n]), cursor);
    }
  }

  lemma MarkersAppend(a: seq<string>, b: seq<string>)
    ensures Markers(a + b) == Markers(a) + Markers(b)
  {
  }

  lemma LastOrAppend(a: seq<string>, b: seq<string>, c: string)
    ensures LastOr(a + b, c) == LastOr(b, LastOr(a, c))
  {
    if b == [] {
      assert a + b == a;
    }
  }

  lemma EmittedMeasuresSnoc(ms: seq<Measure>, init: seq<Measure>, last: Measure)
    requires ms != [] && |init| == |ms| - 1
    ensures EmittedMeasures(ms, init + [last])
         == EmittedMeasures(ms[..|ms| - 1], init) + Emitted(ms[|ms| - 1].children, last.children)
  {
    assert (init + [last])[..|init|] == init;
  }

  lemma {:induction false} MeasuresEmitSuppressed(ms: seq<Measure>, cursor: string)
    ensures var (out, cursor') := AnnotateMeasures(ms, cursor);
      && EmittedMeasures(ms, out) == Markers(Suppress(MeasureLabels(ms), cursor))
      && cursor' == LastOr(MeasureLabels(ms), cursor)
  {
    if ms != [] {
      var n := |ms| - 1;
      MeasuresEmitSuppressed(ms[..n], cursor);
      var (init, cur) := AnnotateMeasures(ms[..n], cursor);
      var (last, cur') := AnnotateMeasure(ms[n], cur);
      ChildrenEmitSuppressed(ms[n].children, cur);
      assert AnnotateMeasures(ms, cursor) == (init + [last], cur');
      EmittedMeasuresSnoc(ms, init, last);
      var before := MeasureLabels(ms[..n]);
      var here := ChildLabels(ms[n].children);
      assert MeasureLabels(ms) == before + here;
      SuppressAppend(before, here, cursor);
      MarkersAppend(Suppress(before, cursor), Suppress(here, cur));
      LastOrAppend(before, here, cursor);
    }
  }

  /** Part i of the result: annotated from NoPosition when it is a trombone
      part, the input part otherwise. */
  lemma {:induction false} AnnotatePartsAt(d: Score, n: nat, cursor: string, i: nat)
    requires n <= |d.parts| && i < n
    ensures AnnotateParts(d, n, cursor).0[i]
         == if TrombonePart(d, i) then AnnotatePart(d.parts[i]).0 else d.parts[i]
  {
    if i < n - 1 {
      AnnotatePartsAt(d, n - 1, cursor, i);
    }
  }

  /** The central rule: in each trombone part of a parsed document the lyrics
      appended are the markers of the part's labels with consecutive repeats
      suppressed, the cursor starting from NoPosition whatever the service
      held before; every other part comes back unchanged. */
  lemma MarkersSuppressRepeats(d: Score, cursor: string, i: nat)
    requires !d.parseError && i < |d.parts|
    ensures var out := AnnotateScore(d, cursor).0;
      && (!TrombonePart(d, i) ==> out.parts[i] == d.parts[i])
      && (TrombonePart(d, i) ==>
            EmittedMeasures(d.parts[i].measures, out.parts[i].measures)
              == Markers(Suppress(MeasureLabels(d.parts[i].measures), NoPosition)))
  {
    AnnotatePartsAt(d, |d.parts|, cursor, i);
    MeasuresEmitSuppressed(d.parts[i].measures, NoPosition);
  }

  /** The first label of a trombone part is always shown, and no two
      consecutive markers of a part carry the same label. */
  lemma FirstLabelShown(d: Score, cursor: string, i: nat)
    requires !d.parseError && i < |d.parts| && TrombonePart(d, i)
    ensures var out := AnnotateScore(d, cursor).0;
      var ls := MeasureLabels(d.parts[i].measures);
      var emitted := EmittedMeasures(d.parts[i].measures, out.parts[i].measures);
      && (ls != [] ==> emitted != [] && emitted[0] == PositionLyric(ls[0]))
      && (forall k :: 0 < k < |emitted| ==> emitted[k - 1] != emitted[k])
  {
    MarkersSuppressRepeats(d, cursor, i);
    var ls := MeasureLabels(d.parts[i].measures);
    SuppressHasNoRepeats(ls, NoPosition);
    LabelsWellFormed(d.parts[i].measures);
    if ls != [] {
      DisplayOfLabel(ls[0]);
    }
    var r := Suppress(ls, NoPosition);
    forall k | 0 < k < |r|
      ensures PositionLyric(r[k - 1]) != PositionLyric(r[k])
    {
      if PositionLyric(r[k - 1]) == PositionLyric(r[k]) {
        DisplayInjective(r[k - 1], r[k]);
      }
    }
  }

  // ---------------------------------------------------------------------------
  // Children the walk does not process

  lemma {:induction false} AnnotateChildrenAt(cs: seq<Child>, cursor: string, k: nat)
    requires k < |cs|
    ensures AnnotateChildren(cs, cursor).0[k] == AnnotateChild(cs[k], AnnotateChildren(cs[..k], cursor).1).0
  {
    var n := |cs| - 1;
    if k < n {
      AnnotateChildrenAt(cs[..n], cursor, k);
      assert cs[..n][..k] == cs[..k];
    } else {
      assert cs[..n] == cs[..k];
    }
  }

  lemma {:induction false} AnnotateMeasuresAt(ms: seq<Measure>, cursor: string, j: nat)
    requires j < |ms|
    ensures AnnotateMeasures(ms, cursor).0[j] == AnnotateMeasure(ms[j], AnnotateMeasures(ms[..j], cursor).1).0
  {
    var n := |ms| - 1;
    if j < n {
      AnnotateMeasuresAt(ms[..n], cursor, j);
      assert ms[..n][..j] == ms[..j];
    } else {
      assert ms[..n] == ms[..j];
    }
  }

  /** The child a walk leaves as it is: anything but a note it processes. */
  predicate Unprocessed(d: Score, i: int, j: int, k: int)
    requires IsPos(d, i, j, k)
  {
    !TrombonePart(d, i) || !At(d, i, j, k).NoteElem? || !Eligible(At(d, i, j, k).note)
  }

  /** The result has the input's shape, and every child the walk does not
      process (outside a trombone part, not a note, another voice, a tie end,
      a rest or a note without step and octave) is unchanged. */
  lemma UnprocessedChildUnchanged(d: Score, cursor: string, i: nat, j: nat, k: nat)
    requires !d.parseError && IsPos(d, i, j, k) && Unprocessed(d, i, j, k)
    ensures var out := AnnotateScore(d, cursor).0;
      IsPos(out, i, j, k) && At(out, i, j, k) == At(d, i, j, k)
  {
    AnnotatePartsAt(d, |d.parts|, cursor, i);
    if TrombonePart(d, i) {
      var ms := d.parts[i].measures;
      AnnotateMeasuresAt(ms, NoPosition, j);
      var cur := AnnotateMeasures(ms[..j], NoPosition).1;
      AnnotateChildrenAt(ms[j].children, cur, k);
    }
  }

  // ---------------------------------------------------------------------------
  // Annotating an annotated document

  /** The walk changes only lyrics, so a child keeps its label, and an
      `<attributes>` child is kept as it is. */
  lemma AnnotateChildKeepsLabel(c: Child, cursor: string)
    ensures var a := AnnotateChild(c, cursor).0;
      && ChildLabel(a) == ChildLabel(c)
      && (a.AttributesElem? <==> c.AttributesElem?)
      && (c.AttributesElem? ==> a == c)
  {
    if c.NoteElem? {
      AnnotateNoteEffect(c.note, cursor);
      var m := AnnotateNote(c.note, cursor).0;
      assert m == c.note.(lyrics := m.lyrics);
    }
  }

  lemma {:induction false} AnnotatedChildLabels(cs: seq<Child>, cursor: string)
    ensures ChildLabels(AnnotateChildren(cs, cursor).0) == ChildLabels(cs)
  {
    if cs != [] {
      var n := |cs| - 1;
      var (init, cur) := AnnotateChildren(cs[..n], cursor);
      var (last, _) := AnnotateChild(cs[n], cur);
      var out := init + [last];
      assert AnnotateChildren(cs, cursor).0 == out;
      AnnotatedChildLabels(cs[..n], cursor);
      AnnotateChildKeepsLabel(cs[n], cur);
      assert out[..n] == init;
    }
  }

  lemma {:induction false} AnnotatedMeasureLabels(ms: seq<Measure>, cursor: string)
    ensures MeasureLabels(AnnotateMeasures(ms, cursor).0) == MeasureLabels(ms)
  {
    if ms != [] {
      var n := |ms| - 1;
      var (init, cur) := AnnotateMeasures(ms[..n], cursor);
      var (last, _) := AnnotateMeasure(ms[n], cur);
      var out := init + [last];
      assert AnnotateMeasures(ms, cursor).0 == out;
      AnnotatedMeasureLabels(ms[..n], cursor);
      AnnotatedChildLabels(ms[n].children, cur);
      assert out[..n] == init;
    }
  }

  /** Two measures whose children agree on where the `<attributes>` are, and
      on those children, have the same first `<attributes>`. */
  lemma {:induction false} FirstAttributesAlike(a: seq<Child>, b: seq<Child>)
    requires |a| == |b|
    requires forall k :: 0 <= k < |a| ==> (a[k].AttributesElem? <==> b[k].AttributesElem?)
    requires forall k :: 0 <= k < |a| && a[k].AttributesElem? ==> a[k] == b[k]
    ensures FirstAttributes(a) == FirstAttributes(b)
  {
    if a != [] && !a[0].AttributesElem? {
      FirstAttributesAlike(a[1..], b[1..]);
    }
  }

  lemma AnnotatedFirstAttributes(cs: seq<Child>, cursor: string)
    ensures FirstAttributes(AnnotateChildren(cs, cursor).0) == FirstAttributes(cs)
  {
    var out := AnnotateChildren(cs, cursor).0;
    forall k | 0 <= k < |cs|
      ensures (out[k].AttributesElem? <==> cs[k].AttributesElem?)
      ensures cs[k].AttributesElem? ==> out[k] == cs[k]
    {
      AnnotateChildrenAt(cs, cursor, k);
      AnnotateChildKeepsLabel(cs[k], AnnotateChildren(cs[..k], cursor).1);
    }
    FirstAttributesAlike(out, cs);
  }

  /** An annotated trombone part is still recognised as one, and carries the
      same labels. */
  lemma AnnotatedPartAlike(d: Score, cursor: string, i: nat)
    requires !d.parseError && i < |d.parts|
    ensures var once := AnnotateScore(d, cursor).0;
      && (TrombonePart(once, i) <==> TrombonePart(d, i))
      && MeasureLabels(once.parts[i].measures) == MeasureLabels(d.parts[i].measures)
  {
    var once := AnnotateScore(d, cursor).0;
    AnnotatePartsAt(d, |d.parts|, cursor, i);
    if TrombonePart(d, i) {
      var ms := d.parts[i].measures;
      AnnotatedMeasureLabels(ms, NoPosition);
      if |ms| > 0 {
        AnnotateMeasuresAt(ms, NoPosition, 0);
        assert ms[..0] == [];
        AnnotatedFirstAttributes(ms[0].children, NoPosition);
      }
      assert FirstMeasureInstrumentName(once, i) == FirstMeasureInstrumentName(d, i);
    }
  }

  lemma {:induction false} NothingEmitted(ms: seq<Measure>)
    ensures EmittedMeasures(ms, ms) == []
  {
    if ms != [] {
      var n := |ms| - 1;
      NothingEmitted(ms[..n]);
      NothingEmittedChildren(ms[n].children);
    }
  }

  lemma {:induction false} NothingEmittedChildren(cs: seq<Child>)
    ensures Emitted(cs, cs) == []
  {
    if cs != [] {
      NothingEmittedChildren(cs[..|cs| - 1]);
    }
  }

  /** The annotator is not idempotent: annotating an annotated document
      appends the first label's marker to a trombone part once more, because
      the cursor starts again from NoPosition and existing markers are not
      looked at; so the second result differs from the first. */
  lemma AnnotateTwiceAddsMarker(d: Score, cursor: string, cursor2: string, i: nat)
    requires !d.parseError && i < |d.parts| && TrombonePart(d, i)
    requires MeasureLabels(d.parts[i].measures) != []
    ensures var once := AnnotateScore(d, cursor).0;
      var twice := AnnotateScore(once, cursor2).0;
      var emitted := EmittedMeasures(once.parts[i].measures, twice.parts[i].measures);
      && emitted != []
      && emitted[0] == PositionLyric(MeasureLabels(d.parts[i].measures)[0])
      && twice != once
  {
    var once := AnnotateScore(d, cursor).0;
    var twice := AnnotateScore(once, cursor2).0;
    AnnotatedPartAlike(d, cursor, i);
    FirstLabelShown(once, cursor2, i);
    NothingEmitted(once.parts[i].measures);
    assert twice.parts[i].measures != once.parts[i].measures;
  }

  // ---------------------------------------------------------------------------
  // Worked examples

  function PlainNote(step: string, alter: Option<string>, octave: string): Note {
    Note(false, Some(Pitch(Some(step), alter, Some(octave))), Some("1"), None, [], None)
  }

  /** A one-part, one-measure document whose part is named "Trombone". */
  function TromboneScore(cs: seq<Child>): Score {
    Score(false, [ScorePart(Some("Trombone"), [], [])], [Part([Measure(cs)])])
  }

  lemma TromboneScoreIsTrombone(cs: seq<Child>)
    ensures TrombonePart(TromboneScore(cs), 0)
  {
    assert ToLower("Trombone") == "trombone";
    assert OccursAt("trombone", "trombone", 0);
  }

  lemma PlainNoteLabel(step: string, octave: string, oct: int, position: int)
    requires ParseInt(octave) == Int(oct)
    requires SlidePositionForNote(NoteInfo(step, Int(0), Int(oct))) == Some(SlidePosition(position, None))
    ensures NoteLabel(PlainNote(step, None, octave)) == Some(NumberText(Int(position)))
  {
    PlainNoteInfo(step, octave, oct);
    assert PositionText(SlidePosition(position, None)) == NumberText(Int(position)) + "";
    assert NumberText(Int(position)) + "" == NumberText(Int(position));
  }

  lemma PlainNoteInfo(step: string, octave: string, oct: int)
    requires ParseInt(octave) == Int(oct)
    ensures Eligible(PlainNote(step, None, octave))
    ensures ExtractNoteInfo(PlainNote(step, None, octave)) == Some(NoteInfo(step, Int(0), Int(oct)))
  {
  }

  lemma ParseFour()
    ensures ParseInt("4") == Int(4)
  {
    assert TrimStart("4") == "4";
    DigitPrefixAll("4");
  }

  lemma CDLabels()
    ensures ChildLabel(NoteElem(PlainNote("C", None, "4"))) == ["3"]
    ensures ChildLabel(NoteElem(PlainNote("D", None, "4"))) == ["1"]
  {
    ParseFour();
    PlainNoteLabel("C", "4", 4, 3);
    PlainNoteLabel("D", "4", 4, 1);
  }

  lemma OneLabel(c: Child)
    ensures ChildLabels([c]) == ChildLabel(c)
  {
    assert [c][..0] == [];
  }

  lemma LabelsSnoc(cs: seq<Child>, c: Child)
    ensures ChildLabels(cs + [c]) == ChildLabels(cs) + ChildLabels([c])
  {
    assert (cs + [c])[..|cs|] == cs;
    OneLabel(c);
  }

  /** The labels of two children from the labels of each. */
  lemma PairLabels(a: Child, b: Child, la: seq<string>, lb: seq<string>)
    requires ChildLabel(a) == la && ChildLabel(b) == lb
    ensures ChildLabels([a, b]) == la + lb
  {
    OneLabel(a);
    OneLabel(b);
    LabelsSnoc([a], b);
    assert [a] + [b] == [a, b];
  }

  /** The markers of a one-measure trombone document, from its children's labels. */
  lemma OneMeasureMarkers(cs: seq<Child>, cursor: string, ls: seq<string>)
    requires ChildLabels(cs) == ls
    ensures var d := TromboneScore(cs);
      EmittedMeasures(d.parts[0].measures, AnnotateScore(d, cursor).0.parts[0].measures)
        == Markers(Suppress(ls, NoPosition))
  {
    var d := TromboneScore(cs);
    assert d.parts[0].measures[..0] == [];
    assert MeasureLabels(d.parts[0].measures) == ls;
    TromboneScoreIsTrombone(cs);
    MarkersSuppressRepeats(d, cursor, 0);
  }

  /** C4 then D4 shows 3 then 1: a label that differs from the one before is shown. */
  lemma RisingStep(cursor: string)
    ensures var d := TromboneScore([NoteElem(PlainNote("C", None, "4")), NoteElem(PlainNote("D", None, "4"))]);
      EmittedMeasures(d.parts[0].measures, AnnotateScore(d, cursor).0.parts[0].measures)
        == Markers(["3", "1"])
  {
    var c4 := NoteElem(PlainNote("C", None, "4"));
    var d4 := NoteElem(PlainNote("D", None, "4"));
    var ls: seq<string> := ["3", "1"];
    CDLabels();
    PairLabels(c4, d4, ["3"], ["1"]);
    OneMeasureMarkers([c4, d4], cursor, ls);
    SuppressKeepsChanges(ls, NoPosition);
  }

  /** The octave-specific exceptions come before the default table: C4, D4,
      E4 and F4 are played in positions 3, 1, 2 and 1, where the defaults for
      C and D are 6 and 4; C6 has no exception and takes the default. */
  lemma ExceptionsBeforeDefaults()
    ensures SlidePositionForPitchClass(Int(0)) == Some(6) && SlidePositionForPitchClass(Int(2)) == Some(4)
    ensures SlidePositionForNote(NoteInfo("C", Int(0), Int(4))) == Some(SlidePosition(3, None))
    ensures SlidePositionForNote(NoteInfo("D", Int(0), Int(4))) == Some(SlidePosition(1, None))
    ensures SlidePositionForNote(NoteInfo("E", Int(0), Int(4))) == Some(SlidePosition(2, None))
    ensures SlidePositionForNote(NoteInfo("F", Int(0), Int(4))) == Some(SlidePosition(1, None))
    ensures SlidePositionForNote(NoteInfo("C", Int(0), Int(6))) == Some(SlidePosition(6, None))
  {
  }

  /** C4 twice shows 3 once: the repeated label gets no marker. */
  lemma RepeatedNote(cursor: string)
    ensures var d := TromboneScore([NoteElem(PlainNote("C", None, "4")), NoteElem(PlainNote("C", None, "4"))]);
      EmittedMeasures(d.parts[0].measures, AnnotateScore(d, cursor).0.parts[0].measures)
        == Markers(["3"])
  {
    var c4 := NoteElem(PlainNote("C", None, "4"));
    var ls: seq<string> := ["3", "3"];
    CDLabels();
    PairLabels(c4, c4, ["3"], ["3"]);
    OneMeasureMarkers([c4, c4], cursor, ls);
    assert Suppress(ls, NoPosition) == ["3"] by {
      assert ls[1..] == ["3"] && ls[1..][1..] == [];
      assert "3"[0] != NoPosition[0];
    }
  }

  /** A note outside voice 1 gets no label. */
  lemma OtherVoiceUnlabelled(n: Note)
    requires n.voice.Some? && n.voice.value != "1"
    ensures ChildLabel(NoteElem(n)) == []
  {
  }

  /** A D4 in voice 2 after a C4 gets no marker: only voice 1 is labelled. */
  lemma OtherVoiceSkipped(cursor: string)
    ensures var d := TromboneScore([NoteElem(PlainNote("C", None, "4")),
                                    NoteElem(PlainNote("D", None, "4").(voice := Some("2")))]);
      EmittedMeasures(d.parts[0].measures, AnnotateScore(d, cursor).0.parts[0].measures)
        == Markers(["3"])
  {
    var c4 := NoteElem(PlainNote("C", None, "4"));
    var d4 := NoteElem(PlainNote("D", None, "4").(voice := Some("2")));
    var ls: seq<string> := ["3"];
    CDLabels();
    OtherVoiceUnlabelled(d4.note);
    PairLabels(c4, d4, ["3"], []);
    OneMeasureMarkers([c4, d4], cursor, ls);
    assert Suppress(ls, NoPosition) == ls by {
      assert ls[1..] == [];
      assert "3"[0] != NoPosition[0];
    }
  }
}

/** The annotate, strip, transpose pipeline: the markers the annotator adds
    are exactly what the loader's strip removes, so a transposition of an
    annotated document is the transposition of the document itself. */
module Pipeline {
  import opened Wrappers
  import opened MusicXml
  import opened TrombonePosition
  import opened ScoreLoader
  import LoaderProperties
  import PositionProperties

  /** The strip on one measure's children. */
  function StripChildren(cs: seq<Child>): seq<Child> {
    MapChildren(FilterChildren(cs, KeepChild), StripChild)
  }

  lemma StripScoreAt(d: Score, i: int, j: int)
    requires 0 <= i < |d.parts| && 0 <= j < |d.parts[i].measures|
    ensures |StripScore(d).parts[i].measures| == |d.parts[i].measures|
    ensures StripScore(d).parts[i].measures[j] == Measure(StripChildren(d.parts[i].measures[j].children))
  {
  }

  lemma {:induction false} FilterSnoc(cs: seq<Child>, c: Child)
    ensures FilterChildren(cs + [c], KeepChild) == FilterChildren(cs, KeepChild) + (if KeepChild(c) then [c] else [])
  {
    assert (cs + [c])[..|cs|] == cs;
  }

  lemma MapChildrenAppend(a: seq<Child>, b: seq<Child>, f: Child -> Child)
    ensures MapChildren(a + b, f) == MapChildren(a, f) + MapChildren(b, f)
  {
  }

  lemma StripChildrenSnoc(cs: seq<Child>, c: Child)
    ensures StripChildren(cs + [c]) == StripChildren(cs) + (if KeepChild(c) then [StripChild(c)] else [])
  {
    FilterSnoc(cs, c);
    MapChildrenAppend(FilterChildren(cs, KeepChild), if KeepChild(c) then [c] else [], StripChild);
  }

  // ---------------------------------------------------------------------------
  // Lyrics

  /** Renumbering to verse 2 is undone by the strip's renumbering to verse 1. */
  lemma {:induction false} StripRenumbered(ls: seq<Lyric>)
    ensures StripLyrics(RenumberLyrics(ls)) == StripLyrics(ls)
  {
    if ls != [] {
      var n := |ls| - 1;
      assert RenumberLyrics(ls)[..n] == RenumberLyrics(ls[..n]);
      StripRenumbered(ls[..n]);
    }
  }

  /** An appended marker is removed again. */
  lemma StripAppendedMarker(ls: seq<Lyric>, tag: string)
    ensures StripLyrics(ls + [PositionLyric(tag)]) == StripLyrics(ls)
  {
    assert (ls + [PositionLyric(tag)])[..|ls|] == ls;
  }

  /** One child as the annotator leaves it strips to the same child, and is
      kept or dropped alike. */
  lemma StripAnnotatedChild(c: Child, cursor: string)
    ensures KeepChild(AnnotateChild(c, cursor).0) == KeepChild(c)
    ensures StripChild(AnnotateChild(c, cursor).0) == StripChild(c)
  {
    if c.NoteElem? && Eligible(c.note) {
      var ls := c.note.lyrics;
      StripRenumbered(ls);
      match NoteLabel(c.note)
      case None =>
      case Some(tag) =>
        StripAppendedMarker(RenumberLyrics(ls), tag);
    }
  }

  /** Two sequences that strip alike still do after one more child each,
      when the two children strip alike. */
  lemma StripAlikeSnoc(xs: seq<Child>, x: Child, ys: seq<Child>, y: Child)
    requires StripChildren(xs) == StripChildren(ys)
    requires KeepChild(x) == KeepChild(y) && StripChild(x) == StripChild(y)
    ensures StripChildren(xs + [x]) == StripChildren(ys + [y])
  {
    StripChildrenSnoc(xs, x);
    StripChildrenSnoc(ys, y);
  }

  lemma {:induction false} StripAnnotatedChildren(cs: seq<Child>, cursor: string)
    ensures StripChildren(AnnotateChildren(cs, cursor).0) == StripChildren(cs)
  {
    if cs != [] {
      var n := |cs| - 1;
      var (init, cur) := AnnotateChildren(cs[..n], cursor);
      var (last, _) := AnnotateChild(cs[n], cur);
      assert AnnotateChildren(cs, cursor).0 == init + [last];
      StripAnnotatedChildren(cs[..n], cursor);
      StripAnnotatedChild(cs[n], cur);
      StripAlikeSnoc(init, last, cs[..n], cs[n]);
      assert cs[..n] + [cs[n]] == cs;
    }
  }

  /** The strip undoes the annotator: stripping an annotated document gives
      the strip of the document itself, whatever the cursor. */
  lemma StripAfterAnnotate(d: Score, cursor: string)
    ensures StripScore(AnnotateScore(d, cursor).0) == StripScore(d)
  {
    if !d.parseError {
      var out := AnnotateScore(d, cursor).0;
      var a := StripScore(out);
      var b := StripScore(d);
      forall i | 0 <= i < |d.parts|
        ensures a.parts[i] == b.parts[i]
      {
        PositionProperties.AnnotatePartsAt(d, |d.parts|, cursor, i);
        if TrombonePart(d, i) {
          var ms := d.parts[i].measures;
          forall j | 0 <= j < |ms|
            ensures a.parts[i].measures[j] == b.parts[i].measures[j]
          {
            PositionProperties.AnnotateMeasuresAt(ms, NoPosition, j);
            var cur := AnnotateMeasures(ms[..j], NoPosition).1;
            StripAnnotatedChildren(ms[j].children, cur);
            StripScoreAt(out, i, j);
            StripScoreAt(d, i, j);
          }
          assert a.parts[i].measures == b.parts[i].measures;
        }
      }
    }
  }

  /** `transpose` on an annotated document gives what it gives on the
      document before annotation: the markers never reach the transposer. */
  lemma TransposeIgnoresMarkers(d: Score, cursor: string, s: int)
    ensures Transpose(AnnotateScore(d, cursor).0, s) == Transpose(d, s)
  {
    StripAfterAnnotate(d, cursor);
  }

  // ---------------------------------------------------------------------------
  // The strip is idempotent

  lemma StripChildStable(c: Child)
    ensures KeepChild(StripChild(c)) == KeepChild(c)
    ensures StripChild(StripChild(c)) == StripChild(c)
  {
    if c.NoteElem? {
      LoaderProperties.StripLyricsIdempotent(c.note.lyrics);
    }
  }

  lemma {:induction false} StripChildrenIdempotent(cs: seq<Child>)
    ensures StripChildren(StripChildren(cs)) == StripChildren(cs)
  {
    if cs != [] {
      var n := |cs| - 1;
      StripChildrenIdempotent(cs[..n]);
      StripChildrenSnoc(cs[..n], cs[n]);
      assert cs == cs[..n] + [cs[n]];
      StripChildStable(cs[n]);
      if KeepChild(cs[n]) {
        StripChildrenSnoc(StripChildren(cs[..n]), StripChild(cs[n]));
      }
    }
  }

  /** Removing the markers a second time changes nothing. */
  lemma StripIdempotent(d: Score)
    ensures StripScore(StripScore(d)) == StripScore(d)
  {
    var a := StripScore(d);
    var b := StripScore(a);
    forall i | 0 <= i < |d.parts|
      ensures b.parts[i] == a.parts[i]
    {
      var ms := d.parts[i].measures;
      forall j | 0 <= j < |ms|
        ensures b.parts[i].measures[j] == a.parts[i].measures[j]
      {
        StripScoreAt(d, i, j);
        StripScoreAt(a, i, j);
        StripChildrenIdempotent(ms[j].children);
      }
      assert b.parts[i].measures == a.parts[i].measures;
    }
  }

  // ---------------------------------------------------------------------------
  // What transpose hands to the renderer

  /** Whatever the shift, the document `transpose` produces holds no figured
      bass and no position marker, and every lyric in it is at verse 1. */
  lemma TransposeLeavesNoMarkers(d: Score, s: int, i: int, j: int, k: int)
    requires IsPos(Transpose(d, s), i, j, k)
    ensures var c := At(Transpose(d, s), i, j, k);
      && !c.FiguredBassElem?
      && (c.NoteElem? ==> forall l :: l in c.note.lyrics ==> !IsMarker(l) && l.number == Some("1"))
  {
    var clean := StripScore(d);
    assert IsPos(clean, i, j, k);
    LoaderProperties.StripLeavesNoMarkers(d, i, j, k);
    if s != 0 && Transposable(clean) {
      var delta := FifthsDeltaAsWritten(s);
      LoaderProperties.TransposedAt(clean, s, delta, i, j, k);
      var c := At(clean, i, j, k);
      if c.NoteElem? {
        LoaderProperties.TransposeNoteEffect(c, s, delta);
      } else {
        LoaderProperties.TransposeOtherChild(c, s, delta);
      }
    }
  }
}

/** The trombone slide-position annotator: the lookup tables ported from the
    MuseScore plugin, the note filter, the label format, and the walk over the
    trombone parts that appends a position marker lyric whenever a note's label
    differs from the last one emitted in that part. */
module TrombonePosition {
  import opened Wrappers
  import opened JsText
  import opened MusicXml
  import opened KeyNames

  /** The cursor's value at the start of every trombone part. */
  const NoPosition: string := "NONE"

  /** The identifier of a position marker, carried both as the lyric's `id`
      attribute and as the text of its `<id>` child. */
  const MarkerId: string := "pos-tb"

  // ---------------------------------------------------------------------------
  // Pitch class

  /** The semitone of a natural step above C, for the seven step names. */
  function StepBase(step: string): Option<int> {
    if step == "C" then Some(0)
    else if step == "D" then Some(2)
    else if step == "E" then Some(4)
    else if step == "F" then Some(5)
    else if step == "G" then Some(7)
    else if step == "A" then Some(9)
    else if step == "B" then Some(11)
    else None
  }

  /** The pitch class of a step and alter: absent for an unknown step, NaN
      when the alter is NaN, otherwise a number in [0, 12) congruent to
      base + alter. */
  function PitchClass(step: string, alter: Num): (r: Option<Num>)
    ensures r.None? <==> StepBase(step).None?
    ensures r.Some? && alter.NaN? ==> r.value.NaN?
    ensures r.Some? && alter.Int? ==>
      && r.value.Int? && 0 <= r.value.value < 12
      && (r.value.value - StepBase(step).value - alter.value) % 12 == 0
  {
    match StepBase(step)
    case None => None
    case Some(b) =>
      match alter
      case NaN => Some(NaN)
      case Int(a) => Some(Int((b + a) % 12))
  }

  /** getPitchClass: normalises base + alter into [0, 12) by repeated steps of 12. */
  method GetPitchClass(step: string, alter: Num) returns (pc: Option<Num>)
    ensures pc == PitchClass(step, alter)
  {
    var base := StepBase(step);
    if base.None? {
      return None;
    }
    if alter.NaN? {
      // NaN + base is NaN; both loop guards compare false, so NaN comes back.
      return Some(NaN);
    }
    var v := base.value + alter.value;
    ghost var start := v;
    while v < 0
      invariant v % 12 == start % 12
      decreases -v
    {
      v := v + 12;
    }
    while v >= 12
      invariant 0 <= v && v % 12 == start % 12
      decreases v
    {
      v := v - 12;
    }
    assert PitchClass(step, alter) == Some(Int(start % 12));
    assert v == start % 12 by {
      assert v % 12 == v;
    }
    return Some(Int(v));
  }

  // ---------------------------------------------------------------------------
  // Slide positions

  /** slidePositionForPitchClass: the default position of each pitch class. */
  function SlidePositionForPitchClass(pc: Num): (r: Option<int>)
    ensures r.Some? <==> pc.Int? && 0 <= pc.value < 12
    ensures r.Some? ==> 1 <= r.value <= 7
  {
    match pc
    case NaN => None
    case Int(v) =>
      if v == 11 then Some(7)
      else if v == 0 then Some(6)
      else if v == 1 then Some(5)
      else if v == 2 then Some(4)
      else if v == 3 then Some(3)
      else if v == 4 then Some(2)
      else if v == 5 then Some(1)
      else if v == 6 then Some(5)
      else if v == 7 then Some(4)
      else if v == 8 then Some(3)
      else if v == 9 then Some(2)
      else if v == 10 then Some(1)
      else None
  }

  /** getAlternatePosition: the octave-specific exceptions to the default table. */
  function GetAlternatePosition(pc: Num, oct: Num): (r: Option<int>)
    ensures r.Some? ==> 1 <= r.value <= 7
    ensures r.Some? ==> pc.Int? && oct.Int? && 2 <= oct.value <= 5
  {
    match (pc, oct)
    case (Int(p), Int(o)) =>
      if o == 2 then
        (if p == 4 then Some(7) else if p == 5 then Some(6) else if p == 11 then Some(7) else None)
      else if o == 3 then
        (if p == 0 then Some(6) else if p == 4 then Some(2) else if p == 7 then Some(4)
         else if p == 9 then Some(2) else if p == 11 then Some(4) else None)
      else if o == 4 then
        (if p == 0 then Some(3) else if p == 1 then Some(2) else if p == 2 then Some(1)
         else if p == 4 then Some(2) else if p == 5 then Some(1) else if p == 7 then Some(2)
         else if p == 11 then Some(2) else None)
      else if o == 5 then
        (if p == 0 then Some(1) else if p == 2 then Some(1) else None)
      else None
    case _ => None
  }

  /** getAccidentalSymbol: the glyph of a single or double sharp or flat,
      and the empty string for every other alter. */
  function GetAccidentalSymbol(alter: Num): (r: string)
    ensures r != "" <==> alter in {Int(1), Int(-1), Int(2), Int(-2)}
    ensures forall i :: 0 <= i < |r| ==> r[i] == '#' || r[i] == 'b'
  {
    match alter
    case Int(1) => "#"
    case Int(-1) => "b"
    case Int(2) => "##"
    case Int(-2) => "bb"
    case _ => ""
  }

  /** The fields of a note the position lookup reads (`NoteInfo`). */
  datatype NoteInfo = NoteInfo(step: string, alter: Num, octave: Num)

  /** The result of slidePositionForNote: a position and, for an altered note,
      its accidental glyph. */
  datatype SlidePosition = SlidePosition(position: int, accidental: Option<string>)

  /** slidePositionForNote: the exception table first, the default table
      otherwise; absent when the step is unknown or the alter is NaN. */
  function SlidePositionForNote(info: NoteInfo): (r: Option<SlidePosition>)
    ensures r.Some? <==> StepBase(info.step).Some? && info.alter.Int?
    ensures r.Some? ==> 1 <= r.value.position <= 7
    ensures r.Some? ==> (r.value.accidental.Some? <==> info.alter != Int(0))
  {
    match PitchClass(info.step, info.alter)
    case None => None
    case Some(pc) =>
      var accidental := if info.alter != Int(0) then Some(GetAccidentalSymbol(info.alter)) else None;
      match GetAlternatePosition(pc, info.octave)
      case Some(p) => Some(SlidePosition(p, accidental))
      case None =>
        match SlidePositionForPitchClass(pc)
        case Some(p) => Some(SlidePosition(p, accidental))
        case None => None
  }

  /** The label text: the position's digits, then a newline and the glyph when
      the glyph is not empty. */
  function PositionText(s: SlidePosition): (r: string)
    ensures r != [] && (1 <= s.position <= 7 ==> r[0] == DigitChar(s.position))
    ensures '\n' in r <==> s.accidental.Some? && s.accidental.value != ""
  {
    NumberTextNoNewline(s.position);
    NumberText(Int(s.position))
      + (if s.accidental.Some? && s.accidental.value != "" then "\n" + s.accidental.value else "")
  }

  // ---------------------------------------------------------------------------
  // Reading a note

  /** extractNoteInfo: absent for a rest, and for a note without a pitch or
      whose pitch lacks a step or an octave. */
  function ExtractNoteInfo(n: Note): (r: Option<NoteInfo>)
    ensures r.Some? <==> !n.rest && n.pitch.Some? && n.pitch.value.step.Some? && n.pitch.value.octave.Some?
  {
    if n.rest then None
    else
      match n.pitch
      case None => None
      case Some(p) =>
        if p.step.None? || p.octave.None? then None
        else
          var alter := if p.alter.Some? then ParseInt(OrDefault(p.alter.value, "0")) else Int(0);
          Some(NoteInfo(p.step.value, alter, ParseInt(OrDefault(p.octave.value, "0"))))
  }

  /** The note is written for a voice other than "1". */
  predicate OtherVoice(n: Note) {
    n.voice.Some? && n.voice.value != "1"
  }

  /** The note ends a tie. */
  predicate TieStop(n: Note) {
    n.tied == Some("stop")
  }

  /** The notes the walk processes: voice 1 (or none), not a tie end, and with
      a readable pitch. Their existing lyrics are renumbered. */
  predicate Eligible(n: Note) {
    !OtherVoice(n) && !TieStop(n) && ExtractNoteInfo(n).Some?
  }

  /** The label the walk computes for a note, if any. */
  function NoteLabel(n: Note): (r: Option<string>)
    ensures r.Some? <==>
      Eligible(n) && StepBase(ExtractNoteInfo(n).value.step).Some? && ExtractNoteInfo(n).value.alter.Int?
    ensures r.Some? ==> r.value != [] && IsDigit(r.value[0])
  {
    if !Eligible(n) then None
    else
      match SlidePositionForNote(ExtractNoteInfo(n).value)
      case None => None
      case Some(s) => Some(PositionText(s))
  }

  // ---------------------------------------------------------------------------
  // Lyrics

  /** A lyric that is a position marker, by attribute or by `<id>` text. */
  predicate IsMarker(l: Lyric) {
    l.idAttr == Some(MarkerId) || l.id == Some(MarkerId)
  }

  function RenumberLyric(l: Lyric): Lyric {
    if IsMarker(l) then l else l.(number := Some("2"))
  }

  /** Every lyric that is not a marker moves to verse number "2". */
  function RenumberLyrics(ls: seq<Lyric>): (r: seq<Lyric>)
    ensures |r| == |ls|
  {
    seq(|ls|, k requires 0 <= k < |ls| => RenumberLyric(ls[k]))
  }

  /** The text shown under the note: the label with its newline removed. */
  function Display(tag: string): string {
    ReplaceFirst(tag, "\n", "")
  }

  /** The marker lyric built by addPositionToMeasure. */
  function PositionLyric(tag: string): Lyric {
    Lyric(Some(MarkerId), Some("1"), Some("-30"), Some(MarkerId), Some("middle"), Some(Display(tag)))
  }

  /** addPositionToMeasure: appends the marker as the target note's last lyric
      (the measure and staff number it also receives are not used). */
  function AddPositionToMeasure(target: Note, tag: string): (r: Note)
    ensures r.(lyrics := target.lyrics) == target
    ensures |r.lyrics| == |target.lyrics| + 1 && r.lyrics[..|target.lyrics|] == target.lyrics
    ensures var m := r.lyrics[|target.lyrics|];
      IsMarker(m) && m.number == Some("1") && m.text == Some(Display(tag))
  {
    target.(lyrics := target.lyrics + [PositionLyric(tag)])
  }

  // ---------------------------------------------------------------------------
  // The walk, as a function of the cursor

  /** One note of a trombone part under the cursor `cursor`: the note after
      the walk has seen it, and the new cursor. */
  function AnnotateNote(n: Note, cursor: string): (r: (Note, string))
    ensures r.0.(lyrics := n.lyrics) == n
    ensures !Eligible(n) ==> r == (n, cursor)
    ensures r.1 != cursor ==> NoteLabel(n) == Some(r.1)
    ensures |r.0.lyrics| == |n.lyrics| + if NoteLabel(n).Some? && NoteLabel(n).value != cursor then 1 else 0
  {
    if !Eligible(n) then (n, cursor)
    else
      var renumbered := n.(lyrics := RenumberLyrics(n.lyrics));
      match NoteLabel(n)
      case None => (renumbered, cursor)
      case Some(tag) =>
        if tag != cursor then (AddPositionToMeasure(renumbered, tag), tag)
        else (renumbered, cursor)
  }

  function AnnotateChild(c: Child, cursor: string): (Child, string) {
    match c
    case NoteElem(n) =>
      var (n', cursor') := AnnotateNote(n, cursor);
      (NoteElem(n'), cursor')
    case _ => (c, cursor)
  }

  /** The children of one measure, left to right, threading the cursor. */
  function AnnotateChildren(cs: seq<Child>, cursor: string): (r: (seq<Child>, string))
    ensures |r.0| == |cs|
  {
    if cs == [] then ([], cursor)
    else
      var (init, cur) := AnnotateChildren(cs[..|cs| - 1], cursor);
      var (last, cur') := AnnotateChild(cs[|cs| - 1], cur);
      (init + [last], cur')
  }

  function AnnotateMeasure(m: Measure, cursor: string): (Measure, string) {
    var (cs, cursor') := AnnotateChildren(m.children, cursor);
    (Measure(cs), cursor')
  }

  /** The measures of one part, in order, threading the cursor. */
  function AnnotateMeasures(ms: seq<Measure>, cursor: string): (r: (seq<Measure>, string))
    ensures |r.0| == |ms|
  {
    if ms == [] then ([], cursor)
    else
      var (init, cur) := AnnotateMeasures(ms[..|ms| - 1], cursor);
      var (last, cur') := AnnotateMeasure(ms[|ms| - 1], cur);
      (init + [last], cur')
  }

  /** A trombone part: the cursor starts again from NoPosition. */
  function AnnotatePart(p: Part): (Part, string) {
    var (ms, cursor) := AnnotateMeasures(p.measures, NoPosition);
    (Part(ms), cursor)
  }

  /** The first `n` parts; parts that are not trombone parts pass through and
      leave the cursor alone. */
  function AnnotateParts(d: Score, n: nat, cursor: string): (r: (seq<Part>, string))
    requires n <= |d.parts|
    ensures |r.0| == n
  {
    if n == 0 then ([], cursor)
    else
      var (init, cur) := AnnotateParts(d, n - 1, cursor);
      if TrombonePart(d, n - 1) then
        var (p, cur') := AnnotatePart(d.parts[n - 1]);
        (init + [p], cur')
      else (init + [d.parts[n - 1]], cur)
  }

  /** addPositionsToXML on a parsed document, from the service's cursor: the
      new document and the cursor the service is left with. A document that
      failed to parse comes back as it was. */
  function AnnotateScore(d: Score, cursor: string): (r: (Score, string))
    ensures r.0.parseError == d.parseError && r.0.scoreParts == d.scoreParts
    ensures |r.0.parts| == |d.parts|
    ensures d.parseError ==> r == (d, cursor)
  {
    if d.parseError then (d, cursor)
    else
      var (ps, cursor') := AnnotateParts(d, |d.parts|, cursor);
      (d.(parts := ps), cursor')
  }

  // ---------------------------------------------------------------------------
  // Which parts are trombone parts

  /** Some text of `texts`, lower-cased, contains `word`. */
  predicate AnyContains(texts: seq<string>, word: string) {
    exists k :: 0 <= k < |texts| && Contains(ToLower(texts[k]), word)
  }

  /** The first `<attributes>` child of a measure. */
  function FirstAttributes(cs: seq<Child>): (r: Option<Child>)
    ensures r.Some? ==> r.value.AttributesElem? && r.value in cs
    ensures r.None? ==> forall c :: c in cs ==> !c.AttributesElem?
  {
    if cs == [] then None
    else if cs[0].AttributesElem? then Some(cs[0])
    else FirstAttributes(cs[1..])
  }

  /** The `<instrument-name>` text inside the first `<attributes>` of part i's first measure. */
  function FirstMeasureInstrumentName(d: Score, i: int): Option<string> {
    if 0 <= i < |d.parts| && |d.parts[i].measures| > 0 then
      match FirstAttributes(d.parts[i].measures[0].children)
      case Some(a) => a.instrumentName
      case None => None
    else None
  }

  /** isTromboneStaff: part i has a score-part entry whose part name or some
      instrument name contains "trombone", or some instrument id contains
      "trombone" or "tbone", or the first measure's attributes name a trombone;
      every comparison is on the lower-cased text. */
  predicate TrombonePart(d: Score, i: int)
    ensures TrombonePart(d, i) ==> 0 <= i < |d.scoreParts|
  {
    && 0 <= i < |d.scoreParts|
    && var sp := d.scoreParts[i];
       || (sp.partName.Some? && Contains(ToLower(sp.partName.value), "trombone"))
       || AnyContains(sp.instrumentNames, "trombone")
       || AnyContains(sp.instrumentIds, "trombone")
       || AnyContains(sp.instrumentIds, "tbone")
       || (FirstMeasureInstrumentName(d, i).Some?
           && Contains(ToLower(FirstMeasureInstrumentName(d, i).value), "trombone"))
  }

  // ---------------------------------------------------------------------------
  // The service object

  class TrombonePositionService {
    /** Set once a document has been annotated, cleared by RemovePositions. */
    var positionsAdded: bool
    /** The last label emitted (the repetition cursor). */
    var lastPositionText: string

    constructor ()
      ensures !positionsAdded && lastPositionText == NoPosition
    {
      positionsAdded := false;
      lastPositionText := NoPosition;
    }

    /** hasPositions */
    function HasPositions(): (b: bool)
      reads this
      ensures b == positionsAdded
    {
      positionsAdded
    }

    /** The flag resets of removePositions (its SVG clean-up is not modelled). */
    method RemovePositions()
      modifies this
      ensures !positionsAdded && lastPositionText == NoPosition
    {
      positionsAdded := false;
      lastPositionText := NoPosition;
    }

    /** isTromboneStaff, with its loops over the instrument names and ids. */
    method IsTromboneStaff(d: Score, i: int) returns (b: bool)
      ensures b == TrombonePart(d, i)
    {
      if !(0 <= i < |d.scoreParts|) {
        return false;
      }
      var sp := d.scoreParts[i];
      if sp.partName.Some? && Contains(ToLower(sp.partName.value), "trombone") {
        return true;
      }
      var k := 0;
      while k < |sp.instrumentNames|
        invariant 0 <= k <= |sp.instrumentNames|
        invariant forall n :: 0 <= n < k ==> !Contains(ToLower(sp.instrumentNames[n]), "trombone")
      {
        if Contains(ToLower(sp.instrumentNames[k]), "trombone") {
          return true;
        }
        k := k + 1;
      }
      k := 0;
      while k < |sp.instrumentIds|
        invariant 0 <= k <= |sp.instrumentIds|
        invariant forall n :: 0 <= n < k ==>
          !Contains(ToLower(sp.instrumentIds[n]), "trombone") && !Contains(ToLower(sp.instrumentIds[n]), "tbone")
      {
        var id := ToLower(sp.instrumentIds[k]);
        if Contains(id, "trombone") || Contains(id, "tbone") {
          return true;
        }
        k := k + 1;
      }
      var name := FirstMeasureInstrumentName(d, i);
      return name.Some? && Contains(ToLower(name.value), "trombone");
    }

    /** The loop over one measure's children, with the cursor in lastPositionText. */
    method AddPositionsToChildren(cs: seq<Child>) returns (r: seq<Child>)
      modifies this`lastPositionText
      ensures (r, lastPositionText) == AnnotateChildren(cs, old(lastPositionText))
    {
      r := [];
      var k := 0;
      while k < |cs|
        invariant 0 <= k <= |cs|
        invariant (r, lastPositionText) == AnnotateChildren(cs[..k], old(lastPositionText))
      {
        assert cs[..k + 1][..k] == cs[..k];
        var c := cs[k];
        if c.NoteElem? {
          var note := c.note;
          if !OtherVoice(note) && !TieStop(note) {
            var info := ExtractNoteInfo(note);
            if info.Some? {
              note := note.(lyrics := RenumberLyrics(note.lyrics));
              var position := SlidePositionForNote(info.value);
              if position.Some? {
                var positionText := PositionText(position.value);
                if positionText != lastPositionText {
                  note := AddPositionToMeasure(note, positionText);
                  lastPositionText := positionText;
                }
              }
            }
          }
          c := NoteElem(note);
        }
        r := r + [c];
        k := k + 1;
      }
      assert cs[..k] == cs;
    }

    /** The loop over one part's measures. */
    method AddPositionsToMeasures(ms: seq<Measure>) returns (r: seq<Measure>)
      modifies this`lastPositionText
      ensures (r, lastPositionText) == AnnotateMeasures(ms, old(lastPositionText))
    {
      r := [];
      var j := 0;
      while j < |ms|
        invariant 0 <= j <= |ms|
        invariant (r, lastPositionText) == AnnotateMeasures(ms[..j], old(lastPositionText))
      {
        assert ms[..j + 1][..j] == ms[..j];
        var children := AddPositionsToChildren(ms[j].children);
        r := r + [Measure(children)];
        j := j + 1;
      }
      assert ms[..j] == ms;
    }

    /** addPositionsToXML: annotates every trombone part, resetting the cursor
        at each, and marks the service as having added positions; a document
        that failed to parse comes back unchanged and leaves the service alone. */
    method AddPositionsToXML(d: Score) returns (r: Score)
      modifies this
      ensures (r, lastPositionText) == AnnotateScore(d, old(lastPositionText))
      ensures positionsAdded == (old(positionsAdded) || !d.parseError)
    {
      if d.parseError {
        return d;
      }
      var parts: seq<Part> := [];
      var i := 0;
      while i < |d.parts|
        invariant 0 <= i <= |d.parts|
        invariant positionsAdded == old(positionsAdded)
        invariant (parts, lastPositionText) == AnnotateParts(d, i, old(lastPositionText))
      {
        var part := d.parts[i];
        var trombone := IsTromboneStaff(d, i);
        if trombone {
          lastPositionText := NoPosition;
          var measures := AddPositionsToMeasures(part.measures);
          part := Part(measures);
        }
        parts := parts + [part];
        i := i + 1;
      }
      r := d.(parts := parts);
      positionsAdded := true;
    }
  }

  // ---------------------------------------------------------------------------
  // Key names (calculateKey, getSemitonesFromKey)

  /** calculateKey: the key `semitones` above `currentKey` by JavaScript's
      truncating `%`; an unknown key comes back as it is, and a negative
      array index reads `undefined` (absent here), which happens only below
      -12 semitones. */
  function CalculateKey(currentKey: string, semitones: int): (r: Option<string>)
    ensures currentKey !in SharpKeys ==> r == Some(currentKey)
    ensures currentKey in SharpKeys && semitones >= -12 ==>
      r == Some(SharpKeys[(KeyIndex(currentKey) + semitones + 12) % 12])
  {
    var i := KeyIndex(currentKey);
    if i == -1 then Some(currentKey)
    else
      var a := i + semitones + 12;
      var n := if a >= 0 then a % 12 else -((-a) % 12);
      if n >= 0 then Some(SharpKeys[n]) else None
  }

  /** getSemitonesFromKey: the upward distance from one key to another, in
      [0, 12); 0 when either key is unknown. */
  function GetSemitonesFromKey(fromKey: string, toKey: string): (r: int)
    ensures 0 <= r < 12
    ensures fromKey !in SharpKeys || toKey !in SharpKeys ==> r == 0
  {
    var f := KeyIndex(fromKey);
    var t := KeyIndex(toKey);
    if f == -1 || t == -1 then 0 else (t - f + 12) % 12
  }

  /** Index arithmetic behind KeyRoundTrip: `f` moved up by the upward
      distance to `t` lands on `t`. */
  lemma IndexRoundTrip(f: int, t: int, r: int)
    requires 0 <= f < 12 && 0 <= t < 12 && r == (t - f + 12) % 12
    ensures (f + r + 12) % 12 == t
  {
    if t >= f {
      assert r == t - f;
    } else {
      assert r == t - f + 12;
    }
  }

  /** Moving a known key up by the distance to another known key lands on it. */
  lemma KeyRoundTrip(fromKey: string, toKey: string)
    requires fromKey in SharpKeys && toKey in SharpKeys
    ensures CalculateKey(fromKey, GetSemitonesFromKey(fromKey, toKey)) == Some(toKey)
  {
    var f := KeyIndex(fromKey);
    var t := KeyIndex(toKey);
    var r := GetSemitonesFromKey(fromKey, toKey);
    assert r == (t - f + 12) % 12;
    IndexRoundTrip(f, t, r);
    assert SharpKeys[t] == toKey;
  }
}

/** The loader's document transforms: the key read from the key signature, the
    semitone distance between two key names, the removal of position markers
    before a transposition, and the transposition of key signatures, pitches
    and accidentals. */
module ScoreLoader {
  import opened Wrappers
  import opened JsText
  import opened MusicXml
  import opened KeyNames
  import TrombonePosition

  // ---------------------------------------------------------------------------
  // detectKeyFromXML

  /** The major key of each signature from -7 to 7 fifths. */
  const FifthsNames: seq<string> :=
    ["Cb", "Gb", "Db", "Ab", "Eb", "Bb", "F", "C", "G", "D", "A", "E", "B", "F#", "C#"]

  /** The text of the first `<fifths>` in document order. */
  function FirstFifths(ks: seq<Key>): (r: Option<string>)
    ensures r.Some? <==> exists n :: 0 <= n < |ks| && ks[n].fifths.Some?
  {
    if ks == [] then None
    else if ks[0].fifths.Some? then ks[0].fifths
    else
      assert forall n :: 1 <= n < |ks| ==> ks[n] == ks[1..][n - 1];
      FirstFifths(ks[1..])
  }

  /** The key named by a signature text: the major key of its fifths when
      they parse to a number from -7 to 7, "C" otherwise. */
  function KeyOfFifths(text: string): (r: string)
    ensures r in FifthsNames
    ensures ParseInt(OrDefault(text, "0")).Int? && -7 <= ParseInt(OrDefault(text, "0")).value <= 7 ==>
      r == FifthsNames[ParseInt(OrDefault(text, "0")).value + 7]
    ensures !(ParseInt(OrDefault(text, "0")).Int? && -7 <= ParseInt(OrDefault(text, "0")).value <= 7) ==>
      r == "C"
  {
    match ParseInt(OrDefault(text, "0"))
    case NaN => "C"
    case Int(f) => if -7 <= f <= 7 then FifthsNames[f + 7] else "C"
  }

  /** detectKeyFromXML: the key of the document's first key signature, "C"
      when there is none. */
  function DetectKeyFromXML(d: Score): (r: string)
    ensures r in FifthsNames
    ensures FirstFifths(ScoreKeys(d)).None? ==> r == "C"
  {
    match FirstFifths(ScoreKeys(d))
    case None => "C"
    case Some(text) => KeyOfFifths(text)
  }

  // ---------------------------------------------------------------------------
  // calculateSemitones

  /** The five flat names rewritten to their sharp equivalents, each only at
      its first occurrence, in the order Bb, Eb, Ab, Db, Gb. A name without
      a flat sign is left as it is, and the length never changes. */
  function NormalizeKey(k: string): (r: string)
    ensures |r| == |k|
  {
    ReplaceFirst(ReplaceFirst(ReplaceFirst(ReplaceFirst(ReplaceFirst(
      k, "Bb", "A#"), "Eb", "D#"), "Ab", "G#"), "Db", "C#"), "Gb", "F#")
  }

  /** calculateSemitones: the shorter signed distance, in [-6, 6], from one
      key to another after normalisation; 0 when either name is unknown. */
  function CalculateSemitones(fromKey: string, toKey: string): (r: int)
    ensures -6 <= r <= 6
    ensures KeyIndex(NormalizeKey(fromKey)) == -1 || KeyIndex(NormalizeKey(toKey)) == -1 ==> r == 0
    ensures KeyIndex(NormalizeKey(fromKey)) >= 0 && KeyIndex(NormalizeKey(toKey)) >= 0 ==>
      (KeyIndex(NormalizeKey(toKey)) - KeyIndex(NormalizeKey(fromKey)) - r) % 12 == 0
    ensures var f, t := KeyIndex(NormalizeKey(fromKey)), KeyIndex(NormalizeKey(toKey));
      f >= 0 && t >= 0 && -6 <= t - f <= 6 ==> r == t - f
  {
    var f := KeyIndex(NormalizeKey(fromKey));
    var t := KeyIndex(NormalizeKey(toKey));
    if f == -1 || t == -1 then 0 else ShorterDistance(f, t)
  }

  /** The distance from index f to index t, taking the shorter way round. */
  function ShorterDistance(f: int, t: int): (r: int)
    requires 0 <= f < 12 && 0 <= t < 12
    ensures -6 <= r <= 6 && (t - f - r) % 12 == 0
    ensures -6 <= t - f <= 6 ==> r == t - f
  {
    var diff := t - f;
    var diff' := if diff > 6 then diff - 12 else diff;
    if diff' < -6 then diff' + 12 else diff'
  }

  // ---------------------------------------------------------------------------
  // Key signatures

  /** The semitone-to-fifths table as the source writes it: 0 for a shift it
      has no entry for. Every entry but the one for -1 moves the major key by
      the shift (one fifth is 7 semitones); -1 maps to -5 fifths, which moves
      it a semitone up. */
  function FifthsDeltaAsWritten(s: int): (r: int)
    ensures -9 <= r <= 10
    ensures s == -1 ==> r == -5 && (7 * r - 1) % 12 == 0
    ensures -6 <= s <= 11 && s != -1 ==> (7 * r - s) % 12 == 0
    ensures !(-6 <= s <= 11) ==> r == 0
  {
    if s == 1 then 7 else if s == 2 then 2 else if s == 3 then 9 else if s == 4 then 4
    else if s == 5 then -1 else if s == 6 then 6 else if s == 7 then 1 else if s == 8 then 8
    else if s == 9 then 3 else if s == 10 then 10 else if s == 11 then 5
    else if s == -1 then -5 else if s == -2 then -2 else if s == -3 then -9 else if s == -4 then -4
    else if s == -5 then 1 else if s == -6 then -6
    else 0
  }

  /** The table with its -1 entry corrected to 5 fifths: for `s` from -6 to
      11, `7 * r` is congruent to `s` modulo 12, so the major key moves by
      `s` semitones; 0 for any other `s`. */
  function FifthsDelta(s: int): (r: int)
    ensures -9 <= r <= 10
    ensures -6 <= s <= 11 ==> (7 * r - s) % 12 == 0
    ensures !(-6 <= s <= 11) ==> r == 0
  {
    if s == 1 then 7 else if s == 2 then 2 else if s == 3 then 9 else if s == 4 then 4
    else if s == 5 then -1 else if s == 6 then 6 else if s == 7 then 1 else if s == 8 then 8
    else if s == 9 then 3 else if s == 10 then 10 else if s == 11 then 5
    else if s == -1 then 5 else if s == -2 then -2 else if s == -3 then -9 else if s == -4 then -4
    else if s == -5 then 1 else if s == -6 then -6
    else 0
  }

  /** The new signature: the old one plus `delta` fifths, folded once by 12
      into [-7, 7]; a signature that does not parse stays NaN. */
  function TransposeFifths(fifths: Num, delta: int): (r: Num)
    ensures fifths.NaN? <==> r.NaN?
    ensures fifths.Int? && -7 <= fifths.value <= 7 && -12 <= delta <= 12 ==> -7 <= r.value <= 7
    ensures fifths.Int? ==> (r.value - fifths.value - delta) % 12 == 0
    ensures fifths.Int? ==> var n := fifths.value + delta; r.value == n || r.value == n - 12 || r.value == n + 12
    ensures fifths.Int? && -7 <= fifths.value + delta <= 7 ==> r.value == fifths.value + delta
  {
    match fifths
    case NaN => NaN
    case Int(v) =>
      var n := v + delta;
      var n' := if n > 7 then n - 12 else n;
      Int(if n' < -7 then n' + 12 else n')
  }

  /** One `<key>` moved by `delta` fifths; a `<key>` without `<fifths>` is
      left alone. */
  function TransposeKey(k: Key, delta: int): (r: Key)
    ensures k.fifths.None? ==> r == k
    ensures r.fifths.Some? <==> k.fifths.Some?
  {
    match k.fifths
    case None => k
    case Some(text) => Key(Some(NumberText(TransposeFifths(ParseInt(OrDefault(text, "0")), delta))))
  }

  function TransposeKeys(c: Child, delta: int): Child {
    if c.AttributesElem?
    then c.(keys := seq(|c.keys|, n requires 0 <= n < |c.keys| => TransposeKey(c.keys[n], delta)))
    else c
  }

  /** The key-signature pass, moving every signature by `delta` fifths, as a
      rewriting of measure children. */
  function KeyRewriter(delta: int): Child -> Child {
    c => TransposeKeys(c, delta)
  }

  // ---------------------------------------------------------------------------
  // Pitches

  /** The alter a pitch contributes: its parsed text, 0 without an `<alter>`. */
  function AlterOf(p: Pitch): Num {
    if p.alter.Some? then ParseInt(OrDefault(p.alter.value, "0")) else Int(0)
  }

  /** The pitch as a semitone count from C0: absent where the source's
      arithmetic yields NaN (an unknown step, or an alter or octave that does
      not parse) and the spelling lookup then throws. A missing step text
      reads as "C" and a missing octave text as 4. */
  function AbsoluteSemitone(p: Pitch): (r: Option<int>)
    requires p.step.Some? && p.octave.Some?
    ensures r.Some? <==>
      TrombonePosition.StepBase(OrDefault(p.step.value, "C")).Some?
      && AlterOf(p).Int? && ParseInt(OrDefault(p.octave.value, "4")).Int?
  {
    match (TrombonePosition.StepBase(OrDefault(p.step.value, "C")), AlterOf(p), ParseInt(OrDefault(p.octave.value, "4")))
    case (Some(b), Int(a), Int(o)) => Some(b + a + 12 * o)
    case _ => None
  }

  /** The spelling of each pitch class: a step whose natural semitone plus
      the alter is the class, with an alter of -1, 0 or 1. */
  function Spelling(pc: int): (r: (string, int))
    requires 0 <= pc < 12
    ensures TrombonePosition.StepBase(r.0) == Some(pc - r.1)
    ensures -1 <= r.1 <= 1
  {
    [("C", 0), ("C", 1), ("D", 0), ("E", -1), ("E", 0), ("F", 0),
     ("F", 1), ("G", 0), ("A", -1), ("A", 0), ("B", -1), ("B", 0)][pc]
  }

  /** The pitch written for a semitone count: the spelled step, the octave
      `Math.floor(total / 12)`, and an `<alter>` only for a non-zero alter. */
  function SpellPitch(total: int): (r: Pitch)
    ensures r.step.Some? && r.octave.Some?
    ensures r.alter.Some? <==> Spelling(total % 12).1 != 0
  {
    var (step, alter) := Spelling(total % 12);
    Pitch(Some(step), if alter != 0 then Some(NumberText(Int(alter))) else None, Some(NumberText(Int(total / 12))))
  }

  /** A pitch with both a `<step>` and an `<octave>` can be transposed. */
  predicate Transposes(p: Pitch) {
    p.step.Some? && p.octave.Some?
  }

  /** One pitch moved by `s`; absent where the source throws. Pitches
      without a step or an octave are skipped. */
  function TransposePitch(p: Pitch, s: int): (r: Option<Pitch>)
    ensures !Transposes(p) ==> r == Some(p)
    ensures Transposes(p) ==> (r.Some? <==> AbsoluteSemitone(p).Some?)
  {
    if !Transposes(p) then Some(p)
    else
      match AbsoluteSemitone(p)
      case None => None
      case Some(t) => Some(SpellPitch(t + s))
  }

  /** The child holds a pitch the pass would choke on. */
  predicate Unreadable(c: Child) {
    c.NoteElem? && c.note.pitch.Some? && TransposePitch(c.note.pitch.value, 0).None?
  }

  /** Every pitch of the document can be transposed. */
  predicate Transposable(d: Score) {
    forall i :: 0 <= i < |d.parts| ==> ReadableMeasures(d.parts[i].measures)
  }

  predicate ReadableMeasures(ms: seq<Measure>) {
    forall j, k :: 0 <= j < |ms| && 0 <= k < |ms[j].children| ==> !Unreadable(ms[j].children[k])
  }

  /** The pitch pass on one child: only a note's pitch can change. */
  function TransposeNotePitch(c: Child, s: int): (r: Child)
    ensures !c.NoteElem? ==> r == c
    ensures c.NoteElem? ==> r.NoteElem? && r.note.(pitch := c.note.pitch) == c.note
  {
    if c.NoteElem? && c.note.pitch.Some? && TransposePitch(c.note.pitch.value, s).Some?
    then c.(note := c.note.(pitch := TransposePitch(c.note.pitch.value, s)))
    else c
  }

  /** The pitch pass as a rewriting of measure children. */
  function PitchRewriter(s: int): Child -> Child {
    c => TransposeNotePitch(c, s)
  }

  // ---------------------------------------------------------------------------
  // Accidentals

  /** The accidental named for an alter; empty for any other alter. */
  function AccidentalName(alter: Num): (r: string)
    ensures r != "" <==> alter in {Int(1), Int(-1), Int(2), Int(-2)}
  {
    match alter
    case Int(1) => "sharp"
    case Int(-1) => "flat"
    case Int(2) => "double-sharp"
    case Int(-2) => "flat-flat"
    case _ => ""
  }

  /** The accidental pass on one child: a pitched note shows the accidental
      of its `<alter>`, and none when it has no `<alter>` or the alter names
      none; every other child is left as it is. */
  function SyncAccidental(c: Child): (r: Child)
    ensures !(c.NoteElem? && c.note.pitch.Some?) ==> r == c
    ensures c.NoteElem? && c.note.pitch.Some? ==>
      r == c.(note := c.note.(accidental :=
        var name := AccidentalName(AlterOf(c.note.pitch.value));
        if c.note.pitch.value.alter.Some? && name != "" then Some(name) else None))
  {
    if c.NoteElem? && c.note.pitch.Some? then
      var p := c.note.pitch.value;
      if p.alter.Some? then
        var name := AccidentalName(ParseInt(OrDefault(p.alter.value, "0")));
        if name != "" then c.(note := c.note.(accidental := Some(name)))
        else c.(note := c.note.(accidental := None))
      else c.(note := c.note.(accidental := None))
    else c
  }

  // ---------------------------------------------------------------------------
  // transposeMusicXML

  /** transposeMusicXML with the key signatures moved by `delta` fifths:
      nothing happens for 0 semitones; a document with a pitch that cannot be
      read comes back unchanged (the source's exception handler returns its
      input); otherwise key signatures, then pitches, then accidentals are
      rewritten. The source passes FifthsDeltaAsWritten(s) as `delta`. */
  function Transposed(d: Score, s: int, delta: int): (r: Score)
    ensures s == 0 || !Transposable(d) ==> r == d
    ensures r.parseError == d.parseError && r.scoreParts == d.scoreParts && SameShape(d, r)
  {
    if s == 0 || !Transposable(d) then d
    else MapScore(MapScore(MapScore(d, KeyRewriter(delta)), PitchRewriter(s)), SyncAccidental)
  }

  /** A loop over every child that finds an unreadable pitch. */
  method CheckPitches(d: Score) returns (ok: bool)
    ensures ok == Transposable(d)
  {
    var i := 0;
    while i < |d.parts|
      invariant 0 <= i <= |d.parts|
      invariant forall i' :: 0 <= i' < i ==> ReadableMeasures(d.parts[i'].measures)
    {
      var ms := d.parts[i].measures;
      var j := 0;
      while j < |ms|
        invariant 0 <= j <= |ms|
        invariant forall j', k :: 0 <= j' < j && 0 <= k < |ms[j'].children| ==> !Unreadable(ms[j'].children[k])
      {
        var cs := ms[j].children;
        var k := 0;
        while k < |cs|
          invariant 0 <= k <= |cs|
          invariant forall k' :: 0 <= k' < k ==> !Unreadable(cs[k'])
        {
          if Unreadable(cs[k]) {
            return false;
          }
          k := k + 1;
        }
        j := j + 1;
      }
      i := i + 1;
    }
    return true;
  }

  /** transposeMusicXML, with the semitone-to-fifths table as written. */
  method TransposeMusicXML(d: Score, s: int) returns (r: Score)
    ensures r == Transposed(d, s, FifthsDeltaAsWritten(s))
  {
    if s == 0 {
      return d;
    }
    // The key pass cannot fail, so checking the pitches first gives the same result.
    var ok := CheckPitches(d);
    if !ok {
      return d;
    }
    var keyed := RewriteScore(d, KeyRewriter(FifthsDeltaAsWritten(s)));
    var pitched := RewriteScore(keyed, PitchRewriter(s));
    r := RewriteScore(pitched, SyncAccidental);
  }

  // ---------------------------------------------------------------------------
  // removePositionsFromXML

  /** Every lyric that is not a position marker, with its number set to "1". */
  function StripLyrics(ls: seq<Lyric>): (r: seq<Lyric>)
    ensures |r| <= |ls|
    ensures forall l :: l in r ==> !TrombonePosition.IsMarker(l) && l.number == Some("1")
    ensures forall l :: l in r ==> exists m :: m in ls && !TrombonePosition.IsMarker(m) && l == m.(number := Some("1"))
  {
    if ls == [] then []
    else
      var init := StripLyrics(ls[..|ls| - 1]);
      var l := ls[|ls| - 1];
      assert forall m :: m in ls[..|ls| - 1] ==> m in ls;
      if TrombonePosition.IsMarker(l) then init else init + [l.(number := Some("1"))]
  }

  /** The strip on one child: only a note's lyrics can change. */
  function StripChild(c: Child): (r: Child)
    ensures r.NoteElem? <==> c.NoteElem?
    ensures !c.NoteElem? ==> r == c
    ensures c.NoteElem? ==> r.note.(lyrics := c.note.lyrics) == c.note
  {
    if c.NoteElem? then c.(note := c.note.(lyrics := StripLyrics(c.note.lyrics))) else c
  }

  /** Figured-bass elements are removed outright. */
  function KeepChild(c: Child): bool {
    !c.FiguredBassElem?
  }

  /** removePositionsFromXML: the document without figured-bass elements and
      position markers, every other lyric back at number "1". */
  function StripScore(d: Score): (r: Score)
    ensures r.parseError == d.parseError && r.scoreParts == d.scoreParts
    ensures |r.parts| == |d.parts|
  {
    MapScore(FilterScore(d, KeepChild), StripChild)
  }

  method RemovePositionsFromXML(d: Score) returns (r: Score)
    ensures r == StripScore(d)
  {
    var kept := RemoveFromScore(d, KeepChild);
    r := RewriteScore(kept, StripChild);
  }

  // ---------------------------------------------------------------------------
  // transpose and transposeToKey

  /** transpose on the document it reads: markers are always stripped, and
      the result is transposed, with the table as written, only for a
      non-zero shift. */
  function Transpose(d: Score, s: int): (r: Score)
    ensures s == 0 ==> r == StripScore(d)
    ensures !Transposable(StripScore(d)) ==> r == StripScore(d)
    ensures r.parseError == d.parseError && r.scoreParts == d.scoreParts && SameShape(StripScore(d), r)
  {
    var clean := StripScore(d);
    if s != 0 then Transposed(clean, s, FifthsDeltaAsWritten(s)) else clean
  }

  /** transposeToKey: transpose by the shorter distance between the keys;
      for the same key, or a name calculateSemitones does not know, the
      markers are only stripped. */
  function TransposeToKey(d: Score, newKey: string, currentKey: string): (r: Score)
    ensures NormalizeKey(currentKey) == NormalizeKey(newKey) ==> r == StripScore(d)
    ensures KeyIndex(NormalizeKey(currentKey)) == -1 || KeyIndex(NormalizeKey(newKey)) == -1 ==> r == StripScore(d)
  {
    Transpose(d, CalculateSemitones(currentKey, newKey))
  }
}

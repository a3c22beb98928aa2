/** What the loader's transforms promise: key names and distances, the
    key-signature table, exact pitch shifts and their inverse, accidentals
    matching alters, and a strip that leaves no markers. */
module LoaderProperties {
  import opened Wrappers
  import opened JsText
  import opened MusicXml
  import opened KeyNames
  import opened ScoreLoader
  import TrombonePosition

  // ---------------------------------------------------------------------------
  // Key names

  /** A two-letter name whose first letter differs from the pattern's is not replaced. */
  lemma ReplaceMismatch(s: string, pattern: string, replacement: string)
    requires |s| == 2 && |pattern| == 2 && s[0] != pattern[0]
    ensures ReplaceFirst(s, pattern, replacement) == s
  {
    assert s[..2] != pattern by {
      assert s[..2][0] == s[0];
    }
    assert FirstIndexOf(s[1..], pattern).None?;
  }

  lemma ReplaceWhole(s: string, replacement: string)
    ensures ReplaceFirst(s, s, replacement) == replacement
  {
    assert s[..|s|] == s;
    assert FirstIndexOf(s, s) == Some(0);
  }

  /** The five flat names are read as their sharp equivalents. */
  lemma FlatsAsSharps()
    ensures NormalizeKey("Bb") == "A#"
    ensures NormalizeKey("Eb") == "D#"
    ensures NormalizeKey("Ab") == "G#"
    ensures NormalizeKey("Db") == "C#"
    ensures NormalizeKey("Gb") == "F#"
  {
    NormalizeBb();
    NormalizeEb();
    NormalizeAb();
    NormalizeDb();
    NormalizeGb();
  }

  /** After the rewrite there is no flat sign left for the later patterns. */
  lemma RestUnchanged(k: string)
    requires 'b' !in k
    ensures ReplaceFirst(k, "Eb", "D#") == k && ReplaceFirst(k, "Ab", "G#") == k
    ensures ReplaceFirst(k, "Db", "C#") == k && ReplaceFirst(k, "Gb", "F#") == k
  {
    ReplaceAbsent(k, "Eb", "D#");
    ReplaceAbsent(k, "Ab", "G#");
    ReplaceAbsent(k, "Db", "C#");
    ReplaceAbsent(k, "Gb", "F#");
  }

  lemma NormalizeBb()
    ensures NormalizeKey("Bb") == "A#"
  {
    ReplaceWhole("Bb", "A#");
    RestUnchanged("A#");
  }

  lemma NormalizeEb()
    ensures NormalizeKey("Eb") == "D#"
  {
    ReplaceMismatch("Eb", "Bb", "A#");
    ReplaceWhole("Eb", "D#");
    RestUnchanged("D#");
  }

  lemma NormalizeAb()
    ensures NormalizeKey("Ab") == "G#"
  {
    ReplaceMismatch("Ab", "Bb", "A#");
    ReplaceMismatch("Ab", "Eb", "D#");
    ReplaceWhole("Ab", "G#");
    RestUnchanged("G#");
  }

  lemma NormalizeDb()
    ensures NormalizeKey("Db") == "C#"
  {
    ReplaceMismatch("Db", "Bb", "A#");
    ReplaceMismatch("Db", "Eb", "D#");
    ReplaceMismatch("Db", "Ab", "G#");
    ReplaceWhole("Db", "C#");
    RestUnchanged("C#");
  }

  lemma NormalizeGb()
    ensures NormalizeKey("Gb") == "F#"
  {
    ReplaceMismatch("Gb", "Bb", "A#");
    ReplaceMismatch("Gb", "Eb", "D#");
    ReplaceMismatch("Gb", "Ab", "G#");
    ReplaceMismatch("Gb", "Db", "C#");
    ReplaceWhole("Gb", "F#");
  }

  /** "Cb" is left as it is by the normalisation, and is not a known name. */
  lemma FlatCNormal()
    ensures NormalizeKey("Cb") == "Cb" && KeyIndex(NormalizeKey("Cb")) == -1
  {
    ReplaceMismatch("Cb", "Bb", "A#");
    ReplaceMismatch("Cb", "Eb", "D#");
    ReplaceMismatch("Cb", "Ab", "G#");
    ReplaceMismatch("Cb", "Db", "C#");
    ReplaceMismatch("Cb", "Gb", "F#");
  }

  /** "Cb", which detectKeyFromXML reports for seven flats, is not a name
      calculateSemitones knows, so every distance from or to it is 0. */
  lemma FlatCUnknown(k: string)
    ensures NormalizeKey("Cb") == "Cb"
    ensures CalculateSemitones("Cb", k) == 0 && CalculateSemitones(k, "Cb") == 0
  {
    FlatCNormal();
  }

  /** A sharp name is its own normal form. */
  lemma SharpNameKnown(k: string)
    requires k in SharpKeys
    ensures NormalizeKey(k) == k && KeyIndex(NormalizeKey(k)) >= 0
  {
    assert 'b' !in k;
    NormalizeKeyNoFlat(k);
  }

  /** A name without a flat sign is its own normal form: none of the five
      patterns can occur in it. */
  lemma NormalizeKeyNoFlat(k: string)
    requires 'b' !in k
    ensures NormalizeKey(k) == k
  {
    ReplaceAbsent(k, "Bb", "A#");
    ReplaceAbsent(k, "Eb", "D#");
    ReplaceAbsent(k, "Ab", "G#");
    ReplaceAbsent(k, "Db", "C#");
    ReplaceAbsent(k, "Gb", "F#");
  }

  /** Every name detectKeyFromXML reports, except "Cb", is one that
      calculateSemitones knows. */
  lemma DetectedNameKnown(k: string)
    requires k in FifthsNames && k != "Cb"
    ensures KeyIndex(NormalizeKey(k)) >= 0
  {
    if k == "Gb" {
      NormalizeGb();
      SharpNameKnown("F#");
    } else if k == "Db" {
      NormalizeDb();
      SharpNameKnown("C#");
    } else if k == "Ab" {
      NormalizeAb();
      SharpNameKnown("G#");
    } else if k == "Eb" {
      NormalizeEb();
      SharpNameKnown("D#");
    } else if k == "Bb" {
      NormalizeBb();
      SharpNameKnown("A#");
    } else {
      assert k in SharpKeys;
      SharpNameKnown(k);
    }
  }

  /** At the tritone the direct difference is kept: "C" to "F#" goes up six
      semitones and "F#" to "C" goes down six. */
  lemma TritoneDirection()
    ensures CalculateSemitones("C", "F#") == 6 && CalculateSemitones("F#", "C") == -6
  {
    NormalizeKeyNoFlat("C");
    NormalizeKeyNoFlat("F#");
    var fs: string := "F#";
    assert |fs| == 2 && fs[0] == 'F';
    assert fs != "C" && fs != "D" && fs != "E" && fs != "F";
    assert fs != "C#" && fs != "D#" by {
      assert "C#"[0] == 'C' && "D#"[0] == 'D';
    }
    assert KeyIndex("C") == 0 && KeyIndex(fs) == 6;
    assert CalculateSemitones("C", "F#") == ShorterDistance(0, 6);
    assert CalculateSemitones("F#", "C") == ShorterDistance(6, 0);
  }

  /** Swapping the two keys negates the distance; a key is 0 from itself. */
  lemma CalculateSemitonesAntisymmetric(a: string, b: string)
    ensures CalculateSemitones(a, b) == -CalculateSemitones(b, a)
    ensures CalculateSemitones(a, a) == 0
  {
  }

  /** Two names with the same normal form are at the same distance from, and
      to, any key. */
  lemma SameNormalForm(a: string, b: string, k: string)
    requires NormalizeKey(a) == NormalizeKey(b)
    ensures CalculateSemitones(a, k) == CalculateSemitones(b, k)
    ensures CalculateSemitones(k, a) == CalculateSemitones(k, b)
  {
  }

  /** A name whose normal form is a sharp name measures as that sharp name. */
  lemma MeasuresAs(flat: string, sharp: string, k: string)
    requires sharp in SharpKeys && NormalizeKey(flat) == sharp
    ensures CalculateSemitones(flat, k) == CalculateSemitones(sharp, k)
    ensures CalculateSemitones(k, flat) == CalculateSemitones(k, sharp)
  {
    SharpNameKnown(sharp);
    SameNormalForm(flat, sharp, k);
  }

  // ---------------------------------------------------------------------------
  // Key signatures

  /** The source's table sends -1 semitone to -5 fifths, which is the key a
      semitone up (C major becomes D-flat major), while the notes move a
      semitone down (C4 becomes B3); 5 fifths, B major, is the key a semitone
      down, as the entry for 11 semitones has it. */
  lemma FifthsDeltaAsWrittenMisses()
    ensures FifthsDeltaAsWritten(-1) == -5 && (7 * FifthsDeltaAsWritten(-1)) % 12 == 1
    ensures FifthsNames[FifthsDeltaAsWritten(-1) + 7] == "Db"
    ensures SpellPitch(4 * 12 - 1) == Pitch(Some("B"), None, Some("3"))
    ensures FifthsDelta(-1) == 5 && (7 * FifthsDelta(-1)) % 12 == 11 && FifthsNames[FifthsDelta(-1) + 7] == "B"
    ensures forall s :: -6 <= s <= 11 && s != -1 ==> FifthsDeltaAsWritten(s) == FifthsDelta(s)
  {
    assert NumberText(Int(3)) == "3";
  }

  /** Moving a signature by a number of fifths whose 7-fold is congruent to
      `s` moves its major key by `s` semitones: one fifth is 7 semitones. */
  lemma FifthsMoveKey(v: int, delta: int, s: int)
    requires (7 * delta - s) % 12 == 0
    ensures (7 * TransposeFifths(Int(v), delta).value - 7 * v - s) % 12 == 0
  {
    var w := TransposeFifths(Int(v), delta).value;
    ScaleCongruence(w - v - delta, 7 * delta - s);
  }

  /** Moving a signature by FifthsDelta(s) fifths moves its major key by
      `s` semitones. */
  lemma TransposeFifthsMovesKey(v: int, s: int)
    requires -6 <= s <= 11
    ensures (7 * TransposeFifths(Int(v), FifthsDelta(s)).value - 7 * v - s) % 12 == 0
  {
    FifthsMoveKey(v, FifthsDelta(s), s);
  }

  /** With the table as written, the same holds for every shift but -1. */
  lemma AsWrittenMovesKey(v: int, s: int)
    requires -6 <= s <= 11 && s != -1
    ensures (7 * TransposeFifths(Int(v), FifthsDeltaAsWritten(s)).value - 7 * v - s) % 12 == 0
  {
    FifthsMoveKey(v, FifthsDeltaAsWritten(s), s);
  }

  lemma ScaleCongruence(x: int, y: int)
    requires x % 12 == 0 && y % 12 == 0
    ensures (7 * x + y) % 12 == 0
  {
    var q := x / 12;
    var q' := y / 12;
    assert 7 * x + y == 12 * (7 * q + q');
  }

  /** The new signature is written as text that parses back to its value
      ("NaN" for one that did not parse). */
  lemma SignatureTextReadsBack(k: Key, delta: int)
    requires k.fifths.Some?
    ensures TransposeKey(k, delta).fifths.Some?
    ensures ParseInt(OrDefault(TransposeKey(k, delta).fifths.value, "0"))
         == TransposeFifths(ParseInt(OrDefault(k.fifths.value, "0")), delta)
  {
    var now := TransposeFifths(ParseInt(OrDefault(k.fifths.value, "0")), delta);
    var text := NumberText(now);
    assert TransposeKey(k, delta).fifths == Some(text);
    assert OrDefault(text, "0") == text;
    match now
    case NaN =>
      ParseIntOfNaNText();
    case Int(w) =>
      ParseIntOfNumberText(w);
  }

  function KeyFn(delta: int): Key -> Key {
    k => TransposeKey(k, delta)
  }

  function SameKey(k: Key): Key {
    k
  }

  lemma MapSameKeys(ks: seq<Key>)
    ensures MapKeys(ks, SameKey) == ks
  {
    var r := MapKeys(ks, SameKey);
    forall n | 0 <= n < |ks|
      ensures r[n] == ks[n]
    {
      assert r[n] == SameKey(ks[n]);
    }
  }

  /** The key signatures of the transposed document are those of the input,
      each moved by TransposeKey, in the same order. */
  lemma KeysAfterTranspose(d: Score, s: int, delta: int)
    requires s != 0 && Transposable(d)
    ensures ScoreKeys(Transposed(d, s, delta)) == MapKeys(ScoreKeys(d), KeyFn(delta))
  {
    forall c: Child
      ensures ChildKeys(KeyRewriter(delta)(c)) == MapKeys(ChildKeys(c), KeyFn(delta))
    {
    }
    forall c: Child
      ensures ChildKeys(PitchRewriter(s)(c)) == MapKeys(ChildKeys(c), SameKey)
    {
      MapSameKeys(ChildKeys(c));
    }
    forall c: Child
      ensures ChildKeys(SyncAccidental(c)) == MapKeys(ChildKeys(c), SameKey)
    {
      MapSameKeys(ChildKeys(c));
    }
    var keyed := MapScore(d, KeyRewriter(delta));
    var pitched := MapScore(keyed, PitchRewriter(s));
    ScoreKeysMapped(d, KeyRewriter(delta), KeyFn(delta));
    ScoreKeysMapped(keyed, PitchRewriter(s), SameKey);
    ScoreKeysMapped(pitched, SyncAccidental, SameKey);
    MapSameKeys(ScoreKeys(keyed));
    MapSameKeys(ScoreKeys(pitched));
  }

  lemma {:induction false} FirstFifthsMapped(ks: seq<Key>, delta: int)
    ensures FirstFifths(MapKeys(ks, KeyFn(delta)))
         == match FirstFifths(ks)
            case None => None
            case Some(t) => Some(NumberText(TransposeFifths(ParseInt(OrDefault(t, "0")), delta)))
  {
    if ks != [] {
      assert MapKeys(ks, KeyFn(delta))[1..] == MapKeys(ks[1..], KeyFn(delta));
      FirstFifthsMapped(ks[1..], delta);
    }
  }

  /** The first signature of the transposed document is the first one of
      the input, moved by `delta` fifths and written back as text. */
  lemma FirstFifthsAfterTranspose(d: Score, s: int, delta: int, text: string)
    requires s != 0 && Transposable(d)
    requires FirstFifths(ScoreKeys(d)) == Some(text)
    ensures FirstFifths(ScoreKeys(Transposed(d, s, delta)))
         == Some(NumberText(TransposeFifths(ParseInt(OrDefault(text, "0")), delta)))
  {
    KeysAfterTranspose(d, s, delta);
    FirstFifthsMapped(ScoreKeys(d), delta);
  }

  /** A signature written back from a number in range names that number's key. */
  lemma KeyOfNumberText(w: int)
    requires -7 <= w <= 7
    ensures KeyOfFifths(NumberText(Int(w))) == FifthsNames[w + 7]
  {
    ParseIntOfNumberText(w);
    assert OrDefault(NumberText(Int(w)), "0") == NumberText(Int(w));
  }

  /** A document whose first signature reads as `v` fifths is detected in
      the major key of `v`. */
  lemma DetectedFromFirst(d: Score, text: string, v: int)
    requires FirstFifths(ScoreKeys(d)) == Some(text)
    requires ParseInt(OrDefault(text, "0")) == Int(v) && -7 <= v <= 7
    ensures DetectKeyFromXML(d) == FifthsNames[v + 7]
  {
    assert DetectKeyFromXML(d) == KeyOfFifths(text);
  }

  /** A document whose first signature does not read as a number in [-7, 7]
      is detected as "C". */
  lemma DetectedDefault(d: Score, text: string)
    requires FirstFifths(ScoreKeys(d)) == Some(text)
    requires !(ParseInt(OrDefault(text, "0")).Int? && -7 <= ParseInt(OrDefault(text, "0")).value <= 7)
    ensures DetectKeyFromXML(d) == "C"
  {
    assert DetectKeyFromXML(d) == KeyOfFifths(text);
  }

  /** The key detected after moving the signatures by `delta` fifths is the
      detected key moved by `delta` fifths, folded into [-7, 7]. */
  lemma DetectAfterShift(d: Score, s: int, delta: int, text: string, v: int)
    requires s != 0 && Transposable(d) && -12 <= delta <= 12
    requires FirstFifths(ScoreKeys(d)) == Some(text)
    requires ParseInt(OrDefault(text, "0")) == Int(v) && -7 <= v <= 7
    ensures DetectKeyFromXML(d) == FifthsNames[v + 7]
    ensures var w := TransposeFifths(Int(v), delta).value;
      && -7 <= w <= 7
      && DetectKeyFromXML(Transposed(d, s, delta)) == FifthsNames[w + 7]
      && (w - v - delta) % 12 == 0
  {
    var w := TransposeFifths(Int(v), delta).value;
    assert -7 <= TransposeFifths(Int(v), delta).value <= 7;
    assert (TransposeFifths(Int(v), delta).value - v - delta) % 12 == 0;
    DetectedFromFirst(d, text, v);
    FirstFifthsAfterTranspose(d, s, delta, text);
    KeyOfNumberText(w);
    assert DetectKeyFromXML(Transposed(d, s, delta)) == KeyOfFifths(NumberText(Int(w)));
  }

  /** Moving the signatures by `delta` fifths, where 7 times `delta` is `k`
      modulo 12, moves the detected major key by `k` semitones. */
  lemma DetectAfterMove(d: Score, s: int, delta: int, k: int, text: string, v: int)
    requires s != 0 && Transposable(d) && -12 <= delta <= 12 && (7 * delta - k) % 12 == 0
    requires FirstFifths(ScoreKeys(d)) == Some(text)
    requires ParseInt(OrDefault(text, "0")) == Int(v) && -7 <= v <= 7
    ensures var w := TransposeFifths(Int(v), delta).value;
      && DetectKeyFromXML(Transposed(d, s, delta)) == FifthsNames[w + 7]
      && (7 * w - 7 * v - k) % 12 == 0
  {
    FifthsMoveKey(v, delta, k);
    DetectAfterShift(d, s, delta, text, v);
  }

  /** With the corrected table, the key detected after a transposition by
      `s` is the detected key moved by `s` semitones. */
  lemma DetectAfterTranspose(d: Score, s: int, text: string, v: int)
    requires s != 0 && Transposable(d) && -6 <= s <= 11
    requires FirstFifths(ScoreKeys(d)) == Some(text)
    requires ParseInt(OrDefault(text, "0")) == Int(v) && -7 <= v <= 7
    ensures DetectKeyFromXML(d) == FifthsNames[v + 7]
    ensures var w := TransposeFifths(Int(v), FifthsDelta(s)).value;
      && DetectKeyFromXML(Transposed(d, s, FifthsDelta(s))) == FifthsNames[w + 7]
      && (7 * w - 7 * v - s) % 12 == 0
  {
    DetectAfterShift(d, s, FifthsDelta(s), text, v);
    TransposeFifthsMovesKey(v, s);
  }

  /** With the table as written, the detected key follows every shift from
      -6 to 11 except -1, the entry the table gets wrong. */
  lemma DetectAfterTransposeAsWritten(d: Score, s: int, text: string, v: int)
    requires s != 0 && s != -1 && Transposable(d) && -6 <= s <= 11
    requires FirstFifths(ScoreKeys(d)) == Some(text)
    requires ParseInt(OrDefault(text, "0")) == Int(v) && -7 <= v <= 7
    ensures var w := TransposeFifths(Int(v), FifthsDeltaAsWritten(s)).value;
      && DetectKeyFromXML(Transposed(d, s, FifthsDeltaAsWritten(s))) == FifthsNames[w + 7]
      && (7 * w - 7 * v - s) % 12 == 0
  {
    DetectAfterMove(d, s, FifthsDeltaAsWritten(s), s, text, v);
  }

  /** With the table as written, a transposition by -1, where every note
      moves a semitone down, moves the detected key a semitone up. */
  lemma DetectAfterDownAsWritten(d: Score, text: string, v: int)
    requires Transposable(d)
    requires FirstFifths(ScoreKeys(d)) == Some(text)
    requires ParseInt(OrDefault(text, "0")) == Int(v) && -7 <= v <= 7
    ensures var w := TransposeFifths(Int(v), FifthsDeltaAsWritten(-1)).value;
      && DetectKeyFromXML(Transposed(d, -1, FifthsDeltaAsWritten(-1))) == FifthsNames[w + 7]
      && (7 * w - 7 * v - 1) % 12 == 0
  {
    DetectAfterMove(d, -1, FifthsDeltaAsWritten(-1), 1, text, v);
  }

  /** On a C major document, the source's transposition by -1 writes the
      signature of D-flat major, five flats. */
  lemma AsWrittenDownASemitone(d: Score)
    requires Transposable(d) && FirstFifths(ScoreKeys(d)) == Some("0")
    ensures DetectKeyFromXML(d) == "C"
    ensures FirstFifths(ScoreKeys(Transposed(d, -1, FifthsDeltaAsWritten(-1)))) == Some("-5")
    ensures DetectKeyFromXML(Transposed(d, -1, FifthsDeltaAsWritten(-1))) == "Db"
    ensures DetectKeyFromXML(Transposed(d, -1, FifthsDelta(-1))) == "B"
  {
    assert FifthsDeltaAsWritten(-1) == -5 && FifthsDelta(-1) == 5;
    assert FifthsNames[7] == "C" && FifthsNames[2] == "Db" && FifthsNames[12] == "B";
    assert NumberText(Int(0)) == "0" && NumberText(Int(-5)) == "-5";
    ParseIntOfNumberText(0);
    assert ParseInt(OrDefault("0", "0")) == Int(0);
    DetectedFromFirst(d, "0", 0);
    assert TransposeFifths(Int(0), -5) == Int(-5) && TransposeFifths(Int(0), 5) == Int(5);
    FirstFifthsAfterTranspose(d, -1, -5, "0");
    DetectAfterShift(d, -1, -5, "0", 0);
    DetectAfterShift(d, -1, 5, "0", 0);
  }

  // ---------------------------------------------------------------------------
  // Pitches

  lemma UnitTexts()
    ensures NumberText(Int(1)) == "1" && NumberText(Int(-1)) == "-1"
  {
    assert DigitChar(1) == '1';
  }

  /** The `<alter>` a spelling writes, read back. */
  lemma SpelledAlterReadsBack(alter: int)
    requires -1 <= alter <= 1
    ensures var q := Pitch(None, if alter != 0 then Some(NumberText(Int(alter))) else None, None);
      && AlterOf(q) == Int(alter)
      && (q.alter == None || q.alter == Some("1") || q.alter == Some("-1"))
      && (q.alter.Some? <==> alter != 0)
  {
    UnitTexts();
    if alter != 0 {
      ParseIntOfNumberText(alter);
    }
  }

  /** The semitone count of a pitch from the values its three texts read as. */
  lemma AbsoluteFromParts(p: Pitch, base: int, alter: int, octave: int)
    requires Transposes(p)
    requires TrombonePosition.StepBase(OrDefault(p.step.value, "C")) == Some(base)
    requires AlterOf(p) == Int(alter) && ParseInt(OrDefault(p.octave.value, "4")) == Int(octave)
    ensures AbsoluteSemitone(p) == Some(base + alter + 12 * octave)
  {
  }

  /** A spelled pitch reads back as the semitone count it was spelled from,
      with an `<alter>` of "1" or "-1" present exactly when the alter is not 0. */
  lemma SpellPitchReadsBack(total: int)
    ensures var q := SpellPitch(total);
      && Transposes(q)
      && AbsoluteSemitone(q) == Some(total)
      && (q.alter == None || q.alter == Some("1") || q.alter == Some("-1"))
      && (q.alter.Some? <==> AlterOf(q) != Int(0))
  {
    var pc := total % 12;
    var octave := total / 12;
    var (step, alter) := Spelling(pc);
    var alterText := if alter != 0 then Some(NumberText(Int(alter))) else None;
    var octaveText := NumberText(Int(octave));
    var q := SpellPitch(total);
    assert q == Pitch(Some(step), alterText, Some(octaveText));
    SpelledAlterReadsBack(alter);
    assert AlterOf(q) == AlterOf(Pitch(None, alterText, None));
    assert AlterOf(q) == Int(alter);
    ParseIntOfNumberText(octave);
    assert OrDefault(octaveText, "4") == octaveText;
    assert OrDefault(step, "C") == step;
    AbsoluteFromParts(q, pc - alter, alter, octave);
    assert total == (pc - alter) + alter + 12 * octave;
  }

  /** A readable pitch is respelled from its shifted semitone count. */
  lemma TransposeReadable(p: Pitch, s: int, t: int, u: int)
    requires Transposes(p) && AbsoluteSemitone(p) == Some(t) && u == t + s
    ensures TransposePitch(p, s) == Some(SpellPitch(u))
  {
    assert TransposePitch(p, s) == Some(SpellPitch(AbsoluteSemitone(p).value + s));
  }

  /** Every pitch with a step and an octave moves up by exactly `s` semitones,
      and is respelled with an alter of -1, 0 or 1, written only when it is
      not 0. */
  lemma TransposePitchShifts(p: Pitch, s: int)
    requires Transposes(p) && AbsoluteSemitone(p).Some?
    ensures TransposePitch(p, s).Some?
    ensures var q := TransposePitch(p, s).value;
      && Transposes(q)
      && AbsoluteSemitone(q).Some?
      && AbsoluteSemitone(q).value - AbsoluteSemitone(p).value == s
      && (q.alter == None || q.alter == Some("1") || q.alter == Some("-1"))
      && (q.alter.Some? <==> AlterOf(q) != Int(0))
  {
    var t := AbsoluteSemitone(p).value;
    var u := t + s;
    TransposeReadable(p, s, t, u);
    SpellPitchReadsBack(u);
  }

  /** A spelled pitch moves to the spelling of the shifted count. */
  lemma TransposeSpelled(u: int, m: int, w: int)
    requires w == u + m
    ensures TransposePitch(SpellPitch(u), m) == Some(SpellPitch(w))
  {
    SpellPitchReadsBack(u);
  }

  /** Transposing by `n` and then by `m = -n` restores the pitch's
      semitone count. */
  lemma TransposeRoundTrip(p: Pitch, n: int, m: int)
    requires Transposes(p) && AbsoluteSemitone(p).Some? && n + m == 0
    ensures TransposePitch(p, n).Some?
    ensures var q := TransposePitch(p, n).value;
      && TransposePitch(q, m).Some?
      && AbsoluteSemitone(TransposePitch(q, m).value) == AbsoluteSemitone(p)
  {
    var t := AbsoluteSemitone(p).value;
    var u := t + n;
    TransposeReadable(p, n, t, u);
    TransposeSpelled(u, m, t);
    SpellPitchReadsBack(t);
  }

  /** A pitch already in its canonical spelling comes back exactly. */
  lemma SpelledRoundTrip(t: int, n: int, m: int)
    requires n + m == 0
    ensures TransposePitch(SpellPitch(t), n).Some?
    ensures TransposePitch(TransposePitch(SpellPitch(t), n).value, m) == Some(SpellPitch(t))
  {
    var u := t + n;
    TransposeSpelled(t, n, u);
    TransposeSpelled(u, m, t);
  }

  // ---------------------------------------------------------------------------
  // Accidentals and the whole document

  /** The accidental the pass writes for a spelled alter: "sharp" for 1,
      "flat" for -1, none without an `<alter>`. */
  lemma SpelledAccidental(q: Pitch)
    requires q.alter == None || q.alter == Some("1") || q.alter == Some("-1")
    ensures (var name := AccidentalName(AlterOf(q)); if q.alter.Some? && name != "" then Some(name) else None)
         == (if q.alter == Some("1") then Some("sharp") else if q.alter == Some("-1") then Some("flat") else None)
  {
    UnitTexts();
    ParseIntOfNumberText(1);
    ParseIntOfNumberText(-1);
  }

  /** One child through the three passes. */
  function TransposeChild(c: Child, s: int, delta: int): Child {
    SyncAccidental(TransposeNotePitch(TransposeKeys(c, delta), s))
  }

  /** A readable note keeps its rest flag, voice, tie and lyrics, and a
      pitchless note is unchanged. A pitch with a step and an octave moves by
      exactly `s` semitones and shows "sharp", "flat" or no accidental to
      match its new alter; any other pitch is left alone. */
  lemma TransposeNoteEffect(c: Child, s: int, delta: int)
    requires c.NoteElem? && !Unreadable(c)
    ensures var r := TransposeChild(c, s, delta);
      && r.NoteElem?
      && r.note.(pitch := c.note.pitch, accidental := c.note.accidental) == c.note
      && (c.note.pitch.None? ==> r == c)
      && (c.note.pitch.Some? ==> r.note.pitch.Some?)
      && (c.note.pitch.Some? && !Transposes(c.note.pitch.value) ==> r.note.pitch == c.note.pitch)
      && (c.note.pitch.Some? && Transposes(c.note.pitch.value) ==>
            var p := c.note.pitch.value;
            var q := r.note.pitch.value;
            && Transposes(q)
            && AbsoluteSemitone(q).Some?
            && AbsoluteSemitone(q).value - AbsoluteSemitone(p).value == s
            && (q.alter == None || q.alter == Some("1") || q.alter == Some("-1"))
            && r.note.accidental == (if q.alter == Some("1") then Some("sharp") else if q.alter == Some("-1") then Some("flat") else None))
  {
    if c.note.pitch.Some? {
      var p := c.note.pitch.value;
      assert TransposePitch(p, 0).Some?;
      if Transposes(p) {
        TransposePitchShifts(p, s);
        var q := TransposePitch(p, s).value;
        assert TransposeChild(c, s, delta).note.pitch == Some(q);
        SpelledAccidental(q);
      }
    }
  }

  /** Every other child has only its key signatures moved. */
  lemma TransposeOtherChild(c: Child, s: int, delta: int)
    requires !c.NoteElem?
    ensures TransposeChild(c, s, delta) == TransposeKeys(c, delta)
    ensures c.AttributesElem? ==> TransposeChild(c, s, delta).instrumentName == c.instrumentName
    ensures !c.AttributesElem? ==> TransposeChild(c, s, delta) == c
  {
  }

  /** In the transposed document each child is the original child through
      the key, pitch and accidental passes, at the same place. */
  lemma TransposedAt(d: Score, s: int, delta: int, i: int, j: int, k: int)
    requires s != 0 && Transposable(d) && IsPos(d, i, j, k)
    ensures IsPos(Transposed(d, s, delta), i, j, k)
    ensures At(Transposed(d, s, delta), i, j, k) == TransposeChild(At(d, i, j, k), s, delta)
    ensures At(d, i, j, k).NoteElem? ==> !Unreadable(At(d, i, j, k))
  {
    var keyed := MapScore(d, KeyRewriter(delta));
    var pitched := MapScore(keyed, PitchRewriter(s));
    assert At(keyed, i, j, k) == TransposeKeys(At(d, i, j, k), delta);
    assert At(pitched, i, j, k) == TransposeNotePitch(At(keyed, i, j, k), s);
    assert ReadableMeasures(d.parts[i].measures);
  }

  // ---------------------------------------------------------------------------
  // Removing the position markers

  /** Every lyric that is not a marker survives the strip, at number "1". */
  lemma {:induction false} StripKeepsLyrics(ls: seq<Lyric>)
    ensures forall l :: l in ls && !TrombonePosition.IsMarker(l) ==> l.(number := Some("1")) in StripLyrics(ls)
  {
    if ls != [] {
      var init := ls[..|ls| - 1];
      StripKeepsLyrics(init);
      assert ls == init + [ls[|ls| - 1]];
    }
  }

  /** The strip of a concatenation is the strip of each side, in order: the
      surviving lyrics keep their relative order. */
  lemma {:induction false} StripLyricsAppend(a: seq<Lyric>, b: seq<Lyric>)
    ensures StripLyrics(a + b) == StripLyrics(a) + StripLyrics(b)
  {
    if b != [] {
      var b' := b[..|b| - 1];
      StripLyricsAppend(a, b');
      assert (a + b)[..|a + b| - 1] == a + b';
      assert (a + b)[|a + b| - 1] == b[|b| - 1];
    } else {
      assert a + b == a;
    }
  }

  /** Stripping twice is stripping once. */
  lemma {:induction false} StripLyricsIdempotent(ls: seq<Lyric>)
    ensures StripLyrics(StripLyrics(ls)) == StripLyrics(ls)
  {
    if ls != [] {
      var init := ls[..|ls| - 1];
      StripLyricsIdempotent(init);
      var r := StripLyrics(init);
      var l := ls[|ls| - 1];
      if !TrombonePosition.IsMarker(l) {
        var x := l.(number := Some("1"));
        assert (r + [x])[..|r|] == r;
        assert x.(number := Some("1")) == x;
      }
    }
  }

  /** After the strip no child is a figured bass, and every lyric left is a
      non-marker at number "1"; this holds for every part, trombone or not. */
  lemma StripLeavesNoMarkers(d: Score, i: int, j: int, k: int)
    requires IsPos(StripScore(d), i, j, k)
    ensures var c := At(StripScore(d), i, j, k);
      && !c.FiguredBassElem?
      && (c.NoteElem? ==> forall l :: l in c.note.lyrics ==> !TrombonePosition.IsMarker(l) && l.number == Some("1"))
  {
    var kept := FilterScore(d, KeepChild);
    assert IsPos(kept, i, j, k);
    var c := At(kept, i, j, k);
    assert c in FilterChildren(d.parts[i].measures[j].children, KeepChild);
  }

  /** Every child other than a figured bass survives the strip, with its
      lyrics stripped, in the same measure. */
  lemma StripKeepsChildren(d: Score, i: int, j: int, c: Child)
    requires 0 <= i < |d.parts| && 0 <= j < |d.parts[i].measures|
    requires c in d.parts[i].measures[j].children && KeepChild(c)
    ensures StripChild(c) in StripScore(d).parts[i].measures[j].children
  {
    var kept := FilterScore(d, KeepChild).parts[i].measures[j].children;
    assert c in kept;
    var k :| 0 <= k < |kept| && kept[k] == c;
    assert StripScore(d).parts[i].measures[j].children[k] == StripChild(c);
  }
}

# Trombone positions and MusicXML transposition, modelled in Dafny

This project models the two MusicXML transforms of a score viewer for brass players, and proves what they promise.

- **Trombone slide-position annotator** (`TrombonePositionService`). It walks every trombone part of a score. For each voice-1 note that is not the end of a tie, it:
  - looks the pitch up in an octave-specific exception table, then in the default table of slide positions;
  - builds a label (the position digit, then a newline and `#`, `b`, `##` or `bb` for an altered note);
  - moves the note's existing lyrics to verse 2;
  - appends a `pos-tb` marker lyric whenever the label differs from the last one emitted in that part.
- **Score loader** (`ScoreLoader`). It does four things:
  - reads the major key from the first `<fifths>`;
  - measures the shorter semitone distance between two key names;
  - strips the position markers and `<figured-bass>` elements;
  - transposes key signatures, pitches and accidentals by a number of semitones.

`transpose` chains the two loader transforms: it strips the markers, then transposes.

The document is the tree `DOMParser` yields, written as values (`MusicXml.Score` → parts → measures → child elements). Element text is kept as the string `textContent` returns. JavaScript's `parseInt`, `Number#toString`, `toLowerCase`, `includes` and `replace` are modelled in `JsText`, with NaN kept as a value.

The code is modelled in three forms:
- The walk of `addPositionsToXML` is a `class` with the service's two fields. Its loop methods are proved equal to a functional fold.
- The loader's loops over the document (`removePositionsFromXML`, `transposeMusicXML`) are methods proved equal to whole-document maps and filters.
- Properties are proved about those functions.

Modules:
- `Wrappers`: the `Option` type.
- `JsText`: the JavaScript string and number primitives.
- `MusicXml`: the document, and the traversals that rewrite or remove child elements.
- `KeyNames`: the twelve sharp key names.
- `TrombonePosition`: the annotator.
- `PositionProperties`: what the annotator promises.
- `ScoreLoader`: the loader.
- `LoaderProperties`: what the loader promises.
- `Pipeline`: how annotate, strip and transpose fit together.

Behaviours of the code worth knowing, each proved or built into the model:
- **Annotating twice is not idempotent.** The code never looks at existing markers, and the cursor restarts at `NONE` in every part. So a second run adds the first label's marker again (`PositionProperties.AnnotateTwiceAddsMarker`).
- **Strip after annotate does not restore lyric numbers.** The strip sets every non-marker lyric to verse `1`, whatever it was before annotation. What holds is that stripping an annotated score equals stripping the score itself (`Pipeline.StripAfterAnnotate`).
- **The accidental in a marker shares its line.** The code writes the label with its newline removed into the marker's one `<text>` (for example `5b`).
- **Recognising a trombone part.** An instrument id also counts as a trombone when it contains `tbone`.
- **Documents that fail to parse.** Only the annotator checks for `parsererror`. The strip, the transposer and the key detector work on whatever tree the parser returns.
- **The key-signature table.** Its entry for -1 semitone moves the key the wrong way; see "Findings". The transposer takes the number of fifths to add as a parameter: `TransposeMusicXML`, `Transpose` and `TransposeToKey` pass the table as written, and the corrected table is proved right beside it.

## Model

| member | source | states |
|---|---|---|
| TrombonePosition.PitchClass | src/app/services/trombone-position.service.ts:212-224 | absent exactly for a step outside C..B; NaN for a NaN alter; otherwise a value in [0, 12) congruent to base(step) + alter modulo 12 |
| TrombonePosition.GetPitchClass | src/app/services/trombone-position.service.ts:212-224 | the two normalising `while` loops compute PitchClass |
| TrombonePosition.SlidePositionForPitchClass | src/app/services/trombone-position.service.ts:129-145 | a position exactly for a pitch class 0..11, always in 1..7 |
| TrombonePosition.GetAlternatePosition | src/app/services/trombone-position.service.ts:148-186 | an exception exists only for octaves 2..5, and is a position in 1..7 |
| TrombonePosition.GetAccidentalSymbol | src/app/services/trombone-position.service.ts:227-235 | a glyph exactly for alter 1, -1, 2 or -2, made only of `#` and `b` |
| TrombonePosition.SlidePositionForNote | src/app/services/trombone-position.service.ts:189-209 | a position exactly when the step is known and the alter is a number; in 1..7; an accidental exactly when the alter is not 0 |
| TrombonePosition.ExtractNoteInfo | src/app/services/trombone-position.service.ts:238-272 | note info exactly for a non-rest with a pitch that has a step and an octave |
| TrombonePosition.RenumberLyrics | src/app/services/trombone-position.service.ts:352-361 | one lyric out for each lyric in |
| TrombonePosition.FirstAttributes | src/app/services/trombone-position.service.ts:103-106 | the first `<attributes>` child, and none when the measure has no such child |
| TrombonePosition.AnnotateScore | src/app/services/trombone-position.service.ts:275-404 | a parse-error document comes back as it was with the cursor untouched; otherwise the part list is kept and the number of parts is preserved |
| TrombonePosition.TrombonePositionService.constructor | src/app/services/trombone-position.service.ts:15-20 | no positions added, cursor `NONE` |
| TrombonePosition.TrombonePositionService.HasPositions | src/app/services/trombone-position.service.ts:706-708 | the `positionsAdded` flag |
| TrombonePosition.TrombonePositionService.RemovePositions | src/app/services/trombone-position.service.ts:677-678 | clears the flag and resets the cursor to `NONE` |
| TrombonePosition.TrombonePositionService.IsTromboneStaff | src/app/services/trombone-position.service.ts:64-124 | its loops over instrument names and ids decide TrombonePart: part name or an instrument name contains "trombone", an instrument id contains "trombone" or "tbone", or the first measure's attributes name a trombone, all lower-cased |
| TrombonePosition.TrombonePositionService.AddPositionsToChildren | src/app/services/trombone-position.service.ts:320-387 | the loop over one measure's children yields the fold AnnotateChildren from the cursor in `lastPositionText`, and leaves that field at the fold's cursor |
| TrombonePosition.TrombonePositionService.AddPositionsToMeasures | src/app/services/trombone-position.service.ts:310-388 | the loop over one part's measures yields the fold AnnotateMeasures |
| TrombonePosition.TrombonePositionService.AddPositionsToXML | src/app/services/trombone-position.service.ts:275-404 | the new document and cursor are AnnotateScore's; `positionsAdded` is set exactly when the document parsed |
| TrombonePosition.CalculateKey | src/app/services/trombone-position.service.ts:687-694 | an unknown key comes back as it is; a known key moves to the key `semitones` above it, modulo 12, for shifts of at least -12 |
| TrombonePosition.GetSemitonesFromKey | src/app/services/trombone-position.service.ts:696-704 | a distance in [0, 12), and 0 when either key is unknown |
| TrombonePosition.IndexRoundTrip | src/app/services/trombone-position.service.ts:692 | an index moved up by the upward distance to another index lands on it |
| TrombonePosition.KeyRoundTrip | src/app/services/trombone-position.service.ts:687-704 | for known keys, `calculateKey(from, getSemitonesFromKey(from, to)) == to` |
| KeyNames.KeyIndex | src/app/services/trombone-position.service.ts:688-690 | `indexOf` on the twelve sharp names: the index of a known name, -1 exactly for any other text |
| PositionProperties.SuppressAppend | src/app/services/trombone-position.service.ts:373-383 | repeat suppression on a concatenation is suppression on each half, the second half starting from the first half's last label |
| PositionProperties.SuppressHasNoRepeats | src/app/services/trombone-position.service.ts:373-383 | after suppression no label equals its predecessor, the first differs from the start cursor, and every label came from the input |
| PositionProperties.SuppressKeepsChanges | src/app/services/trombone-position.service.ts:373-383 | labels that already change at every step are all kept |
| PositionProperties.LabelShape | src/app/services/trombone-position.service.ts:367-371 | a label is the position's one digit, followed by a newline and the glyph only when the glyph is not empty |
| PositionProperties.DisplayOfLabel | src/app/services/trombone-position.service.ts:430 | the marker text is the label without its newline; no label equals `NONE` |
| PositionProperties.DisplayInjective | src/app/services/trombone-position.service.ts:430 | two labels with the same marker text are the same label |
| PositionProperties.ChildLabelsWellFormed | src/app/services/trombone-position.service.ts:364-371 | every label computed in a measure has the label form |
| PositionProperties.LabelsWellFormed | src/app/services/trombone-position.service.ts:312-388 | every label computed in a part has the label form |
| PositionProperties.AnnotateNoteEffect | src/app/services/trombone-position.service.ts:327-385 | only lyrics change. A skipped note (other voice, tie end, rest, incomplete pitch) is untouched. A processed note has every non-marker lyric at number "2" and gains one marker exactly when its label differs from the cursor, which then becomes the label. A suppressed or absent label leaves the cursor unchanged |
| PositionProperties.MarkerLayout | src/app/services/trombone-position.service.ts:414-434 | a marker has id attribute and `<id>` "pos-tb", number "1", relative-y "-30", syllabic "middle", and the label without its newline as text |
| PositionProperties.AnnotateChildAppends | src/app/services/trombone-position.service.ts:364-385 | one child gains exactly the markers of its label with repeats of the cursor suppressed |
| PositionProperties.EmitStep | src/app/services/trombone-position.service.ts:373-383 | the markers emitted for a prefix, then for the next labels from the prefix's last cursor, are those of the whole |
| PositionProperties.ChildrenEmitSuppressed | src/app/services/trombone-position.service.ts:320-387 | the lyrics a measure's notes gain are the markers of its labels with consecutive repeats suppressed; the cursor ends at the last label |
| PositionProperties.MeasuresEmitSuppressed | src/app/services/trombone-position.service.ts:312-388 | the same for a whole part, the cursor threading through its measures |
| PositionProperties.AnnotatePartsAt | src/app/services/trombone-position.service.ts:294-307 | each trombone part is annotated from `NONE`; any other part passes through |
| PositionProperties.MarkersSuppressRepeats | src/app/services/trombone-position.service.ts:294-388 | in each trombone part the markers appended are the part's labels with consecutive repeats suppressed, from `NONE`; a non-trombone part is unchanged |
| PositionProperties.FirstLabelShown | src/app/services/trombone-position.service.ts:305-306 | the first label of a trombone part always gets a marker, and no two consecutive markers are equal |
| PositionProperties.UnprocessedChildUnchanged | src/app/services/trombone-position.service.ts:327-348 | every child the walk skips (non-trombone part, not a note, other voice, tie end, rest, incomplete pitch) is unchanged, at the same place |
| PositionProperties.AnnotateChildKeepsLabel | src/app/services/trombone-position.service.ts:350-385 | the walk changes only lyrics, so a child keeps its label and an `<attributes>` child is kept as it is |
| PositionProperties.AnnotatedChildLabels | src/app/services/trombone-position.service.ts:320-387 | an annotated measure has the labels of the original |
| PositionProperties.AnnotatedMeasureLabels | src/app/services/trombone-position.service.ts:312-388 | an annotated part has the labels of the original |
| PositionProperties.FirstAttributesAlike | src/app/services/trombone-position.service.ts:105 | measures that agree on their `<attributes>` children have the same first one |
| PositionProperties.AnnotatedFirstAttributes | src/app/services/trombone-position.service.ts:103-113 | annotation keeps a measure's first `<attributes>` |
| PositionProperties.AnnotatedPartAlike | src/app/services/trombone-position.service.ts:64-124 | an annotated part is a trombone part exactly when the original was, with the same labels |
| PositionProperties.AnnotateTwiceAddsMarker | src/app/services/trombone-position.service.ts:305-306 | annotating an annotated document appends the first label's marker to a labelled trombone part again, so the second result differs from the first |
| PositionProperties.TromboneScoreIsTrombone | src/app/services/trombone-position.service.ts:73-78 | a part named "Trombone" is a trombone part |
| PositionProperties.PlainNoteInfo | src/app/services/trombone-position.service.ts:238-272 | a voice-1 note with step and octave and no alter is processed, with alter 0 |
| PositionProperties.PlainNoteLabel | src/app/services/trombone-position.service.ts:367-371 | an unaltered note's label is its position's digits alone |
| PositionProperties.ParseFour | src/app/services/trombone-position.service.ts:256 | the octave text "4" reads as 4 |
| PositionProperties.CDLabels | src/app/services/trombone-position.service.ts:168-170 | C4 is labelled "3" and D4 "1" |
| PositionProperties.OneLabel | src/app/services/trombone-position.service.ts:320-322 | a one-child measure has that child's label |
| PositionProperties.LabelsSnoc | src/app/services/trombone-position.service.ts:320-322 | a measure's labels are those of its children in order |
| PositionProperties.PairLabels | src/app/services/trombone-position.service.ts:320-322 | the labels of two children are the first's then the second's |
| PositionProperties.OneMeasureMarkers | src/app/services/trombone-position.service.ts:305-388 | a one-measure trombone score gains the markers of its labels with repeats suppressed |
| PositionProperties.RisingStep | src/app/services/trombone-position.service.ts:373-383 | C4 then D4 gain the markers "3" and "1" |
| PositionProperties.ExceptionsBeforeDefaults | src/app/services/trombone-position.service.ts:189-209 | C4, D4, E4, F4 take positions 3, 1, 2, 1 from the exception table although the defaults for C and D are 6 and 4; C6 takes the default 6 |
| PositionProperties.RepeatedNote | src/app/services/trombone-position.service.ts:373-385 | C4 twice gains one marker "3" |
| PositionProperties.OtherVoiceUnlabelled | src/app/services/trombone-position.service.ts:328-332 | a note in a voice other than "1" has no label |
| PositionProperties.OtherVoiceSkipped | src/app/services/trombone-position.service.ts:328-332 | a D4 in voice 2 after a C4 gains no marker: only "3" is emitted |
| TrombonePosition.PositionText | src/app/services/trombone-position.service.ts:367-371 | the label starts with the position's digit, and holds a newline exactly when the accidental glyph is not empty |
| TrombonePosition.NoteLabel | src/app/services/trombone-position.service.ts:327-371 | a note has a label exactly when the walk processes it (voice 1, not a tie end, readable pitch), its step is known and its alter is a number; a label starts with a digit |
| TrombonePosition.AddPositionToMeasure | src/app/services/trombone-position.service.ts:406-441 | the target note gains one lyric, last, and nothing else changes; that lyric is a marker at number "1" whose text is the label without its newline |
| TrombonePosition.AnnotateNote | src/app/services/trombone-position.service.ts:327-385 | only lyrics change; a skipped note and the cursor pass through; the cursor only moves to the note's own label; the note gains one lyric exactly when its label differs from the cursor |
| TrombonePosition.AnnotateChildren | src/app/services/trombone-position.service.ts:320-387 | one child out for each child in (the content is in ChildrenEmitSuppressed and AnnotateChildrenAt) |
| TrombonePosition.AnnotateParts | src/app/services/trombone-position.service.ts:294-389 | one part out for each part in (the content is in AnnotatePartsAt and MarkersSuppressRepeats) |
| TrombonePosition.TrombonePart | src/app/services/trombone-position.service.ts:64-70 | a part without a score-part entry is never a trombone part |
| ScoreLoader.FirstFifths | front/src/app/services/score-loader.service.ts:225 | a `<fifths>` text is found exactly when some key signature has one |
| ScoreLoader.KeyOfFifths | front/src/app/services/score-loader.service.ts:228-234 | always one of the fifteen names; the fixed name for a value that parses into [-7, 7]; "C" for NaN or any value outside [-7, 7] |
| ScoreLoader.DetectKeyFromXML | front/src/app/services/score-loader.service.ts:221-240 | one of the fifteen names, "C" when the document has no `<fifths>` |
| ScoreLoader.CalculateSemitones | front/src/app/services/score-loader.service.ts:281-298 | a value in [-6, 6]; 0 when either normalised name is unknown; otherwise congruent to the index difference modulo 12, and equal to it when it lies in [-6, 6], so "C" to "F#" is +6 and "F#" to "C" is -6 |
| ScoreLoader.ShorterDistance | front/src/app/services/score-loader.service.ts:291-297 | the shorter way round lies in [-6, 6] and is congruent to the difference; a difference already in [-6, 6], the tritone included, is kept with its sign |
| ScoreLoader.NormalizeKey | front/src/app/services/score-loader.service.ts:283-284 | the length of the name is kept |
| LoaderProperties.NormalizeKeyNoFlat | front/src/app/services/score-loader.service.ts:283-284 | a name without a flat sign is its own normal form |
| ScoreLoader.FifthsDeltaAsWritten | front/src/app/services/score-loader.service.ts:420-425 | the table as written: in [-9, 10]; 0 outside -6..11; every entry but -1 moves the major key by the shift; -1 gives -5, which moves it a semitone up |
| ScoreLoader.FifthsDelta | front/src/app/services/score-loader.service.ts:420-425 | the -1 entry corrected to 5: for -6..11 semitones, 7 times the fifths delta is congruent to the shift modulo 12; 0 for any other shift |
| ScoreLoader.TransposeFifths | front/src/app/services/score-loader.service.ts:417-432 | NaN stays NaN; a signature in [-7, 7] moved by at most 12 fifths stays in it; the change is the given fifths modulo 12; the sum is kept when it lies in [-7, 7] and otherwise moved by exactly one 12 |
| ScoreLoader.TransposeKey | front/src/app/services/score-loader.service.ts:413-434 | a `<key>` without `<fifths>` is left alone, and one with `<fifths>` keeps it |
| ScoreLoader.AbsoluteSemitone | front/src/app/services/score-loader.service.ts:445-454 | a semitone count exactly when step, alter and octave all read as numbers (missing texts default to "C" and 4) |
| ScoreLoader.Spelling | front/src/app/services/score-loader.service.ts:462-475 | each pitch class is spelled as a step whose natural semitone plus an alter in -1..1 is the class |
| ScoreLoader.SpellPitch | front/src/app/services/score-loader.service.ts:454-491 | a spelled pitch has a step and an octave, and an `<alter>` exactly when the spelling's alter is not 0 |
| ScoreLoader.TransposePitch | front/src/app/services/score-loader.service.ts:437-493 | a pitch without a step or an octave is skipped; otherwise it moves exactly when its semitone count can be read |
| ScoreLoader.TransposeNotePitch | front/src/app/services/score-loader.service.ts:437-493 | the pitch pass changes only a note's pitch, and no other child |
| ScoreLoader.AccidentalName | front/src/app/services/score-loader.service.ts:505-506 | an accidental name exactly for alter 1, -1, 2 or -2 |
| ScoreLoader.SyncAccidental | front/src/app/services/score-loader.service.ts:496-523 | a pitched note shows the accidental named by its `<alter>`, and none without one or for an alter that names none; every other child is untouched |
| ScoreLoader.Transposed | front/src/app/services/score-loader.service.ts:403-532 | with the key signatures moved by a given number of fifths: no change for 0 semitones or an unreadable pitch; otherwise the part list, parse flag and shape are kept |
| ScoreLoader.CheckPitches | front/src/app/services/score-loader.service.ts:477-478 | the loop finds a pitch whose lookup would throw exactly when the document is not Transposable |
| ScoreLoader.TransposeMusicXML | front/src/app/services/score-loader.service.ts:403-532 | the key, pitch and accidental loops compute Transposed with the table as written |
| ScoreLoader.StripLyrics | front/src/app/services/score-loader.service.ts:366-392 | no marker is left; every remaining lyric is at number "1" and is a non-marker of the input renumbered to "1" |
| ScoreLoader.StripChild | front/src/app/services/score-loader.service.ts:366-392 | the strip changes only a note's lyrics, and no other child |
| ScoreLoader.StripScore | front/src/app/services/score-loader.service.ts:352-401 | the part list and parse flag are kept, with as many parts as before |
| ScoreLoader.RemovePositionsFromXML | front/src/app/services/score-loader.service.ts:352-401 | the removal loops compute StripScore |
| ScoreLoader.Transpose | front/src/app/services/score-loader.service.ts:312-333 | a shift of 0, or a stripped document with an unreadable pitch, only strips the markers; otherwise the stripped document's part list, parse flag and shape are kept (with the table as written) |
| ScoreLoader.TransposeToKey | front/src/app/services/score-loader.service.ts:300-310 | the same key, or a name `calculateSemitones` does not know, only strips the markers |
| LoaderProperties.ReplaceMismatch | front/src/app/services/score-loader.service.ts:283 | a two-letter name starting with another letter is not replaced |
| LoaderProperties.ReplaceWhole | front/src/app/services/score-loader.service.ts:283 | a name equal to the pattern becomes the replacement |
| LoaderProperties.FlatsAsSharps | front/src/app/services/score-loader.service.ts:283-284 | Bb, Eb, Ab, Db, Gb normalise to A#, D#, G#, C#, F# |
| LoaderProperties.RestUnchanged | front/src/app/services/score-loader.service.ts:283 | once no `b` is left the later replacements do nothing |
| LoaderProperties.NormalizeBb | front/src/app/services/score-loader.service.ts:283 | Bb normalises to A# |
| LoaderProperties.NormalizeEb | front/src/app/services/score-loader.service.ts:283 | Eb normalises to D# |
| LoaderProperties.NormalizeAb | front/src/app/services/score-loader.service.ts:283 | Ab normalises to G# |
| LoaderProperties.NormalizeDb | front/src/app/services/score-loader.service.ts:283 | Db normalises to C# |
| LoaderProperties.NormalizeGb | front/src/app/services/score-loader.service.ts:283 | Gb normalises to F# |
| LoaderProperties.FlatCNormal | front/src/app/services/score-loader.service.ts:283-287 | "Cb" is not normalised and is not a known name |
| LoaderProperties.FlatCUnknown | front/src/app/services/score-loader.service.ts:281-298 | every distance from or to "Cb" is 0 |
| LoaderProperties.SharpNameKnown | front/src/app/services/score-loader.service.ts:282-287 | a sharp name is its own known normal form |
| LoaderProperties.DetectedNameKnown | front/src/app/services/score-loader.service.ts:230-233 | every detected name except "Cb" is one calculateSemitones knows |
| LoaderProperties.TritoneDirection | front/src/app/services/score-loader.service.ts:291-297 | "C" to "F#" is +6 and "F#" to "C" is -6: the tritone keeps the direct difference |
| LoaderProperties.CalculateSemitonesAntisymmetric | front/src/app/services/score-loader.service.ts:281-298 | swapping the keys negates the distance; a key is 0 from itself |
| LoaderProperties.SameNormalForm | front/src/app/services/score-loader.service.ts:283-287 | names with the same normal form measure alike |
| LoaderProperties.MeasuresAs | front/src/app/services/score-loader.service.ts:283-287 | a flat name measures as its sharp equivalent, from and to any key |
| LoaderProperties.FifthsDeltaAsWrittenMisses | front/src/app/services/score-loader.service.ts:422 | the written -1 entry moves C major to D-flat while the notes go down to B3; the corrected entry gives B major; every other entry agrees |
| LoaderProperties.FifthsMoveKey | front/src/app/services/score-loader.service.ts:425-432 | a signature moved by fifths whose 7-fold is congruent to `s` moves its major key by `s` semitones |
| LoaderProperties.TransposeFifthsMovesKey | front/src/app/services/score-loader.service.ts:420-432 | with the corrected table, the new signature's major key is `s` semitones from the old one |
| LoaderProperties.AsWrittenMovesKey | front/src/app/services/score-loader.service.ts:420-432 | with the table as written, the same holds for every shift in -6..11 except -1 |
| LoaderProperties.ScaleCongruence | front/src/app/services/score-loader.service.ts:426 | sums of multiples of 12 are multiples of 12 |
| LoaderProperties.SignatureTextReadsBack | front/src/app/services/score-loader.service.ts:417-432 | the written `<fifths>` text parses back to the new value ("NaN" to NaN) |
| LoaderProperties.MapSameKeys | front/src/app/services/score-loader.service.ts:437-523 | the pitch and accidental passes leave key signatures alone |
| LoaderProperties.KeysAfterTranspose | front/src/app/services/score-loader.service.ts:413-434 | the transposed document's signatures are the input's, each moved, in document order |
| LoaderProperties.FirstFifthsMapped | front/src/app/services/score-loader.service.ts:413-434 | the first signature after the key pass is the first one moved |
| LoaderProperties.FirstFifthsAfterTranspose | front/src/app/services/score-loader.service.ts:413-434 | the first signature of the transposed document is the input's first, moved by the given fifths and written back |
| LoaderProperties.KeyOfNumberText | front/src/app/services/score-loader.service.ts:228-234 | a written value in [-7, 7] is read as that value's key |
| LoaderProperties.DetectedFromFirst | front/src/app/services/score-loader.service.ts:225-234 | the detected key is the fixed name of the first signature's value |
| LoaderProperties.DetectedDefault | front/src/app/services/score-loader.service.ts:228-234 | a document whose first signature is NaN or outside [-7, 7] is detected as "C" |
| LoaderProperties.DetectAfterShift | front/src/app/services/score-loader.service.ts:403-434 | after moving the signatures by up to 12 fifths, the detected key is the name of the moved first signature |
| LoaderProperties.DetectAfterMove | front/src/app/services/score-loader.service.ts:403-434 | moving the signatures by fifths whose 7-fold is congruent to `k` makes the detected key the moved signature's name, a major key `k` semitones from the original |
| LoaderProperties.DetectAfterTranspose | front/src/app/services/score-loader.service.ts:403-434 | with the corrected table, after a transposition by -6..11 semitones the detected key is the name of the moved signature, whose major key is `s` semitones from the original |
| LoaderProperties.DetectAfterTransposeAsWritten | front/src/app/services/score-loader.service.ts:403-434 | with the table as written, the same holds for every shift in -6..11 except -1 |
| LoaderProperties.DetectAfterDownAsWritten | front/src/app/services/score-loader.service.ts:420-432 | with the table as written, a shift of -1 moves the detected key a semitone up |
| LoaderProperties.AsWrittenDownASemitone | front/src/app/services/score-loader.service.ts:420-432 | a C major document transposed by -1 as written gets `<fifths>` "-5" and is detected as "Db"; the corrected table gives "B" |
| LoaderProperties.UnitTexts | front/src/app/services/score-loader.service.ts:484 | alters 1 and -1 are written "1" and "-1" |
| LoaderProperties.SpelledAlterReadsBack | front/src/app/services/score-loader.service.ts:481-491 | the written `<alter>` reads back as the alter, present exactly when it is not 0 |
| LoaderProperties.AbsoluteFromParts | front/src/app/services/score-loader.service.ts:454 | the semitone count is base + alter + 12 times the octave |
| LoaderProperties.SpellPitchReadsBack | front/src/app/services/score-loader.service.ts:454-491 | a spelled pitch reads back as the count it was spelled from (octave by floor division), with an `<alter>` of "1" or "-1" exactly when the alter is not 0 |
| LoaderProperties.TransposePitchShifts | front/src/app/services/score-loader.service.ts:437-493 | every readable pitch moves by exactly `s` semitones, respelled with alter -1, 0 or 1, written only when not 0 |
| LoaderProperties.TransposeSpelled | front/src/app/services/score-loader.service.ts:454-491 | a spelled pitch moves to the spelling of the shifted count |
| LoaderProperties.TransposeRoundTrip | front/src/app/services/score-loader.service.ts:437-493 | transposing by n and then by -n restores every pitch's semitone count |
| LoaderProperties.SpelledRoundTrip | front/src/app/services/score-loader.service.ts:437-493 | a pitch already in the fixed spelling comes back exactly |
| LoaderProperties.SpelledAccidental | front/src/app/services/score-loader.service.ts:504-521 | for a spelled alter the accidental is "sharp" for 1, "flat" for -1, none otherwise |
| LoaderProperties.TransposeNoteEffect | front/src/app/services/score-loader.service.ts:437-523 | a readable note keeps everything but pitch and accidental; a pitchless note is untouched; a pitch with step and octave moves by exactly `s` and shows "sharp", "flat" or no accidental to match |
| LoaderProperties.TransposeOtherChild | front/src/app/services/score-loader.service.ts:413-434 | every other child has only its key signatures moved |
| LoaderProperties.TransposedAt | front/src/app/services/score-loader.service.ts:403-532 | each child of the transposed document is the original child through the key, pitch and accidental passes, at the same place |
| LoaderProperties.StripKeepsLyrics | front/src/app/services/score-loader.service.ts:370-378 | every non-marker lyric survives the strip, at number "1" |
| LoaderProperties.StripLyricsAppend | front/src/app/services/score-loader.service.ts:366-392 | the strip of a concatenation is the strip of each side in order, so surviving lyrics keep their order |
| LoaderProperties.StripLyricsIdempotent | front/src/app/services/score-loader.service.ts:366-392 | stripping a note's lyrics twice is stripping once |
| LoaderProperties.StripLeavesNoMarkers | front/src/app/services/score-loader.service.ts:352-401 | after the strip no child is a figured bass and every lyric is a non-marker at number "1", in every part |
| LoaderProperties.StripKeepsChildren | front/src/app/services/score-loader.service.ts:358-363 | every child other than a figured bass survives the strip in its measure |
| MusicXml.MapScore | front/src/app/services/score-loader.service.ts:437-439 | every child is rewritten in place; part list, parse flag and shape are kept |
| MusicXml.RewriteScore | front/src/app/services/score-loader.service.ts:437-493 | the loop over parts, measures and children computes MapScore |
| MusicXml.RewriteChildren | front/src/app/services/score-loader.service.ts:496-523 | the loop over a measure's children applies the rewrite to each |
| MusicXml.FilterChildren | front/src/app/services/score-loader.service.ts:358-363 | the kept children are exactly those that pass, from the input; a list kept whole is unchanged |
| MusicXml.FilterAppend | front/src/app/services/score-loader.service.ts:358-363 | filtering a concatenation filters each side and keeps them in order |
| MusicXml.FilterCount | front/src/app/services/score-loader.service.ts:358-363 | a kept child occurs as often as in the input, a removed one not at all |
| MusicXml.FilterScore | front/src/app/services/score-loader.service.ts:358-363 | removal keeps the part list, parse flag, parts and measures |
| MusicXml.RemoveChildren | front/src/app/services/score-loader.service.ts:359-363 | the removal loop over a measure computes FilterChildren |
| MusicXml.RemoveFromScore | front/src/app/services/score-loader.service.ts:358-363 | the removal loop over the document computes FilterScore |
| MusicXml.ScoreKeysMapped | front/src/app/services/score-loader.service.ts:413-415 | rewriting each child's signatures rewrites the document's `<key>` list in order |
| JsText.TrimStartSkipsSpace | front/src/app/services/score-loader.service.ts:228 | `parseInt` skips exactly a run of leading white space |
| JsText.DigitPrefixLongest | front/src/app/services/score-loader.service.ts:228 | `parseInt` reads the longest run of digits |
| JsText.ParseInt | front/src/app/services/score-loader.service.ts:228 | `parseInt` of the empty text is NaN |
| JsText.ParseIntOfDigits | front/src/app/services/score-loader.service.ts:228 | a non-empty run of digits reads as its decimal value |
| JsText.NatText | front/src/app/services/score-loader.service.ts:432 | `toString` writes digits without leading zeros |
| JsText.NumberText | front/src/app/services/score-loader.service.ts:432 | `toString` writes a non-empty text that starts with `-` exactly for a negative number |
| JsText.ToLower | src/app/services/trombone-position.service.ts:73-78 | `toLowerCase` keeps the length |
| JsText.DecimalValueOfNatText | front/src/app/services/score-loader.service.ts:432 | the written digits have the number's value |
| JsText.ParseIntOfNumberText | front/src/app/services/score-loader.service.ts:432 | a written number parses back to itself |
| JsText.ParseIntOfNaNText | front/src/app/services/score-loader.service.ts:432 | a written NaN parses back to NaN |
| JsText.FirstIndexOfFinds | front/src/app/services/score-loader.service.ts:283 | `replace` with a string pattern finds the first occurrence, and misses only when there is none |
| JsText.ReplaceFirst | front/src/app/services/score-loader.service.ts:283 | replacing with a text of the pattern's length keeps the length |
| JsText.ReplaceAbsent | front/src/app/services/score-loader.service.ts:283 | a pattern whose second letter is absent is not replaced |
| Pipeline.StripRenumbered | front/src/app/services/score-loader.service.ts:370-378 | the strip's renumbering to "1" undoes the annotator's renumbering to "2" |
| Pipeline.StripAppendedMarker | front/src/app/services/score-loader.service.ts:381-392 | an appended marker is removed again |
| Pipeline.StripAnnotatedChild | front/src/app/services/score-loader.service.ts:352-401 | an annotated child strips to the child's own strip |
| Pipeline.StripAlikeSnoc | front/src/app/services/score-loader.service.ts:352-401 | children that strip alike extend to sequences that strip alike |
| Pipeline.StripAnnotatedChildren | front/src/app/services/score-loader.service.ts:352-401 | an annotated measure strips to the measure's own strip |
| Pipeline.StripAfterAnnotate | front/src/app/services/score-loader.service.ts:352-401 | stripping an annotated document gives the strip of the document itself |
| Pipeline.TransposeIgnoresMarkers | front/src/app/services/score-loader.service.ts:312-333 | `transpose` of an annotated document equals `transpose` of the document before annotation |
| Pipeline.StripChildStable | front/src/app/services/score-loader.service.ts:352-401 | a stripped child strips to itself |
| Pipeline.StripChildrenIdempotent | front/src/app/services/score-loader.service.ts:352-401 | stripping a measure twice is stripping once |
| Pipeline.StripIdempotent | front/src/app/services/score-loader.service.ts:352-401 | removing the markers a second time changes nothing |
| Pipeline.TransposeLeavesNoMarkers | front/src/app/services/score-loader.service.ts:312-333 | whatever the shift, the document `transpose` loads has no figured bass and no marker, and every lyric is at number "1" |

## Left out

- The rendering library and its plumbing are not modelled. They are foreign and asynchronous. This covers:
  - `addPositionsToXMLScore`, `addPositionsToScore` (which also sets `positionsAdded`), `extractXMLFromOSMD`, `addPositionsToCurrentScore`, `getCurrentXML`;
  - `loadExampleScore`, `setZoom`, `getInstruments`, `setInstrumentVisibility`, `clear`;
  - every `osmd.load` / `render` call, and the loader's `osmd`, `originalXml` and `currentZoom` fields.
- `transpose` is modelled only for when the current XML is available. Its fallback to the rendering library's native transposition is not modelled.
- The SVG fallback is not modelled: `addPositionsToExample`, `setupSVGObserver` and the SVG clean-up in `removePositions`. It depends on MutationObserver, timers and floating-point screen geometry. Only the flag and cursor resets of `removePositions` are modelled.
- `loadFile` and `convertMscxToMusicXml` are not modelled. They are archive reading and lossy regular-expression rewriting of serialized text.
- XML parsing and serialization are not modelled. The document is the tree the parser yields.
  - A parse error is a flag on that tree.
  - The model does not say which tree a malformed text parses to.
  - The model does not say what the serializer writes.
- Elements are updated in place in the source. The model produces new values, so aliasing between DOM nodes is not represented.
- Only the elements the services read are represented. For a repeated child element (`<step>`, `<voice>`, `<tied>`, `<accidental>`, `<instrument-name>` in `<attributes>`), only the first is kept.
- Some elements are represented only where MusicXML places them:
  - `<figured-bass>` only as a measure child;
  - `<key>` only inside `<attributes>`;
  - `<pitch>` only inside `<note>`.

  The source searches the whole document for each of them.
- JavaScript numbers are modelled as unbounded integers or NaN. `parseInt` yields only those, so this is exact except for values beyond 2^53, where floating point loses precision.
- `toLowerCase` is modelled as ASCII case folding. For the words searched, "trombone" and "tbone", this is exact. The only non-ASCII characters that lower-case to ASCII letters are the Kelvin sign (to `k`) and the dotted capital I (to `i` plus a combining dot), and neither letter occurs in those words.
- `String#replace` is modelled for string patterns without `$`, which are the only ones the services use.
- ScoreLoader.TransposeMusicXML: it checks every pitch first, then runs the key, pitch and accidental passes. The source runs the key pass first and rolls back by returning its input when a later pitch throws. The key pass cannot throw, so the result is the same; the order of the work differs.
- ScoreLoader.FifthsDelta: this is the corrected table, used only to state what the transposer evidently intends. `TransposeMusicXML`, `Transpose` and `TransposeToKey` use `ScoreLoader.FifthsDeltaAsWritten`, as the code does; see Findings.
- ScoreLoader.StripLyrics: its contract states membership and provenance. Order and multiplicity are stated by `StripLyricsAppend`.
- ScoreLoader.NormalizeKey: its contract states only that the length is kept. That flat-free names are unchanged is `LoaderProperties.NormalizeKeyNoFlat`, and what the five flat names map to is `FlatsAsSharps`.
- JsText.ParseInt: its contract states only that the empty text is NaN. What digits, signs and white space read as is in `ParseIntOfDigits`, `ParseIntOfNumberText`, `TrimStartSkipsSpace` and `DigitPrefixLongest`.
- TrombonePosition.TrombonePart: its contract states only the bound on the part index. The five name tests are stated by `IsTromboneStaff`.
- TrombonePosition.CalculateKey: the contract says nothing for shifts below -12. There the body gives `None`, for the `undefined` a negative array index reads, except where the truncating remainder is 0.
- LoaderProperties.DetectAfterTranspose: it is stated for shifts -6..11 and a first signature that parses into [-7, 7]. For other shifts the table gives 0 and the signature does not move, as `FifthsDelta`'s contract states.
- The inverse round trips (`TransposeRoundTrip`, `SpelledRoundTrip`) take the two shifts as separate parameters with `n + m == 0`.
- The worked examples use one measure of two notes each. Longer sequences follow from `MarkersSuppressRepeats`.

## Findings

| source | as written | input that shows it | evidently intended | confidence | as-written member | corrected member |
|---|---|---|---|---|---|---|
| front/src/app/services/score-loader.service.ts:420-425 | the semitone-to-fifths table maps -1 semitone to -5 fifths | a C major score (fifths 0) transposed by -1: the notes move down (C4 becomes B3) but the signature becomes -5, D-flat major, a semitone up | 5 fifths (B major, a semitone down), as the table's own entry for 11 semitones gives; every other entry satisfies 7 times the delta congruent to the shift modulo 12 | high (not executed) | ScoreLoader.FifthsDeltaAsWritten, LoaderProperties.FifthsDeltaAsWrittenMisses, LoaderProperties.AsWrittenDownASemitone | ScoreLoader.FifthsDelta, LoaderProperties.DetectAfterTranspose |

/** The MusicXML document as the two services see it after `DOMParser` has
    read it: the part list (`score-part` elements, indexed by position), the
    parts in document order, each a sequence of measures, each measure a
    sequence of child elements. Only the elements and attributes the services
    read or write are represented; element text is kept as a string, exactly as
    `textContent` returns it. The traversals at the end model the services'
    loops over `getElementsByTagName(...)` collections, which visit elements in
    document order. */
module MusicXml {
  import opened Wrappers

  /** `<pitch>`: the text of its first `<step>`, `<alter>` and `<octave>`
      children, each absent when the element is missing. */
  datatype Pitch = Pitch(step: Option<string>, alter: Option<string>, octave: Option<string>)

  /** `<lyric>`: its `id`, `number` and `relative-y` attributes and the text of
      its first `<id>`, `<syllabic>` and `<text>` children. */
  datatype Lyric = Lyric(
    idAttr: Option<string>,
    number: Option<string>,
    relativeY: Option<string>,
    id: Option<string>,
    syllabic: Option<string>,
    text: Option<string>)

  /** `<note>`: whether it holds a `<rest>`, its pitch, the text of its first
      `<voice>`, the `type` attribute of the first `<tied>` inside its first
      `<notations>` (absent if any of these is missing), its lyrics in
      document order and the text of its first `<accidental>`. */
  datatype Note = Note(
    rest: bool,
    pitch: Option<Pitch>,
    voice: Option<string>,
    tied: Option<string>,
    lyrics: seq<Lyric>,
    accidental: Option<string>)

  /** `<key>`: the text of its `<fifths>` child. */
  datatype Key = Key(fifths: Option<string>)

  /** A child element of a `<measure>`. `<attributes>` carries its `<key>`
      elements and the text of its first `<instrument-name>`. */
  datatype Child =
    | NoteElem(note: Note)
    | AttributesElem(keys: seq<Key>, instrumentName: Option<string>)
    | FiguredBassElem
    | OtherElem(tag: string)

  datatype Measure = Measure(children: seq<Child>)

  datatype Part = Part(measures: seq<Measure>)

  /** `<score-part>` in the part list: the text of its first `<part-name>`
      and the texts of all its `<instrument-name>` and `<instrument-id>`
      descendants. */
  datatype ScorePart = ScorePart(partName: Option<string>, instrumentNames: seq<string>, instrumentIds: seq<string>)

  /** A parsed document. `parseError` records that `DOMParser` reported a
      `<parsererror>`; the parser still yields a tree in that case. */
  datatype Score = Score(parseError: bool, scoreParts: seq<ScorePart>, parts: seq<Part>)

  /** (i, j, k) names child k of measure j of part i. */
  predicate IsPos(d: Score, i: int, j: int, k: int) {
    0 <= i < |d.parts| && 0 <= j < |d.parts[i].measures| && 0 <= k < |d.parts[i].measures[j].children|
  }

  function At(d: Score, i: int, j: int, k: int): Child
    requires IsPos(d, i, j, k)
  {
    d.parts[i].measures[j].children[k]
  }

  /** Two documents with the same parts, measures and number of children in each measure. */
  predicate SameShape(a: Score, b: Score) {
    && |a.parts| == |b.parts|
    && (forall i :: 0 <= i < |a.parts| ==> |a.parts[i].measures| == |b.parts[i].measures|)
    && (forall i, j :: 0 <= i < |a.parts| && 0 <= j < |a.parts[i].measures| ==>
          |a.parts[i].measures[j].children| == |b.parts[i].measures[j].children|)
  }

  // ---------------------------------------------------------------------------
  // Rewriting every child element in place

  function MapChildren(cs: seq<Child>, f: Child -> Child): (r: seq<Child>)
    ensures |r| == |cs|
  {
    seq(|cs|, k requires 0 <= k < |cs| => f(cs[k]))
  }

  function MapMeasures(ms: seq<Measure>, f: Child -> Child): (r: seq<Measure>)
    ensures |r| == |ms|
  {
    seq(|ms|, j requires 0 <= j < |ms| => Measure(MapChildren(ms[j].children, f)))
  }

  function MapParts(ps: seq<Part>, f: Child -> Child): (r: seq<Part>)
    ensures |r| == |ps|
  {
    seq(|ps|, i requires 0 <= i < |ps| => Part(MapMeasures(ps[i].measures, f)))
  }

  /** The document after `f` has been applied to every measure child, each
      child staying where it was. */
  function MapScore(d: Score, f: Child -> Child): (r: Score)
    ensures r.parseError == d.parseError && r.scoreParts == d.scoreParts
    ensures SameShape(d, r)
    ensures forall i, j, k :: IsPos(d, i, j, k) ==> IsPos(r, i, j, k) && At(r, i, j, k) == f(At(d, i, j, k))
  {
    d.(parts := MapParts(d.parts, f))
  }

  method RewriteChildren(cs: seq<Child>, f: Child -> Child) returns (r: seq<Child>)
    ensures r == MapChildren(cs, f)
  {
    r := [];
    var k := 0;
    while k < |cs|
      invariant 0 <= k <= |cs|
      invariant |r| == k
      invariant forall n :: 0 <= n < k ==> r[n] == f(cs[n])
    {
      r := r + [f(cs[k])];
      k := k + 1;
    }
  }

  /** A loop over parts, measures and children applying `f` to each child. */
  method RewriteScore(d: Score, f: Child -> Child) returns (r: Score)
    ensures r == MapScore(d, f)
  {
    var parts: seq<Part> := [];
    var i := 0;
    while i < |d.parts|
      invariant 0 <= i <= |d.parts|
      invariant |parts| == i
      invariant forall n :: 0 <= n < i ==> parts[n] == Part(MapMeasures(d.parts[n].measures, f))
    {
      var ms := d.parts[i].measures;
      var measures: seq<Measure> := [];
      var j := 0;
      while j < |ms|
        invariant 0 <= j <= |ms|
        invariant |measures| == j
        invariant forall n :: 0 <= n < j ==> measures[n] == Measure(MapChildren(ms[n].children, f))
      {
        var children := RewriteChildren(ms[j].children, f);
        measures := measures + [Measure(children)];
        j := j + 1;
      }
      parts := parts + [Part(measures)];
      i := i + 1;
    }
    r := d.(parts := parts);
  }

  // ---------------------------------------------------------------------------
  // Removing child elements

  /** The children for which `keep` holds, in their original order: a list
      it keeps whole comes back unchanged. */
  function FilterChildren(cs: seq<Child>, keep: Child -> bool): (r: seq<Child>)
    ensures |r| <= |cs|
    ensures forall c :: c in r ==> c in cs && keep(c)
    ensures forall c :: c in cs && keep(c) ==> c in r
    ensures (forall c :: c in cs ==> keep(c)) ==> r == cs
  {
    if cs == [] then []
    else
      var init := FilterChildren(cs[..|cs| - 1], keep);
      assert cs == cs[..|cs| - 1] + [cs[|cs| - 1]];
      if keep(cs[|cs| - 1]) then init + [cs[|cs| - 1]] else init
  }

  /** Filtering a concatenation filters each side and keeps them in order. */
  lemma {:induction false} FilterAppend(a: seq<Child>, b: seq<Child>, keep: Child -> bool)
    ensures FilterChildren(a + b, keep) == FilterChildren(a, keep) + FilterChildren(b, keep)
  {
    if b != [] {
      var b' := b[..|b| - 1];
      var c := b[|b| - 1];
      FilterAppend(a, b', keep);
      assert (a + b)[..|a + b| - 1] == a + b';
      assert (a + b)[|a + b| - 1] == c;
    } else {
      assert a + b == a;
    }
  }

  /** A kept child occurs in the result as often as in the input; a
      rejected one not at all. */
  lemma {:induction false} FilterCount(cs: seq<Child>, keep: Child -> bool, c: Child)
    ensures multiset(FilterChildren(cs, keep))[c] == if keep(c) then multiset(cs)[c] else 0
  {
    if cs != [] {
      var init := cs[..|cs| - 1];
      FilterCount(init, keep, c);
      assert cs == init + [cs[|cs| - 1]];
      assert multiset(cs) == multiset(init) + multiset{cs[|cs| - 1]};
    }
  }

  function FilterScore(d: Score, keep: Child -> bool): (r: Score)
    ensures r.parseError == d.parseError && r.scoreParts == d.scoreParts
    ensures |r.parts| == |d.parts|
    ensures forall i :: 0 <= i < |d.parts| ==> |r.parts[i].measures| == |d.parts[i].measures|
  {
    var parts := seq(|d.parts|, i requires 0 <= i < |d.parts| =>
      var ms := d.parts[i].measures;
      Part(seq(|ms|, j requires 0 <= j < |ms| => Measure(FilterChildren(ms[j].children, keep)))));
    d.(parts := parts)
  }

  method RemoveChildren(cs: seq<Child>, keep: Child -> bool) returns (r: seq<Child>)
    ensures r == FilterChildren(cs, keep)
  {
    r := [];
    var k := 0;
    while k < |cs|
      invariant 0 <= k <= |cs|
      invariant r == FilterChildren(cs[..k], keep)
    {
      assert cs[..k + 1][..k] == cs[..k];
      if keep(cs[k]) {
        r := r + [cs[k]];
      }
      k := k + 1;
    }
    assert cs[..k] == cs;
  }

  /** A loop over parts and measures removing the children `keep` rejects. */
  method RemoveFromScore(d: Score, keep: Child -> bool) returns (r: Score)
    ensures r == FilterScore(d, keep)
  {
    var parts: seq<Part> := [];
    var i := 0;
    while i < |d.parts|
      invariant 0 <= i <= |d.parts|
      invariant |parts| == i
      invariant forall n :: 0 <= n < i ==> parts[n] == FilterScore(d, keep).parts[n]
    {
      var ms := d.parts[i].measures;
      var measures: seq<Measure> := [];
      var j := 0;
      while j < |ms|
        invariant 0 <= j <= |ms|
        invariant |measures| == j
        invariant forall n :: 0 <= n < j ==> measures[n] == Measure(FilterChildren(ms[n].children, keep))
      {
        var children := RemoveChildren(ms[j].children, keep);
        measures := measures + [Measure(children)];
        j := j + 1;
      }
      parts := parts + [Part(measures)];
      i := i + 1;
    }
    r := d.(parts := parts);
  }

  // ---------------------------------------------------------------------------
  // The `<key>` elements in document order

  function ChildKeys(c: Child): seq<Key> {
    if c.AttributesElem? then c.keys else []
  }

  function ChildrenKeys(cs: seq<Child>): seq<Key> {
    if cs == [] then [] else ChildrenKeys(cs[..|cs| - 1]) + ChildKeys(cs[|cs| - 1])
  }

  function MeasuresKeys(ms: seq<Measure>): seq<Key> {
    if ms == [] then [] else MeasuresKeys(ms[..|ms| - 1]) + ChildrenKeys(ms[|ms| - 1].children)
  }

  function PartsKeys(ps: seq<Part>): seq<Key> {
    if ps == [] then [] else PartsKeys(ps[..|ps| - 1]) + MeasuresKeys(ps[|ps| - 1].measures)
  }

  /** `getElementsByTagName('key')` on the whole document. */
  function ScoreKeys(d: Score): seq<Key> {
    PartsKeys(d.parts)
  }

  function MapKeys(ks: seq<Key>, g: Key -> Key): (r: seq<Key>)
    ensures |r| == |ks|
  {
    seq(|ks|, n requires 0 <= n < |ks| => g(ks[n]))
  }

  lemma MapKeysAppend(a: seq<Key>, b: seq<Key>, g: Key -> Key)
    ensures MapKeys(a + b, g) == MapKeys(a, g) + MapKeys(b, g)
  {
  }

  lemma {:induction false} ChildrenKeysMapped(cs: seq<Child>, f: Child -> Child, g: Key -> Key)
    requires forall c :: ChildKeys(f(c)) == MapKeys(ChildKeys(c), g)
    ensures ChildrenKeys(MapChildren(cs, f)) == MapKeys(ChildrenKeys(cs), g)
  {
    if cs != [] {
      var n := |cs| - 1;
      assert MapChildren(cs, f)[..n] == MapChildren(cs[..n], f);
      ChildrenKeysMapped(cs[..n], f, g);
      MapKeysAppend(ChildrenKeys(cs[..n]), ChildKeys(cs[n]), g);
    }
  }

  lemma {:induction false} MeasuresKeysMapped(ms: seq<Measure>, f: Child -> Child, g: Key -> Key)
    requires forall c :: ChildKeys(f(c)) == MapKeys(ChildKeys(c), g)
    ensures MeasuresKeys(MapMeasures(ms, f)) == MapKeys(MeasuresKeys(ms), g)
  {
    if ms != [] {
      var n := |ms| - 1;
      assert MapMeasures(ms, f)[..n] == MapMeasures(ms[..n], f);
      MeasuresKeysMapped(ms[..n], f, g);
      ChildrenKeysMapped(ms[n].children, f, g);
      MapKeysAppend(MeasuresKeys(ms[..n]), ChildrenKeys(ms[n].children), g);
    }
  }

  lemma {:induction false} PartsKeysMapped(ps: seq<Part>, f: Child -> Child, g: Key -> Key)
    requires forall c :: ChildKeys(f(c)) == MapKeys(ChildKeys(c), g)
    ensures PartsKeys(MapParts(ps, f)) == MapKeys(PartsKeys(ps), g)
  {
    if ps != [] {
      var n := |ps| - 1;
      assert MapParts(ps, f)[..n] == MapParts(ps[..n], f);
      PartsKeysMapped(ps[..n], f, g);
      MeasuresKeysMapped(ps[n].measures, f, g);
      MapKeysAppend(PartsKeys(ps[..n]), MeasuresKeys(ps[n].measures), g);
    }
  }

  /** When `f` rewrites each child's keys by `g`, the document's keys are
      rewritten by `g`, in the same order. */
  lemma ScoreKeysMapped(d: Score, f: Child -> Child, g: Key -> Key)
    requires forall c :: ChildKeys(f(c)) == MapKeys(ChildKeys(c), g)
    ensures ScoreKeys(MapScore(d, f)) == MapKeys(ScoreKeys(d), g)
  {
    PartsKeysMapped(d.parts, f, g);
  }
}

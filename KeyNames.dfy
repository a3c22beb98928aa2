/** The twelve key (pitch-class) names spelled with sharps, shared by the
    annotator's key helpers and the loader's semitone calculation. */
module KeyNames {
  /** The key names in semitone order from C. */
  const SharpKeys: seq<string> := ["C", "C#", "D", "D#", "E", "F", "F#", "G", "G#", "A", "A#", "B"]

  /** `SharpKeys.indexOf(k)`: the semitone of a known name, -1 for any other text. */
  function KeyIndex(k: string): (r: int)
    ensures -1 <= r < 12
    ensures r >= 0 ==> SharpKeys[r] == k
    ensures r == -1 <==> k !in SharpKeys
  {
    if k == "C" then 0 else if k == "C#" then 1 else if k == "D" then 2 else if k == "D#" then 3
    else if k == "E" then 4 else if k == "F" then 5 else if k == "F#" then 6 else if k == "G" then 7
    else if k == "G#" then 8 else if k == "A" then 9 else if k == "A#" then 10 else if k == "B" then 11
    else -1
  }
}

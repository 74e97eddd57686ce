/**
 The records the face classifier hands to the analysis code: one record per
 detected face, holding its bounding region and one label-to-score
 distribution per attribute category (race, gender).
 */
module FaceData {

  datatype Option<+T> = None | Some(value: T)

  /** One `(label, score)` item of a label-to-score dictionary; scores are percentages. */
  datatype Entry = Entry(name: string, score: real)

  /**
   A label-to-score dictionary, as its items in insertion order (the order
   the dictionary iterates in). The classifier never repeats a label.
   */
  type Distribution = seq<Entry>

  /** A face box in source-image pixels: top-left corner and size. */
  datatype Region = Region(x: int, y: int, w: int, h: int)

  /**
   One face as the classifier reports it. A key the classifier left out is
   an empty map (`region`), an empty distribution (`race`, `gender`) or
   `None` (the dominant-label hints).
   */
  datatype FaceRecord = FaceRecord(
    region: map<string, int>,
    race: Distribution,
    dominantRace: Option<string>,
    gender: Distribution,
    dominantGender: Option<string>)

  /** Dictionary lookup with a default of 0, as `region.get(key, 0)`. */
  function GetOrZero(m: map<string, int>, key: string): (v: int)
    ensures key in m ==> v == m[key]
    ensures key !in m ==> v == 0
  {
    if key in m then m[key] else 0
  }

  /** The region of a face, each missing coordinate read as 0. */
  function RegionOf(face: FaceRecord): (r: Region)
    ensures "x" in face.region ==> r.x == face.region["x"]
    ensures "x" !in face.region ==> r.x == 0
    ensures "y" in face.region ==> r.y == face.region["y"]
    ensures "y" !in face.region ==> r.y == 0
    ensures "w" in face.region ==> r.w == face.region["w"]
    ensures "w" !in face.region ==> r.w == 0
    ensures "h" in face.region ==> r.h == face.region["h"]
    ensures "h" !in face.region ==> r.h == 0
    ensures r.w > 0 && r.h > 0 <==>
      && "w" in face.region && face.region["w"] > 0
      && "h" in face.region && face.region["h"] > 0
  {
    Region(GetOrZero(face.region, "x"), GetOrZero(face.region, "y"),
           GetOrZero(face.region, "w"), GetOrZero(face.region, "h"))
  }

  /** A dominant-label hint, or "Unknown" when the classifier gave none. */
  function HintOrUnknown(hint: Option<string>): (shown: string)
    ensures hint.Some? ==> shown == hint.value
    ensures hint.None? ==> shown == "Unknown"
  {
    match hint
    case Some(l) => l
    case None => "Unknown"
  }
}

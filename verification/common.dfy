/** Shared data of the report generator: the optional value, the record set and
    the small values that flow between the layout, analytics and image parts. */
module Common {

  datatype Option<+T> = None | Some(value: T) {
    /** The value, or `default` when absent (Python's `dict.get(key, default)`). */
    function GetOr(default: T): T {
      match this
      case Some(v) => v
      case None => default
    }
  }

  /** One violation record as it arrives in the request: every field is kept as
      the text the report prints for it. */
  datatype Record = Record(
    id: string,
    category: string,
    imageUrl: string,
    latitude: string,
    longitude: string,
    timestamp: string)

  /** The site metadata one report build reads: the site name already has its
      underscores turned into spaces, as the report object does on creation. */
  datatype SiteMeta = SiteMeta(siteName: string, date: string, droneId: string)

  /** A decoded RGB image, as stored in the per-build image cache. */
  datatype Image = RgbImage(pixels: seq<bv8>)

  /** One row of the category frequency count: a category and how often it occurs. */
  datatype Tally = Tally(category: string, count: nat)

  /** One key/value summary card of the cover page. */
  datatype Card = Card(key: string, value: string)

  /** The `type` column of the record set, in record order. */
  function Categories(records: seq<Record>): (types: seq<string>)
    ensures |types| == |records|
    ensures forall i :: 0 <= i < |records| ==> types[i] == records[i].category
  {
    if records == [] then [] else [records[0].category] + Categories(records[1..])
  }

  /** Concatenation of sequences is associative. */
  lemma AppendAssoc<T>(a: seq<T>, b: seq<T>, c: seq<T>)
    ensures a + b + c == a + (b + c)
  {
  }
}

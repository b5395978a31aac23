/**
 * The ingestion record the upload page writes to the key/value store and the
 * result page reads back, and the key it is stored under.
 */
module Records {
  import opened JsonValues

  type Bytes = seq<bv8>

  /**
   * The object the upload page serialises with `JSON.stringify`. `feedback` is
   * `''` until the analysis reply has been parsed, then the parsed value.
   */
  datatype Record = Record(
    id: string,
    resumePath: string,
    imagePath: string,
    companyName: string,
    jobTitle: string,
    jobDescription: string,
    feedback: Json)

  const KeyPrefix: string := "resume:"

  /** The store key `resume:<id>`: the prefix followed by the identifier, unchanged. */
  function RecordKey(id: string): (k: string)
    ensures |k| == |KeyPrefix| + |id|
    ensures k[..|KeyPrefix|] == KeyPrefix && k[|KeyPrefix|..] == id
  {
    KeyPrefix + id
  }

  /** Distinct identifiers never share a key, so one run's record cannot overwrite another's. */
  lemma RecordKeyInjective(a: string, b: string)
    ensures RecordKey(a) == RecordKey(b) ==> a == b
  {
  }

  /** `URL.createObjectURL(blob)`: a "blob:" URL; the model takes the browser-chosen rest as a parameter. */
  function ObjectUrl(token: string): (url: string)
    ensures |url| >= 5 && url[..5] == "blob:"
  {
    "blob:" + token
  }
}

/**
  The answers store: one file holding a JSON array of entries. Reading it
  never fails; whatever is not a readable file that parses to an array reads
  as the empty store.
*/
module Storage {
  import opened JsValues

  /** What reading the store file yields: an error (missing, unreadable) or
      its text. */
  datatype FileState = Unreadable | Text(content: string)

  /** `readAnswers`: the stored array when the file's text parses to an
      array, and the empty sequence otherwise. */
  function ReadAnswers(file: FileState, codec: Codec): (entries: seq<Json>)
    ensures entries != [] ==> file.Text? && codec.parse(file.content) == Value(JArray(entries))
  {
    match file
    case Unreadable => []
    case Text(content) =>
      match codec.parse(content)
      case Invalid => []
      case Value(parsed) => if parsed.JArray? then parsed.items else []
  }

  /** `saveAnswers`: the file holds the text `stringify` gives for the
      array of entries. When that text parses back to the same array,
      `readAnswers` returns exactly the entries written. */
  function Saved(entries: seq<Json>, codec: Codec): (file: FileState)
    ensures file.Text?
    ensures ReadsBack(codec, JArray(entries)) ==> ReadAnswers(file, codec) == entries
    ensures !ReadsBack(codec, JArray(entries)) ==> ReadAnswers(file, codec) != entries || entries == []
  {
    Text(codec.stringify(JArray(entries)))
  }

  /** A file whose text parses to an array reads as exactly that array. */
  lemma ReadsStoredArray(file: FileState, codec: Codec, entries: seq<Json>)
    requires file.Text? && codec.parse(file.content) == Value(JArray(entries))
    ensures ReadAnswers(file, codec) == entries
  {
  }

  /** A file that is missing, does not parse, or parses to something other
      than an array reads as the empty store. */
  lemma RecoversToEmpty(file: FileState, codec: Codec)
    requires file.Unreadable?
          || codec.parse(file.content).Invalid?
          || !codec.parse(file.content).value.JArray?
    ensures ReadAnswers(file, codec) == []
  {
  }
}

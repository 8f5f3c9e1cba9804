/**
 * A `FormData` body as the list of named parts appended to it, in order.  A
 * JSON part holds the value that `JSON.stringify` serialises (the encoding
 * itself is not modelled).
 */
module Multipart {
  import opened Wrappers

  /** A browser `File`: its name and its MIME type (`file.type`). */
  datatype File = File(name: string, mimeType: string)

  datatype Part<J> =
    | JsonPart(field: string, value: J, fileName: Option<string>)
    | FilePart(field: string, file: File)

  /** The field names of a body, in order (`formData.keys()`). */
  function Fields<J>(parts: seq<Part<J>>): (r: seq<string>)
    ensures |r| == |parts|
    ensures forall i :: 0 <= i < |parts| ==> r[i] == parts[i].field
  {
    if parts == [] then [] else [parts[0].field] + Fields(parts[1..])
  }
}

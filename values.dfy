/** Value types of the CodeBox client: the nullable wrapper, the JSON payloads
    the remote service answers with, the three value classes, and the mapping
    that turns a file listing into file records. */
module Values {

  /** A nullable value: `None` stands for the source's `null`. */
  datatype Option<T> = None | Some(value: T)

  /** A decoded JSON body. The source types every payload as `any`; this is
      the shape such a payload can have (numbers are kept integral). */
  datatype Json =
    | JNull
    | JBool(b: bool)
    | JNumber(n: int)
    | JString(s: string)
    | JArray(items: seq<Json>)
    | JObject(fields: map<string, Json>)

  /** `CodeBoxStatus`: the status word returned by `start`. */
  datatype CodeBoxStatus = CodeBoxStatus(status: string) {
    function ToString(): string { status }
  }

  /** `CodeBoxOutput`: an output of a given kind (the source's field `type`). */
  datatype CodeBoxOutput = CodeBoxOutput(kind: string, content: string) {
    function ToString(): string { content }
  }

  /** `CodeBoxFile`: a file name with optional content. */
  datatype CodeBoxFile = CodeBoxFile(name: string, content: Option<string>) {
    function ToString(): string { name }
  }

  /** The list as strings, when every element of `items` is a JSON string. */
  function Strings(items: seq<Json>): (r: Option<seq<string>>)
    ensures r.Some? <==> forall i :: 0 <= i < |items| ==> items[i].JString?
    ensures r.Some? ==> |r.value| == |items|
    ensures r.Some? ==> forall i :: 0 <= i < |items| ==> items[i] == JString(r.value[i])
  {
    if items == [] then Some([])
    else
      match items[0]
      case JString(x) =>
        (match Strings(items[1..])
         case Some(rest) => Some([x] + rest)
         case None => None)
      case _ => None
  }

  /** The file names of a `files` listing: the field `files` must be an array
      of strings; any other shape is reported as `None`. */
  function FileNames(data: Json): (r: Option<seq<string>>)
    ensures r.Some? <==>
      (data.JObject? && "files" in data.fields && data.fields["files"].JArray?
       && forall i :: 0 <= i < |data.fields["files"].items| ==> data.fields["files"].items[i].JString?)
    ensures r.Some? ==>
      |r.value| == |data.fields["files"].items|
      && forall i :: 0 <= i < |r.value| ==> data.fields["files"].items[i] == JString(r.value[i])
  {
    if data.JObject? && "files" in data.fields && data.fields["files"].JArray?
    then Strings(data.fields["files"].items)
    else None
  }

  /** One record per listed name, in the same order, with no content. The
      source builds plain `{name, content: null}` objects rather than
      `CodeBoxFile` instances; the records carry the same two fields. */
  function ListedFiles(names: seq<string>): (r: seq<CodeBoxFile>)
    ensures |r| == |names|
    ensures forall i :: 0 <= i < |names| ==> r[i].name == names[i] && r[i].content == None
  {
    seq(|names|, i requires 0 <= i < |names| => CodeBoxFile(names[i], None))
  }
}

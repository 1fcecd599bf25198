/** HTTP vocabulary shared by the handlers: JSON values, headers, replies, Node's check on header
    values and the `Content-Disposition` value of section 4.1 of RFC 6266. */
module Web {
  import opened Wrappers
  import opened Strings

  /** A JSON value. Numbers are integers here. */
  datatype Json =
    | JNull
    | JBool(b: bool)
    | JNum(n: int)
    | JStr(s: string)
    | JArr(items: seq<Json>)
    | JObj(fields: map<string, Json>)

  /** An opaque byte stream (a media download, or the body of an upstream response). */
  datatype Stream = Stream(serial: nat)

  datatype Header = Header(name: string, value: string)

  /** What a handler answers: a JSON body, or a stream piped into the response. `headers` are the
      ones the handler sets itself, in order. */
  datatype Reply =
    | JsonReply(status: nat, headers: seq<Header>, body: Json)
    | StreamReply(status: nat, headers: seq<Header>, stream: Stream)

  /** A query or body parameter that JavaScript reads as falsy (`!value`): absent or empty. */
  predicate Absent(v: Option<string>) {
    v.None? || v.value == []
  }

  /** `{ error: message }`. */
  function ErrorBody(message: string): Json {
    JObj(map["error" := JStr(message)])
  }

  /** `res.status(status).json({ error: message })`. */
  function ErrorReply(status: nat, message: string): Reply {
    JsonReply(status, [], ErrorBody(message))
  }

  /** Node's `setHeader` throws on a value with a character other than tab, U+0020 to U+007E
      and U+0080 to U+00FF. */
  predicate ValidHeaderValue(v: string) {
    forall c | c in v :: c == '\t' || (' ' <= c <= '~') || ('\U{0080}' <= c <= '\U{00FF}')
  }

  const DispositionPrefix := "attachment; filename=\""

  /** `attachment; filename="<filename>"`. */
  function AttachmentHeader(filename: string): string {
    DispositionPrefix + filename + "\""
  }

  /** The filename a recipient reads back from an attachment header whose quoted string holds no
      quote and no backslash (neither of which could then stand unescaped). */
  function FilenameOf(v: string): Option<string> {
    if StartsWith(v, DispositionPrefix) && |v| > |DispositionPrefix| && v[|v| - 1] == '"' then
      var name := v[|DispositionPrefix|..|v| - 1];
      if '"' in name || '\\' in name then None else Some(name)
    else None
  }

  /** A filename with no quote and no backslash is carried intact by the header. */
  lemma AttachmentRoundTrip(filename: string)
    requires '"' !in filename && '\\' !in filename
    ensures FilenameOf(AttachmentHeader(filename)) == Some(filename)
  {
    var v := AttachmentHeader(filename);
    assert v[..|DispositionPrefix|] == DispositionPrefix;
    assert v[|DispositionPrefix|..|v| - 1] == filename;
  }

  /** A file name of printable ASCII characters gives a header value Node accepts. */
  lemma AttachmentValid(filename: string)
    requires forall c | c in filename :: ' ' <= c <= '~'
    ensures ValidHeaderValue(AttachmentHeader(filename))
  {
    var v := AttachmentHeader(filename);
    assert v == DispositionPrefix + filename + "\"";
    forall c | c in v ensures ' ' <= c <= '~' {
      assert c in DispositionPrefix || c in filename || c == '"';
    }
  }

  /** A header value carrying a quote inside the filename is not read back as that filename. */
  lemma AttachmentNeedsNoQuote(filename: string)
    requires '"' in filename
    ensures FilenameOf(AttachmentHeader(filename)) != Some(filename)
  {
  }
}

/**
 * The canonical document: one report's identifier, revision, metadata and
 * body, where the body is held either as text or as a stream (or both, or
 * neither); its mutable builder; and the two body accessors.
 */
module Documents {
  import opened Lang
  import ObjectStore

  /** The user-metadata keys the document builder reads (the manager's HTTP header names). */
  const HTTP_HEADER_REPORT_NAME: string := "report-name"
  const HTTP_HEADER_REPORT_DESCRIPTION: string := "report-description"
  const HTTP_HEADER_REPORT_IDENTIFIER: string := "report-identifier"
  const HTTP_HEADER_REPORT_REVISION: string := "report-revision"

  /** The user-metadata keys the manager writes when it stores a report. */
  const S3_METADATA_REPORT_NAME: string := "x-amz-meta-report-name"
  const S3_METADATA_REPORT_DESCRIPTION: string := "x-amz-meta-report-description"

  datatype CanonicalDocument = CanonicalDocument(
    identifier: Option<string>,
    revision: Option<Int32>,
    name: Option<string>,
    description: Option<string>,
    contentType: Option<string>,
    contentLength: Option<Int32>,
    body: Option<string>,
    bodyStream: Option<Stream>,
    bodyIsBase64Encoded: bool)

  /** A builder nothing has been set on. */
  const Unset := CanonicalDocument(None, None, None, None, None, None, None, None, false)

  /** The document fields `withObjectMetadata` overwrites, read from the given metadata. */
  function WithMetadataFields(d: CanonicalDocument, md: ObjectStore.ObjectMetadata): CanonicalDocument
  {
    d.(name := ObjectStore.UserMetadataOf(md, HTTP_HEADER_REPORT_NAME),
       description := ObjectStore.UserMetadataOf(md, HTTP_HEADER_REPORT_DESCRIPTION),
       contentLength := Some(NarrowToInt(md.contentLength)),
       contentType := md.contentType)
  }

  /** The failures `build` collects into a validation exception it never throws. */
  function ValidationFailures(d: CanonicalDocument): (r: seq<(string, string)>)
    ensures (("identifier", "Null or empty value not allowed") in r) <==> (d.identifier.None? || d.identifier.value == "")
    ensures (("revision", "Null value not allowed") in r) <==> d.revision.None?
    ensures (("name", "Null or empty value not allowed") in r) <==> (d.name.None? || d.name.value == "")
  {
    (if d.identifier.None? || d.identifier.value == "" then [("identifier", "Null or empty value not allowed")] else []) +
    (if d.revision.None? then [("revision", "Null value not allowed")] else []) +
    (if d.name.None? || d.name.value == "" then [("name", "Null or empty value not allowed")] else [])
  }

  class Builder {
    var identifier: Option<string>
    var revision: Option<Int32>
    var name: Option<string>
    var description: Option<string>
    var contentType: Option<string>
    var contentLength: Option<Int32>
    var body: Option<string>
    var bodyStream: Option<Stream>
    var bodyIsBase64Encoded: bool

    /** The document the fields currently describe. */
    function Fields(): CanonicalDocument
      reads this
    {
      CanonicalDocument(identifier, revision, name, description, contentType, contentLength, body, bodyStream, bodyIsBase64Encoded)
    }

    constructor ()
      ensures Fields() == Unset
    {
      identifier, revision, name, description, contentType := None, None, None, None, None;
      contentLength, body, bodyStream, bodyIsBase64Encoded := None, None, None, false;
    }

    /**
     * Overwrites name, description, content length (narrowed to int) and
     * content type from the metadata; the name and description come from the
     * keys "report-name" and "report-description".
     */
    method WithObjectMetadata(md: ObjectStore.ObjectMetadata)
      modifies this
      ensures Fields() == old(Fields()).(
        name := ObjectStore.UserMetadataOf(md, HTTP_HEADER_REPORT_NAME),
        description := ObjectStore.UserMetadataOf(md, HTTP_HEADER_REPORT_DESCRIPTION),
        contentLength := Some(NarrowToInt(md.contentLength)),
        contentType := md.contentType)
      ensures Fields() == WithMetadataFields(old(Fields()), md)
    {
      name := ObjectStore.UserMetadataOf(md, HTTP_HEADER_REPORT_NAME);
      description := ObjectStore.UserMetadataOf(md, HTTP_HEADER_REPORT_DESCRIPTION);
      contentLength := Some(NarrowToInt(md.contentLength));
      contentType := md.contentType;
    }

    method WithIdentifier(v: Option<string>)
      modifies this
      ensures Fields() == old(Fields()).(identifier := v)
    {
      identifier := v;
    }

    method WithRevision(v: Option<Int32>)
      modifies this
      ensures Fields() == old(Fields()).(revision := v)
    {
      revision := v;
    }

    method WithName(v: Option<string>)
      modifies this
      ensures Fields() == old(Fields()).(name := v)
    {
      name := v;
    }

    method WithDescription(v: Option<string>)
      modifies this
      ensures Fields() == old(Fields()).(description := v)
    {
      description := v;
    }

    method WithContentType(v: Option<string>)
      modifies this
      ensures Fields() == old(Fields()).(contentType := v)
    {
      contentType := v;
    }

    method WithContentLength(v: Option<Int32>)
      modifies this
      ensures Fields() == old(Fields()).(contentLength := v)
    {
      contentLength := v;
    }

    method WithBody(v: Option<string>)
      modifies this
      ensures Fields() == old(Fields()).(body := v)
    {
      body := v;
    }

    method WithBodyStream(v: Option<Stream>)
      modifies this
      ensures Fields() == old(Fields()).(bodyStream := v)
    {
      bodyStream := v;
    }

    method WithBodyIsBase64Encoded(v: bool)
      modifies this
      ensures Fields() == old(Fields()).(bodyIsBase64Encoded := v)
    {
      bodyIsBase64Encoded := v;
    }

    /** Never fails: whatever the validation finds, the document carries exactly the builder's fields. */
    method Build() returns (d: CanonicalDocument)
      ensures d == Fields()
    {
      var failures := ValidationFailures(Fields());
      d := Fields();
    }
  }

  /** What `getBody` returns: the text if present, else everything the stream delivers, else null. */
  function BodyText(d: CanonicalDocument): Option<string>
  {
    if d.body.Some? then d.body
    else if d.bodyStream.Some? then Some(Concat(d.bodyStream.value.chunks))
    else None
  }

  /** `getBody`: reads the stream chunk by chunk until end of stream when there is no text. */
  method GetBody(d: CanonicalDocument) returns (text: Option<string>)
    ensures text == BodyText(d)
    ensures d.body.Some? ==> text == d.body
    ensures d.body.None? && d.bodyStream.None? ==> text.None?
  {
    if d.body.Some? {
      return d.body;
    } else if d.bodyStream.Some? {
      var chunks := d.bodyStream.value.chunks;
      var sb := "";
      var i := 0;
      while i < |chunks|
        invariant 0 <= i <= |chunks|
        invariant sb == Concat(chunks[..i])
      {
        assert chunks[..i + 1][..i] == chunks[..i];
        sb := sb + chunks[i];
        i := i + 1;
      }
      assert chunks[..i] == chunks;
      return Some(sb);
    } else {
      return None;
    }
  }

  /** `getBodyStream`: the stream if present, else a one-chunk stream over the text, else null. */
  function GetBodyStream(d: CanonicalDocument): (s: Option<Stream>)
    ensures s.None? <==> d.bodyStream.None? && d.body.None?
    ensures d.bodyStream.Some? ==> s == d.bodyStream
    ensures d.bodyStream.None? && d.body.Some? ==> Concat(s.value.chunks) == d.body.value
  {
    if d.bodyStream.Some? then d.bodyStream
    else if d.body.Some? then Some(Stream([d.body.value]))
    else None
  }

  function StreamText(s: Option<Stream>): Option<string>
  {
    if s.Some? then Some(Concat(s.value.chunks)) else None
  }

  /** The two accessors deliver the same text unless the document holds both representations. */
  lemma BodyAccessorsAgree(d: CanonicalDocument)
    requires d.body.None? || d.bodyStream.None?
    ensures StreamText(GetBodyStream(d)) == BodyText(d)
  {
    if d.bodyStream.None? && d.body.Some? {
      ConcatSingle(d.body.value);
    }
  }

  /** With both present, getBody prefers the text and getBodyStream the stream, so they can disagree. */
  lemma BodyAccessorsDisagree()
    ensures var d := Unset.(body := Some("text"), bodyStream := Some(Stream(["stream"])));
      BodyText(d) == Some("text") && StreamText(GetBodyStream(d)) == Some("stream")
  {
    ConcatSingle("stream");
  }

  /**
   * The manager stores a report's name and description under the
   * "x-amz-meta-" keys, but the builder reads the bare keys: metadata
   * holding only the manager's keys gives a document without name or description.
   */
  lemma ManagerKeysAreNotRead(md: ObjectStore.ObjectMetadata, d: CanonicalDocument)
    requires forall k :: k in md.userMetadata ==> k == S3_METADATA_REPORT_NAME || k == S3_METADATA_REPORT_DESCRIPTION
    ensures WithMetadataFields(d, md).name.None? && WithMetadataFields(d, md).description.None?
    ensures WithMetadataFields(d, md).contentType == md.contentType
  {
    assert HTTP_HEADER_REPORT_NAME != S3_METADATA_REPORT_NAME && HTTP_HEADER_REPORT_NAME != S3_METADATA_REPORT_DESCRIPTION;
    assert HTTP_HEADER_REPORT_DESCRIPTION != S3_METADATA_REPORT_NAME && HTTP_HEADER_REPORT_DESCRIPTION != S3_METADATA_REPORT_DESCRIPTION;
  }

  /** A builder nothing has been set on still builds, although all three validations fail. */
  lemma UnsetStillBuilds()
    ensures ValidationFailures(Unset) == [
      ("identifier", "Null or empty value not allowed"),
      ("revision", "Null value not allowed"),
      ("name", "Null or empty value not allowed")]
  {
  }

  /** Within int range the content length is copied; beyond it, it wraps modulo 2^32 as `(int)` does. */
  lemma ContentLengthNarrowing(d: CanonicalDocument, md: ObjectStore.ObjectMetadata)
    ensures INT_MIN <= md.contentLength <= INT_MAX ==> WithMetadataFields(d, md).contentLength == Some(md.contentLength)
    ensures (WithMetadataFields(d, md).contentLength.value - md.contentLength) % TWO_TO_32 == 0
  {
  }
}

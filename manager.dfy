/**
 * The request dispatcher: role extraction from the bearer token, the role
 * gate per verb, and the five verb handlers, each making its calls on the
 * versioned store in order. Every handler is a method of the Manager class
 * and, beside it, a function of the store state that states what the
 * method computes and leaves behind.
 */
module Manager {
  import opened Lang
  import opened Exceptions
  import Revisions
  import opened ObjectStore
  import Documents
  import opened Responses
  import Requests

  const DEFAULT_REPORT_USER: string := "canned_report_user"
  const DEFAULT_REPORT_MANAGER: string := "canned_report_manager"
  const BEARER_PREFIX: string := "Bearer "
  const BASE64_SUFFIX: string := "+base64"

  /** The maximum number of results every version listing asks for. */
  const VERSION_LISTING_LIMIT: nat := 1000

  // ----- roles -----

  /** The `role` claim of a decoded token: a String, a String[], or anything else (including absent). */
  datatype RoleClaim = RoleString(text: string) | RoleArray(roles: seq<string>) | NoRoleClaim

  /** What the token library makes of a token: a parse failure, or its role claim. */
  datatype TokenParse = Malformed | Decoded(claim: RoleClaim)

  /**
   * The manager's configuration: whether roles are checked, the two role
   * names, the token decoder and the JSON rendering of a document (None
   * when the mapper fails).
   */
  datatype Config = Config(
    authorizationCheckingEnabled: bool,
    userRoleName: string,
    managerRoleName: string,
    decodeToken: string -> TokenParse,
    render: Documents.CanonicalDocument -> Option<string>)

  /** The configuration when no property overrides the defaults. */
  function DefaultConfig(decodeToken: string -> TokenParse, render: Documents.CanonicalDocument -> Option<string>): (c: Config)
    ensures !c.authorizationCheckingEnabled
    ensures c.userRoleName == DEFAULT_REPORT_USER && c.managerRoleName == DEFAULT_REPORT_MANAGER
  {
    Config(false, DEFAULT_REPORT_USER, DEFAULT_REPORT_MANAGER, decodeToken, render)
  }

  /** The token text: trimmed, and without a leading "Bearer " if there is one. */
  function NormalizedToken(authorization: string): string
  {
    var t := Trim(authorization);
    if StartsWith(t, BEARER_PREFIX) then t[|BEARER_PREFIX|..] else t
  }

  /** The header may carry "Bearer <token>" or the bare token; both give the token. */
  lemma NormalizedTokenAccepts(token: string)
    requires token != [] && !IsTrimmable(token[0]) && !IsTrimmable(token[|token| - 1])
    ensures NormalizedToken(BEARER_PREFIX + token) == token
    ensures !StartsWith(token, BEARER_PREFIX) ==> NormalizedToken(token) == token
  {
    var prefixed := BEARER_PREFIX + token;
    TrimOfTrimmed(prefixed);
    TrimOfTrimmed(token);
    assert prefixed[..|BEARER_PREFIX|] == BEARER_PREFIX;
    assert prefixed[|BEARER_PREFIX|..] == token;
  }

  /** The pieces of s between commas, empty pieces included. */
  function SplitAtCommas(s: string): (r: seq<string>)
    ensures |r| >= 1
    ensures forall i :: 0 <= i < |r| ==> ',' !in r[i]
  {
    if s == [] then [""]
    else
      var rest := SplitAtCommas(s[1..]);
      if s[0] == ',' then [""] + rest
      else
        assert forall i :: 1 <= i < |rest| ==> ([[s[0]] + rest[0]] + rest[1..])[i] == rest[i];
        [[s[0]] + rest[0]] + rest[1..]
  }

  function JoinWithCommas(pieces: seq<string>): string
    requires |pieces| >= 1
  {
    if |pieces| == 1 then pieces[0] else pieces[0] + "," + JoinWithCommas(pieces[1..])
  }

  /** Joining the pieces again gives back the text. */
  lemma {:induction false} JoinSplit(s: string)
    ensures JoinWithCommas(SplitAtCommas(s)) == s
  {
    if s != [] {
      var rest := SplitAtCommas(s[1..]);
      JoinSplit(s[1..]);
      if s[0] == ',' {
        assert ([""] + rest)[1..] == rest;
      } else {
        var pieces := [[s[0]] + rest[0]] + rest[1..];
        if |rest| > 1 {
          assert pieces[1..] == rest[1..];
          assert JoinWithCommas(rest) == rest[0] + "," + JoinWithCommas(rest[1..]);
        }
      }
    }
  }

  /** Text without commas, followed by a comma, splits off as one piece. */
  lemma {:induction false} SplitFirstPiece(p: string, t: string)
    requires ',' !in p
    ensures SplitAtCommas(p + "," + t) == [p] + SplitAtCommas(t)
    ensures SplitAtCommas(p) == [p]
  {
    if p == [] {
      assert p + "," + t == [','] + t;
      assert ([','] + t)[1..] == t;
    } else {
      SplitFirstPiece(p[1..], t);
      assert (p + "," + t)[1..] == p[1..] + "," + t;
      assert [p[0]] + p[1..] == p;
    }
  }

  /** Splitting comma-free pieces joined with commas gives back the pieces. */
  lemma {:induction false} SplitJoin(pieces: seq<string>)
    requires |pieces| >= 1 && forall i :: 0 <= i < |pieces| ==> ',' !in pieces[i]
    ensures SplitAtCommas(JoinWithCommas(pieces)) == pieces
  {
    SplitFirstPiece(pieces[0], "");
    if |pieces| > 1 {
      SplitJoin(pieces[1..]);
      SplitFirstPiece(pieces[0], JoinWithCommas(pieces[1..]));
      assert [pieces[0]] + pieces[1..] == pieces;
    }
  }

  function DropTrailingEmpty(pieces: seq<string>): (r: seq<string>)
    ensures forall x :: x != "" ==> (x in r <==> x in pieces)
  {
    if pieces != [] && pieces[|pieces| - 1] == "" then DropTrailingEmpty(pieces[..|pieces| - 1]) else pieces
  }

  /** `s.split(",")`: the pieces between commas with trailing empty pieces removed; text without a comma is its own one piece. */
  function JavaSplit(s: string): seq<string>
  {
    if ',' in s then DropTrailingEmpty(SplitAtCommas(s)) else [s]
  }

  /** A non-empty role is among the split roles exactly when it is one of the comma-separated pieces. */
  lemma RoleInSplit(s: string, role: string)
    requires role != ""
    ensures role in JavaSplit(s) <==> role in SplitAtCommas(s)
  {
    if ',' !in s {
      SplitFirstPiece(s, "");
    }
  }

  /** The roles of the authorization header; a token the library cannot parse throws ParseException. */
  function ExtractRoles(cfg: Config, authorization: Option<string>): (r: Outcome<seq<string>>)
    ensures r.Thrown? ==> r.exception == TokenParse
    ensures authorization.None? ==> r == Normal([])
  {
    if authorization.None? then Normal([])
    else match cfg.decodeToken(NormalizedToken(authorization.value))
      case Malformed => Thrown(TokenParse)
      case Decoded(RoleString(text)) => Normal(JavaSplit(text))
      case Decoded(RoleArray(roles)) => Normal(roles)
      case Decoded(NoRoleClaim) => Normal([])
  }

  /** The three verbs that change reports. */
  predicate IsManagingVerb(verb: string)
  {
    verb == "POST" || verb == "PUT" || verb == "DELETE"
  }

  /** The two verbs that read reports. */
  predicate IsReadingVerb(verb: string)
  {
    verb == "GET" || verb == "HEAD"
  }

  /** The role gate: managing needs the manager role, reading either role; nothing is needed when checking is off. */
  predicate Permitted(cfg: Config, verb: string, roles: seq<string>)
  {
    !cfg.authorizationCheckingEnabled ||
    (if IsManagingVerb(verb) then cfg.managerRoleName in roles
     else cfg.managerRoleName in roles || cfg.userRoleName in roles)
  }

  // ----- stored metadata -----

  /** The content type as stored: tagged "+base64" once when the body is base64 encoded; a null type is not set. */
  function StoredContentType(contentType: Option<string>, bodyIsBase64Encoded: bool): (r: Option<string>)
    ensures r.None? <==> contentType.None?
    ensures contentType.Some? && bodyIsBase64Encoded ==> EndsWith(r.value, BASE64_SUFFIX)
    ensures contentType.Some? && bodyIsBase64Encoded && !EndsWith(contentType.value, BASE64_SUFFIX) ==>
      r == Some(contentType.value + BASE64_SUFFIX)
    ensures contentType.Some? && bodyIsBase64Encoded && EndsWith(contentType.value, BASE64_SUFFIX) ==> r == contentType
    ensures contentType.Some? && !bodyIsBase64Encoded ==> r == contentType
  {
    if contentType.None? then None
    else if bodyIsBase64Encoded && !EndsWith(contentType.value, BASE64_SUFFIX) then
      var t := contentType.value + BASE64_SUFFIX;
      assert t[|t| - |BASE64_SUFFIX|..] == BASE64_SUFFIX;
      Some(t)
    else contentType
  }

  /** Tagging twice is tagging once: the suffix is never doubled. */
  lemma StoredContentTypeIdempotent(contentType: Option<string>, bodyIsBase64Encoded: bool)
    ensures StoredContentType(StoredContentType(contentType, bodyIsBase64Encoded), bodyIsBase64Encoded)
      == StoredContentType(contentType, bodyIsBase64Encoded)
  {
  }

  /** The metadata a POST or PUT stores with the body. */
  function UploadMetadata(name: Option<string>, description: Option<string>, contentType: Option<string>,
                          contentLength: Option<Int32>, bodyIsBase64Encoded: bool): (md: ObjectMetadata)
    ensures UserMetadataOf(md, Documents.S3_METADATA_REPORT_NAME) == name
    ensures UserMetadataOf(md, Documents.S3_METADATA_REPORT_DESCRIPTION) == description
    ensures forall k :: k in md.userMetadata ==>
      k == Documents.S3_METADATA_REPORT_NAME || k == Documents.S3_METADATA_REPORT_DESCRIPTION
    ensures md.contentType == StoredContentType(contentType, bodyIsBase64Encoded)
    ensures md.contentLength == if contentLength.Some? then contentLength.value else 0
  {
    var named := AddUserMetadata(EmptyMetadata, Documents.S3_METADATA_REPORT_NAME, name);
    var described := AddUserMetadata(named, Documents.S3_METADATA_REPORT_DESCRIPTION, description);
    described.(contentType := StoredContentType(contentType, bodyIsBase64Encoded),
               contentLength := if contentLength.Some? then contentLength.value else 0)
  }

  // ----- documents and responses the handlers build -----

  /** The document answering a POST or PUT: revision 0 and what the put result's metadata says. */
  function PostedDocument(identifier: Option<string>, result: PutObjectResult): (d: Documents.CanonicalDocument)
    ensures d.identifier == identifier && d.revision == Some(0)
    ensures d.body.None? && d.bodyStream.None?
  {
    var d := Documents.Unset.(identifier := identifier, revision := Some(0));
    if result.metadata.None? then d
    else
      var m := result.metadata.value;
      d.(contentType := m.contentType,
         contentLength := Some(NarrowToInt(m.contentLength)),
         name := UserMetadataOf(m, Documents.S3_METADATA_REPORT_NAME),
         description := UserMetadataOf(m, Documents.S3_METADATA_REPORT_DESCRIPTION))
  }

  /** The document DELETE, HEAD and GET describe: identifier, the builder's reading of the metadata, and the revision count. */
  function MetadataDocument(identifier: Option<string>, md: ObjectMetadata, count: Int32): Documents.CanonicalDocument
  {
    Documents.WithMetadataFields(Documents.Unset.(identifier := identifier), md).(revision := Some(count))
  }

  /** One entry of the listing; this handler reads the "x-amz-meta-" keys and sets no revision. */
  function ListedDocument(key: string, md: ObjectMetadata): (d: Documents.CanonicalDocument)
    ensures d.identifier == Some(key) && d.revision.None? && d.bodyStream.None?
  {
    Documents.Unset.(identifier := Some(key),
                     name := UserMetadataOf(md, Documents.S3_METADATA_REPORT_NAME),
                     description := UserMetadataOf(md, Documents.S3_METADATA_REPORT_DESCRIPTION),
                     contentLength := Some(NarrowToInt(md.contentLength)),
                     contentType := md.contentType)
  }

  function NotFoundResponse(e: Option<Throwable>): CanonicalResponse
  {
    BuildStep(ReportNotFoundStep(Fresh, e))
  }

  function ServiceFailureResponse(e: Option<Throwable>): CanonicalResponse
  {
    BuildStep(ServiceExceptionStep(Fresh, e))
  }

  function JsonResponse(cfg: Config, d: Documents.CanonicalDocument): CanonicalResponse
  {
    BuildStep(SuccessWithJsonBodyStep(Fresh, cfg.render(d)))
  }

  /** `catch (SdkClientException x)` answering SERVICE_EXCEPTION; anything else propagates. */
  function CaughtSdkClient(e: Throwable): (r: Outcome<CanonicalResponse>)
    ensures r.Normal? ==> r.value.result == Some(SERVICE_EXCEPTION)
  {
    if IsSdkClientException(e) then Normal(ServiceFailureResponse(Some(e))) else Thrown(e)
  }

  /** `catch (AmazonServiceException x)` rethrowing it wrapped with a context; anything else propagates. */
  function WrappedAws<T>(e: Throwable, context: string): Outcome<T>
  {
    if IsAmazonServiceException(e) then Thrown(Application(WrappedService(Some(context), Some(e)))) else Thrown(e)
  }

  /** `createExceptionResponse`: the not-found exceptions give NOT_FOUND, other client exceptions CLIENT_EXCEPTION, the rest SERVICE_EXCEPTION. */
  function ExceptionResponse(e: ApplicationException): (r: CanonicalResponse)
    ensures r.reports == [] && r.exception == Some(Application(e))
    ensures r.result in {Some(NOT_FOUND), Some(CLIENT_EXCEPTION), Some(SERVICE_EXCEPTION)}
  {
    if e.IdentifiedDocumentMetadataNotFound? || e.IdentifiedDocumentNotFound? then
      BuildStep(ReportNotFoundStep(Fresh, Some(Application(e))))
    else if IsClientException(e) then BuildStep(GenericBadRequestStep(Fresh, Some(Application(e))))
    else BuildStep(ServiceExceptionStep(Fresh, Some(Application(e))))
  }

  // ----- the handlers, as functions of the store state -----

  /** `getVersionCount`: the number of versions listed under the identifier as prefix, 0 for a null listing. */
  function VersionCountSpec(st: StoreState, identifier: Option<string>): (r: (StoreState, Outcome<nat>))
    requires ValidState(st)
    ensures ValidState(r.0) && r.0 == Tick(st)
    ensures r.1.Normal? ==> r.1.value <= VERSION_LISTING_LIMIT
  {
    var (st1, listing) := ListVersionsStep(st, identifier, VERSION_LISTING_LIMIT);
    (st1,
      if listing.Thrown? then Thrown(listing.exception)
      else if listing.value.None? || listing.value.value.summaries.None? then Normal(0)
      else Normal(|listing.value.value.summaries.value|))
  }

  /** `getVersionIdentifier`: the version at index (N - 1) + value of the N listed, computed in int arithmetic. */
  function VersionIdentifierSpec(st: StoreState, identifier: Option<string>, rs: Option<Revisions.RevisionSpecification>)
    : (r: (StoreState, Outcome<nat>))
    requires ValidState(st)
    ensures ValidState(r.0) && r.0 == Tick(st)
  {
    var (st1, listing) := ListVersionsStep(st, identifier, VERSION_LISTING_LIMIT);
    (st1,
      if listing.Thrown? then Thrown(listing.exception)
      else if listing.value.None? || listing.value.value.summaries.None? || rs.None? then Thrown(NullPointer)
      else
        var versions := listing.value.value.summaries.value;
        var index := AddInt(|versions| - 1, rs.value.value);
        if 0 <= index < |versions| then Normal(versions[index].versionId)
        else Thrown(Application(UnknownRevision(identifier, rs))))
  }

  /** `internalHandlePostAndPut`: stores the body and metadata as a new version of the identifier. */
  function PostAndPutSpec(st: StoreState, cfg: Config, identifier: Option<string>,
                          name: Option<string>, description: Option<string>,
                          contentType: Option<string>, contentLength: Option<Int32>,
                          body: Option<Stream>, bodyIsBase64Encoded: bool)
    : (r: (StoreState, Outcome<CanonicalResponse>))
    requires ValidState(st)
    ensures ValidState(r.0)
    ensures r.1.Normal? ==> r.1.value.result in {Some(SUCCESS), Some(SERVICE_EXCEPTION)}
  {
    var md := UploadMetadata(name, description, contentType, contentLength, bodyIsBase64Encoded);
    PutPreservesValid(st, identifier, body, md);
    var (st1, put) := PutStep(st, identifier, body, md);
    (st1, PutAnswer(cfg, identifier, put))
  }

  /**
   * The answer to what putObject returned: a service fault becomes the
   * dependent-invocation exception, a null reply SERVICE_EXCEPTION, a reply
   * the JSON of the stored document.
   */
  function PutAnswer(cfg: Config, identifier: Option<string>, put: Outcome<Option<PutObjectResult>>): (r: Outcome<CanonicalResponse>)
    ensures r.Normal? ==> r.value.result in {Some(SUCCESS), Some(SERVICE_EXCEPTION)}
  {
    if put.Thrown? then
      (if IsAmazonServiceException(put.exception)
       then Thrown(Application(UnrecoverableDependentInvocation(Some("AmazonS3.putObject"), Some(put.exception))))
       else Thrown(put.exception))
    else if put.value.None? then
      Normal(ServiceFailureResponse(Some(Application(WrappedService(Some("putObject response was null"), None)))))
    else Normal(JsonResponse(cfg, PostedDocument(identifier, put.value.value)))
  }

  /** `handlePost`: a PUT of a new identifier (the random UUID, given here as `newIdentifier`). */
  function PostSpec(st: StoreState, cfg: Config, newIdentifier: string,
                    name: Option<string>, description: Option<string>,
                    contentType: Option<string>, contentLength: Option<Int32>,
                    body: Option<Stream>, bodyIsBase64Encoded: bool)
    : (r: (StoreState, Outcome<CanonicalResponse>))
    requires ValidState(st)
    ensures ValidState(r.0)
    ensures r.1.Normal? ==> r.1.value.result in {Some(SUCCESS), Some(SERVICE_EXCEPTION)}
  {
    PostAndPutSpec(st, cfg, Some(newIdentifier), name, description, contentType, contentLength, body, bodyIsBase64Encoded)
  }

  /** `handlePut`: NOT_FOUND unless the identifier's metadata exists; the lookup is outside any catch. */
  function PutSpec(st: StoreState, cfg: Config, identifier: Option<string>,
                   name: Option<string>, description: Option<string>,
                   contentType: Option<string>, contentLength: Option<Int32>,
                   body: Option<Stream>, bodyIsBase64Encoded: bool)
    : (r: (StoreState, Outcome<CanonicalResponse>))
    requires ValidState(st)
    ensures ValidState(r.0)
    ensures r.1.Normal? ==> r.1.value.result in {Some(SUCCESS), Some(SERVICE_EXCEPTION), Some(NOT_FOUND)}
  {
    var (st1, found) := MetadataStep(st, identifier);
    if found.Thrown? then (st1, Thrown(found.exception))
    else if found.value.None? then (st1, Normal(NotFoundResponse(None)))
    else PostAndPutSpec(st1, cfg, identifier, name, description, contentType, contentLength, body, bodyIsBase64Encoded)
  }

  /** `handleDelete`: describes the report, counting its versions, and only then deletes it. */
  function DeleteSpec(st: StoreState, cfg: Config, identifier: Option<string>, rs: Option<Revisions.RevisionSpecification>)
    : (r: (StoreState, Outcome<CanonicalResponse>))
    requires ValidState(st)
    ensures ValidState(r.0)
    ensures r.1.Normal? ==> r.1.value.result in {Some(SUCCESS), Some(SERVICE_EXCEPTION), Some(NOT_FOUND)}
  {
    var (st1, found) := MetadataStep(st, identifier);
    if found.Thrown? then (st1, CaughtSdkClient(found.exception))
    else if found.value.None? then (st1, Normal(NotFoundResponse(None)))
    else
      var (st2, count) := VersionCountSpec(st1, identifier);
      if count.Thrown? then (st2, CaughtSdkClient(count.exception))
      else
        var doc := MetadataDocument(identifier, found.value.value, count.value);
        DeletePreservesValid(st2, identifier);
        var (st3, deleted) := DeleteStep(st2, identifier);
        if deleted.Thrown? then (st3, CaughtSdkClient(deleted.exception))
        else (st3, Normal(JsonResponse(cfg, doc)))
  }

  /** `handleHead`: the report's description as the one document of a SUCCESS response. */
  function HeadSpec(st: StoreState, identifier: Option<string>, rs: Option<Revisions.RevisionSpecification>)
    : (r: (StoreState, Outcome<CanonicalResponse>))
    requires ValidState(st)
    ensures ValidState(r.0)
    ensures r.1.Normal? ==> r.1.value.result in {Some(SUCCESS), Some(SERVICE_EXCEPTION), Some(NOT_FOUND)}
  {
    var (st1, found) := MetadataStep(st, identifier);
    if found.Thrown? then (st1, CaughtSdkClient(found.exception))
    else if found.value.None? then (st1, Normal(NotFoundResponse(None)))
    else
      var (st2, count) := VersionCountSpec(st1, identifier);
      if count.Thrown? then (st2, CaughtSdkClient(count.exception))
      else (st2, Normal(BuildStep(AddDocumentStep(SuccessStep(Fresh), MetadataDocument(identifier, found.value.value, count.value)))))
  }

  /** `handleGetDocument`: the report's description and content as the one document of a SUCCESS response. */
  function GetDocumentSpec(st: StoreState, identifier: string, rs: Option<Revisions.RevisionSpecification>)
    : (r: (StoreState, Outcome<CanonicalResponse>))
    requires ValidState(st)
    ensures ValidState(r.0)
    ensures r.1.Normal? ==> r.1.value.result == Some(SUCCESS) && |r.1.value.reports| == 1
  {
    var (st1, found) := MetadataStep(st, Some(identifier));
    if found.Thrown? then (st1, WrappedAws(found.exception, "Getting Object or metadata"))
    else if found.value.None? then (st1, Thrown(Application(IdentifiedDocumentMetadataNotFound(Some(identifier)))))
    else
      var (st2, fetched) := ObjectStep(st1, Some(identifier));
      if fetched.Thrown? then (st2, WrappedAws(fetched.exception, "Getting Object or metadata"))
      else if fetched.value.None? then (st2, Thrown(Application(IdentifiedDocumentNotFound(Some(identifier)))))
      else
        var (st3, count) := VersionCountSpec(st2, Some(identifier));
        if count.Thrown? then (st3, WrappedAws(count.exception, "Getting Object or metadata"))
        else
          var doc := MetadataDocument(Some(identifier), found.value.value, count.value)
            .(bodyStream := Some(fetched.value.value.content));
          (st3, Normal(CanonicalResponse(Some(SUCCESS), [doc], None)))
  }

  /** The listing loop: one metadata call and one document per key, stopping at the first exception. */
  function ListDocumentsSpec(st: StoreState, keys: seq<string>): (r: (StoreState, Outcome<seq<Documents.CanonicalDocument>>))
    requires ValidState(st)
    ensures ValidState(r.0)
    ensures r.1.Normal? ==> |r.1.value| == |keys|
  {
    if keys == [] then (st, Normal([]))
    else ListingStep(ListDocumentsSpec(st, keys[..|keys| - 1]), keys[|keys| - 1])
  }

  /** One pass of the listing loop: fetch the key's metadata and append its document, unless an exception already stopped the loop. */
  function ListingStep(sofar: (StoreState, Outcome<seq<Documents.CanonicalDocument>>), key: string)
    : (r: (StoreState, Outcome<seq<Documents.CanonicalDocument>>))
    requires ValidState(sofar.0)
    ensures ValidState(r.0)
    ensures sofar.1.Normal? && r.1.Normal? ==> |r.1.value| == |sofar.1.value| + 1
  {
    var (st1, prior) := sofar;
    if prior.Thrown? then sofar
    else
      var (st2, found) := MetadataStep(st1, Some(key));
      if found.Thrown? then (st2, WrappedAws(found.exception, "Getting Object metadata"))
      else if found.value.None? then (st2, Thrown(NullPointer))
      else (st2, Normal(prior.value + [ListedDocument(key, found.value.value)]))
  }

  /** `handleGetAllDocumentsMetadata`: a SUCCESS response with one body-less document per listed key. */
  function ListAllSpec(st: StoreState): (r: (StoreState, Outcome<CanonicalResponse>))
    requires ValidState(st)
    ensures ValidState(r.0)
    ensures r.1.Normal? ==> r.1.value.result == Some(SUCCESS)
  {
    var (st1, listing) := ListObjectsStep(st);
    if listing.Thrown? then (st1, WrappedAws(listing.exception, "Getting Object metadata"))
    else if listing.value.None? then (st1, Thrown(NullPointer))
    else if listing.value.value.summaries.None? then (st1, Normal(BuildStep(SuccessStep(Fresh))))
    else
      var (st2, docs) := ListDocumentsSpec(st1, listing.value.value.summaries.value);
      if docs.Thrown? then (st2, Thrown(docs.exception))
      else
        SuccessThenAddDocuments(Fresh, docs.value);
        (st2, Normal(BuildStep(AddDocumentsStep(SuccessStep(Fresh), docs.value))))
  }

  /** `handleGet`: one document for a non-empty identifier, otherwise the whole listing. */
  function GetSpec(st: StoreState, identifier: Option<string>, rs: Option<Revisions.RevisionSpecification>)
    : (r: (StoreState, Outcome<CanonicalResponse>))
    requires ValidState(st)
    ensures ValidState(r.0)
    ensures r.1.Normal? ==> r.1.value.result == Some(SUCCESS)
  {
    if identifier.Some? && |identifier.value| > 0 then GetDocumentSpec(st, identifier.value, rs) else ListAllSpec(st)
  }

  /** The handler of a permitted verb. */
  function DispatchSpec(st: StoreState, cfg: Config, verb: string, req: Requests.CanonicalRequest, newIdentifier: string)
    : (r: (StoreState, Outcome<CanonicalResponse>))
    requires ValidState(st)
    requires IsManagingVerb(verb) || IsReadingVerb(verb)
    ensures ValidState(r.0)
    ensures r.1.Normal? ==> r.1.value.result != Some(FORBIDDEN)
  {
    if verb == "POST" then
      PostSpec(st, cfg, newIdentifier, req.name, req.description, req.contentType, req.contentLength, req.body, req.bodyIsBase64Encoded)
    else if verb == "PUT" then
      PutSpec(st, cfg, req.identifier, req.name, req.description, req.contentType, req.contentLength, req.body, req.bodyIsBase64Encoded)
    else if verb == "GET" then GetSpec(st, req.identifier, Some(req.revisionSpecification))
    else if verb == "DELETE" then DeleteSpec(st, cfg, req.identifier, Some(req.revisionSpecification))
    else HeadSpec(st, req.identifier, Some(req.revisionSpecification))
  }

  /**
   * `handleRequest`: extracts the roles, then routes on the upper-cased
   * verb; a null verb is dereferenced and throws.
   */
  function HandleRequestSpec(st: StoreState, cfg: Config, req: Requests.CanonicalRequest, newIdentifier: string)
    : (r: (StoreState, Outcome<Option<CanonicalResponse>>))
    requires ValidState(st)
    ensures ValidState(r.0)
  {
    var roles := ExtractRoles(cfg, req.authorization);
    if roles.Thrown? then (st, Thrown(roles.exception))
    else if req.httpMethod.None? then (st, Thrown(NullPointer))
    else RouteSpec(st, cfg, ToUpper(req.httpMethod.value), roles.value, req, newIdentifier)
  }

  /**
   * The switch of `handleRequest`: the role gate, then the verb's handler,
   * with application exceptions answered by a response; a verb outside the
   * five gives a null response.
   */
  function RouteSpec(st: StoreState, cfg: Config, verb: string, roles: seq<string>, req: Requests.CanonicalRequest, newIdentifier: string)
    : (r: (StoreState, Outcome<Option<CanonicalResponse>>))
    requires ValidState(st)
    ensures ValidState(r.0)
    ensures (r.1.Normal? && r.1.value.Some? && r.1.value.value.result == Some(FORBIDDEN)) <==>
      (IsManagingVerb(verb) || IsReadingVerb(verb)) && !Permitted(cfg, verb, roles)
  {
    if !IsManagingVerb(verb) && !IsReadingVerb(verb) then (st, Normal(None))
    else if !Permitted(cfg, verb, roles) then (st, Normal(Some(BuildStep(ForbiddenStep(Fresh)))))
    else
      var (st1, handled) := DispatchSpec(st, cfg, verb, req, newIdentifier);
      (st1,
        if handled.Normal? then Normal(Some(handled.value))
        else if handled.exception.Application? then Normal(Some(ExceptionResponse(handled.exception.exception)))
        else Thrown(handled.exception))
  }

  // ----- the manager -----

  class Manager {
    const store: Store
    const config: Config

    constructor (store: Store, config: Config)
      ensures this.store == store
      ensures this.config.authorizationCheckingEnabled == config.authorizationCheckingEnabled
      ensures this.config.userRoleName == config.userRoleName && this.config.managerRoleName == config.managerRoleName
    {
      this.store := store;
      this.config := config;
    }

    method HandleRequest(req: Requests.CanonicalRequest, newIdentifier: string) returns (r: Outcome<Option<CanonicalResponse>>)
      requires store.Valid()
      modifies store
      ensures store.Valid()
      ensures (store.State(), r) == HandleRequestSpec(old(store.State()), config, req, newIdentifier)
    {
      var roles := ExtractRoles(config, req.authorization);
      if roles.Thrown? {
        return Thrown(roles.exception);
      }
      if req.httpMethod.None? {
        return Thrown(NullPointer);
      }
      var verb := ToUpper(req.httpMethod.value);
      if !IsManagingVerb(verb) && !IsReadingVerb(verb) {
        return Normal(None);
      }
      if !Permitted(config, verb, roles.value) {
        var builder := new Responses.Builder();
        builder.ForbiddenAccessException();
        var response := builder.Build();
        return Normal(Some(response));
      }
      var handled;
      if verb == "POST" {
        handled := HandlePost(newIdentifier, req.name, req.description, req.contentType, req.contentLength, req.body, req.bodyIsBase64Encoded);
      } else if verb == "PUT" {
        handled := HandlePut(req.identifier, req.name, req.description, req.contentType, req.contentLength, req.body, req.bodyIsBase64Encoded);
      } else if verb == "GET" {
        handled := HandleGet(req.identifier, Some(req.revisionSpecification));
      } else if verb == "DELETE" {
        handled := HandleDelete(req.identifier, Some(req.revisionSpecification));
      } else {
        handled := HandleHead(req.identifier, Some(req.revisionSpecification));
      }
      if handled.Normal? {
        r := Normal(Some(handled.value));
      } else if handled.exception.Application? {
        r := Normal(Some(ExceptionResponse(handled.exception.exception)));
      } else {
        r := Thrown(handled.exception);
      }
    }

    method HandlePost(newIdentifier: string, name: Option<string>, description: Option<string>,
                      contentType: Option<string>, contentLength: Option<Int32>,
                      body: Option<Stream>, bodyIsBase64Encoded: bool)
      returns (r: Outcome<CanonicalResponse>)
      requires store.Valid()
      modifies store
      ensures store.Valid()
      ensures (store.State(), r) ==
        PostSpec(old(store.State()), config, newIdentifier, name, description, contentType, contentLength, body, bodyIsBase64Encoded)
    {
      r := InternalHandlePostAndPut(Some(newIdentifier), name, description, contentType, contentLength, body, bodyIsBase64Encoded);
    }

    method HandlePut(identifier: Option<string>, name: Option<string>, description: Option<string>,
                     contentType: Option<string>, contentLength: Option<Int32>,
                     body: Option<Stream>, bodyIsBase64Encoded: bool)
      returns (r: Outcome<CanonicalResponse>)
      requires store.Valid()
      modifies store
      ensures store.Valid()
      ensures (store.State(), r) ==
        PutSpec(old(store.State()), config, identifier, name, description, contentType, contentLength, body, bodyIsBase64Encoded)
    {
      var found := store.GetObjectMetadata(identifier);
      if found.Thrown? {
        return Thrown(found.exception);
      }
      if found.value.Some? {
        r := InternalHandlePostAndPut(identifier, name, description, contentType, contentLength, body, bodyIsBase64Encoded);
      } else {
        r := NotFound();
      }
    }

    method InternalHandlePostAndPut(identifier: Option<string>, name: Option<string>, description: Option<string>,
                                    contentType: Option<string>, contentLength: Option<Int32>,
                                    body: Option<Stream>, bodyIsBase64Encoded: bool)
      returns (r: Outcome<CanonicalResponse>)
      requires store.Valid()
      modifies store
      ensures store.Valid()
      ensures (store.State(), r) ==
        PostAndPutSpec(old(store.State()), config, identifier, name, description, contentType, contentLength, body, bodyIsBase64Encoded)
    {
      var md := NewUploadMetadata(name, description, contentType, contentLength, bodyIsBase64Encoded);
      var put := store.PutObject(identifier, body, md);
      r := AnswerPut(identifier, put);
    }

    method AnswerPut(identifier: Option<string>, put: Outcome<Option<PutObjectResult>>) returns (r: Outcome<CanonicalResponse>)
      ensures r == PutAnswer(config, identifier, put)
    {
      if put.Thrown? {
        if IsAmazonServiceException(put.exception) {
          return Thrown(Application(UnrecoverableDependentInvocation(Some("AmazonS3.putObject"), Some(put.exception))));
        }
        return Thrown(put.exception);
      }
      if put.value.Some? {
        var doc := NewPostedDocument(identifier, put.value.value);
        var response := JsonBody(doc);
        r := Normal(response);
      } else {
        var response := ServiceFailure(Some(Application(WrappedService(Some("putObject response was null"), None))));
        r := Normal(response);
      }
    }

    method HandleGet(identifier: Option<string>, rs: Option<Revisions.RevisionSpecification>) returns (r: Outcome<CanonicalResponse>)
      requires store.Valid()
      modifies store
      ensures store.Valid()
      ensures (store.State(), r) == GetSpec(old(store.State()), identifier, rs)
    {
      if identifier.Some? && |identifier.value| > 0 {
        r := HandleGetDocument(identifier.value, rs);
      } else {
        r := HandleGetAllDocumentsMetadata();
      }
    }

    method HandleDelete(identifier: Option<string>, rs: Option<Revisions.RevisionSpecification>) returns (r: Outcome<CanonicalResponse>)
      requires store.Valid()
      modifies store
      ensures store.Valid()
      ensures (store.State(), r) == DeleteSpec(old(store.State()), config, identifier, rs)
    {
      var found := store.GetObjectMetadata(identifier);
      if found.Thrown? {
        r := CatchSdkClient(found.exception);
        return;
      }
      if found.value.None? {
        r := NotFound();
        return;
      }
      var documentBuilder := new Documents.Builder();
      documentBuilder.WithIdentifier(identifier);
      documentBuilder.WithObjectMetadata(found.value.value);
      var count := GetVersionCount(identifier);
      if count.Thrown? {
        r := CatchSdkClient(count.exception);
        return;
      }
      documentBuilder.WithRevision(Some(count.value));
      var doc := documentBuilder.Build();
      var deleted := store.DeleteObject(identifier);
      if deleted.Thrown? {
        r := CatchSdkClient(deleted.exception);
        return;
      }
      var response := JsonBody(doc);
      r := Normal(response);
    }

    method HandleHead(identifier: Option<string>, rs: Option<Revisions.RevisionSpecification>) returns (r: Outcome<CanonicalResponse>)
      requires store.Valid()
      modifies store
      ensures store.Valid()
      ensures (store.State(), r) == HeadSpec(old(store.State()), identifier, rs)
    {
      var found := store.GetObjectMetadata(identifier);
      if found.Thrown? {
        r := CatchSdkClient(found.exception);
        return;
      }
      if found.value.None? {
        r := NotFound();
        return;
      }
      var documentBuilder := new Documents.Builder();
      documentBuilder.WithIdentifier(identifier);
      documentBuilder.WithObjectMetadata(found.value.value);
      var count := GetVersionCount(identifier);
      if count.Thrown? {
        r := CatchSdkClient(count.exception);
        return;
      }
      documentBuilder.WithRevision(Some(count.value));
      var doc := documentBuilder.Build();
      var response := SingleDocumentResponse(doc);
      r := Normal(response);
    }

    method HandleGetDocument(identifier: string, rs: Option<Revisions.RevisionSpecification>) returns (r: Outcome<CanonicalResponse>)
      requires store.Valid()
      modifies store
      ensures store.Valid()
      ensures (store.State(), r) == GetDocumentSpec(old(store.State()), identifier, rs)
    {
      var found := store.GetObjectMetadata(Some(identifier));
      if found.Thrown? {
        return WrappedAws(found.exception, "Getting Object or metadata");
      }
      if found.value.None? {
        return Thrown(Application(IdentifiedDocumentMetadataNotFound(Some(identifier))));
      }
      var fetched := store.GetObject(Some(identifier));
      if fetched.Thrown? {
        return WrappedAws(fetched.exception, "Getting Object or metadata");
      }
      if fetched.value.None? {
        return Thrown(Application(IdentifiedDocumentNotFound(Some(identifier))));
      }
      var documentBuilder := new Documents.Builder();
      documentBuilder.WithIdentifier(Some(identifier));
      documentBuilder.WithObjectMetadata(found.value.value);
      var count := GetVersionCount(Some(identifier));
      if count.Thrown? {
        return WrappedAws(count.exception, "Getting Object or metadata");
      }
      documentBuilder.WithRevision(Some(count.value));
      documentBuilder.WithBodyStream(Some(fetched.value.value.content));
      var doc := documentBuilder.Build();
      r := Normal(CanonicalResponse(Some(SUCCESS), [doc], None));
    }

    method HandleGetAllDocumentsMetadata() returns (r: Outcome<CanonicalResponse>)
      requires store.Valid()
      modifies store
      ensures store.Valid()
      ensures (store.State(), r) == ListAllSpec(old(store.State()))
    {
      var resultBuilder := new Responses.Builder();
      resultBuilder.Success();
      var listing := store.ListObjectsV2();
      if listing.Thrown? {
        return WrappedAws(listing.exception, "Getting Object metadata");
      }
      if listing.value.None? {
        return Thrown(NullPointer);
      }
      if listing.value.value.summaries.Some? {
        var keys := listing.value.value.summaries.value;
        ghost var listed := store.State();
        var failure := AddListedDocuments(resultBuilder, keys);
        if failure.Some? {
          ListAllOfFailure(old(store.State()), keys, store.State(), failure.value);
          return Thrown(failure.value);
        }
        ListAllOfListing(old(store.State()), keys, store.State(), ListDocumentsSpec(listed, keys).1.value);
      }
      var response := resultBuilder.Build();
      r := Normal(response);
    }

    method GetVersionCount(identifier: Option<string>) returns (r: Outcome<nat>)
      requires store.Valid()
      modifies store
      ensures store.Valid()
      ensures (store.State(), r) == VersionCountSpec(old(store.State()), identifier)
      ensures r.Normal? ==> r.value <= VERSION_LISTING_LIMIT
    {
      var versions := store.ListVersions(identifier, VERSION_LISTING_LIMIT);
      if versions.Thrown? {
        return Thrown(versions.exception);
      }
      if versions.value.None? || versions.value.value.summaries.None? {
        return Normal(0);
      }
      r := Normal(|versions.value.value.summaries.value|);
    }

    method GetVersionIdentifier(identifier: Option<string>, rs: Option<Revisions.RevisionSpecification>) returns (r: Outcome<nat>)
      requires store.Valid()
      modifies store
      ensures store.Valid()
      ensures (store.State(), r) == VersionIdentifierSpec(old(store.State()), identifier, rs)
    {
      var versions := store.ListVersions(identifier, VERSION_LISTING_LIMIT);
      if versions.Thrown? {
        return Thrown(versions.exception);
      }
      if versions.value.None? || versions.value.value.summaries.None? || rs.None? {
        return Thrown(NullPointer);
      }
      var summaries := versions.value.value.summaries.value;
      var versionIndex := AddInt(|summaries| - 1, rs.value.value);
      if 0 <= versionIndex < |summaries| {
        return Normal(summaries[versionIndex].versionId);
      }
      r := Thrown(Application(UnknownRevision(identifier, rs)));
    }

    /** The metadata object `internalHandlePostAndPut` fills in before the put. */
    method NewUploadMetadata(name: Option<string>, description: Option<string>, contentType: Option<string>,
                             contentLength: Option<Int32>, bodyIsBase64Encoded: bool)
      returns (md: ObjectMetadata)
      ensures md == UploadMetadata(name, description, contentType, contentLength, bodyIsBase64Encoded)
    {
      md := AddUserMetadata(EmptyMetadata, Documents.S3_METADATA_REPORT_NAME, name);
      md := AddUserMetadata(md, Documents.S3_METADATA_REPORT_DESCRIPTION, description);
      if contentType.Some? {
        if bodyIsBase64Encoded && !EndsWith(contentType.value, BASE64_SUFFIX) {
          md := md.(contentType := Some(contentType.value + BASE64_SUFFIX));
        } else {
          md := md.(contentType := contentType);
        }
      }
      if contentLength.Some? {
        md := md.(contentLength := contentLength.value);
      }
    }

    method NewPostedDocument(identifier: Option<string>, result: PutObjectResult) returns (d: Documents.CanonicalDocument)
      ensures d == PostedDocument(identifier, result)
    {
      var documentBuilder := new Documents.Builder();
      documentBuilder.WithIdentifier(identifier);
      documentBuilder.WithRevision(Some(0));
      if result.metadata.Some? {
        var m := result.metadata.value;
        documentBuilder.WithContentType(m.contentType);
        documentBuilder.WithContentLength(Some(NarrowToInt(m.contentLength)));
        documentBuilder.WithName(UserMetadataOf(m, Documents.S3_METADATA_REPORT_NAME));
        documentBuilder.WithDescription(UserMetadataOf(m, Documents.S3_METADATA_REPORT_DESCRIPTION));
      }
      d := documentBuilder.Build();
    }

    /** The listing loop: appends one document per key to the response until a metadata lookup fails. */
    method AddListedDocuments(resultBuilder: Responses.Builder, keys: seq<string>) returns (failure: Option<Throwable>)
      requires store.Valid() && resultBuilder.reports == []
      modifies store, resultBuilder
      ensures store.Valid()
      ensures store.State() == ListDocumentsSpec(old(store.State()), keys).0
      ensures ListDocumentsSpec(old(store.State()), keys).1.Thrown? ==> failure == Some(ListDocumentsSpec(old(store.State()), keys).1.exception)
      ensures ListDocumentsSpec(old(store.State()), keys).1.Normal? ==>
        failure.None? && resultBuilder.State() == old(resultBuilder.State()).(reports := ListDocumentsSpec(old(store.State()), keys).1.value)
    {
      ghost var start := store.State();
      ghost var before := resultBuilder.State();
      var i := 0;
      while i < |keys|
        invariant 0 <= i <= |keys|
        invariant store.Valid() && ValidState(start)
        invariant ListDocumentsSpec(start, keys[..i]).1.Normal?
        invariant store.State() == ListDocumentsSpec(start, keys[..i]).0
        invariant resultBuilder.State() == before.(reports := ListDocumentsSpec(start, keys[..i]).1.value)
      {
        ListDocumentsExtend(start, keys, i);
        var found := store.GetObjectMetadata(Some(keys[i]));
        if found.Thrown? || found.value.None? {
          ExceptionStopsListing(start, keys, i + 1);
          failure := if found.Thrown? then Some(WrappedAws<()>(found.exception, "Getting Object metadata").exception) else Some(NullPointer);
          return;
        }
        var doc := NewListedDocument(keys[i], found.value.value);
        resultBuilder.AddDocument(doc);
        i := i + 1;
      }
      assert keys[..i] == keys;
      failure := None;
    }

    method NewListedDocument(key: string, md: ObjectMetadata) returns (d: Documents.CanonicalDocument)
      ensures d == ListedDocument(key, md)
    {
      var documentBuilder := new Documents.Builder();
      documentBuilder.WithIdentifier(Some(key));
      documentBuilder.WithName(UserMetadataOf(md, Documents.S3_METADATA_REPORT_NAME));
      documentBuilder.WithDescription(UserMetadataOf(md, Documents.S3_METADATA_REPORT_DESCRIPTION));
      documentBuilder.WithContentLength(Some(NarrowToInt(md.contentLength)));
      documentBuilder.WithContentType(md.contentType);
      d := documentBuilder.Build();
    }

    /** A SUCCESS response holding the one document. */
    method SingleDocumentResponse(d: Documents.CanonicalDocument) returns (response: CanonicalResponse)
      ensures response == BuildStep(AddDocumentStep(SuccessStep(Fresh), d))
    {
      var responseBuilder := new Responses.Builder();
      responseBuilder.Success();
      responseBuilder.AddDocument(d);
      response := responseBuilder.Build();
    }

    /** A SUCCESS response whose raw body is the document rendered as JSON. */
    method JsonBody(d: Documents.CanonicalDocument) returns (response: CanonicalResponse)
      ensures response == JsonResponse(config, d)
    {
      var responseBuilder := new Responses.Builder();
      responseBuilder.SuccessWithJsonBody(config.render(d));
      response := responseBuilder.Build();
    }

    method CatchSdkClient(e: Throwable) returns (r: Outcome<CanonicalResponse>)
      ensures r == CaughtSdkClient(e)
    {
      if IsSdkClientException(e) {
        var response := ServiceFailure(Some(e));
        return Normal(response);
      }
      r := Thrown(e);
    }

    method ServiceFailure(e: Option<Throwable>) returns (response: CanonicalResponse)
      ensures response == ServiceFailureResponse(e)
    {
      var builder := new Responses.Builder();
      builder.ServiceException(e);
      response := builder.Build();
    }

    method NotFound() returns (r: Outcome<CanonicalResponse>)
      ensures r == Normal(NotFoundResponse(None))
    {
      var builder := new Responses.Builder();
      builder.ReportNotFoundException(None);
      var response := builder.Build();
      r := Normal(response);
    }
  }

  /** The listing's answer once the loop has described every key. */
  lemma ListAllOfListing(st: StoreState, keys: seq<string>, st2: StoreState, docs: seq<Documents.CanonicalDocument>)
    requires ValidState(st)
    requires ListObjectsStep(st).1 == Normal(Some(Listing(Some(keys))))
    requires ListDocumentsSpec(Tick(st), keys) == (st2, Normal(docs))
    ensures ListAllSpec(st) == (st2, Normal(CanonicalResponse(Some(SUCCESS), docs, None)))
  {
    SuccessThenAddDocuments(Fresh, docs);
  }

  /** The listing's answer once the loop has stopped on an exception. */
  lemma ListAllOfFailure(st: StoreState, keys: seq<string>, st2: StoreState, e: Throwable)
    requires ValidState(st)
    requires ListObjectsStep(st).1 == Normal(Some(Listing(Some(keys))))
    requires ListDocumentsSpec(Tick(st), keys) == (st2, Thrown(e))
    ensures ListAllSpec(st) == (st2, Thrown(e))
  {
  }

  /** One more key: the listing loop's state after the next metadata call. */
  lemma ListDocumentsExtend(st: StoreState, keys: seq<string>, i: nat)
    requires ValidState(st) && i < |keys|
    ensures ListDocumentsSpec(st, keys[..i + 1]) == ListingStep(ListDocumentsSpec(st, keys[..i]), keys[i])
  {
    assert keys[..i + 1][..i] == keys[..i];
  }

  /** Once an exception stops the listing loop, the remaining keys change nothing. */
  lemma {:induction false} ExceptionStopsListing(st: StoreState, keys: seq<string>, n: nat)
    requires ValidState(st) && n <= |keys|
    requires ListDocumentsSpec(st, keys[..n]).1.Thrown?
    ensures ListDocumentsSpec(st, keys) == ListDocumentsSpec(st, keys[..n])
  {
    if n < |keys| {
      var init := keys[..|keys| - 1];
      assert init[..n] == keys[..n];
      ExceptionStopsListing(st, init, n);
    } else {
      assert keys[..n] == keys;
    }
  }
}

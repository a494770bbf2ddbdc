/**
 * What the dispatcher promises across its handlers: the role gate, what
 * each verb leaves in the store and answers, the revision arithmetic, and
 * how exceptions become responses.
 */
module ManagerProperties {
  import opened Lang
  import opened Exceptions
  import Revisions
  import opened ObjectStore
  import Documents
  import opened Responses
  import Requests
  import opened Manager

  /** No anomaly is scheduled for the next n calls. */
  predicate Quiet(st: StoreState, n: nat)
  {
    forall k :: st.calls <= k < st.calls + n ==> k !in st.faults
  }

  /** Scheduling nothing for the next n calls means nothing for this one and the n - 1 after it. */
  lemma QuietTick(st: StoreState, n: nat)
    requires Quiet(st, n) && n > 0
    ensures Scheduled(st).None? && ScheduledException(st).None? && !ScheduledNull(st)
    ensures Quiet(Tick(st), n - 1)
  {
  }

  /** With nothing scheduled, the count is the number of versions listed under the identifier as prefix. */
  lemma VersionCountQuiet(st: StoreState, identifier: Option<string>)
    requires ValidState(st) && Scheduled(st).None?
    ensures VersionCountSpec(st, identifier)
         == (Tick(st), Normal(|Take(VersionsWithPrefix(st.objects, st.order, identifier), VERSION_LISTING_LIMIT)|))
  {
  }

  /** The number of versions a version count lists for this identifier. */
  function ListedVersionCount(st: StoreState, key: string): (n: nat)
    ensures n <= VERSION_LISTING_LIMIT
  {
    |Take(VersionsWithPrefix(st.objects, st.order, Some(key)), VERSION_LISTING_LIMIT)|
  }

  // ----- the role gate -----

  /** A request the gate turns away gets FORBIDDEN and makes no store call at all. */
  lemma ForbiddenWithoutRole(st: StoreState, cfg: Config, req: Requests.CanonicalRequest, newIdentifier: string)
    requires ValidState(st)
    requires ExtractRoles(cfg, req.authorization).Normal? && req.httpMethod.Some?
    requires var verb := ToUpper(req.httpMethod.value);
      (IsManagingVerb(verb) || IsReadingVerb(verb)) && !Permitted(cfg, verb, ExtractRoles(cfg, req.authorization).value)
    ensures HandleRequestSpec(st, cfg, req, newIdentifier) == (st, Normal(Some(CanonicalResponse(Some(FORBIDDEN), [], None))))
  {
  }

  /** For the five verbs, the answer is FORBIDDEN exactly when the gate refuses the roles. */
  lemma ForbiddenExactlyWhenRefused(st: StoreState, cfg: Config, req: Requests.CanonicalRequest, newIdentifier: string)
    requires ValidState(st)
    requires ExtractRoles(cfg, req.authorization).Normal? && req.httpMethod.Some?
    requires var verb := ToUpper(req.httpMethod.value); IsManagingVerb(verb) || IsReadingVerb(verb)
    ensures var r := HandleRequestSpec(st, cfg, req, newIdentifier).1;
      (r.Normal? && r.value.Some? && r.value.value.result == Some(FORBIDDEN))
      <==> !Permitted(cfg, ToUpper(req.httpMethod.value), ExtractRoles(cfg, req.authorization).value)
  {
  }

  /** With checking off, no request is ever answered FORBIDDEN. */
  lemma DisabledNeverForbids(st: StoreState, cfg: Config, req: Requests.CanonicalRequest, newIdentifier: string)
    requires ValidState(st) && !cfg.authorizationCheckingEnabled
    ensures var r := HandleRequestSpec(st, cfg, req, newIdentifier).1;
      !(r.Normal? && r.value.Some? && r.value.value.result == Some(FORBIDDEN))
  {
  }

  /** A token carrying only the user role may read but not change reports. */
  lemma UserRoleOnlyReads(cfg: Config, roles: seq<string>)
    requires cfg.authorizationCheckingEnabled
    requires cfg.userRoleName in roles && cfg.managerRoleName !in roles
    ensures Permitted(cfg, "GET", roles) && Permitted(cfg, "HEAD", roles)
    ensures !Permitted(cfg, "POST", roles) && !Permitted(cfg, "PUT", roles) && !Permitted(cfg, "DELETE", roles)
  {
  }

  /** A token the library cannot parse escapes the dispatcher as ParseException, before any store call. */
  lemma MalformedTokenEscapes(st: StoreState, cfg: Config, req: Requests.CanonicalRequest, newIdentifier: string)
    requires ValidState(st)
    requires req.authorization.Some? && cfg.decodeToken(NormalizedToken(req.authorization.value)) == Malformed
    ensures HandleRequestSpec(st, cfg, req, newIdentifier) == (st, Thrown(TokenParse))
  {
  }

  /** A verb outside the five is answered with a null response and no store call. */
  lemma UnknownVerbAnswersNull(st: StoreState, cfg: Config, req: Requests.CanonicalRequest, newIdentifier: string)
    requires ValidState(st)
    requires ExtractRoles(cfg, req.authorization).Normal? && req.httpMethod.Some?
    requires !IsManagingVerb(ToUpper(req.httpMethod.value)) && !IsReadingVerb(ToUpper(req.httpMethod.value))
    ensures HandleRequestSpec(st, cfg, req, newIdentifier) == (st, Normal(None))
  {
  }

  /** The verb is matched after upper-casing, so "get" and "Get" are routed as "GET". */
  lemma VerbMatchIgnoresCase(st: StoreState, cfg: Config, req: Requests.CanonicalRequest, newIdentifier: string)
    requires ValidState(st)
    requires ExtractRoles(cfg, req.authorization).Normal?
    requires req.httpMethod == Some("get") || req.httpMethod == Some("Get")
    ensures HandleRequestSpec(st, cfg, req, newIdentifier)
         == RouteSpec(st, cfg, "GET", ExtractRoles(cfg, req.authorization).value, req, newIdentifier)
  {
    assert ToUpper("get") == "GET";
    assert ToUpper("Get") == "GET";
  }

  /** The string role claim splits on commas into exactly its pieces, without trimming. */
  lemma SplitsIntoPieces()
    ensures JavaSplit("a,b") == ["a", "b"]
    ensures JavaSplit(" a, b") == [" a", " b"]
  {
    SplitJoin(["a", "b"]);
    assert JoinWithCommas(["a", "b"]) == "a,b";
    SplitJoin([" a", " b"]);
    assert JoinWithCommas([" a", " b"]) == " a, b";
  }

  /** Trailing empty pieces are dropped, inner ones kept. */
  lemma SplitDropsTrailingEmpty()
    ensures JavaSplit("a,,b,,") == ["a", "", "b"]
  {
    SplitOfTrailingCommas();
    DropOfTrailingEmpties();
    assert "a,,b,,"[1] == ',';
  }

  lemma SplitOfTrailingCommas()
    ensures SplitAtCommas("a,,b,,") == ["a", "", "b", "", ""]
  {
    var pieces := ["a", "", "b", "", ""];
    SplitJoin(pieces);
    assert JoinWithCommas(pieces) == "a,,b,,";
  }

  lemma DropOfTrailingEmpties()
    ensures DropTrailingEmpty(["a", "", "b", "", ""]) == ["a", "", "b"]
  {
    assert ["a", "", "b", "", ""][..4] == ["a", "", "b", ""];
    assert ["a", "", "b", ""][..3] == ["a", "", "b"];
  }

  /** The empty claim is one empty role; a lone comma is no role at all. */
  lemma SplitOfEmptyAndComma()
    ensures JavaSplit("") == [""]
    ensures JavaSplit(",") == []
  {
    SplitJoin(["", ""]);
    assert JoinWithCommas(["", ""]) == ",";
    assert ["", ""][..1] == [""];
    assert [""][..0] == [];
  }

  // ----- POST and PUT -----

  /**
   * A POST stores its body under the new identifier as that key's only
   * version, and answers with the JSON of the revision-0 document read
   * from the put reply; the answer itself holds no document.
   */
  lemma PostStoresNewReport(st: StoreState, cfg: Config, newIdentifier: string,
                            name: Option<string>, description: Option<string>,
                            contentType: Option<string>, contentLength: Option<Int32>,
                            content: Stream, bodyIsBase64Encoded: bool)
    requires ValidState(st) && newIdentifier !in st.objects
    requires Scheduled(st).None? || Scheduled(st).value.ReplyMetadata?
    ensures var md := UploadMetadata(name, description, contentType, contentLength, bodyIsBase64Encoded);
      var (st1, r) := PostSpec(st, cfg, newIdentifier, name, description, contentType, contentLength, Some(content), bodyIsBase64Encoded);
      var doc := PostedDocument(Some(newIdentifier), PutObjectResult(st.nextVersionId, ScheduledReplyMetadata(st)));
      && st1 == StoreVersion(Tick(st), newIdentifier, content, md)
      && st1.objects == st.objects[newIdentifier := [Version(st.nextVersionId, md, content)]]
      && st1.calls == st.calls + 1
      && r == Normal(JsonResponse(cfg, doc))
      && doc.identifier == Some(newIdentifier) && doc.revision == Some(0)
      && (cfg.render(doc).Some? ==> r.value == CanonicalResponse(Some(SUCCESS), [], None))
  {
    var md := UploadMetadata(name, description, contentType, contentLength, bodyIsBase64Encoded);
    var doc := PostedDocument(Some(newIdentifier), PutObjectResult(st.nextVersionId, ScheduledReplyMetadata(st)));
    SuccessWithJsonBodyOutcome(Fresh, cfg.render(doc));
    assert ScheduledException(st).None? && !ScheduledNull(st);
    var stored := StoreVersion(Tick(st), newIdentifier, content, md);
    assert [] + [Version(st.nextVersionId, md, content)] == [Version(st.nextVersionId, md, content)];
    assert stored.objects == st.objects[newIdentifier := [Version(st.nextVersionId, md, content)]];
    assert PutStep(st, Some(newIdentifier), Some(content), md)
        == (stored, Normal(Some(PutObjectResult(st.nextVersionId, ScheduledReplyMetadata(st)))));
    assert PostSpec(st, cfg, newIdentifier, name, description, contentType, contentLength, Some(content), bodyIsBase64Encoded)
        == (stored, Normal(JsonResponse(cfg, doc)));
  }

  /**
   * The POST/PUT answer describes the report only as far as the put reply's
   * metadata does: a reply without metadata gives no name, description,
   * type or length, and a reply echoing the uploaded metadata gives the
   * request's name, description and tagged type.
   */
  lemma PostedDocumentOfReply(identifier: string, versionId: nat, replied: Option<ObjectMetadata>,
                              name: Option<string>, description: Option<string>,
                              contentType: Option<string>, contentLength: Option<Int32>, bodyIsBase64Encoded: bool)
    ensures var doc := PostedDocument(Some(identifier), PutObjectResult(versionId, replied));
      && (replied.None? ==>
            doc == Documents.Unset.(identifier := Some(identifier), revision := Some(0)))
      && (replied.Some? ==>
            && doc.name == UserMetadataOf(replied.value, Documents.S3_METADATA_REPORT_NAME)
            && doc.description == UserMetadataOf(replied.value, Documents.S3_METADATA_REPORT_DESCRIPTION)
            && doc.contentType == replied.value.contentType
            && doc.contentLength == Some(NarrowToInt(replied.value.contentLength)))
      && (replied == Some(UploadMetadata(name, description, contentType, contentLength, bodyIsBase64Encoded)) ==>
            && doc.name == name && doc.description == description
            && doc.contentType == StoredContentType(contentType, bodyIsBase64Encoded))
  {
  }

  /**
   * A PUT of a stored report whose put is not faulted appends the upload as
   * the key's newest version, in two calls (the existence check and the
   * put), and answers with the JSON of the revision-0 document read from
   * the put reply.
   */
  lemma PutAppendsNewestVersion(st: StoreState, cfg: Config, key: string,
                                name: Option<string>, description: Option<string>,
                                contentType: Option<string>, contentLength: Option<Int32>,
                                content: Stream, bodyIsBase64Encoded: bool)
    requires ValidState(st) && key in st.objects && Quiet(st, 1)
    requires Scheduled(Tick(st)).None? || Scheduled(Tick(st)).value.ReplyMetadata?
    ensures var md := UploadMetadata(name, description, contentType, contentLength, bodyIsBase64Encoded);
      var (st1, r) := PutSpec(st, cfg, Some(key), name, description, contentType, contentLength, Some(content), bodyIsBase64Encoded);
      && st1 == StoreVersion(Tick(Tick(st)), key, content, md)
      && st1.objects == st.objects[key := st.objects[key] + [Version(st.nextVersionId, md, content)]]
      && st1.calls == st.calls + 2
      && r == Normal(JsonResponse(cfg, PostedDocument(Some(key), PutObjectResult(st.nextVersionId, ScheduledReplyMetadata(Tick(st))))))
  {
    QuietTick(st, 1);
    QuietMetadata(st, key);
    PutOfStoredKey(Tick(st), cfg, key, name, description, contentType, contentLength, content, bodyIsBase64Encoded);
  }

  /** The put step of a PUT whose existence check succeeded. */
  lemma PutOfStoredKey(st: StoreState, cfg: Config, key: string,
                       name: Option<string>, description: Option<string>,
                       contentType: Option<string>, contentLength: Option<Int32>,
                       content: Stream, bodyIsBase64Encoded: bool)
    requires ValidState(st) && key in st.objects
    requires Scheduled(st).None? || Scheduled(st).value.ReplyMetadata?
    ensures var md := UploadMetadata(name, description, contentType, contentLength, bodyIsBase64Encoded);
      PostAndPutSpec(st, cfg, Some(key), name, description, contentType, contentLength, Some(content), bodyIsBase64Encoded)
        == (StoreVersion(Tick(st), key, content, md),
            Normal(JsonResponse(cfg, PostedDocument(Some(key), PutObjectResult(st.nextVersionId, ScheduledReplyMetadata(st))))))
  {
    assert ScheduledException(st).None? && !ScheduledNull(st);
  }

  /** After a quiet PUT of a stored report, a GET delivers the uploaded content as the newest version. */
  lemma PutThenGetDeliversUpload(st: StoreState, cfg: Config, key: string,
                                 name: Option<string>, description: Option<string>,
                                 contentType: Option<string>, contentLength: Option<Int32>,
                                 content: Stream, bodyIsBase64Encoded: bool, rs: Option<Revisions.RevisionSpecification>)
    requires ValidState(st) && key in st.objects && key != "" && Quiet(st, 5)
    ensures var md := UploadMetadata(name, description, contentType, contentLength, bodyIsBase64Encoded);
      var st1 := PutSpec(st, cfg, Some(key), name, description, contentType, contentLength, Some(content), bodyIsBase64Encoded).0;
      var r := GetSpec(st1, Some(key), rs).1;
      && r.Normal? && r.value.result == Some(SUCCESS) && |r.value.reports| == 1
      && r.value.reports[0].bodyStream == Some(content)
      && r.value.reports[0] == MetadataDocument(Some(key), md, ListedVersionCount(st1, key)).(bodyStream := Some(content))
  {
    var md := UploadMetadata(name, description, contentType, contentLength, bodyIsBase64Encoded);
    PutAppendsNewestVersion(st, cfg, key, name, description, contentType, contentLength, content, bodyIsBase64Encoded);
    var st1 := StoreVersion(Tick(Tick(st)), key, content, md);
    StoreVersionValid(Tick(Tick(st)), key, content, md);
    assert Latest(st1.objects[key]) == Version(st.nextVersionId, md, content);
    assert Quiet(st1, 3);
    GetDeliversReport(st1, key, rs);
  }

  /**
   * A PUT does not copy the stored name forward: a PUT without a name over
   * a version that has one leaves a newest version without it.
   */
  lemma PutDoesNotCopyMetadataForward(st: StoreState, cfg: Config, key: string,
                                      description: Option<string>,
                                      contentType: Option<string>, contentLength: Option<Int32>,
                                      content: Stream, bodyIsBase64Encoded: bool)
    requires ValidState(st) && key in st.objects && Quiet(st, 2)
    requires UserMetadataOf(Latest(st.objects[key]).metadata, Documents.S3_METADATA_REPORT_NAME).Some?
    ensures var st1 := PutSpec(st, cfg, Some(key), None, description, contentType, contentLength, Some(content), bodyIsBase64Encoded).0;
      && key in st1.objects && |st1.objects[key]| > 0
      && UserMetadataOf(Latest(st1.objects[key]).metadata, Documents.S3_METADATA_REPORT_NAME).None?
      && UserMetadataOf(Latest(st1.objects[key]).metadata, Documents.S3_METADATA_REPORT_DESCRIPTION) == description
  {
    var md := UploadMetadata(None, description, contentType, contentLength, bodyIsBase64Encoded);
    PutAppendsNewestVersion(st, cfg, key, None, description, contentType, contentLength, content, bodyIsBase64Encoded);
  }

  /** A PUT of an identifier whose metadata lookup finds nothing answers NOT_FOUND and writes nothing. */
  lemma PutOnMissingReportWritesNothing(st: StoreState, cfg: Config, identifier: Option<string>,
                                        name: Option<string>, description: Option<string>,
                                        contentType: Option<string>, contentLength: Option<Int32>,
                                        body: Option<Stream>, bodyIsBase64Encoded: bool)
    requires ValidState(st) && MetadataStep(st, identifier).1 == Normal(None)
    ensures PutSpec(st, cfg, identifier, name, description, contentType, contentLength, body, bodyIsBase64Encoded)
         == (Tick(st), Normal(CanonicalResponse(Some(NOT_FOUND), [], None)))
  {
  }

  /** The PUT's existence check sits outside every catch: a service fault there escapes as is. */
  lemma PutLookupFaultEscapes(st: StoreState, cfg: Config, identifier: string,
                              name: Option<string>, description: Option<string>,
                              contentType: Option<string>, contentLength: Option<Int32>,
                              body: Option<Stream>, bodyIsBase64Encoded: bool)
    requires ValidState(st) && Scheduled(st) == Some(ServiceFault)
    ensures PutSpec(st, cfg, Some(identifier), name, description, contentType, contentLength, body, bodyIsBase64Encoded)
         == (Tick(st), Thrown(AmazonService))
  {
  }

  /** A null put reply answers SERVICE_EXCEPTION, although the version has been stored. */
  lemma NullPutReplyStillStores(st: StoreState, cfg: Config, identifier: string,
                                name: Option<string>, description: Option<string>,
                                contentType: Option<string>, contentLength: Option<Int32>,
                                content: Stream, bodyIsBase64Encoded: bool)
    requires ValidState(st) && ScheduledNull(st)
    ensures var md := UploadMetadata(name, description, contentType, contentLength, bodyIsBase64Encoded);
      PostAndPutSpec(st, cfg, Some(identifier), name, description, contentType, contentLength, Some(content), bodyIsBase64Encoded)
      == (StoreVersion(Tick(st), identifier, content, md),
          Normal(CanonicalResponse(Some(SERVICE_EXCEPTION), [],
            Some(Application(WrappedService(Some("putObject response was null"), None))))))
  {
  }

  /** A service fault of the put becomes an unrecoverable dependent invocation, answered SERVICE_EXCEPTION. */
  lemma PutServiceFaultIsWrapped(st: StoreState, cfg: Config, identifier: string,
                                 name: Option<string>, description: Option<string>,
                                 contentType: Option<string>, contentLength: Option<Int32>,
                                 content: Stream, bodyIsBase64Encoded: bool)
    requires ValidState(st) && Scheduled(st) == Some(ServiceFault)
    ensures var e := UnrecoverableDependentInvocation(Some("AmazonS3.putObject"), Some(AmazonService));
      && PostAndPutSpec(st, cfg, Some(identifier), name, description, contentType, contentLength, Some(content), bodyIsBase64Encoded)
         == (Tick(st), Thrown(Application(e)))
      && ExceptionResponse(e).result == Some(SERVICE_EXCEPTION)
      && Exceptions.HttpResponseCode(e) == 502
  {
  }

  /** A client fault of the put is not caught anywhere and escapes the dispatcher. */
  lemma PutClientFaultEscapes(st: StoreState, cfg: Config, identifier: string,
                              name: Option<string>, description: Option<string>,
                              contentType: Option<string>, contentLength: Option<Int32>,
                              content: Stream, bodyIsBase64Encoded: bool)
    requires ValidState(st) && Scheduled(st) == Some(ClientFault)
    ensures PostAndPutSpec(st, cfg, Some(identifier), name, description, contentType, contentLength, Some(content), bodyIsBase64Encoded)
         == (Tick(st), Thrown(SdkClient))
  {
  }

  // ----- version counting and selection -----

  /** With no other key extending the identifier, the count is its number of versions, capped at the listing limit. */
  lemma VersionCountOfOnlyKey(st: StoreState, key: string)
    requires ValidState(st) && key in st.objects && Scheduled(st).None?
    requires forall k :: k in st.objects && k != key ==> !StartsWith(k, key)
    ensures VersionCountSpec(st, Some(key)).1
         == Normal(if |st.objects[key]| <= VERSION_LISTING_LIMIT then |st.objects[key]| else VERSION_LISTING_LIMIT)
  {
    OnlyKeyListed(st.objects, st.order, key);
  }

  /** The identifier is listed as a prefix, so the versions of a longer key that extends it are counted too. */
  lemma VersionCountIncludesExtendingKeys(v: Version, w: Version)
    ensures var st := StoreState(map["a" := [v], "ab" := [w]], ["a", "ab"], 0, 0, map[]);
      ValidState(st) && VersionCountSpec(st, Some("a")).1 == Normal(2)
  {
    var st := StoreState(map["a" := [v], "ab" := [w]], ["a", "ab"], 0, 0, map[]);
    assert ["a", "ab"][..1] == ["a"];
    assert ["a"][..0] == [];
    assert StartsWith("a", "a") && StartsWith("ab", "a");
    assert Summaries("a", [v]) == [VersionSummary("a", v.versionId)];
    assert Summaries("ab", [w]) == [VersionSummary("ab", w.versionId)];
    assert VersionsWithPrefix(st.objects, ["a"], Some("a")) == [VersionSummary("a", v.versionId)];
    assert VersionsWithPrefix(st.objects, st.order, Some("a")) == [VersionSummary("a", v.versionId), VersionSummary("ab", w.versionId)];
  }

  /** A null listing, or one whose summaries are null, counts as zero versions. */
  lemma NullListingCountsZero(st: StoreState, identifier: Option<string>)
    requires ValidState(st) && Scheduled(st) in {Some(NullResult), Some(NullListing)}
    ensures VersionCountSpec(st, identifier) == (Tick(st), Normal(0))
  {
  }

  /**
   * Of the N versions listed, the selector's value picks index
   * (N - 1) + value, so value 0 is the last listed and -1 the one before;
   * any other value is an unknown revision. The int sum can wrap, but only
   * to a negative index, so the wrap-around never selects a version.
   */
  lemma VersionIdentifierSelects(st: StoreState, identifier: Option<string>, rs: Revisions.RevisionSpecification)
    requires ValidState(st) && Scheduled(st).None?
    ensures var versions := Take(VersionsWithPrefix(st.objects, st.order, identifier), VERSION_LISTING_LIMIT);
      var r := VersionIdentifierSpec(st, identifier, Some(rs)).1;
      && (r.Normal? <==> 0 - |versions| < rs.value <= 0)
      && (r.Normal? ==> r.value == versions[|versions| - 1 + rs.value].versionId)
      && (r.Thrown? ==> r.exception == Application(UnknownRevision(identifier, Some(rs))))
  {
    var versions := Take(VersionsWithPrefix(st.objects, st.order, identifier), VERSION_LISTING_LIMIT);
    var index := AddInt(|versions| - 1, rs.value);
    if |versions| - 1 + rs.value > INT_MAX {
      assert index < 0;
    }
  }

  /** Only the selector's value takes part in the selection; its ALL and relative flags do not. */
  lemma SelectionIgnoresFlags(st: StoreState, identifier: Option<string>, a: Revisions.RevisionSpecification, b: Revisions.RevisionSpecification)
    requires ValidState(st) && a.value == b.value
    ensures VersionIdentifierSpec(st, identifier, Some(a)).1.Normal? ==>
      VersionIdentifierSpec(st, identifier, Some(b)).1 == VersionIdentifierSpec(st, identifier, Some(a)).1
  {
  }

  // ----- DELETE, HEAD and GET -----

  /** The DELETE answer once the three store calls have succeeded, whatever they returned. */
  lemma DeleteOfSteps(st: StoreState, cfg: Config, key: string, rs: Option<Revisions.RevisionSpecification>,
                      md: ObjectMetadata, n: nat, st2: StoreState, st3: StoreState)
    requires ValidState(st)
    requires MetadataStep(st, Some(key)).1 == Normal(Some(md))
    requires VersionCountSpec(Tick(st), Some(key)) == (st2, Normal(n))
    requires ValidState(st2) && DeleteStep(st2, Some(key)) == (st3, Normal(()))
    ensures DeleteSpec(st, cfg, Some(key), rs) == (st3, Normal(JsonResponse(cfg, MetadataDocument(Some(key), md, n))))
  {
  }

  /** With nothing scheduled, the metadata lookup of a stored key finds its newest version's metadata. */
  lemma QuietMetadata(st: StoreState, key: string)
    requires ValidState(st) && key in st.objects && Scheduled(st).None?
    ensures MetadataStep(st, Some(key)) == (Tick(st), Normal(Some(Latest(st.objects[key]).metadata)))
  {
  }

  /** With nothing scheduled, the content fetch of a stored key returns its newest version. */
  lemma QuietObject(st: StoreState, key: string)
    requires ValidState(st) && key in st.objects && Scheduled(st).None?
    ensures ObjectStep(st, Some(key))
         == (Tick(st), Normal(Some(S3Object(key, Latest(st.objects[key]).metadata, Latest(st.objects[key]).content))))
  {
  }

  /** With nothing scheduled, a delete removes the key. */
  lemma QuietDelete(st: StoreState, key: string)
    requires ValidState(st) && Scheduled(st).None?
    ensures DeleteStep(st, Some(key)) == (RemoveKey(Tick(st), key), Normal(()))
  {
  }

  /** A DELETE of a stored report counts its versions before removing it and answers with the JSON of its description. */
  lemma DeleteCountsThenDeletes(st: StoreState, cfg: Config, key: string, rs: Option<Revisions.RevisionSpecification>)
    requires ValidState(st) && key in st.objects && Quiet(st, 3)
    ensures DeleteSpec(st, cfg, Some(key), rs)
         == (RemoveKey(st.(calls := st.calls + 3), key),
             Normal(JsonResponse(cfg, MetadataDocument(Some(key), Latest(st.objects[key]).metadata, ListedVersionCount(st, key)))))
  {
    QuietTick(st, 3);
    QuietMetadata(st, key);
    QuietTick(Tick(st), 2);
    VersionCountQuiet(Tick(st), Some(key));
    QuietTick(Tick(Tick(st)), 1);
    QuietDelete(Tick(Tick(st)), key);
    DeleteOfSteps(st, cfg, key, rs, Latest(st.objects[key]).metadata, ListedVersionCount(st, key),
                  Tick(Tick(st)), RemoveKey(st.(calls := st.calls + 3), key));
  }

  /** A DELETE whose metadata lookup finds nothing answers NOT_FOUND and deletes nothing. */
  lemma DeleteOnMissingReportDeletesNothing(st: StoreState, cfg: Config, identifier: Option<string>, rs: Option<Revisions.RevisionSpecification>)
    requires ValidState(st) && MetadataStep(st, identifier).1 == Normal(None)
    ensures DeleteSpec(st, cfg, identifier, rs) == (Tick(st), Normal(CanonicalResponse(Some(NOT_FOUND), [], None)))
  {
  }

  /** The SDK exception a scheduled fault throws. */
  function FaultException(fault: Anomaly): Throwable
    requires fault == ServiceFault || fault == ClientFault
  {
    if fault == ServiceFault then AmazonService else SdkClient
  }

  /**
   * A service or client fault of any of the DELETE's three calls (the
   * metadata lookup, the version count, the delete) is caught and answered
   * SERVICE_EXCEPTION carrying the fault, with nothing deleted.
   */
  lemma DeleteFaultAnswered(st: StoreState, cfg: Config, identifier: string, rs: Option<Revisions.RevisionSpecification>, k: nat)
    requires ValidState(st) && k < 3 && Quiet(st, k) && (k > 0 ==> identifier in st.objects)
    requires st.calls + k in st.faults && st.faults[st.calls + k] in {ServiceFault, ClientFault}
    ensures DeleteSpec(st, cfg, Some(identifier), rs)
         == (st.(calls := st.calls + k + 1),
             Normal(CanonicalResponse(Some(SERVICE_EXCEPTION), [], Some(FaultException(st.faults[st.calls + k])))))
  {
    var e := FaultException(st.faults[st.calls + k]);
    if k == 0 {
      DeleteLookupFault(st, cfg, identifier, rs, e);
    } else if k == 1 {
      DeleteCountFaultScheduled(st, cfg, identifier, rs, e);
    } else {
      DeleteRemovalFaultScheduled(st, cfg, identifier, rs, e);
    }
  }

  lemma DeleteLookupFault(st: StoreState, cfg: Config, key: string, rs: Option<Revisions.RevisionSpecification>, e: Throwable)
    requires ValidState(st) && st.calls in st.faults && st.faults[st.calls] in {ServiceFault, ClientFault}
    requires e == FaultException(st.faults[st.calls])
    ensures DeleteSpec(st, cfg, Some(key), rs) == (st.(calls := st.calls + 1), Normal(ServiceFailureResponse(Some(e))))
  {
  }

  lemma DeleteCountFaultScheduled(st: StoreState, cfg: Config, key: string, rs: Option<Revisions.RevisionSpecification>, e: Throwable)
    requires ValidState(st) && Quiet(st, 1) && key in st.objects
    requires st.calls + 1 in st.faults && st.faults[st.calls + 1] in {ServiceFault, ClientFault}
    requires e == FaultException(st.faults[st.calls + 1])
    ensures DeleteSpec(st, cfg, Some(key), rs) == (st.(calls := st.calls + 2), Normal(ServiceFailureResponse(Some(e))))
  {
    QuietTick(st, 1);
    QuietMetadata(st, key);
    assert Scheduled(Tick(st)) == Some(st.faults[st.calls + 1]);
    DeleteCountFault(st, cfg, key, rs, Latest(st.objects[key]).metadata, e);
  }

  lemma DeleteRemovalFaultScheduled(st: StoreState, cfg: Config, key: string, rs: Option<Revisions.RevisionSpecification>, e: Throwable)
    requires ValidState(st) && Quiet(st, 2) && key in st.objects
    requires st.calls + 2 in st.faults && st.faults[st.calls + 2] in {ServiceFault, ClientFault}
    requires e == FaultException(st.faults[st.calls + 2])
    ensures DeleteSpec(st, cfg, Some(key), rs) == (st.(calls := st.calls + 3), Normal(ServiceFailureResponse(Some(e))))
  {
    QuietTick(st, 2);
    QuietMetadata(st, key);
    QuietTick(Tick(st), 1);
    VersionCountQuiet(Tick(st), Some(key));
    var st2 := Tick(Tick(st));
    assert Scheduled(st2) == Some(st.faults[st.calls + 2]);
    DeleteRemovalFault(st, cfg, key, rs, Latest(st.objects[key]).metadata, ListedVersionCount(st, key), st2, e);
  }

  /** The DELETE's second call, the version count, throws. */
  lemma DeleteCountFault(st: StoreState, cfg: Config, key: string, rs: Option<Revisions.RevisionSpecification>,
                         md: ObjectMetadata, e: Throwable)
    requires ValidState(st) && IsSdkClientException(e)
    requires MetadataStep(st, Some(key)).1 == Normal(Some(md))
    requires VersionCountSpec(Tick(st), Some(key)).1 == Thrown(e)
    ensures DeleteSpec(st, cfg, Some(key), rs) == (Tick(Tick(st)), Normal(ServiceFailureResponse(Some(e))))
  {
  }

  /** The DELETE's third call, the delete itself, throws. */
  lemma DeleteRemovalFault(st: StoreState, cfg: Config, key: string, rs: Option<Revisions.RevisionSpecification>,
                           md: ObjectMetadata, n: nat, st2: StoreState, e: Throwable)
    requires ValidState(st) && IsSdkClientException(e)
    requires MetadataStep(st, Some(key)).1 == Normal(Some(md))
    requires VersionCountSpec(Tick(st), Some(key)) == (st2, Normal(n))
    requires ValidState(st2) && DeleteStep(st2, Some(key)) == (Tick(st2), Thrown(e))
    ensures DeleteSpec(st, cfg, Some(key), rs) == (Tick(st2), Normal(ServiceFailureResponse(Some(e))))
  {
  }

  /** Whatever the schedule, no SDK exception escapes a DELETE. */
  lemma DeleteCatchesSdkExceptions(st: StoreState, cfg: Config, identifier: Option<string>, rs: Option<Revisions.RevisionSpecification>)
    requires ValidState(st)
    ensures DeleteSpec(st, cfg, identifier, rs).1.Thrown? ==> !IsSdkClientException(DeleteSpec(st, cfg, identifier, rs).1.exception)
  {
  }

  /** A HEAD of a stored report answers SUCCESS with its description, version count included and no body, and changes nothing. */
  lemma HeadDescribesReport(st: StoreState, key: string, rs: Option<Revisions.RevisionSpecification>)
    requires ValidState(st) && key in st.objects && Quiet(st, 2)
    ensures HeadSpec(st, Some(key), rs)
         == (st.(calls := st.calls + 2),
             Normal(CanonicalResponse(Some(SUCCESS),
               [MetadataDocument(Some(key), Latest(st.objects[key]).metadata, ListedVersionCount(st, key))], None)))
  {
    QuietTick(st, 2);
    QuietMetadata(st, key);
    QuietTick(Tick(st), 1);
    VersionCountQuiet(Tick(st), Some(key));
    SuccessThenAddDocuments(Fresh, [MetadataDocument(Some(key), Latest(st.objects[key]).metadata, ListedVersionCount(st, key))]);
  }

  /** A GET of a stored report answers SUCCESS with its description and the newest version's content, and changes nothing. */
  lemma GetDeliversReport(st: StoreState, key: string, rs: Option<Revisions.RevisionSpecification>)
    requires ValidState(st) && key in st.objects && key != "" && Quiet(st, 3)
    ensures GetSpec(st, Some(key), rs)
         == (st.(calls := st.calls + 3),
             Normal(CanonicalResponse(Some(SUCCESS),
               [MetadataDocument(Some(key), Latest(st.objects[key]).metadata, ListedVersionCount(st, key))
                  .(bodyStream := Some(Latest(st.objects[key]).content))], None)))
  {
    QuietTick(st, 3);
    QuietMetadata(st, key);
    QuietTick(Tick(st), 2);
    QuietObject(Tick(st), key);
    QuietTick(Tick(Tick(st)), 1);
    VersionCountQuiet(Tick(Tick(st)), Some(key));
  }

  /**
   * A missing report: HEAD answers NOT_FOUND without an exception, GET
   * throws the metadata-not-found exception, which the dispatcher answers
   * NOT_FOUND with that exception attached.
   */
  lemma MissingReportNotFound(st: StoreState, key: string, rs: Option<Revisions.RevisionSpecification>)
    requires ValidState(st) && key != "" && MetadataStep(st, Some(key)).1 == Normal(None)
    ensures HeadSpec(st, Some(key), rs) == (Tick(st), Normal(CanonicalResponse(Some(NOT_FOUND), [], None)))
    ensures GetSpec(st, Some(key), rs) == (Tick(st), Thrown(Application(IdentifiedDocumentMetadataNotFound(Some(key)))))
    ensures ExceptionResponse(IdentifiedDocumentMetadataNotFound(Some(key)))
         == CanonicalResponse(Some(NOT_FOUND), [], Some(Application(IdentifiedDocumentMetadataNotFound(Some(key)))))
  {
  }

  /** A GET whose content fetch finds nothing after the metadata was found throws the document-not-found exception. */
  lemma VanishedContentNotFound(st: StoreState, key: string, rs: Option<Revisions.RevisionSpecification>)
    requires ValidState(st) && key != ""
    requires MetadataStep(st, Some(key)).1.Normal? && MetadataStep(st, Some(key)).1.value.Some?
    requires ObjectStep(Tick(st), Some(key)).1 == Normal(None)
    ensures GetSpec(st, Some(key), rs) == (Tick(Tick(st)), Thrown(Application(IdentifiedDocumentNotFound(Some(key)))))
  {
  }

  /** The revision selector of a request never changes what GET, HEAD or DELETE do. */
  lemma RevisionSelectorUnused(st: StoreState, cfg: Config, identifier: Option<string>, a: Option<Revisions.RevisionSpecification>, b: Option<Revisions.RevisionSpecification>)
    requires ValidState(st)
    ensures GetSpec(st, identifier, a) == GetSpec(st, identifier, b)
    ensures HeadSpec(st, identifier, a) == HeadSpec(st, identifier, b)
    ensures DeleteSpec(st, cfg, identifier, a) == DeleteSpec(st, cfg, identifier, b)
  {
  }

  // ----- the listing -----

  /** Each key's document: its identifier and what its newest metadata says. */
  ghost predicate DescribesKeys(docs: seq<Documents.CanonicalDocument>, objects: map<string, seq<Version>>, keys: seq<string>)
  {
    && |docs| == |keys|
    && forall i :: 0 <= i < |keys| ==>
         keys[i] in objects && |objects[keys[i]]| > 0 &&
         docs[i] == ListedDocument(keys[i], Latest(objects[keys[i]]).metadata)
  }

  /** With no anomaly, the listing loop makes one call per key and builds one document per key, in order. */
  lemma {:induction false} ListDocumentsQuiet(st: StoreState, keys: seq<string>)
    requires ValidState(st) && Quiet(st, |keys|)
    requires forall i :: 0 <= i < |keys| ==> keys[i] in st.objects
    ensures ListDocumentsSpec(st, keys).0 == st.(calls := st.calls + |keys|)
    ensures ListDocumentsSpec(st, keys).1.Normal?
    ensures DescribesKeys(ListDocumentsSpec(st, keys).1.value, st.objects, keys)
  {
    if keys != [] {
      var init := keys[..|keys| - 1];
      var key := keys[|keys| - 1];
      assert forall i :: 0 <= i < |init| ==> init[i] == keys[i];
      ListDocumentsQuiet(st, init);
      var st1 := st.(calls := st.calls + |init|);
      assert Scheduled(st1).None? by {
        assert st1.calls !in st1.faults;
      }
      assert key in st1.objects;
      var md := Latest(st.objects[key]).metadata;
      assert MetadataStep(st1, Some(key)) == (Tick(st1), Normal(Some(md)));
      var prior := ListDocumentsSpec(st, init).1.value;
      var docs := prior + [ListedDocument(key, md)];
      assert ListDocumentsSpec(st, keys) == (Tick(st1), Normal(docs));
      forall i | 0 <= i < |keys|
        ensures docs[i] == ListedDocument(keys[i], Latest(st.objects[keys[i]]).metadata)
      {
        if i < |init| {
          assert docs[i] == prior[i];
        }
      }
    }
  }

  /** Every key of the first listing page is stored. */
  lemma ListedKeysStored(st: StoreState)
    requires ValidState(st)
    ensures forall i :: 0 <= i < |Take(st.order, MAX_KEYS)| ==> Take(st.order, MAX_KEYS)[i] in st.objects
  {
    var keys := Take(st.order, MAX_KEYS);
    forall i | 0 <= i < |keys|
      ensures keys[i] in st.objects
    {
      assert keys[i] == st.order[i];
      assert st.order[i] in st.order;
    }
  }

  /** GET without an identifier answers SUCCESS with one body-less document per listed key, in listing order. */
  lemma ListAllInListingOrder(st: StoreState)
    requires ValidState(st) && Quiet(st, 1 + |Take(st.order, MAX_KEYS)|)
    ensures var keys := Take(st.order, MAX_KEYS);
      var (st1, r) := ListAllSpec(st);
      && st1 == st.(calls := st.calls + 1 + |keys|)
      && r.Normal? && r.value.result == Some(SUCCESS) && r.value.exception.None?
      && DescribesKeys(r.value.reports, st.objects, keys)
  {
    var keys := Take(st.order, MAX_KEYS);
    ListedKeysStored(st);
    QuietTick(st, 1 + |keys|);
    ListDocumentsQuiet(Tick(st), keys);
    var (st2, docs) := ListDocumentsSpec(Tick(st), keys);
    ListAllOfListing(st, keys, st2, docs.value);
  }

  /** An empty store lists no documents, and the answer is still SUCCESS. */
  lemma EmptyStoreListsNothing(st: StoreState)
    requires ValidState(st) && st.order == [] && Quiet(st, 1)
    ensures st.objects == map[]
    ensures ListAllSpec(st).1 == Normal(CanonicalResponse(Some(SUCCESS), [], None))
  {
    ListAllInListingOrder(st);
  }

  /** A null listing reply is dereferenced and escapes as NullPointerException. */
  lemma NullListingReplyEscapes(st: StoreState)
    requires ValidState(st) && ScheduledNull(st)
    ensures ListAllSpec(st) == (Tick(st), Thrown(NullPointer))
  {
  }

  // ----- what a POST leaves for the readers -----

  /**
   * The listing reads the "x-amz-meta-" keys the POST wrote, so it shows
   * the posted name and description.
   */
  lemma PostedNameListed(st: StoreState, cfg: Config, newIdentifier: string,
                         name: Option<string>, description: Option<string>,
                         contentType: Option<string>, contentLength: Option<Int32>,
                         content: Stream, bodyIsBase64Encoded: bool)
    requires ValidState(st) && st.order == [] && Quiet(st, 3)
    ensures var st1 := PostSpec(st, cfg, newIdentifier, name, description, contentType, contentLength, Some(content), bodyIsBase64Encoded).0;
      var r := ListAllSpec(st1).1;
      r.Normal? && |r.value.reports| == 1 &&
      r.value.reports[0].identifier == Some(newIdentifier) &&
      r.value.reports[0].name == name && r.value.reports[0].description == description
  {
    assert newIdentifier !in st.objects;
    PostStoresNewReport(st, cfg, newIdentifier, name, description, contentType, contentLength, content, bodyIsBase64Encoded);
    var md := UploadMetadata(name, description, contentType, contentLength, bodyIsBase64Encoded);
    assert Tick(st).objects == st.objects && Tick(st).order == [];
    var st1 := StoreVersion(Tick(st), newIdentifier, content, md);
    assert st1.order == [] + [newIdentifier];
    assert st1.objects[newIdentifier] == [Version(st.nextVersionId, md, content)];
    OneReportListed(st1, newIdentifier);
    ListedDocumentNames(newIdentifier, md);
  }

  /** The listing's document carries the name and description stored under the "x-amz-meta-" keys. */
  lemma ListedDocumentNames(key: string, md: ObjectMetadata)
    ensures ListedDocument(key, md).name == UserMetadataOf(md, Documents.S3_METADATA_REPORT_NAME)
    ensures ListedDocument(key, md).description == UserMetadataOf(md, Documents.S3_METADATA_REPORT_DESCRIPTION)
  {
  }

  /** A store holding one report lists exactly that report's document. */
  lemma OneReportListed(st: StoreState, key: string)
    requires ValidState(st) && st.order == [key] && Quiet(st, 2)
    ensures key in st.objects
    ensures ListAllSpec(st).1 == Normal(CanonicalResponse(Some(SUCCESS), [ListedDocument(key, Latest(st.objects[key]).metadata)], None))
  {
    assert key in st.order;
    assert Take(st.order, MAX_KEYS) == [key];
    ListAllInListingOrder(st);
  }

  /**
   * GET and HEAD describe a report through the document builder, which
   * reads the bare "report-name" and "report-description" keys: a report
   * stored by POST comes back without its name and description.
   */
  lemma PostedNameNotReadBack(st: StoreState, cfg: Config, newIdentifier: string,
                              name: Option<string>, description: Option<string>,
                              contentType: Option<string>, contentLength: Option<Int32>,
                              content: Stream, bodyIsBase64Encoded: bool)
    requires ValidState(st) && newIdentifier !in st.objects && newIdentifier != "" && Quiet(st, 4)
    ensures var st1 := PostSpec(st, cfg, newIdentifier, name, description, contentType, contentLength, Some(content), bodyIsBase64Encoded).0;
      var r := GetSpec(st1, Some(newIdentifier), None).1;
      r.Normal? && r.value.reports[0].identifier == Some(newIdentifier) &&
      r.value.reports[0].name.None? && r.value.reports[0].description.None? &&
      r.value.reports[0].bodyStream == Some(content)
  {
    PostStoresNewReport(st, cfg, newIdentifier, name, description, contentType, contentLength, content, bodyIsBase64Encoded);
    var st1 := PostSpec(st, cfg, newIdentifier, name, description, contentType, contentLength, Some(content), bodyIsBase64Encoded).0;
    var md := UploadMetadata(name, description, contentType, contentLength, bodyIsBase64Encoded);
    assert Quiet(st1, 3);
    GetDeliversReport(st1, newIdentifier, None);
    Documents.ManagerKeysAreNotRead(md, Documents.Unset.(identifier := Some(newIdentifier)));
  }

  // ----- exceptions as responses -----

  /** Which response each application exception becomes. */
  lemma ExceptionTable(e: ApplicationException)
    ensures ExceptionResponse(e).result == Some(NOT_FOUND) <==> e.IdentifiedDocumentMetadataNotFound? || e.IdentifiedDocumentNotFound?
    ensures ExceptionResponse(e).result == Some(CLIENT_EXCEPTION) <==> e.UnknownRevision? || e.BodyEncoding?
    ensures ExceptionResponse(e).result == Some(SERVICE_EXCEPTION) <==> IsServiceException(e)
  {
  }

  /**
   * The response status does not always agree with the exception's own
   * status: an unknown revision carries 404 but is answered 400, and the
   * service exceptions carry 502 but are answered 500.
   */
  lemma ResponseStatusIgnoresExceptionStatus(e: ApplicationException)
    ensures e.UnknownRevision? ==>
      Exceptions.HttpResponseCode(e) == 404 && Responses.HttpResponseCode(ExceptionResponse(e).result.value) == 400
    ensures IsServiceException(e) ==>
      Exceptions.HttpResponseCode(e) == 502 && Responses.HttpResponseCode(ExceptionResponse(e).result.value) == 500
    ensures (e.IdentifiedDocumentMetadataNotFound? || e.IdentifiedDocumentNotFound?) ==>
      Exceptions.HttpResponseCode(e) == Responses.HttpResponseCode(ExceptionResponse(e).result.value) == 404
  {
  }

  /** Tagging the content type of a base64 body adds the suffix once, and the stored type is stable under re-upload. */
  lemma ContentTypeTagging()
    ensures StoredContentType(Some("text/plain"), true) == Some("text/plain+base64")
    ensures StoredContentType(Some("text/plain+base64"), true) == Some("text/plain+base64")
    ensures StoredContentType(Some("text/plain+base64"), false) == Some("text/plain+base64")
    ensures StoredContentType(None, true) == None
  {
    assert !EndsWith("text/plain", BASE64_SUFFIX);
    assert "text/plain" + BASE64_SUFFIX == "text/plain+base64";
    assert "text/plain+base64"[|"text/plain+base64"| - |BASE64_SUFFIX|..] == BASE64_SUFFIX;
  }
}

# Canned reports: a Dafny model of the request dispatcher

The canned-reports service stores small report templates ("canned reports") in
a versioned object store. Each report lives under a key (its identifier), and
every upload adds a new version. Requests arrive in a transport-neutral form,
the `CanonicalRequest`. The `CannedReportsManager` does the following:

- It checks the caller's roles, taken from the `role` claim of a bearer token.
- It sends the five verbs (POST, PUT, GET, DELETE, HEAD) to their handlers.
- It answers with a `CanonicalResponse`, which is a result code, a list of
  `CanonicalDocument`s and an optional exception.

Two value helpers sit beside the dispatcher:

- The revision selector `RevisionSpecification`, which is parsed from text such
  as `ALL`, `3` or `-1`.
- The application exceptions, which carry an HTTP status and a formatted message.

The model is made of these modules, one file each:

- `Lang` (`lang.dfy`): the parts of Java's semantics the core relies on:
  - 32-bit `int` arithmetic and the `(int)` cast of a `long`, written out as
    wrap-around modulo 2^32;
  - `String.toUpperCase` and `String.trim` on ASCII;
  - decimal digits, `Integer.toString` and `Integer.valueOf`;
  - streams as sequences of text chunks read until end of stream.
- `Revisions` (`revisions.dfy`): the selector value, its `toString`, and its
  mutable builder as a class. `withStringRepresentation` is a method that
  assigns the builder's fields branch by branch. Beside it, the function
  `Parse` states what a fresh builder builds from a text.
- `Exceptions` (`exceptions.dfy`): the exception classes, their status codes,
  their messages, and their client/service classification.
- `ObjectStore` (`object_store.dfy`): the S3 client as a `Store` class.
  - Its state is a map from key to a non-empty sequence of versions, the
    listing order of the keys, the next version id and a count of calls made.
  - A fixed schedule says which call fails, and how. A call can throw an
    `AmazonServiceException`, throw a plain `SdkClientException`, return null,
    or return a listing whose summaries are null. It also says what metadata a
    put reply carries; without an entry the reply carries none.
  - Every client call is a method. Beside it is a pure step function of the
    store state, which says what the call returns and leaves behind.
- `Documents` (`documents.dfy`): the canonical document, its builder class
  (nine setters, `withObjectMetadata`, and a `build` that validates but never
  throws) and the two body accessors. `getBody` is a loop over the stream's chunks.
- `Responses` (`responses.dfy`): the `Result` table, and the response builder
  as a class. Each setter is proved against a step function on the builder's
  state.
- `Requests` (`requests.dfy`): the request builder class and its aggregated
  validation, stated as the list of violations a request has.
- `Manager` (`manager.dfy`): the dispatcher as a `Manager` class, holding the
  store and the configuration.
  - Every handler is a method that `modifies` the store. It is proved equal to a
    pure specification function `…Spec` of the old store state, which gives the
    new state and the answer.
  - Java exceptions that escape a handler are the `Thrown` case of an
    `Outcome`. This covers the checked application exceptions,
    `ParseException`, unchecked AWS exceptions and `NullPointerException`.
- `ManagerProperties` (`manager_properties.dfy`): the lemmas about the
  dispatcher's specification functions. They cover the role gate, POST/PUT,
  DELETE, GET, HEAD, the listing, version arithmetic and the exception table.

The model follows what the code does, including its quirks:

- **Name and description keys.** The manager stores a report's name and
  description under `x-amz-meta-report-name` and
  `x-amz-meta-report-description`. The document builder reads the bare keys
  `report-name` and `report-description`. So GET, HEAD and DELETE describe a
  posted report without its name and description (`PostedNameNotReadBack`),
  while the listing, which reads the `x-amz-meta-` keys, shows them
  (`PostedNameListed`). The manager's unit tests expect the name and
  description on GET and HEAD (`CannedReportsManagerTest.java` lines 135 and
  162). Their mocked client also stores them under the `x-amz-meta-` keys
  (lines 269-270), so the document builder cannot read them back even there.
  The model follows the code.
- **Revision selector.** GET, HEAD and DELETE receive a revision selector and
  never use it. `getVersionIdentifier` is never called from the dispatcher.
- **Version lookups.** `getVersionCount` and `getVersionIdentifier` list
  versions with the identifier as a *prefix*. Versions of longer keys that
  extend it are therefore counted too (`VersionCountIncludesExtendingKeys`).
- **PUT does not copy metadata forward.** The class comment promises that a
  PUT copies the existing metadata to the new revision where no header
  replaces it (`CannedReportsManager.java` lines 108-109). The code builds a
  fresh `ObjectMetadata` from the request alone (lines 277-279). So a PUT
  without a name leaves the newest version without one
  (`PutDoesNotCopyMetadataForward`). The model follows the code.
- **Empty reports on success.** `successWithJSONBody` goes through
  `successWithBody`, which clears the report list. So successful POST, PUT and
  DELETE answers carry no document.

## Model

| member | source | states |
|---|---|---|
| `Lang.NarrowToInt` | code/src/main/java/gov/va/vha/dicomimporter/model/CanonicalDocument.java:128 | the `(int)` cast of a `long` is congruent to it modulo 2^32 and is the identity within `int` range |
| `Lang.AddInt` | code/src/main/java/gov/va/vha/dicomimporter/CannedReportsManager.java:560 | `int` addition wraps modulo 2^32: exact within range, minus 2^32 above it, plus 2^32 below it |
| `Lang.ToUpperNormalizes` | code/src/main/java/gov/va/vha/dicomimporter/CannedReportsManager.java:138 | after `toUpperCase` no ASCII lowercase letter is left, upper-casing twice equals upper-casing once, and a string without lowercase letters is left unchanged |
| `Lang.ToUpperMatchesIgnoreCase` | code/src/main/java/gov/va/vha/dicomimporter/RevisionSpecification.java:50 | two strings upper-case to the same string exactly when `equalsIgnoreCase` holds between them (equal length, and at each index equal characters, equal upper-cased or equal lower-cased) |
| `Lang.TrimStart` | code/src/main/java/gov/va/vha/dicomimporter/CannedReportsManager.java:513 | the result is a suffix of the input, every character removed before it is at or below `' '`, and it is empty or starts with a character above `' '`; an input already starting so is returned whole |
| `Lang.TrimEnd` | code/src/main/java/gov/va/vha/dicomimporter/CannedReportsManager.java:513 | the result is a prefix of the input, every character removed after it is at or below `' '`, and it is empty or ends with a character above `' '`; an input already ending so is returned whole |
| `Lang.TrimOfTrimmed` | code/src/main/java/gov/va/vha/dicomimporter/CannedReportsManager.java:513 | `trim` returns a string unchanged when neither end has a character at or below `' '` |
| `Lang.IntToString` | code/src/main/java/gov/va/vha/dicomimporter/RevisionSpecification.java:33 | the decimal text of an `int` matches the selector pattern and carries a sign exactly when the value is negative |
| `Lang.IntToStringRoundTrip` | code/src/main/java/gov/va/vha/dicomimporter/RevisionSpecification.java:33 | the decimal value of `Integer.toString(v)` is `v` |
| `Lang.IntToStringInjective` | code/src/main/java/gov/va/vha/dicomimporter/RevisionSpecification.java:33 | two values with the same decimal text are equal |
| `Lang.ConcatAppend` | code/src/main/java/gov/va/vha/dicomimporter/model/CanonicalDocument.java:66-71 | reading two runs of chunks one after the other yields the two texts concatenated |
| `Revisions.Builder.constructor` | code/src/main/java/gov/va/vha/dicomimporter/RevisionSpecification.java:41-43 | a new builder holds `all = false`, `relative = false`, `value = 0` |
| `Revisions.Builder.WithStringRepresentation` | code/src/main/java/gov/va/vha/dicomimporter/RevisionSpecification.java:48-70 | absent or empty text sets relative and value 0 and leaves `all`; `ALL` in any case sets only `all`; other text clears `all`, then either matches `[-+]?[0-9]+` (relative set by a sign, value set when within `int` range, else a number-format error) or is refused with a pattern error that leaves relative and value |
| `Revisions.Builder.Build` | code/src/main/java/gov/va/vha/dicomimporter/RevisionSpecification.java:72-74 | builds a selector from exactly the builder's three fields |
| `Revisions.Parse` | code/src/main/java/gov/va/vha/dicomimporter/RevisionSpecification.java:48-74 | every selector a fresh builder builds has `all` only with `(relative, value) = (false, 0)` and an absolute value never negative; a refusal names the text refused |
| `Revisions.FromStringRepresentation` | code/src/main/java/gov/va/vha/dicomimporter/RevisionSpecification.java:48-74 | a fresh builder given the text and then built yields exactly `Parse(text)` |
| `Revisions.Unspecified` | code/src/main/java/gov/va/vha/dicomimporter/RevisionSpecification.java:41-43 | a builder given no text builds `(false, false, 0)` |
| `Revisions.FormatRoundTrip` | code/src/main/java/gov/va/vha/dicomimporter/RevisionSpecification.java:48-70 | every parsable selector is parsed back from its canonical text (`ALL`, `+n`, `-n` or `n`) |
| `Revisions.ParsableIsParsed` | code/src/main/java/gov/va/vha/dicomimporter/RevisionSpecification.java:48-70 | the selectors some text parses to are exactly the parsable ones (with `Parse`'s own contract, both directions) |
| `Revisions.ParseAbsent` | code/src/main/java/gov/va/vha/dicomimporter/RevisionSpecification.java:64-67 | null and empty text both give `(false, true, 0)` |
| `Revisions.ParseAll` | code/src/main/java/gov/va/vha/dicomimporter/RevisionSpecification.java:50-51 | any capitalisation of `ALL` gives `(true, false, 0)` |
| `Revisions.AllKeywordIgnoresCase` | code/src/main/java/gov/va/vha/dicomimporter/RevisionSpecification.java:50 | the keyword test holds exactly when `"ALL".equalsIgnoreCase(text)` does |
| `Revisions.ParseNumber` | code/src/main/java/gov/va/vha/dicomimporter/RevisionSpecification.java:54-59 | a pattern match within `int` range gives its signed value, relative exactly when it carries a sign |
| `Revisions.ParseRejects` | code/src/main/java/gov/va/vha/dicomimporter/RevisionSpecification.java:59-61 | other text is refused: a pattern error when it does not match, a number-format error when it matches but lies outside `int` range |
| `Revisions.ParseSmallExamples` | code/src/test/java/gov/va/vha/dicomimporter/RevisionSpecificationTest.java:12-16 | `all`, `0` and `1` parse as the tests expect, `0` being absolute |
| `Revisions.ParseSignedExamples` | code/src/test/java/gov/va/vha/dicomimporter/RevisionSpecificationTest.java:14-18 | `-0`, `+0`, `+1` and `-1` are relative with values 0, 0, 1 and -1 |
| `Revisions.ParseBoundaryExamples` | code/src/test/java/gov/va/vha/dicomimporter/RevisionSpecificationTest.java:19-21 | `2147483647` is absolute and `+2147483647` and `-2147483647` are relative, with those values |
| `Revisions.IntMaxDigits` | code/src/test/java/gov/va/vha/dicomimporter/RevisionSpecificationTest.java:19 | the decimal text of `Integer.MAX_VALUE` is `2147483647` |
| `Revisions.ParseRejectedExamples` | code/src/test/java/gov/va/vha/dicomimporter/RevisionSpecificationTest.java:28-29 | `HelloWorld` and `a1` are refused with a pattern error |
| `Revisions.LongMaxRejected` | code/src/test/java/gov/va/vha/dicomimporter/RevisionSpecificationTest.java:30 | the text of `Long.MAX_VALUE`, unsigned or with a `+`, matches the pattern and is refused with a number-format error |
| `Revisions.LongMinRejected` | code/src/test/java/gov/va/vha/dicomimporter/RevisionSpecificationTest.java:31 | the text of `Long.MIN_VALUE` matches the pattern and is refused with a number-format error |
| `Revisions.NotANumber` | code/src/main/java/gov/va/vha/dicomimporter/RevisionSpecification.java:54-61 | text starting with neither a digit nor a sign, and not `ALL` in any case, is a pattern error |
| `Revisions.LongBoundaryRejected` | code/src/main/java/gov/va/vha/dicomimporter/RevisionSpecification.java:59 | every number whose digits, without a leading zero, number eleven or more, with a `-`, a `+` or no sign, is a number-format error |
| `Revisions.ToStringAll` | code/src/main/java/gov/va/vha/dicomimporter/RevisionSpecification.java:33 | `toString` is `all` exactly when `all` is set |
| `Revisions.ToStringLastChar` | code/src/main/java/gov/va/vha/dicomimporter/RevisionSpecification.java:33 | without `all`, the text ends in `)` exactly when the selector is relative |
| `Revisions.ToStringInjective` | code/src/main/java/gov/va/vha/dicomimporter/RevisionSpecification.java:33 | without `all`, two selectors with the same text are equal |
| `Exceptions.HttpResponseCode` | code/src/main/java/gov/va/vha/dicomimporter/exceptions/UnknownRevisionException.java:7 | every application exception suggests a 4xx or 5xx status |
| `Exceptions.Message` | code/src/main/java/gov/va/vha/dicomimporter/exceptions/UnrecoverableDependentInvocationException.java:8-13 | the message is null only for a wrapped service exception given a null message |
| `Exceptions.ClientOrService` | code/src/main/java/gov/va/vha/dicomimporter/exceptions/AbstractClientException.java:9 | every application exception is exactly one of client and service exception |
| `Exceptions.StatusFamily` | code/src/main/java/gov/va/vha/dicomimporter/exceptions/AbstractServiceException.java:6 | client exceptions are exactly those with a 4xx status, service exceptions exactly those with a 5xx status |
| `Exceptions.UnknownRevisionMessageContents` | code/src/main/java/gov/va/vha/dicomimporter/exceptions/UnknownRevisionException.java:6-15 | a client exception with status 404 whose message is never null, starts `Revision Specification [`, ends `]`, and contains the identifier and the selector, each rendered `null` when absent |
| `Exceptions.UnrecoverableDependentInvocationMessageContents` | code/src/main/java/gov/va/vha/dicomimporter/exceptions/UnrecoverableDependentInvocationException.java:5-13 | a service exception with status 502 whose message is never null, contains the context and contains the cause's class name, or `unknown` without a cause |
| `Exceptions.UnrecoverableDependentInvocationExample` | code/src/test/java/gov/va/vha/dicomimporter/exceptions/UnrecoverableDependentInvocationExceptionTest.java:21-24 | context `CONTEXT_2` with a `java.lang.Throwable` cause gives a message containing both `CONTEXT_2` and `Throwable` |
| `ObjectStore.AddUserMetadata` | code/src/main/java/gov/va/vha/dicomimporter/CannedReportsManager.java:278-279 | adding a user-metadata entry makes the key read back as the value and leaves every other key, the content type and the length |
| `ObjectStore.MetadataStep` | code/src/main/java/gov/va/vha/dicomimporter/CannedReportsManager.java:247 | a metadata lookup is one call; what it finds is the newest version's metadata of a stored key, and with nothing scheduled it finds something exactly for stored keys |
| `ObjectStore.ObjectStep` | code/src/main/java/gov/va/vha/dicomimporter/CannedReportsManager.java:430 | a content fetch is one call, and what it finds is the newest version of a stored key |
| `ObjectStore.PutStep` | code/src/main/java/gov/va/vha/dicomimporter/CannedReportsManager.java:290 | a put is one call and keeps the schedule; a put that throws writes nothing; a reply carries the new version's id and the metadata the schedule gives it, none by default |
| `ObjectStore.DeleteStep` | code/src/main/java/gov/va/vha/dicomimporter/CannedReportsManager.java:363 | a delete is one call and keeps the schedule; a delete that throws removes nothing |
| `ObjectStore.ListObjectsStep` | code/src/main/java/gov/va/vha/dicomimporter/CannedReportsManager.java:474 | a listing is one call; without a fault it lists the first page of keys in listing order |
| `ObjectStore.ListVersionsStep` | code/src/main/java/gov/va/vha/dicomimporter/CannedReportsManager.java:542 | a version listing is one call; without a fault it lists, up to the limit, the versions of every key the prefix starts |
| `ObjectStore.PutPreservesValid` | code/src/main/java/gov/va/vha/dicomimporter/CannedReportsManager.java:290 | a put keeps every key's version list non-empty and the listing order free of duplicates |
| `ObjectStore.DeletePreservesValid` | code/src/main/java/gov/va/vha/dicomimporter/CannedReportsManager.java:363 | a delete keeps the store well formed |
| `ObjectStore.PutThenMetadata` | code/src/main/java/gov/va/vha/dicomimporter/CannedReportsManager.java:290 | after a successful put, the key's metadata lookup finds the metadata just written |
| `ObjectStore.DeleteThenMetadata` | code/src/main/java/gov/va/vha/dicomimporter/CannedReportsManager.java:363 | after a successful delete, the key's metadata lookup finds nothing |
| `ObjectStore.PutAddsOneVersion` | code/src/main/java/gov/va/vha/dicomimporter/CannedReportsManager.java:536-544 | with no key extending it, a put adds exactly one version to the key's version listing |
| `ObjectStore.PutAddsVersionToStoredKey` | code/src/main/java/gov/va/vha/dicomimporter/CannedReportsManager.java:536-544 | a put of a stored key appends the new version at the end of its version listing |
| `ObjectStore.PutAddsVersionToNewKey` | code/src/main/java/gov/va/vha/dicomimporter/CannedReportsManager.java:536-544 | a put of a new key makes its version listing the one new version |
| `ObjectStore.Store.constructor` | code/src/main/java/gov/va/vha/dicomimporter/CannedReportsManager.java:66-74 | a new store is empty, has made no calls and follows the given fault schedule |
| `ObjectStore.Store.GetObjectMetadata` | code/src/main/java/gov/va/vha/dicomimporter/CannedReportsManager.java:247 | the call's answer and new state are those of `MetadataStep` |
| `ObjectStore.Store.GetObject` | code/src/main/java/gov/va/vha/dicomimporter/CannedReportsManager.java:430 | the call's answer and new state are those of `ObjectStep` |
| `ObjectStore.Store.PutObject` | code/src/main/java/gov/va/vha/dicomimporter/CannedReportsManager.java:290 | the call's answer and new state are those of `PutStep` |
| `ObjectStore.Store.DeleteObject` | code/src/main/java/gov/va/vha/dicomimporter/CannedReportsManager.java:363 | the call's answer and new state are those of `DeleteStep` |
| `ObjectStore.Store.ListObjectsV2` | code/src/main/java/gov/va/vha/dicomimporter/CannedReportsManager.java:474 | the call's answer and new state are those of `ListObjectsStep` |
| `ObjectStore.Store.ListVersions` | code/src/main/java/gov/va/vha/dicomimporter/CannedReportsManager.java:542 | the call's answer and new state are those of `ListVersionsStep` |
| `Documents.ValidationFailures` | code/src/main/java/gov/va/vha/dicomimporter/model/CanonicalDocument.java:179-186 | a failure is recorded for the identifier exactly when it is null or empty, for the revision exactly when it is null, for the name exactly when it is null or empty |
| `Documents.Builder.constructor` | code/src/main/java/gov/va/vha/dicomimporter/model/CanonicalDocument.java:112-123 | a new document builder has every field unset and the base64 flag false |
| `Documents.Builder.WithObjectMetadata` | code/src/main/java/gov/va/vha/dicomimporter/model/CanonicalDocument.java:125-131 | overwrites exactly name (key `report-name`), description (key `report-description`), the length narrowed to `int`, and the content type |
| `Documents.Builder.WithIdentifier` | code/src/main/java/gov/va/vha/dicomimporter/model/CanonicalDocument.java:133-136 | sets the identifier and nothing else |
| `Documents.Builder.WithRevision` | code/src/main/java/gov/va/vha/dicomimporter/model/CanonicalDocument.java:138-141 | sets the revision and nothing else |
| `Documents.Builder.WithName` | code/src/main/java/gov/va/vha/dicomimporter/model/CanonicalDocument.java:143-146 | sets the name and nothing else |
| `Documents.Builder.WithDescription` | code/src/main/java/gov/va/vha/dicomimporter/model/CanonicalDocument.java:148-151 | sets the description and nothing else |
| `Documents.Builder.WithContentType` | code/src/main/java/gov/va/vha/dicomimporter/model/CanonicalDocument.java:153-156 | sets the content type and nothing else |
| `Documents.Builder.WithContentLength` | code/src/main/java/gov/va/vha/dicomimporter/model/CanonicalDocument.java:158-161 | sets the content length and nothing else |
| `Documents.Builder.WithBody` | code/src/main/java/gov/va/vha/dicomimporter/model/CanonicalDocument.java:163-166 | sets the text body and nothing else |
| `Documents.Builder.WithBodyStream` | code/src/main/java/gov/va/vha/dicomimporter/model/CanonicalDocument.java:168-171 | sets the body stream and nothing else |
| `Documents.Builder.WithBodyIsBase64Encoded` | code/src/main/java/gov/va/vha/dicomimporter/model/CanonicalDocument.java:173-176 | sets the base64 flag and nothing else |
| `Documents.Builder.Build` | code/src/main/java/gov/va/vha/dicomimporter/model/CanonicalDocument.java:178-189 | never fails, and the document carries exactly the builder's fields |
| `Documents.GetBody` | code/src/main/java/gov/va/vha/dicomimporter/model/CanonicalDocument.java:61-76 | the text body when present; else, with a stream, the concatenation of all its chunks read until end of stream; else null |
| `Documents.GetBodyStream` | code/src/main/java/gov/va/vha/dicomimporter/model/CanonicalDocument.java:78-86 | null exactly when neither representation is present; the stream when present; else a stream delivering exactly the text body |
| `Documents.BodyAccessorsAgree` | code/src/main/java/gov/va/vha/dicomimporter/model/CanonicalDocument.java:61-86 | with at most one representation present, both accessors deliver the same text |
| `Documents.BodyAccessorsDisagree` | code/src/main/java/gov/va/vha/dicomimporter/model/CanonicalDocument.java:61-86 | with both present, `getBody` gives the text and `getBodyStream` the stream's different content |
| `Documents.ManagerKeysAreNotRead` | code/src/main/java/gov/va/vha/dicomimporter/model/CanonicalDocument.java:126-127 | metadata holding only the manager's `x-amz-meta-` keys gives no name and no description |
| `Documents.UnsetStillBuilds` | code/src/main/java/gov/va/vha/dicomimporter/model/CanonicalDocument.java:181-188 | an empty builder records all three validation failures, in order, and still builds |
| `Documents.ContentLengthNarrowing` | code/src/main/java/gov/va/vha/dicomimporter/model/CanonicalDocument.java:128 | the length read from metadata is copied within `int` range and wraps modulo 2^32 beyond it |
| `Responses.HttpResponseCodeInjective` | code/src/main/java/gov/va/vha/dicomimporter/model/CanonicalResponse.java:39-61 | no two results share an HTTP code |
| `Responses.HttpResponseCodeFamilies` | code/src/main/java/gov/va/vha/dicomimporter/model/CanonicalResponse.java:40-45 | the 2xx results are SUCCESS and ACCEPTED, the 4xx ones CLIENT_EXCEPTION, NOT_FOUND and FORBIDDEN, the 5xx one SERVICE_EXCEPTION |
| `Responses.RemoveFirst` | code/src/main/java/gov/va/vha/dicomimporter/model/CanonicalResponse.java:124-127 | removing a document drops one occurrence of it when present (the multiset loses exactly that element) and changes nothing otherwise |
| `Responses.AddDocumentsAppends` | code/src/main/java/gov/va/vha/dicomimporter/model/CanonicalResponse.java:119-122 | adding documents one by one appends them, in order, and leaves the other fields |
| `Responses.SuccessThenAddDocuments` | code/src/main/java/gov/va/vha/dicomimporter/model/CanonicalResponse.java:111-122 | `success` then `addDocument` for each document builds SUCCESS with exactly those documents and no exception, whatever came before |
| `Responses.SuccessWithJsonBodyOutcome` | code/src/main/java/gov/va/vha/dicomimporter/model/CanonicalResponse.java:93-109 | a rendered body gives SUCCESS with no documents and no exception; a rendering failure gives SERVICE_EXCEPTION with the mapping exception and the documents kept |
| `Responses.ErrorSettersForget` | code/src/main/java/gov/va/vha/dicomimporter/model/CanonicalResponse.java:134-160 | each error setter gives its result, its exception (none for FORBIDDEN) and no documents, whatever the builder held |
| `Responses.SuccessWithReportsKeeps` | code/src/main/java/gov/va/vha/dicomimporter/model/CanonicalResponse.java:85-91 | `successWithReports` appends to the documents already added instead of replacing them |
| `Responses.RawBodyInvisible` | code/src/main/java/gov/va/vha/dicomimporter/model/CanonicalResponse.java:103-132 | the raw body never reaches the built response |
| `Responses.RemoveUndoesAdd` | code/src/main/java/gov/va/vha/dicomimporter/model/CanonicalResponse.java:119-127 | removing a document just added to a list not holding it restores the list |
| `Responses.Builder.constructor` | code/src/main/java/gov/va/vha/dicomimporter/model/CanonicalResponse.java:77-83 | a new response builder has no result, no exception, no documents, no raw body |
| `Responses.Builder.SuccessWithReports` | code/src/main/java/gov/va/vha/dicomimporter/model/CanonicalResponse.java:85-91 | SUCCESS, documents appended, raw body and exception cleared |
| `Responses.Builder.SuccessWithJsonBody` | code/src/main/java/gov/va/vha/dicomimporter/model/CanonicalResponse.java:93-101 | `successWithBody` of the rendering when it succeeds; otherwise SERVICE_EXCEPTION with the mapping exception, rest kept |
| `Responses.Builder.SuccessWithBody` | code/src/main/java/gov/va/vha/dicomimporter/model/CanonicalResponse.java:103-109 | SUCCESS, documents cleared, exception cleared, raw body set |
| `Responses.Builder.Success` | code/src/main/java/gov/va/vha/dicomimporter/model/CanonicalResponse.java:111-117 | SUCCESS, documents, exception and raw body cleared |
| `Responses.Builder.AddDocument` | code/src/main/java/gov/va/vha/dicomimporter/model/CanonicalResponse.java:119-122 | appends the document at the end, rest kept |
| `Responses.Builder.RemoveDocument` | code/src/main/java/gov/va/vha/dicomimporter/model/CanonicalResponse.java:124-127 | removes the first occurrence of the document, rest kept |
| `Responses.Builder.WithRawBody` | code/src/main/java/gov/va/vha/dicomimporter/model/CanonicalResponse.java:129-132 | sets the raw body, rest kept |
| `Responses.Builder.ServiceException` | code/src/main/java/gov/va/vha/dicomimporter/model/CanonicalResponse.java:134-139 | SERVICE_EXCEPTION with the exception, documents cleared, raw body kept |
| `Responses.Builder.GenericBadRequestException` | code/src/main/java/gov/va/vha/dicomimporter/model/CanonicalResponse.java:141-146 | CLIENT_EXCEPTION with the exception, documents cleared, raw body kept |
| `Responses.Builder.ReportNotFoundException` | code/src/main/java/gov/va/vha/dicomimporter/model/CanonicalResponse.java:148-153 | NOT_FOUND with the exception, documents cleared, raw body kept |
| `Responses.Builder.ForbiddenAccessException` | code/src/main/java/gov/va/vha/dicomimporter/model/CanonicalResponse.java:155-160 | FORBIDDEN, no exception, documents cleared, raw body kept |
| `Responses.Builder.Build` | code/src/main/java/gov/va/vha/dicomimporter/model/CanonicalResponse.java:162-165 | the response carries the builder's result, documents and exception |
| `Responses.BuildIsACopy` | code/src/main/java/gov/va/vha/dicomimporter/model/CanonicalResponse.java:17-21 | a response built before a later `addDocument` keeps the documents it was built with |
| `Requests.Builder.constructor` | code/src/main/java/gov/va/vha/dicomimporter/model/CanonicalRequest.java:103-112 | a new request builder has every field unset and the base64 flag false |
| `Requests.Builder.WithMethod` | code/src/main/java/gov/va/vha/dicomimporter/model/CanonicalRequest.java:114-117 | sets the method and nothing else |
| `Requests.Builder.WithIdentifier` | code/src/main/java/gov/va/vha/dicomimporter/model/CanonicalRequest.java:119-122 | sets the identifier and nothing else |
| `Requests.Builder.WithRevisionSpecification` | code/src/main/java/gov/va/vha/dicomimporter/model/CanonicalRequest.java:124-127 | sets the selector text and nothing else |
| `Requests.Builder.WithName` | code/src/main/java/gov/va/vha/dicomimporter/model/CanonicalRequest.java:129-132 | sets the name and nothing else |
| `Requests.Builder.WithDescription` | code/src/main/java/gov/va/vha/dicomimporter/model/CanonicalRequest.java:134-137 | sets the description and nothing else |
| `Requests.Builder.WithContentType` | code/src/main/java/gov/va/vha/dicomimporter/model/CanonicalRequest.java:139-142 | sets the content type and nothing else |
| `Requests.Builder.WithContentLength` | code/src/main/java/gov/va/vha/dicomimporter/model/CanonicalRequest.java:144-147 | sets the content length and nothing else |
| `Requests.Builder.WithBody` | code/src/main/java/gov/va/vha/dicomimporter/model/CanonicalRequest.java:149-152 | sets the body stream and nothing else |
| `Requests.Builder.WithBodyIsBase64Encoded` | code/src/main/java/gov/va/vha/dicomimporter/model/CanonicalRequest.java:154-157 | sets the base64 flag and nothing else |
| `Requests.Builder.WithAuthorization` | code/src/main/java/gov/va/vha/dicomimporter/model/CanonicalRequest.java:159-162 | sets the authorization and nothing else |
| `Requests.Builder.Build` | code/src/main/java/gov/va/vha/dicomimporter/model/CanonicalRequest.java:164-199 | the outcome is the list of violations when there is one, else the selector's parse error, else the request carrying every field and the parsed selector |
| `Requests.NullMethodOnly` | code/src/main/java/gov/va/vha/dicomimporter/model/CanonicalRequest.java:167-168 | a null method is the only violation reported: no verb-specific check runs |
| `Requests.FailureConditions` | code/src/main/java/gov/va/vha/dicomimporter/model/CanonicalRequest.java:167-185 | each violation is reported exactly when its condition holds: method null; DELETE/PUT/HEAD in any case with identifier null or empty; POST/PUT with body null; POST/PUT with content length present and below 1; and no other violation exists |
| `Requests.ValidIffWellFormed` | code/src/main/java/gov/va/vha/dicomimporter/model/CanonicalRequest.java:165-187 | a request has no violation exactly when it is well formed |
| `Requests.OtherVerbsPass` | code/src/main/java/gov/va/vha/dicomimporter/model/CanonicalRequest.java:170-185 | a method outside DELETE, PUT, HEAD and POST has no violation, whatever the other fields |
| `Requests.FailuresAccumulate` | code/src/main/java/gov/va/vha/dicomimporter/model/CanonicalRequest.java:165-187 | a PUT with neither identifier nor body reports both, identifier first |
| `Requests.VerbCaseIgnored` | code/src/main/java/gov/va/vha/dicomimporter/model/CanonicalRequest.java:170 | `put` is validated as `PUT` |
| `Requests.ValidationBeforeSelector` | code/src/main/java/gov/va/vha/dicomimporter/model/CanonicalRequest.java:186-189 | violations win over a malformed selector, which fails the build only when validation passed |
| `Requests.BuiltCarriesFields` | code/src/main/java/gov/va/vha/dicomimporter/model/CanonicalRequest.java:189-198 | a built request is well formed and carries every builder field unchanged and the selector parsed from its text |
| `Requests.ValidExamples` | code/src/test/java/gov/va/vha/dicomimporter/model/CanonicalRequestTest.java:16-25 | the test's valid requests have no violation |
| `Requests.InvalidExamples` | code/src/test/java/gov/va/vha/dicomimporter/model/CanonicalRequestTest.java:32-35 | the test's invalid requests have exactly the violations their fields call for |
| `Manager.DefaultConfig` | code/src/main/java/gov/va/vha/dicomimporter/CannedReportsManager.java:85-91 | without properties, checking is off and the role names are `canned_report_user` and `canned_report_manager` |
| `Manager.NormalizedTokenAccepts` | code/src/main/java/gov/va/vha/dicomimporter/CannedReportsManager.java:512-515 | `Bearer <token>` and a bare token not starting `Bearer ` both yield the token |
| `Manager.SplitAtCommas` | code/src/main/java/gov/va/vha/dicomimporter/CannedReportsManager.java:522 | splitting yields at least one piece and no piece holds a comma |
| `Manager.JoinSplit` | code/src/main/java/gov/va/vha/dicomimporter/CannedReportsManager.java:522 | joining the pieces with commas gives back the claim |
| `Manager.SplitJoin` | code/src/main/java/gov/va/vha/dicomimporter/CannedReportsManager.java:522 | splitting comma-joined comma-free pieces gives back the pieces |
| `Manager.DropTrailingEmpty` | code/src/main/java/gov/va/vha/dicomimporter/CannedReportsManager.java:522 | dropping trailing empty pieces keeps exactly the non-empty pieces |
| `Manager.RoleInSplit` | code/src/main/java/gov/va/vha/dicomimporter/CannedReportsManager.java:522 | a non-empty role name is among Java's split pieces exactly when it is among the comma pieces |
| `Manager.ExtractRoles` | code/src/main/java/gov/va/vha/dicomimporter/CannedReportsManager.java:510-529 | no authorization gives no roles; the only failure is the token parse exception |
| `Manager.StoredContentType` | code/src/main/java/gov/va/vha/dicomimporter/CannedReportsManager.java:282-286 | absent stays absent; for a base64 body a type not ending in `+base64` gets it appended and a type already ending in it is kept; without base64 the type is kept |
| `Manager.StoredContentTypeIdempotent` | code/src/main/java/gov/va/vha/dicomimporter/CannedReportsManager.java:282-286 | tagging twice gives the same content type as tagging once |
| `Manager.UploadMetadata` | code/src/main/java/gov/va/vha/dicomimporter/CannedReportsManager.java:277-288 | the upload metadata holds just the name and description under the `x-amz-meta-` keys, the tagged content type, and the given length or 0 |
| `Manager.PostedDocument` | code/src/main/java/gov/va/vha/dicomimporter/CannedReportsManager.java:293-302 | the document answering a put has the identifier, revision 0 and no body |
| `Manager.ListedDocument` | code/src/main/java/gov/va/vha/dicomimporter/CannedReportsManager.java:483-489 | a listed document has the key as identifier, no revision and no body stream |
| `Manager.CaughtSdkClient` | code/src/main/java/gov/va/vha/dicomimporter/CannedReportsManager.java:369-371 | a caught client fault that is answered becomes SERVICE_EXCEPTION |
| `Manager.ExceptionResponse` | code/src/main/java/gov/va/vha/dicomimporter/CannedReportsManager.java:572-596 | an application exception becomes NOT_FOUND, CLIENT_EXCEPTION or SERVICE_EXCEPTION, carrying the exception and no documents |
| `Manager.VersionCountSpec` | code/src/main/java/gov/va/vha/dicomimporter/CannedReportsManager.java:536-544 | one store call; the count never exceeds the listing limit of 1000 |
| `Manager.VersionIdentifierSpec` | code/src/main/java/gov/va/vha/dicomimporter/CannedReportsManager.java:553-565 | one store call that keeps the store well formed |
| `Manager.PostAndPutSpec` | code/src/main/java/gov/va/vha/dicomimporter/CannedReportsManager.java:269-315 | an upload keeps the store well formed and any answer is SUCCESS or SERVICE_EXCEPTION |
| `Manager.PutAnswer` | code/src/main/java/gov/va/vha/dicomimporter/CannedReportsManager.java:292-313 | the answer to a put is SUCCESS or SERVICE_EXCEPTION |
| `Manager.PostSpec` | code/src/main/java/gov/va/vha/dicomimporter/CannedReportsManager.java:213-222 | a POST keeps the store well formed and any answer is SUCCESS or SERVICE_EXCEPTION |
| `Manager.PutSpec` | code/src/main/java/gov/va/vha/dicomimporter/CannedReportsManager.java:241-254 | a PUT keeps the store well formed and any answer is SUCCESS, SERVICE_EXCEPTION or NOT_FOUND |
| `Manager.DeleteSpec` | code/src/main/java/gov/va/vha/dicomimporter/CannedReportsManager.java:349-372 | a DELETE keeps the store well formed and any answer is SUCCESS, SERVICE_EXCEPTION or NOT_FOUND |
| `Manager.HeadSpec` | code/src/main/java/gov/va/vha/dicomimporter/CannedReportsManager.java:382-409 | a HEAD keeps the store well formed and any answer is SUCCESS, SERVICE_EXCEPTION or NOT_FOUND |
| `Manager.GetDocumentSpec` | code/src/main/java/gov/va/vha/dicomimporter/CannedReportsManager.java:419-454 | a GET of one document that answers at all answers SUCCESS with exactly one document |
| `Manager.ListDocumentsSpec` | code/src/main/java/gov/va/vha/dicomimporter/CannedReportsManager.java:477-494 | the listing loop keeps the store well formed and, when it completes, builds one document per key |
| `Manager.ListingStep` | code/src/main/java/gov/va/vha/dicomimporter/CannedReportsManager.java:479-493 | one key of the listing adds one document, or stops the loop with the lookup's exception |
| `Manager.ListAllSpec` | code/src/main/java/gov/va/vha/dicomimporter/CannedReportsManager.java:462-501 | a listing that answers answers SUCCESS |
| `Manager.GetSpec` | code/src/main/java/gov/va/vha/dicomimporter/CannedReportsManager.java:327-339 | a GET that answers answers SUCCESS |
| `Manager.DispatchSpec` | code/src/main/java/gov/va/vha/dicomimporter/CannedReportsManager.java:139-190 | a verb handler itself never answers FORBIDDEN |
| `Manager.HandleRequestSpec` | code/src/main/java/gov/va/vha/dicomimporter/CannedReportsManager.java:131-197 | handling a request keeps the store well formed |
| `Manager.RouteSpec` | code/src/main/java/gov/va/vha/dicomimporter/CannedReportsManager.java:137-195 | the answer is FORBIDDEN exactly when the verb is one of the five and the role gate refuses the roles |
| `Manager.Manager.constructor` | code/src/main/java/gov/va/vha/dicomimporter/CannedReportsManager.java:66-95 | the manager holds the given store, the checking flag and the two role names |
| `Manager.Manager.HandleRequest` | code/src/main/java/gov/va/vha/dicomimporter/CannedReportsManager.java:131-197 | the store afterwards and the answer are those of `HandleRequestSpec` of the store before |
| `Manager.Manager.HandlePost` | code/src/main/java/gov/va/vha/dicomimporter/CannedReportsManager.java:213-222 | the store afterwards and the answer are those of `PostSpec` |
| `Manager.Manager.HandlePut` | code/src/main/java/gov/va/vha/dicomimporter/CannedReportsManager.java:241-254 | the store afterwards and the answer are those of `PutSpec` |
| `Manager.Manager.InternalHandlePostAndPut` | code/src/main/java/gov/va/vha/dicomimporter/CannedReportsManager.java:269-315 | the store afterwards and the answer are those of `PostAndPutSpec` |
| `Manager.Manager.AnswerPut` | code/src/main/java/gov/va/vha/dicomimporter/CannedReportsManager.java:292-313 | the answer built from the put's reply is `PutAnswer` of it |
| `Manager.Manager.HandleGet` | code/src/main/java/gov/va/vha/dicomimporter/CannedReportsManager.java:327-339 | the store afterwards and the answer are those of `GetSpec` |
| `Manager.Manager.HandleDelete` | code/src/main/java/gov/va/vha/dicomimporter/CannedReportsManager.java:349-372 | the store afterwards and the answer are those of `DeleteSpec` |
| `Manager.Manager.HandleHead` | code/src/main/java/gov/va/vha/dicomimporter/CannedReportsManager.java:382-409 | the store afterwards and the answer are those of `HeadSpec` |
| `Manager.Manager.HandleGetDocument` | code/src/main/java/gov/va/vha/dicomimporter/CannedReportsManager.java:419-454 | the store afterwards and the answer are those of `GetDocumentSpec` |
| `Manager.Manager.HandleGetAllDocumentsMetadata` | code/src/main/java/gov/va/vha/dicomimporter/CannedReportsManager.java:462-501 | the store afterwards and the answer are those of `ListAllSpec` |
| `Manager.Manager.AddListedDocuments` | code/src/main/java/gov/va/vha/dicomimporter/CannedReportsManager.java:477-494 | the loop over the listed keys leaves the store as `ListDocumentsSpec` does and either adds all its documents to the builder or reports its exception |
| `Manager.Manager.GetVersionCount` | code/src/main/java/gov/va/vha/dicomimporter/CannedReportsManager.java:536-544 | the store afterwards and the count are those of `VersionCountSpec`, at most 1000 |
| `Manager.Manager.GetVersionIdentifier` | code/src/main/java/gov/va/vha/dicomimporter/CannedReportsManager.java:553-565 | the store afterwards and the answer are those of `VersionIdentifierSpec` |
| `Manager.Manager.NewUploadMetadata` | code/src/main/java/gov/va/vha/dicomimporter/CannedReportsManager.java:277-288 | builds `UploadMetadata` step by step |
| `Manager.Manager.NewPostedDocument` | code/src/main/java/gov/va/vha/dicomimporter/CannedReportsManager.java:293-302 | builds `PostedDocument` through the document builder |
| `Manager.Manager.NewListedDocument` | code/src/main/java/gov/va/vha/dicomimporter/CannedReportsManager.java:483-489 | builds `ListedDocument` through the document builder |
| `Manager.Manager.SingleDocumentResponse` | code/src/main/java/gov/va/vha/dicomimporter/CannedReportsManager.java:395-398 | `success` then `addDocument` of the one document, then `build` |
| `Manager.Manager.JsonBody` | code/src/main/java/gov/va/vha/dicomimporter/CannedReportsManager.java:365 | the JSON-body answer of the document |
| `Manager.Manager.CatchSdkClient` | code/src/main/java/gov/va/vha/dicomimporter/CannedReportsManager.java:369-371 | a caught client fault gives `CaughtSdkClient` of it |
| `Manager.Manager.ServiceFailure` | code/src/main/java/gov/va/vha/dicomimporter/CannedReportsManager.java:308-310 | the SERVICE_EXCEPTION answer carrying the exception |
| `Manager.Manager.NotFound` | code/src/main/java/gov/va/vha/dicomimporter/CannedReportsManager.java:252 | the NOT_FOUND answer without an exception |
| `Manager.ListAllOfListing` | code/src/main/java/gov/va/vha/dicomimporter/CannedReportsManager.java:468-496 | a listing whose loop completes answers SUCCESS with exactly the loop's documents |
| `Manager.ListAllOfFailure` | code/src/main/java/gov/va/vha/dicomimporter/CannedReportsManager.java:477-499 | a listing whose loop throws throws the same exception |
| `Manager.ListDocumentsExtend` | code/src/main/java/gov/va/vha/dicomimporter/CannedReportsManager.java:477-494 | the loop over one more key is one more `ListingStep` |
| `Manager.ExceptionStopsListing` | code/src/main/java/gov/va/vha/dicomimporter/CannedReportsManager.java:477-494 | once a lookup throws, the remaining keys change nothing |
| `ManagerProperties.VersionCountQuiet` | code/src/main/java/gov/va/vha/dicomimporter/CannedReportsManager.java:536-544 | with no fault, the count is the number of versions listed under the identifier as prefix |
| `ManagerProperties.ForbiddenWithoutRole` | code/src/main/java/gov/va/vha/dicomimporter/CannedReportsManager.java:140-185 | with checking on, POST, PUT and DELETE without the manager role, and GET and HEAD without either role, answer FORBIDDEN and make no store call |
| `ManagerProperties.ForbiddenExactlyWhenRefused` | code/src/main/java/gov/va/vha/dicomimporter/CannedReportsManager.java:138-191 | for the five verbs, the answer is FORBIDDEN exactly when the gate refuses the roles |
| `ManagerProperties.DisabledNeverForbids` | code/src/main/java/gov/va/vha/dicomimporter/CannedReportsManager.java:140-185 | with checking off, no request is answered FORBIDDEN |
| `ManagerProperties.UserRoleOnlyReads` | code/src/main/java/gov/va/vha/dicomimporter/CannedReportsManager.java:140-185 | the user role alone permits GET and HEAD and refuses POST, PUT and DELETE |
| `ManagerProperties.MalformedTokenEscapes` | code/src/main/java/gov/va/vha/dicomimporter/CannedReportsManager.java:135 | a token the library cannot parse escapes as ParseException before any store call |
| `ManagerProperties.UnknownVerbAnswersNull` | code/src/main/java/gov/va/vha/dicomimporter/CannedReportsManager.java:138-196 | every verb whose upper-cased form is none of the five answers null and makes no store call |
| `ManagerProperties.VerbMatchIgnoresCase` | code/src/main/java/gov/va/vha/dicomimporter/CannedReportsManager.java:138 | `get` and `Get` are handled as `GET` |
| `ManagerProperties.SplitsIntoPieces` | code/src/main/java/gov/va/vha/dicomimporter/CannedReportsManager.java:522 | a string claim splits on commas without trimming the pieces |
| `ManagerProperties.SplitDropsTrailingEmpty` | code/src/main/java/gov/va/vha/dicomimporter/CannedReportsManager.java:522 | trailing empty pieces are dropped, inner ones kept |
| `ManagerProperties.SplitOfEmptyAndComma` | code/src/main/java/gov/va/vha/dicomimporter/CannedReportsManager.java:522 | the empty claim is one empty role and a lone comma is no role |
| `ManagerProperties.PostStoresNewReport` | code/src/main/java/gov/va/vha/dicomimporter/CannedReportsManager.java:213-315 | a POST whose put is not faulted stores the body under the new identifier as its only version in one call, and answers with the JSON of the revision-0 document read from the put reply; that answer holds no document |
| `ManagerProperties.PostedDocumentOfReply` | code/src/main/java/gov/va/vha/dicomimporter/CannedReportsManager.java:293-302 | a put reply without metadata gives a document with only the identifier and revision 0 (no name, description, type or length); a reply with metadata gives its name, description, type and narrowed length; a reply echoing the uploaded metadata gives the request's name, description and tagged type |
| `ManagerProperties.PutAppendsNewestVersion` | code/src/main/java/gov/va/vha/dicomimporter/CannedReportsManager.java:247-250 | a PUT of a stored report whose put is not faulted appends the upload, with the request's metadata and the next version id, as the key's newest version after two calls, leaves every other key alone, and answers with the JSON of the revision-0 document of the put reply |
| `ManagerProperties.PutOfStoredKey` | code/src/main/java/gov/va/vha/dicomimporter/CannedReportsManager.java:277-306 | an upload whose put is not faulted stores the request's content and metadata as a new version and answers with the JSON of the document of the reply |
| `ManagerProperties.PutThenGetDeliversUpload` | code/src/main/java/gov/va/vha/dicomimporter/CannedReportsManager.java:107-108 | after a quiet PUT of a stored report, a GET of it answers SUCCESS with one document carrying the uploaded content and metadata: the new content is the latest revision |
| `ManagerProperties.PutDoesNotCopyMetadataForward` | code/src/main/java/gov/va/vha/dicomimporter/CannedReportsManager.java:277-279 | a quiet PUT without a name over a newest version that has one leaves the new newest version with no name, and with the request's description |
| `ManagerProperties.PutOnMissingReportWritesNothing` | code/src/main/java/gov/va/vha/dicomimporter/CannedReportsManager.java:247-253 | a PUT whose lookup finds nothing answers NOT_FOUND after that one call and writes nothing |
| `ManagerProperties.PutLookupFaultEscapes` | code/src/main/java/gov/va/vha/dicomimporter/CannedReportsManager.java:247 | a service fault of the PUT's lookup escapes unwrapped |
| `ManagerProperties.NullPutReplyStillStores` | code/src/main/java/gov/va/vha/dicomimporter/CannedReportsManager.java:290-310 | a null put reply answers SERVICE_EXCEPTION although the version was stored |
| `ManagerProperties.PutServiceFaultIsWrapped` | code/src/main/java/gov/va/vha/dicomimporter/CannedReportsManager.java:312-313 | a service fault of the put becomes an unrecoverable dependent invocation at `AmazonS3.putObject`, answered SERVICE_EXCEPTION by the dispatcher |
| `ManagerProperties.PutClientFaultEscapes` | code/src/main/java/gov/va/vha/dicomimporter/CannedReportsManager.java:276-314 | a client fault of the put is caught nowhere and escapes as is |
| `ManagerProperties.VersionCountOfOnlyKey` | code/src/main/java/gov/va/vha/dicomimporter/CannedReportsManager.java:536-544 | with no other key extending the identifier, the count is its number of versions, capped at 1000 |
| `ManagerProperties.VersionCountIncludesExtendingKeys` | code/src/main/java/gov/va/vha/dicomimporter/CannedReportsManager.java:539 | the count for `a` includes the versions of `ab` |
| `ManagerProperties.NullListingCountsZero` | code/src/main/java/gov/va/vha/dicomimporter/CannedReportsManager.java:543 | a null listing, or one with null summaries, counts 0 |
| `ManagerProperties.VersionIdentifierSelects` | code/src/main/java/gov/va/vha/dicomimporter/CannedReportsManager.java:559-564 | of N listed versions the selector picks index `(N-1)+value`, found exactly when `-N < value <= 0`, else UnknownRevisionException; the `int` wrap-around never selects a version |
| `ManagerProperties.SelectionIgnoresFlags` | code/src/main/java/gov/va/vha/dicomimporter/CannedReportsManager.java:560 | selectors with the same value select the same version, whatever their `all` and relative flags |
| `ManagerProperties.DeleteCountsThenDeletes` | code/src/main/java/gov/va/vha/dicomimporter/CannedReportsManager.java:353-365 | a DELETE of a stored report counts its versions before it removes the key, in three calls, and answers with the JSON of the report's description with that count |
| `ManagerProperties.DeleteOnMissingReportDeletesNothing` | code/src/main/java/gov/va/vha/dicomimporter/CannedReportsManager.java:353-367 | a DELETE whose lookup finds nothing answers NOT_FOUND and deletes nothing |
| `ManagerProperties.DeleteFaultAnswered` | code/src/main/java/gov/va/vha/dicomimporter/CannedReportsManager.java:349-371 | a service or client fault of any of the DELETE's three calls (lookup, version count, delete) is answered SERVICE_EXCEPTION carrying the fault, after exactly the calls up to the faulty one and with nothing deleted |
| `ManagerProperties.DeleteCatchesSdkExceptions` | code/src/main/java/gov/va/vha/dicomimporter/CannedReportsManager.java:369-371 | under any schedule, no SDK exception escapes a DELETE |
| `ManagerProperties.HeadDescribesReport` | code/src/main/java/gov/va/vha/dicomimporter/CannedReportsManager.java:386-398 | a HEAD of a stored report answers SUCCESS with one document (its metadata, the version count as revision, no body), in two calls, changing nothing else |
| `ManagerProperties.GetDeliversReport` | code/src/main/java/gov/va/vha/dicomimporter/CannedReportsManager.java:426-444 | a GET of a stored report answers SUCCESS with one document carrying the newest version's content as its stream, in three calls, changing nothing else |
| `ManagerProperties.MissingReportNotFound` | code/src/main/java/gov/va/vha/dicomimporter/CannedReportsManager.java:449 | a missing report: HEAD answers NOT_FOUND, GET throws metadata-not-found, which the dispatcher answers NOT_FOUND |
| `ManagerProperties.VanishedContentNotFound` | code/src/main/java/gov/va/vha/dicomimporter/CannedReportsManager.java:445-447 | content missing after the metadata was found throws document-not-found |
| `ManagerProperties.RevisionSelectorUnused` | code/src/main/java/gov/va/vha/dicomimporter/CannedReportsManager.java:349-454 | the selector never changes what GET, HEAD or DELETE do |
| `ManagerProperties.ListDocumentsQuiet` | code/src/main/java/gov/va/vha/dicomimporter/CannedReportsManager.java:477-494 | with no fault, the loop makes one call per key and builds, in order, each key's document from its newest metadata |
| `ManagerProperties.ListedKeysStored` | code/src/main/java/gov/va/vha/dicomimporter/CannedReportsManager.java:474-477 | every key of the first listing page is stored |
| `ManagerProperties.ListAllInListingOrder` | code/src/main/java/gov/va/vha/dicomimporter/CannedReportsManager.java:462-496 | a listing without identifier answers SUCCESS with no exception and one body-less document per listed key, in listing order, in one call plus one per key |
| `ManagerProperties.EmptyStoreListsNothing` | code/src/main/java/gov/va/vha/dicomimporter/CannedReportsManager.java:468-496 | an empty store lists no document and still answers SUCCESS |
| `ManagerProperties.NullListingReplyEscapes` | code/src/main/java/gov/va/vha/dicomimporter/CannedReportsManager.java:474-476 | a null listing reply escapes as NullPointerException |
| `ManagerProperties.PostedNameListed` | code/src/main/java/gov/va/vha/dicomimporter/CannedReportsManager.java:278-279 | after a POST into an empty store, the listing shows one document with the posted identifier, name and description |
| `ManagerProperties.ListedDocumentNames` | code/src/main/java/gov/va/vha/dicomimporter/CannedReportsManager.java:485-486 | a listed document reads its name and description from the `x-amz-meta-` keys |
| `ManagerProperties.OneReportListed` | code/src/main/java/gov/va/vha/dicomimporter/CannedReportsManager.java:462-496 | a store holding one report lists exactly that report's document |
| `ManagerProperties.PostedNameNotReadBack` | code/src/main/java/gov/va/vha/dicomimporter/model/CanonicalDocument.java:126-127 | a report stored by POST comes back from GET with its content but without name and description |
| `ManagerProperties.ExceptionTable` | code/src/main/java/gov/va/vha/dicomimporter/CannedReportsManager.java:572-596 | NOT_FOUND exactly for the two not-found exceptions, CLIENT_EXCEPTION exactly for the unknown revision and body encoding, SERVICE_EXCEPTION exactly for the service exceptions |
| `ManagerProperties.ResponseStatusIgnoresExceptionStatus` | code/src/main/java/gov/va/vha/dicomimporter/CannedReportsManager.java:582-593 | the answer's code is not the exception's own status: an unknown revision (404) answers 400, a dependent-invocation failure (502) answers 500 |
| `ManagerProperties.ContentTypeTagging` | code/src/main/java/gov/va/vha/dicomimporter/CannedReportsManager.java:282-286 | `text/plain` with a base64 body is stored as `text/plain+base64`, an already tagged type is not tagged again, and an absent type stays absent |

## Left out

- Bucket lookup and creation in the constructor: the store is given to the manager, and so is the configuration that `ApplicationProperties` would supply.
- The JWT library: decoding a token is the configuration's `decodeToken` function. It gives a parse failure, a string claim, a string-array claim or no claim.
- The JSON object mapper: rendering a document is the configuration's `render` function, which gives None when the mapper fails.
- UUID generation: a POST receives its new identifier as a parameter.
- Logging.
- `ApplicationProperties` parsing: the `Config` datatype holds the checking flag and the two role names directly.
- Case mapping and trimming beyond ASCII: `toUpperCase` and `equalsIgnoreCase` are modelled on ASCII letters only.
- Streams are values, meaning a sequence of text chunks. Read-once consumption, closing and the 2048-character read buffer are not modelled, and neither is character decoding.
- The AWS metadata map is case-insensitive, and the model compares keys exactly. This does not matter here, because the key spellings differ by more than case.
- Null user-metadata values: adding a null name or description removes the key, so it reads back as null, as a stored null would.
- `Responses.Builder.RemoveDocument` removes by value equality, because documents are values. Java's `List.remove` uses `equals`, which `CanonicalDocument` does not override, so Java removes by identity.
- `ObjectStore.StoreVersion` and `ObjectStore.ListObjectsStep`: keys are listed in the order they were first stored, while S3's `listObjectsV2` and `listVersions` return them in ascending key order. So the first page of the model's listing holds the first 1000 keys stored, not the 1000 smallest, and `ManagerProperties.ListAllInListingOrder` and the version selection of `ManagerProperties.VersionIdentifierSelects`, where keys extending the identifier are listed too, follow that insertion order.
- The object store is an abstraction of S3. It does not model delete markers, version ids ordered by time, real HTTP 404 errors, or listing continuation tokens (only the first page is read, as the code does).
- What metadata S3 returns in a put reply: the model's reply carries none unless the schedule gives it some, as the unit tests' bare `new PutObjectResult()` carries none. `ManagerProperties.PostedDocumentOfReply` states the answer for both kinds of reply.
- How the store behaves on null arguments is an assumption of the model. A call with a null key, or a put with a null body, throws IllegalArgumentException after counting as a call.
- InstanceValidationException.java is not part of this model. A request-validation failure is the list of violations, and document validation failures are computed and then dropped, as the code does.
- `NumberFormatException` and `InvalidParameterException` are modelled by their cause and input, not by their message text; `Revisions.PatternMismatchMessage` gives the pattern error's text.
- The `ApplicationLoadBalancerCannedReportsHandler` transport adapter, which converts between load-balancer events and canonical requests and responses.
- `Manager.Manager.AddListedDocuments`, `Manager.Manager.AnswerPut`, `Manager.Manager.SingleDocumentResponse` and `Manager.Manager.JsonBody` are helper methods that do not exist in the source. They hold parts of the listing loop and of the handlers' response building.
- `Manager.VersionIdentifierSpec`: its own contract only bounds calls and validity. The selection rule is stated by `ManagerProperties.VersionIdentifierSelects`.
- `Manager.HandleRequestSpec`: its own contract only states validity. The gate and the routing are stated by the `ManagerProperties` lemmas and by `Manager.RouteSpec`.

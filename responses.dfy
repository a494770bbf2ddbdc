/**
 * The canonical response: an outcome, the reports it carries and the
 * exception behind it; the fixed outcome-to-HTTP table; and the mutable
 * response builder with every one of its transitions.
 */
module Responses {
  import opened Lang
  import opened Exceptions
  import opened Documents

  /** The outcomes, each with a suggested HTTP status and reason phrase. */
  datatype Result = SUCCESS | ACCEPTED | SERVICE_EXCEPTION | CLIENT_EXCEPTION | NOT_FOUND | FORBIDDEN

  function HttpResponseCode(r: Result): int
  {
    match r
    case SUCCESS => 200
    case ACCEPTED => 202
    case SERVICE_EXCEPTION => 500
    case CLIENT_EXCEPTION => 400
    case NOT_FOUND => 404
    case FORBIDDEN => 403
  }

  function HttpResponseDescription(r: Result): string
  {
    match r
    case SUCCESS => "OK"
    case ACCEPTED => "ACCEPTED"
    case SERVICE_EXCEPTION => "SERVER ERROR"
    case CLIENT_EXCEPTION => "BAD REQUEST"
    case NOT_FOUND => "NOT FOUND"
    case FORBIDDEN => "FORBIDDEN"
  }

  /** No two outcomes share a status code, so the code identifies the outcome. */
  lemma HttpResponseCodeInjective(a: Result, b: Result)
    requires HttpResponseCode(a) == HttpResponseCode(b)
    ensures a == b
  {
  }

  /** Exactly SUCCESS and ACCEPTED are 2xx; the three failures of the request are 4xx; the service failure is 5xx. */
  lemma HttpResponseCodeFamilies(r: Result)
    ensures 200 <= HttpResponseCode(r) < 300 <==> r == SUCCESS || r == ACCEPTED
    ensures 400 <= HttpResponseCode(r) < 500 <==> r in {CLIENT_EXCEPTION, NOT_FOUND, FORBIDDEN}
    ensures 500 <= HttpResponseCode(r) < 600 <==> r == SERVICE_EXCEPTION
  {
  }

  /** A built response; its list is its own copy of the builder's list. */
  datatype CanonicalResponse = CanonicalResponse(result: Option<Result>, reports: seq<CanonicalDocument>, exception: Option<Throwable>)

  /** The builder's fields as a value. */
  datatype ResponseBuilder = ResponseBuilder(
    result: Option<Result>,
    exception: Option<Throwable>,
    reports: seq<CanonicalDocument>,
    rawBody: Option<string>)

  /** `CanonicalResponse.builder()`. */
  const Fresh := ResponseBuilder(None, None, [], None)

  // ----- the transitions, as functions on the builder's fields -----

  function SuccessWithReportsStep(b: ResponseBuilder, docs: seq<CanonicalDocument>): ResponseBuilder
  {
    b.(result := Some(SUCCESS), reports := b.reports + docs, rawBody := None, exception := None)
  }

  function SuccessWithBodyStep(b: ResponseBuilder, body: Option<string>): ResponseBuilder
  {
    b.(result := Some(SUCCESS), reports := [], exception := None, rawBody := body)
  }

  /**
   * `successWithJSONBody(obj)`, given the mapper's rendering of obj (None
   * when the mapper throws JsonProcessingException).
   */
  function SuccessWithJsonBodyStep(b: ResponseBuilder, rendered: Option<string>): ResponseBuilder
  {
    if rendered.Some? then SuccessWithBodyStep(b, rendered)
    else b.(result := Some(SERVICE_EXCEPTION), exception := Some(JsonProcessing))
  }

  function SuccessStep(b: ResponseBuilder): ResponseBuilder
  {
    b.(result := Some(SUCCESS), reports := [], exception := None, rawBody := None)
  }

  function AddDocumentStep(b: ResponseBuilder, d: CanonicalDocument): ResponseBuilder
  {
    b.(reports := b.reports + [d])
  }

  /** `List.remove(o)`: drops the first occurrence, if any. */
  function RemoveFirst(s: seq<CanonicalDocument>, d: CanonicalDocument): (r: seq<CanonicalDocument>)
    ensures d !in s ==> r == s
    ensures d in s ==> |r| == |s| - 1
    ensures multiset(r) == multiset(s) - multiset{d}
  {
    if s == [] then []
    else
      assert s == [s[0]] + s[1..];
      if s[0] == d then s[1..] else [s[0]] + RemoveFirst(s[1..], d)
  }

  function RemoveDocumentStep(b: ResponseBuilder, d: CanonicalDocument): ResponseBuilder
  {
    b.(reports := RemoveFirst(b.reports, d))
  }

  function WithRawBodyStep(b: ResponseBuilder, body: Option<string>): ResponseBuilder
  {
    b.(rawBody := body)
  }

  function ServiceExceptionStep(b: ResponseBuilder, e: Option<Throwable>): ResponseBuilder
  {
    b.(result := Some(SERVICE_EXCEPTION), exception := e, reports := [])
  }

  function GenericBadRequestStep(b: ResponseBuilder, e: Option<Throwable>): ResponseBuilder
  {
    b.(result := Some(CLIENT_EXCEPTION), exception := e, reports := [])
  }

  function ReportNotFoundStep(b: ResponseBuilder, e: Option<Throwable>): ResponseBuilder
  {
    b.(result := Some(NOT_FOUND), exception := e, reports := [])
  }

  function ForbiddenStep(b: ResponseBuilder): ResponseBuilder
  {
    b.(result := Some(FORBIDDEN), exception := None, reports := [])
  }

  /** `build()`: the raw body is not part of the response. */
  function BuildStep(b: ResponseBuilder): CanonicalResponse
  {
    CanonicalResponse(b.result, b.reports, b.exception)
  }

  /** Appending documents one by one with addDocument. */
  function AddDocumentsStep(b: ResponseBuilder, docs: seq<CanonicalDocument>): ResponseBuilder
  {
    if docs == [] then b else AddDocumentStep(AddDocumentsStep(b, docs[..|docs| - 1]), docs[|docs| - 1])
  }

  // ----- properties of the transitions -----

  /** Adding documents one at a time appends them in order and changes nothing else. */
  lemma {:induction false} AddDocumentsAppends(b: ResponseBuilder, docs: seq<CanonicalDocument>)
    ensures AddDocumentsStep(b, docs) == b.(reports := b.reports + docs)
  {
    if docs != [] {
      var init := docs[..|docs| - 1];
      AddDocumentsAppends(b, init);
      assert b.reports + init + [docs[|docs| - 1]] == b.reports + docs;
    }
  }

  /** After success() the documents added are exactly the response's reports, in order. */
  lemma SuccessThenAddDocuments(b: ResponseBuilder, docs: seq<CanonicalDocument>)
    ensures BuildStep(AddDocumentsStep(SuccessStep(b), docs)) == CanonicalResponse(Some(SUCCESS), docs, None)
  {
    AddDocumentsAppends(SuccessStep(b), docs);
  }

  /**
   * A successful successWithJSONBody leaves SUCCESS with no reports and no
   * exception whatever came before; a failed rendering gives
   * SERVICE_EXCEPTION and keeps the reports already added.
   */
  lemma SuccessWithJsonBodyOutcome(b: ResponseBuilder, rendered: Option<string>)
    ensures rendered.Some? ==> BuildStep(SuccessWithJsonBodyStep(b, rendered)) == CanonicalResponse(Some(SUCCESS), [], None)
    ensures rendered.None? ==> BuildStep(SuccessWithJsonBodyStep(b, rendered)) == CanonicalResponse(Some(SERVICE_EXCEPTION), b.reports, Some(JsonProcessing))
  {
  }

  /** Each error setter and forbiddenAccessException produces a response that does not depend on the earlier state. */
  lemma ErrorSettersForget(b: ResponseBuilder, b': ResponseBuilder, e: Option<Throwable>)
    ensures BuildStep(ServiceExceptionStep(b, e)) == BuildStep(ServiceExceptionStep(b', e)) == CanonicalResponse(Some(SERVICE_EXCEPTION), [], e)
    ensures BuildStep(GenericBadRequestStep(b, e)) == BuildStep(GenericBadRequestStep(b', e)) == CanonicalResponse(Some(CLIENT_EXCEPTION), [], e)
    ensures BuildStep(ReportNotFoundStep(b, e)) == BuildStep(ReportNotFoundStep(b', e)) == CanonicalResponse(Some(NOT_FOUND), [], e)
    ensures BuildStep(ForbiddenStep(b)) == BuildStep(ForbiddenStep(b')) == CanonicalResponse(Some(FORBIDDEN), [], None)
  {
  }

  /** successWithReports appends without clearing what was added before. */
  lemma SuccessWithReportsKeeps(b: ResponseBuilder, d: CanonicalDocument, docs: seq<CanonicalDocument>)
    ensures BuildStep(SuccessWithReportsStep(AddDocumentStep(b, d), docs)).reports == b.reports + [d] + docs
  {
  }

  /** The raw body never reaches the built response. */
  lemma RawBodyInvisible(b: ResponseBuilder, body: Option<string>)
    ensures BuildStep(WithRawBodyStep(b, body)) == BuildStep(b)
    ensures BuildStep(SuccessWithBodyStep(b, body)) == BuildStep(SuccessStep(b))
  {
  }

  /** removeDocument undoes the addDocument of a document not already present. */
  lemma {:induction false} RemoveUndoesAdd(s: seq<CanonicalDocument>, d: CanonicalDocument)
    requires d !in s
    ensures RemoveFirst(s + [d], d) == s
  {
    if s != [] {
      assert (s + [d])[1..] == s[1..] + [d];
      RemoveUndoesAdd(s[1..], d);
    }
  }

  /** The response builder as one mutable object. */
  class Builder {
    var result: Option<Result>
    var exception: Option<Throwable>
    var reports: seq<CanonicalDocument>
    var rawBody: Option<string>

    function State(): ResponseBuilder
      reads this
    {
      ResponseBuilder(result, exception, reports, rawBody)
    }

    constructor ()
      ensures State() == Fresh
    {
      result, exception, reports, rawBody := None, None, [], None;
    }

    method SuccessWithReports(docs: seq<CanonicalDocument>)
      modifies this
      ensures State() == SuccessWithReportsStep(old(State()), docs)
    {
      result := Some(SUCCESS);
      reports := reports + docs;
      rawBody := None;
      exception := None;
    }

    method SuccessWithJsonBody(rendered: Option<string>)
      modifies this
      ensures State() == SuccessWithJsonBodyStep(old(State()), rendered)
    {
      if rendered.Some? {
        SuccessWithBody(rendered);
      } else {
        result := Some(SERVICE_EXCEPTION);
        exception := Some(JsonProcessing);
      }
    }

    method SuccessWithBody(body: Option<string>)
      modifies this
      ensures State() == SuccessWithBodyStep(old(State()), body)
    {
      result := Some(SUCCESS);
      reports := [];
      exception := None;
      rawBody := body;
    }

    method Success()
      modifies this
      ensures State() == SuccessStep(old(State()))
    {
      result := Some(SUCCESS);
      reports := [];
      exception := None;
      rawBody := None;
    }

    method AddDocument(d: CanonicalDocument)
      modifies this
      ensures State() == AddDocumentStep(old(State()), d)
    {
      reports := reports + [d];
    }

    method RemoveDocument(d: CanonicalDocument)
      modifies this
      ensures State() == RemoveDocumentStep(old(State()), d)
    {
      reports := RemoveFirst(reports, d);
    }

    method WithRawBody(body: Option<string>)
      modifies this
      ensures State() == WithRawBodyStep(old(State()), body)
    {
      rawBody := body;
    }

    method ServiceException(e: Option<Throwable>)
      modifies this
      ensures State() == ServiceExceptionStep(old(State()), e)
    {
      result := Some(SERVICE_EXCEPTION);
      exception := e;
      reports := [];
    }

    method GenericBadRequestException(e: Option<Throwable>)
      modifies this
      ensures State() == GenericBadRequestStep(old(State()), e)
    {
      result := Some(CLIENT_EXCEPTION);
      exception := e;
      reports := [];
    }

    method ReportNotFoundException(e: Option<Throwable>)
      modifies this
      ensures State() == ReportNotFoundStep(old(State()), e)
    {
      result := Some(NOT_FOUND);
      exception := e;
      reports := [];
    }

    method ForbiddenAccessException()
      modifies this
      ensures State() == ForbiddenStep(old(State()))
    {
      result := Some(FORBIDDEN);
      exception := None;
      reports := [];
    }

    method Build() returns (r: CanonicalResponse)
      ensures r == BuildStep(State())
    {
      r := CanonicalResponse(result, reports, exception);
    }
  }

  /** A built response is a copy: changing the builder afterwards leaves it as it was. */
  method BuildIsACopy(b: Builder, d: CanonicalDocument) returns (r: CanonicalResponse)
    modifies b
    ensures r.reports == old(b.reports)
    ensures b.reports == old(b.reports) + [d]
  {
    r := b.Build();
    b.AddDocument(d);
  }
}

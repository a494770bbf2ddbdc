/**
 * The canonical request: the transport-neutral form of one API call, and
 * its builder, whose build step validates the fields according to the verb,
 * collecting every failure before refusing, and only then parses the
 * revision selector.
 */
module Requests {
  import opened Lang
  import Revisions

  datatype CanonicalRequest = CanonicalRequest(
    httpMethod: Option<string>,
    identifier: Option<string>,
    revisionSpecification: Revisions.RevisionSpecification,
    name: Option<string>,
    description: Option<string>,
    contentType: Option<string>,
    contentLength: Option<Int32>,
    authorization: Option<string>,
    body: Option<Stream>,
    bodyIsBase64Encoded: bool)

  /** The builder's fields as a value; the selector is still text here. */
  datatype RequestFields = RequestFields(
    httpMethod: Option<string>,
    identifier: Option<string>,
    revisionSpecification: Option<string>,
    name: Option<string>,
    description: Option<string>,
    contentType: Option<string>,
    contentLength: Option<Int32>,
    body: Option<Stream>,
    bodyIsBase64Encoded: bool,
    authorization: Option<string>)

  const Unset := RequestFields(None, None, None, None, None, None, None, None, false, None)

  /** One (property, violation) pair of the validation exception. */
  datatype ValidationFailure = ValidationFailure(property: string, violation: string)

  const MethodMissing := ValidationFailure("method", "Null value not permitted")
  const IdentifierTooShort := ValidationFailure("identifier", "Minimum length not met")
  const BodyMissing := ValidationFailure("body", "Null value not permitted")
  const ContentLengthTooSmall := ValidationFailure("contentLength", "Minimum value not met")

  /** The verbs, after upper-casing, that must name a report. */
  predicate NeedsIdentifier(verb: string)
  {
    verb == "DELETE" || verb == "PUT" || verb == "HEAD"
  }

  /** The verbs, after upper-casing, that carry content. */
  predicate NeedsBody(verb: string)
  {
    verb == "POST" || verb == "PUT"
  }

  predicate IdentifierMissing(f: RequestFields)
  {
    f.identifier.None? || |f.identifier.value| < 1
  }

  predicate ContentLengthBelowOne(f: RequestFields)
  {
    f.contentLength.Some? && f.contentLength.value < 1
  }

  /** The failures build collects, in the order it checks them. */
  function Violations(f: RequestFields): seq<ValidationFailure>
  {
    if f.httpMethod.None? then [MethodMissing]
    else
      var verb := ToUpper(f.httpMethod.value);
      (if NeedsIdentifier(verb) && IdentifierMissing(f) then [IdentifierTooShort] else []) +
      (if NeedsBody(verb) && f.body.None? then [BodyMissing] else []) +
      (if NeedsBody(verb) && ContentLengthBelowOne(f) then [ContentLengthTooSmall] else [])
  }

  /** A request that passes validation, stated field by field. */
  predicate WellFormed(f: RequestFields)
  {
    && f.httpMethod.Some?
    && (NeedsIdentifier(ToUpper(f.httpMethod.value)) ==> !IdentifierMissing(f))
    && (NeedsBody(ToUpper(f.httpMethod.value)) ==> f.body.Some? && !ContentLengthBelowOne(f))
  }

  datatype BuildOutcome =
    | Built(request: CanonicalRequest)
    | ValidationFailed(failures: seq<ValidationFailure>)      // InstanceValidationException
    | SelectorRejected(error: Revisions.ParseError)          // thrown by the selector parser

  /** What build returns or throws for the builder's fields. */
  function BuildOutcomeOf(f: RequestFields): BuildOutcome
  {
    if Violations(f) != [] then ValidationFailed(Violations(f))
    else match Revisions.Parse(f.revisionSpecification)
      case Rejected(err) => SelectorRejected(err)
      case Parsed(rs) =>
        Built(CanonicalRequest(f.httpMethod, f.identifier, rs, f.name, f.description, f.contentType,
                               f.contentLength, f.authorization, f.body, f.bodyIsBase64Encoded))
  }

  class Builder {
    var httpMethod: Option<string>
    var identifier: Option<string>
    var revisionSpecification: Option<string>
    var name: Option<string>
    var description: Option<string>
    var contentType: Option<string>
    var contentLength: Option<Int32>
    var body: Option<Stream>
    var bodyIsBase64Encoded: bool
    var authorization: Option<string>

    function Fields(): RequestFields
      reads this
    {
      RequestFields(httpMethod, identifier, revisionSpecification, name, description, contentType,
                    contentLength, body, bodyIsBase64Encoded, authorization)
    }

    constructor ()
      ensures Fields() == Unset
    {
      httpMethod, identifier, revisionSpecification, name, description := None, None, None, None, None;
      contentType, contentLength, body, bodyIsBase64Encoded, authorization := None, None, None, false, None;
    }

    method WithMethod(v: Option<string>)
      modifies this
      ensures Fields() == old(Fields()).(httpMethod := v)
    {
      httpMethod := v;
    }

    method WithIdentifier(v: Option<string>)
      modifies this
      ensures Fields() == old(Fields()).(identifier := v)
    {
      identifier := v;
    }

    method WithRevisionSpecification(v: Option<string>)
      modifies this
      ensures Fields() == old(Fields()).(revisionSpecification := v)
    {
      revisionSpecification := v;
    }

    method WithName(v: Option<string>)
      modifies this
      ensures Fields() == old(Fields()).(name := v)
    {
      name := v;
    }

    method WithDescription(v: Option<string>)
      modifies this
      ensures Fields() == old(Fields()).(description := v)
    {
      description := v;
    }

    method WithContentType(v: Option<string>)
      modifies this
      ensures Fields() == old(Fields()).(contentType := v)
    {
      contentType := v;
    }

    method WithContentLength(v: Option<Int32>)
      modifies this
      ensures Fields() == old(Fields()).(contentLength := v)
    {
      contentLength := v;
    }

    method WithBody(v: Option<Stream>)
      modifies this
      ensures Fields() == old(Fields()).(body := v)
    {
      body := v;
    }

    method WithBodyIsBase64Encoded(v: bool)
      modifies this
      ensures Fields() == old(Fields()).(bodyIsBase64Encoded := v)
    {
      bodyIsBase64Encoded := v;
    }

    method WithAuthorization(v: Option<string>)
      modifies this
      ensures Fields() == old(Fields()).(authorization := v)
    {
      authorization := v;
    }

    /** Collects the validation failures one check at a time, refuses once, then parses the selector. */
    method Build() returns (r: BuildOutcome)
      ensures r == BuildOutcomeOf(Fields())
    {
      var failures: seq<ValidationFailure> := [];
      if httpMethod.None? {
        failures := failures + [MethodMissing];
      } else {
        var verb := ToUpper(httpMethod.value);
        if verb == "DELETE" || verb == "PUT" || verb == "HEAD" {
          if identifier.None? || |identifier.value| < 1 {
            failures := failures + [IdentifierTooShort];
          }
        }
        if verb == "POST" || verb == "PUT" {
          if body.None? {
            failures := failures + [BodyMissing];
          }
          if contentLength.Some? && contentLength.value < 1 {
            failures := failures + [ContentLengthTooSmall];
          }
        }
      }
      if |failures| > 0 {
        return ValidationFailed(failures);
      }
      var parsed := Revisions.FromStringRepresentation(revisionSpecification);
      if parsed.Rejected? {
        return SelectorRejected(parsed.error);
      }
      r := Built(CanonicalRequest(httpMethod, identifier, parsed.spec, name, description, contentType,
                                  contentLength, authorization, body, bodyIsBase64Encoded));
    }
  }

  // ----- properties of validation -----

  /** A null method is the only failure reported for it: no verb-specific check runs. */
  lemma NullMethodOnly(f: RequestFields)
    requires f.httpMethod.None?
    ensures Violations(f) == [MethodMissing]
    ensures BuildOutcomeOf(f) == ValidationFailed([MethodMissing])
  {
  }

  /** Each failure is reported exactly when its condition holds. */
  lemma FailureConditions(f: RequestFields)
    ensures MethodMissing in Violations(f) <==> f.httpMethod.None?
    ensures IdentifierTooShort in Violations(f) <==>
      f.httpMethod.Some? && NeedsIdentifier(ToUpper(f.httpMethod.value)) && IdentifierMissing(f)
    ensures BodyMissing in Violations(f) <==>
      f.httpMethod.Some? && NeedsBody(ToUpper(f.httpMethod.value)) && f.body.None?
    ensures ContentLengthTooSmall in Violations(f) <==>
      f.httpMethod.Some? && NeedsBody(ToUpper(f.httpMethod.value)) && ContentLengthBelowOne(f)
    ensures forall v :: v in Violations(f) ==> v in [MethodMissing, IdentifierTooShort, BodyMissing, ContentLengthTooSmall]
  {
  }

  /** Validation passes exactly for the well-formed requests. */
  lemma ValidIffWellFormed(f: RequestFields)
    ensures Violations(f) == [] <==> WellFormed(f)
  {
    if f.httpMethod.Some? && !WellFormed(f) {
      var verb := ToUpper(f.httpMethod.value);
      if NeedsIdentifier(verb) && IdentifierMissing(f) {
        assert IdentifierTooShort in Violations(f);
      } else if NeedsBody(verb) && f.body.None? {
        assert BodyMissing in Violations(f);
      } else {
        assert ContentLengthTooSmall in Violations(f);
      }
    }
  }

  /** A verb outside the five, in any case, passes validation whatever else is missing. */
  lemma OtherVerbsPass(f: RequestFields)
    requires f.httpMethod.Some?
    requires var verb := ToUpper(f.httpMethod.value); !NeedsIdentifier(verb) && !NeedsBody(verb)
    ensures Violations(f) == []
  {
  }

  /** Every failure is reported together: PUT with neither identifier nor body reports both, in check order. */
  lemma FailuresAccumulate(f: RequestFields)
    requires f.httpMethod == Some("PUT") && f.identifier.None? && f.body.None? && f.contentLength.None?
    ensures BuildOutcomeOf(f) == ValidationFailed([IdentifierTooShort, BodyMissing])
  {
    assert ToUpper("PUT") == "PUT";
  }

  /** The verb is compared after upper-casing, so "put" is checked as PUT. */
  lemma VerbCaseIgnored(f: RequestFields)
    requires f.httpMethod == Some("put")
    ensures Violations(f) == Violations(f.(httpMethod := Some("PUT")))
  {
    assert ToUpper("put") == "PUT";
    assert ToUpper("PUT") == "PUT";
  }

  /**
   * The selector is parsed only after validation: with a failure the
   * request is refused for it even when the selector is malformed; without one a
   * malformed selector is refused with the parser's error.
   */
  lemma ValidationBeforeSelector(f: RequestFields)
    ensures Violations(f) != [] ==> BuildOutcomeOf(f) == ValidationFailed(Violations(f))
    ensures Violations(f) == [] && Revisions.Parse(f.revisionSpecification).Rejected? ==>
      BuildOutcomeOf(f) == SelectorRejected(Revisions.Parse(f.revisionSpecification).error)
  {
  }

  /** A built request carries every builder field unchanged and the parsed selector. */
  lemma BuiltCarriesFields(f: RequestFields)
    requires BuildOutcomeOf(f).Built?
    ensures var q := BuildOutcomeOf(f).request;
      && q.httpMethod == f.httpMethod && q.identifier == f.identifier && q.name == f.name
      && q.description == f.description && q.contentType == f.contentType
      && q.contentLength == f.contentLength && q.authorization == f.authorization
      && q.body == f.body && q.bodyIsBase64Encoded == f.bodyIsBase64Encoded
      && Revisions.Parse(f.revisionSpecification) == Revisions.Parsed(q.revisionSpecification)
    ensures WellFormed(f)
  {
    ValidIffWellFormed(f);
  }

  /** The unit tests' valid requests: GET without identifier, DELETE with one, POST and PUT with a body. */
  lemma ValidExamples(body: Stream)
    ensures Violations(Unset.(httpMethod := Some("GET"))) == []
    ensures Violations(Unset.(httpMethod := Some("GET"), identifier := Some(""))) == []
    ensures Violations(Unset.(httpMethod := Some("DELETE"), identifier := Some("IDENTIFIER_001"))) == []
    ensures Violations(Unset.(httpMethod := Some("POST"), identifier := Some("IDENTIFIER_001"), body := Some(body))) == []
    ensures Violations(Unset.(httpMethod := Some("PUT"), identifier := Some("IDENTIFIER_001"), body := Some(body),
                              contentType := Some("application/pdf"), contentLength := Some(655321))) == []
  {
    assert ToUpper("GET") == "GET";
    assert ToUpper("DELETE") == "DELETE";
    assert ToUpper("POST") == "POST";
    assert ToUpper("PUT") == "PUT";
  }

  /** The unit tests' invalid requests: DELETE without identifier or with an empty one, POST and PUT without a body. */
  lemma InvalidExamples()
    ensures Violations(Unset.(httpMethod := Some("DELETE"))) == [IdentifierTooShort]
    ensures Violations(Unset.(httpMethod := Some("DELETE"), identifier := Some(""))) == [IdentifierTooShort]
    ensures Violations(Unset.(httpMethod := Some("POST"))) == [BodyMissing]
    ensures Violations(Unset.(httpMethod := Some("PUT"))) == [IdentifierTooShort, BodyMissing]
  {
    assert ToUpper("DELETE") == "DELETE";
    assert ToUpper("POST") == "POST";
    assert ToUpper("PUT") == "PUT";
  }
}

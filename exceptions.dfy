/**
 * The exceptions the core raises and catches. The application-defined ones
 * carry a suggested HTTP status and a message; the others are the Java,
 * AWS SDK and token-parser exceptions the handlers catch or let through.
 */
module Exceptions {
  import opened Lang
  import Revisions

  /** The subclasses of AbstractApplicationDefinedException. */
  datatype ApplicationException =
    | IdentifiedDocumentMetadataNotFound(identifier: Option<string>)
    | IdentifiedDocumentNotFound(identifier: Option<string>)
    | UnknownRevision(identifier: Option<string>, specification: Option<Revisions.RevisionSpecification>)
    | BodyEncoding
    | WrappedService(message: Option<string>, cause: Option<Throwable>)
    | UnrecoverableDependentInvocation(context: Option<string>, cause: Option<Throwable>)

  /** Every exception the model can raise, by class. */
  datatype Throwable =
    | Application(exception: ApplicationException)
    | AmazonService        // com.amazonaws.AmazonServiceException, a subclass of SdkClientException
    | SdkClient            // com.amazonaws.SdkClientException raised on the client side
    | NullPointer
    | IllegalArgument
    | JsonProcessing       // a serialisation failure of the JSON mapper
    | TokenParse           // java.text.ParseException from the bearer-token parser
    | Other(className: string)

  /** The result of a Java call: a value, or the exception it throws. */
  datatype Outcome<+T> = Normal(value: T) | Thrown(exception: Throwable)

  const EXCEPTIONS_PACKAGE: string := "gov.va.vha.dicomimporter.exceptions."

  /** `getClass().getName()`. */
  function ClassName(t: Throwable): string
  {
    match t
    case Application(e) =>
      EXCEPTIONS_PACKAGE + (match e
        case IdentifiedDocumentMetadataNotFound(_) => "IdentifiedDocumentMetadataNotFound"
        case IdentifiedDocumentNotFound(_) => "IdentifiedDocumentNotFound"
        case UnknownRevision(_, _) => "UnknownRevisionException"
        case BodyEncoding => "BodyEncodingException"
        case WrappedService(_, _) => "WrappedServiceException"
        case UnrecoverableDependentInvocation(_, _) => "UnrecoverableDependentInvocationException")
    case AmazonService => "com.amazonaws.AmazonServiceException"
    case SdkClient => "com.amazonaws.SdkClientException"
    case NullPointer => "java.lang.NullPointerException"
    case IllegalArgument => "java.lang.IllegalArgumentException"
    case JsonProcessing => "com.fasterxml.jackson.core.JsonProcessingException"
    case TokenParse => "java.text.ParseException"
    case Other(name) => name
  }

  /** Subclasses of AbstractClientException. */
  predicate IsClientException(e: ApplicationException)
  {
    e.IdentifiedDocumentMetadataNotFound? || e.IdentifiedDocumentNotFound? || e.UnknownRevision? || e.BodyEncoding?
  }

  /** Subclasses of AbstractServiceException. */
  predicate IsServiceException(e: ApplicationException)
  {
    e.WrappedService? || e.UnrecoverableDependentInvocation?
  }

  /** `catch (SdkClientException x)`: AmazonServiceException is caught too. */
  predicate IsSdkClientException(t: Throwable)
  {
    t.AmazonService? || t.SdkClient?
  }

  /** `catch (AmazonServiceException x)`. */
  predicate IsAmazonServiceException(t: Throwable)
  {
    t.AmazonService?
  }

  /** `getHTTPResponseCode()`. */
  function HttpResponseCode(e: ApplicationException): (code: int)
    ensures 400 <= code < 600
  {
    match e
    case IdentifiedDocumentMetadataNotFound(_) => 404
    case IdentifiedDocumentNotFound(_) => 404
    case UnknownRevision(_, _) => 404
    case BodyEncoding => 400
    case WrappedService(_, _) => 502
    case UnrecoverableDependentInvocation(_, _) => 502
  }

  /** Java's `"" + s` for a String that may be null. */
  function Render(s: Option<string>): string
  {
    if s.Some? then s.value else "null"
  }

  /** Java's `"" + rs` for a RevisionSpecification that may be null. */
  function RenderSpecification(rs: Option<Revisions.RevisionSpecification>): string
  {
    if rs.Some? then Revisions.ToString(rs.value) else "null"
  }

  function UnknownRevisionMessage(identifier: Option<string>, rs: Option<Revisions.RevisionSpecification>): string
  {
    "Revision Specification [" + RenderSpecification(rs) + "] does not specify a revision for [" + Render(identifier) + "]"
  }

  /** The name of the cause, or "unknown" when there is none. */
  function CauseName(cause: Option<Throwable>): string
  {
    if cause.Some? then ClassName(cause.value) else "unknown"
  }

  function UnrecoverableDependentInvocationMessage(context: Option<string>, cause: Option<Throwable>): string
  {
    "Remote invocation at [" + Render(context) + "] failed with exception [" + CauseName(cause) + "]."
  }

  /** `getMessage()`: null only for a WrappedServiceException built with a null message. */
  function Message(e: ApplicationException): (m: Option<string>)
    ensures m.None? <==> e.WrappedService? && e.message.None?
  {
    match e
    case IdentifiedDocumentMetadataNotFound(id) =>
      Some("Document metadata cannot be found with identifier '" + Render(id) + "'.")
    case IdentifiedDocumentNotFound(id) =>
      Some("Document cannot be found with identifier '" + Render(id) + "'.")
    case UnknownRevision(id, rs) => Some(UnknownRevisionMessage(id, rs))
    case BodyEncoding => Some("Unable to read body content because the character encoding was unknown.")
    case WrappedService(message, _) => message
    case UnrecoverableDependentInvocation(context, cause) => Some(UnrecoverableDependentInvocationMessage(context, cause))
  }

  /** Every application exception is exactly one of a client and a service exception. */
  lemma ClientOrService(e: ApplicationException)
    ensures IsClientException(e) != IsServiceException(e)
  {
  }

  /** The suggested status is a 4xx code exactly for the client exceptions and a 5xx code for the service ones. */
  lemma StatusFamily(e: ApplicationException)
    ensures IsClientException(e) <==> 400 <= HttpResponseCode(e) < 500
    ensures IsServiceException(e) <==> 500 <= HttpResponseCode(e) < 600
  {
  }

  /**
   * An UnknownRevisionException is a client exception with status 404; its
   * message is never null, and it names the identifier and the selector
   * and renders either as "null" when it is absent.
   */
  lemma UnknownRevisionMessageContents(identifier: Option<string>, rs: Option<Revisions.RevisionSpecification>)
    ensures var e := UnknownRevision(identifier, rs);
      && IsClientException(e) && HttpResponseCode(e) == 404
      && Message(e).Some?
      && StartsWith(Message(e).value, "Revision Specification [")
      && EndsWith(Message(e).value, "]")
      && Contains(Message(e).value, Render(identifier))
      && Contains(Message(e).value, RenderSpecification(rs))
  {
    var m := UnknownRevisionMessage(identifier, rs);
    var head := "Revision Specification [";
    var middle := "] does not specify a revision for [";
    var id, spec := Render(identifier), RenderSpecification(rs);
    assert m == head + spec + (middle + id + "]");
    ContainsInfix(head, spec, middle + id + "]");
    assert m == (head + spec + middle) + id + "]";
    ContainsInfix(head + spec + middle, id, "]");
    assert m[..|head|] == head;
  }

  /**
   * An UnrecoverableDependentInvocationException is a service exception with
   * status 502; its message is never null and names the context and the
   * cause's class, or "unknown" when there is no cause.
   */
  lemma UnrecoverableDependentInvocationMessageContents(context: Option<string>, cause: Option<Throwable>)
    ensures var e := UnrecoverableDependentInvocation(context, cause);
      && IsServiceException(e) && HttpResponseCode(e) == 502
      && Message(e).Some?
      && Contains(Message(e).value, Render(context))
      && (cause.Some? ==> Contains(Message(e).value, ClassName(cause.value)))
      && (cause.None? ==> Contains(Message(e).value, "unknown"))
  {
    var m := UnrecoverableDependentInvocationMessage(context, cause);
    var head := "Remote invocation at [";
    var middle := "] failed with exception [";
    var ctx, name := Render(context), CauseName(cause);
    assert m == head + ctx + (middle + name + "].");
    ContainsInfix(head, ctx, middle + name + "].");
    assert m == (head + ctx + middle) + name + "].";
    ContainsInfix(head + ctx + middle, name, "].");
  }

  /** The unit test's case: a context and a bare java.lang.Throwable cause both appear in the message. */
  lemma UnrecoverableDependentInvocationExample()
    ensures var m := Message(UnrecoverableDependentInvocation(Some("CONTEXT_2"), Some(Other("java.lang.Throwable")))).value;
      Contains(m, "CONTEXT_2") && Contains(m, "Throwable")
  {
    var cause := Other("java.lang.Throwable");
    var m := Message(UnrecoverableDependentInvocation(Some("CONTEXT_2"), Some(cause))).value;
    UnrecoverableDependentInvocationMessageContents(Some("CONTEXT_2"), Some(cause));
    assert Render(Some("CONTEXT_2")) == "CONTEXT_2";
    assert ClassName(cause) == "java.lang.Throwable";
    SimpleNameContained();
    ContainsTransitive(m, "java.lang.Throwable", "Throwable");
  }

  lemma SimpleNameContained()
    ensures Contains("java.lang.Throwable", "Throwable")
  {
    ContainsInfix("java.lang.", "Throwable", "");
    assert "java.lang." + "Throwable" + "" == "java.lang.Throwable";
  }
}

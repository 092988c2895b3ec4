/**
 * Reading a report from its element tree. Each record type is read from the
 * children of its element: a field is found by its tag wherever it stands,
 * children with any other tag are ignored, and a field's cardinality decides
 * what its absence or repetition means. The tag of the root element is not
 * checked. The first defect found fails the whole decode.
 */
module Decoder {
  import opened Wrappers
  import opened Errors
  import opened Tokens
  import opened Numbers
  import opened ElementTree
  import opened Schema

  // ---------------------------------------------------------------------------
  // Reading one field
  // ---------------------------------------------------------------------------

  /** A `String` field's text, taken as it stands. */
  function Verbatim(t: string): (r: Decoded<string>)
  {
    Ok(t)
  }

  /** A required field whose text is parsed by `parse`. */
  function TextField<T>(cs: seq<Node>, f: string, parse: string -> Decoded<T>): (r: Decoded<T>)
    ensures r.Ok? ==> |Named(cs, f)| == 1 && parse(Named(cs, f)[0].text) == Ok(r.value)
    ensures Named(cs, f) == [] ==> r == Err(MissingField(f))
    ensures |Named(cs, f)| > 1 ==> r == Err(DuplicateField(f))
    ensures |Named(cs, f)| == 1 ==> r == parse(Named(cs, f)[0].text)
  {
    var n :- RequiredChild(cs, f);
    parse(n.text)
  }

  /** An `Option<String>` field. */
  function OptionalText(cs: seq<Node>, f: string): (r: Decoded<Option<string>>)
    ensures r.Ok? <==> |Named(cs, f)| <= 1
    ensures r.Ok? ==> (r.value.None? <==> Named(cs, f) == [])
    ensures r.Ok? && r.value.Some? ==> r.value.value == Named(cs, f)[0].text
    ensures |Named(cs, f)| > 1 ==> r == Err(DuplicateField(f))
  {
    var n :- OptionalChild(cs, f);
    match n
    case None => Ok(Option.None)
    case Some(e) => Ok(Some(e.text))
  }

  /** A required field holding a nested record. */
  function ElementField<T>(cs: seq<Node>, f: string, decode: Node -> Decoded<T>): (r: Decoded<T>)
    ensures r.Ok? ==> |Named(cs, f)| == 1 && decode(Named(cs, f)[0]) == Ok(r.value)
    ensures Named(cs, f) == [] ==> r == Err(MissingField(f))
    ensures |Named(cs, f)| > 1 ==> r == Err(DuplicateField(f))
    ensures |Named(cs, f)| == 1 ==> r == decode(Named(cs, f)[0])
  {
    var n :- RequiredChild(cs, f);
    decode(n)
  }

  /** An optional field holding a nested record. */
  function OptionalElement<T>(cs: seq<Node>, f: string, decode: Node -> Decoded<T>): (r: Decoded<Option<T>>)
    ensures r.Ok? ==> |Named(cs, f)| <= 1 && (r.value.None? <==> Named(cs, f) == [])
    ensures r.Ok? && r.value.Some? ==> decode(Named(cs, f)[0]) == Ok(r.value.value)
    ensures Named(cs, f) == [] ==> r == Ok(Option.None)
    ensures |Named(cs, f)| > 1 ==> r == Err(DuplicateField(f))
    ensures |Named(cs, f)| == 1 && decode(Named(cs, f)[0]).Err? ==> r == Err(decode(Named(cs, f)[0]).error)
    ensures |Named(cs, f)| == 1 && decode(Named(cs, f)[0]).Ok? ==> r == Ok(Some(decode(Named(cs, f)[0]).value))
  {
    var n :- OptionalChild(cs, f);
    match n
    case None => Ok(Option.None)
    case Some(e) =>
      var v :- decode(e);
      Ok(Some(v))
  }

  /** A `Vec` field of nested records, in document order. */
  function RepeatedElement<T>(cs: seq<Node>, f: string, decode: Node -> Decoded<T>): (r: Decoded<seq<T>>)
    ensures r.Ok? ==> |r.value| == |Named(cs, f)| > 0
    ensures r.Ok? ==> forall i :: 0 <= i < |r.value| ==> decode(Named(cs, f)[i]) == Ok(r.value[i])
    ensures Named(cs, f) == [] ==> r == Err(MissingField(f))
    ensures Named(cs, f) != [] ==> r == DecodeEach(Named(cs, f), decode)
  {
    var ns :- RepeatedChildren(cs, f);
    DecodeEach(ns, decode)
  }

  /** An `Option<Vec>` field, in document order. */
  function OptionalRepeatedElement<T>(cs: seq<Node>, f: string, decode: Node -> Decoded<T>): (r: Decoded<Option<seq<T>>>)
    ensures r.Ok? ==> (r.value.None? <==> Named(cs, f) == [])
    ensures r.Ok? && r.value.Some? ==> |r.value.value| == |Named(cs, f)| > 0
    ensures r.Ok? && r.value.Some? ==> forall i :: 0 <= i < |r.value.value| ==> decode(Named(cs, f)[i]) == Ok(r.value.value[i])
    ensures Named(cs, f) == [] ==> r == Ok(Option.None)
    ensures Named(cs, f) != [] && DecodeEach(Named(cs, f), decode).Err? ==> r == Err(DecodeEach(Named(cs, f), decode).error)
    ensures Named(cs, f) != [] && DecodeEach(Named(cs, f), decode).Ok? ==> r == Ok(Some(DecodeEach(Named(cs, f), decode).value))
  {
    match OptionalChildren(cs, f)
    case None => Ok(Option.None)
    case Some(ns) =>
      var vs :- DecodeEach(ns, decode);
      Ok(Some(vs))
  }

  /** The text of an element, for the `error` list of strings. */
  function TextOf(n: Node): (r: Decoded<string>)
  {
    Ok(n.text)
  }

  // ---------------------------------------------------------------------------
  // One decoder per record type
  // ---------------------------------------------------------------------------

  function DecodeDateRange(n: Node): (r: Decoded<DateRangeType>)
    ensures r.Ok? ==> Conforms(n.children, DateRangeFields)
  {
    var begin :- TextField(n.children, "begin", ParseU32);
    var end :- TextField(n.children, "end", ParseU32);
    ConformsFieldByField(n.children, DateRangeFields);
    Ok(DateRangeType(begin, end))
  }

  /** The counts the metadata readers check are those its field table admits. */
  lemma ReportMetadataConforms(cs: seq<Node>)
    requires |Named(cs, "org_name")| == 1 && |Named(cs, "email")| == 1 && |Named(cs, "extra_contact_info")| <= 1
    requires |Named(cs, "report_id")| == 1 && |Named(cs, "date_range")| == 1
    ensures Conforms(cs, ReportMetadataFields)
  {
    ConformsFieldByField(cs, ReportMetadataFields);
  }

  function DecodeReportMetadata(n: Node): (r: Decoded<ReportMetadataType>)
    ensures r.Ok? ==> Conforms(n.children, ReportMetadataFields) && WellFormedMetadata(r.value)
    ensures r.Ok? ==> (r.value.extraContactInfo.None? <==> Named(n.children, "extra_contact_info") == [])
    ensures r.Ok? ==> (r.value.error.None? <==> Named(n.children, "error") == [])
    ensures r.Ok? && r.value.error.Some? ==> |r.value.error.value| == |Named(n.children, "error")|
    ensures r.Ok? && r.value.error.Some? ==>
      forall i :: 0 <= i < |r.value.error.value| ==> r.value.error.value[i] == Named(n.children, "error")[i].text
  {
    var cs := n.children;
    var orgName :- TextField(cs, "org_name", Verbatim);
    var email :- TextField(cs, "email", Verbatim);
    var extraContactInfo :- OptionalText(cs, "extra_contact_info");
    var reportId :- TextField(cs, "report_id", Verbatim);
    var dateRange :- ElementField(cs, "date_range", DecodeDateRange);
    var error :- OptionalRepeatedElement(cs, "error", TextOf);
    ReportMetadataConforms(cs);
    Ok(ReportMetadataType(orgName, email, extraContactInfo, reportId, dateRange, error))
  }

  function DecodePolicyPublished(n: Node): (r: Decoded<PolicyPublishedType>)
    ensures r.Ok? ==> Conforms(n.children, PolicyPublishedFields)
  {
    var cs := n.children;
    var domain :- TextField(cs, "domain", Verbatim);
    var adkim :- TextField(cs, "adkim", DecodeAlignment);
    var aspf :- TextField(cs, "aspf", DecodeAlignment);
    var p :- TextField(cs, "p", DecodeDisposition);
    var sp :- TextField(cs, "sp", DecodeDisposition);
    var pct :- TextField(cs, "pct", ParseU8);
    Ok(PolicyPublishedType(domain, adkim, aspf, p, sp, pct))
  }

  function DecodePolicyOverrideReason(n: Node): (r: Decoded<PolicyOverrideReason>)
    ensures r.Ok? ==> Conforms(n.children, PolicyOverrideReasonFields)
    ensures r.Ok? ==> |Named(n.children, "type")| == 1 && DecodePolicyOverride(Named(n.children, "type")[0].text) == Ok(r.value.typeAttr)
  {
    var cs := n.children;
    var typeAttr :- TextField(cs, "type", DecodePolicyOverride);
    var comment :- OptionalText(cs, "comment");
    ConformsFieldByField(cs, PolicyOverrideReasonFields);
    Ok(PolicyOverrideReason(typeAttr, comment))
  }

  function DecodePolicyEvaluated(n: Node): (r: Decoded<PolicyEvaluatedType>)
    ensures r.Ok? ==> Conforms(n.children, PolicyEvaluatedFields) && WellFormedEvaluated(r.value)
    ensures r.Ok? ==> (r.value.reason.None? <==> Named(n.children, "reason") == [])
    ensures r.Ok? && r.value.reason.Some? ==> |r.value.reason.value| == |Named(n.children, "reason")|
    ensures r.Ok? && r.value.reason.Some? ==>
      forall i :: 0 <= i < |r.value.reason.value| ==> DecodePolicyOverrideReason(Named(n.children, "reason")[i]) == Ok(r.value.reason.value[i])
  {
    var cs := n.children;
    var disposition :- TextField(cs, "disposition", DecodeDisposition);
    var dkim :- TextField(cs, "dkim", DecodeDmarcResult);
    var spf :- TextField(cs, "spf", DecodeDmarcResult);
    var reason :- OptionalRepeatedElement(cs, "reason", DecodePolicyOverrideReason);
    ConformsFieldByField(cs, PolicyEvaluatedFields);
    Ok(PolicyEvaluatedType(disposition, dkim, spf, reason))
  }

  /** The address text goes to the given parser; a rejected text is `InvalidAddress`. */
  function ParseAddress(ip: IpText, t: string): (r: Decoded<IpAddr>)
    ensures r.Ok? <==> ip.parse(t).Some?
    ensures r.Ok? ==> ip.parse(t) == Some(r.value)
  {
    match ip.parse(t)
    case None => Err(InvalidAddress(t))
    case Some(a) => Ok(a)
  }

  function DecodeRow(ip: IpText, n: Node): (r: Decoded<RowType>)
    ensures r.Ok? ==> Conforms(n.children, RowFields) && WellFormedRow(r.value)
    ensures r.Ok? ==> (r.value.policyEvaluated.None? <==> Named(n.children, "policy_evaluated") == [])
  {
    var cs := n.children;
    var sourceIp :- TextField(cs, "source_ip", t => ParseAddress(ip, t));
    var count :- TextField(cs, "count", ParseU32);
    var policyEvaluated :- OptionalElement(cs, "policy_evaluated", DecodePolicyEvaluated);
    ConformsFieldByField(cs, RowFields);
    Ok(RowType(sourceIp, count, policyEvaluated))
  }

  function DecodeIdentifier(n: Node): (r: Decoded<IdentifierType>)
    ensures r.Ok? ==> Conforms(n.children, IdentifierFields)
    ensures r.Ok? ==> (r.value.envelopeTo.None? <==> Named(n.children, "envelope_to") == [])
  {
    var cs := n.children;
    var envelopeTo :- OptionalText(cs, "envelope_to");
    var headerFrom :- TextField(cs, "header_from", Verbatim);
    ConformsFieldByField(cs, IdentifierFields);
    Ok(IdentifierType(envelopeTo, headerFrom))
  }

  /** The counts the DKIM result readers check are those its field table admits. */
  lemma DkimAuthResultConforms(cs: seq<Node>)
    requires |Named(cs, "domain")| == 1 && |Named(cs, "selector")| <= 1
    requires |Named(cs, "result")| == 1 && |Named(cs, "human_result")| <= 1
    ensures Conforms(cs, DkimAuthResultFields)
  {
    ConformsFieldByField(cs, DkimAuthResultFields);
  }

  function DecodeDkimAuthResult(n: Node): (r: Decoded<DkimAuthResultType>)
    ensures r.Ok? ==> Conforms(n.children, DkimAuthResultFields)
    ensures r.Ok? ==> (r.value.selector.None? <==> Named(n.children, "selector") == [])
    ensures r.Ok? ==> (r.value.humanResult.None? <==> Named(n.children, "human_result") == [])
  {
    var cs := n.children;
    var domain :- TextField(cs, "domain", Verbatim);
    var selector :- OptionalText(cs, "selector");
    var result :- TextField(cs, "result", DecodeDkimResult);
    var humanResult :- OptionalText(cs, "human_result");
    DkimAuthResultConforms(cs);
    Ok(DkimAuthResultType(domain, selector, result, humanResult))
  }

  function DecodeSpfAuthResult(n: Node): (r: Decoded<SpfAuthResultType>)
    ensures r.Ok? ==> Conforms(n.children, SpfAuthResultFields)
  {
    var cs := n.children;
    var domain :- TextField(cs, "domain", Verbatim);
    var result :- TextField(cs, "result", DecodeSpfResult);
    ConformsFieldByField(cs, SpfAuthResultFields);
    Ok(SpfAuthResultType(domain, result))
  }

  function DecodeAuthResult(n: Node): (r: Decoded<AuthResultType>)
    ensures r.Ok? ==> Conforms(n.children, AuthResultFields) && WellFormedAuthResult(r.value)
    ensures r.Ok? ==> (r.value.dkim.None? <==> Named(n.children, "dkim") == [])
    ensures r.Ok? ==> |r.value.spf| == |Named(n.children, "spf")|
    ensures r.Ok? ==> forall i :: 0 <= i < |r.value.spf| ==> DecodeSpfAuthResult(Named(n.children, "spf")[i]) == Ok(r.value.spf[i])
    ensures r.Ok? && r.value.dkim.Some? ==> |r.value.dkim.value| == |Named(n.children, "dkim")|
    ensures r.Ok? && r.value.dkim.Some? ==>
      forall i :: 0 <= i < |r.value.dkim.value| ==> DecodeDkimAuthResult(Named(n.children, "dkim")[i]) == Ok(r.value.dkim.value[i])
  {
    var cs := n.children;
    var dkim :- OptionalRepeatedElement(cs, "dkim", DecodeDkimAuthResult);
    var spf :- RepeatedElement(cs, "spf", DecodeSpfAuthResult);
    ConformsFieldByField(cs, AuthResultFields);
    Ok(AuthResultType(dkim, spf))
  }

  function DecodeRecord(ip: IpText, n: Node): (r: Decoded<RecordType>)
    ensures r.Ok? ==> Conforms(n.children, RecordFields) && WellFormedRecord(r.value)
  {
    var cs := n.children;
    var row :- ElementField(cs, "row", e => DecodeRow(ip, e));
    var identifiers :- ElementField(cs, "identifiers", DecodeIdentifier);
    var authResults :- ElementField(cs, "auth_results", DecodeAuthResult);
    ConformsFieldByField(cs, RecordFields);
    Ok(RecordType(row, identifiers, authResults))
  }

  /** The `record` elements, each decoded in document order. */
  function DecodeRecords(ip: IpText, cs: seq<Node>): (r: Decoded<seq<RecordType>>)
    ensures r.Ok? ==> |r.value| == |Named(cs, "record")| > 0
    ensures r.Ok? ==> forall i :: 0 <= i < |r.value| ==> DecodeRecord(ip, Named(cs, "record")[i]) == Ok(r.value[i])
    ensures r.Ok? ==> forall i :: 0 <= i < |r.value| ==> WellFormedRecord(r.value[i])
  {
    RepeatedElement(cs, "record", e => DecodeRecord(ip, e))
  }

  /** Decodes a whole report; the root element's own tag is not checked. */
  function DecodeFeedback(ip: IpText, n: Node): (r: Decoded<Feedback>)
    ensures r.Ok? ==> Conforms(n.children, FeedbackFields) && WellFormedFeedback(r.value)
    ensures r.Ok? ==> |r.value.record| == |Named(n.children, "record")|
    ensures r.Ok? ==> forall i :: 0 <= i < |r.value.record| ==> DecodeRecord(ip, Named(n.children, "record")[i]) == Ok(r.value.record[i])
  {
    var cs := n.children;
    var reportMetadata :- ElementField(cs, "report_metadata", DecodeReportMetadata);
    var policyPublished :- ElementField(cs, "policy_published", DecodePolicyPublished);
    var record :- DecodeRecords(ip, cs);
    ConformsFieldByField(cs, FeedbackFields);
    Ok(Feedback(reportMetadata, policyPublished, record))
  }
}

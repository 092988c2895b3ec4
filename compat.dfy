/**
 * Forward compatibility, one record type at a time. Two elements whose
 * children agree on every field of the record (the same elements, in the same
 * order, under each field's tag) decode alike, whatever their own tags, their
 * text and the children of other tags among them. With
 * `UnknownSiblingKeepsFields`, inserting a child whose tag is not a field of
 * the record leaves its decode unchanged; with `SwapKeepsFields`, so does
 * exchanging two adjacent children with different tags. A field's element is
 * compared as a whole subtree: a change inside a nested record is not covered
 * here. For a report, `a` and `b` may be roots with different tags: the root's
 * own tag is not checked.
 */
module Compatibility {
  import opened Wrappers
  import opened Tokens
  import opened Numbers
  import opened Errors
  import opened ElementTree
  import opened Schema
  import opened Decoder

  // ---------------------------------------------------------------------------
  // A field reader looks only at the elements of its own field
  // ---------------------------------------------------------------------------

  lemma TextFieldReadsOnlyItsField<T>(cs1: seq<Node>, cs2: seq<Node>, f: string, parse: string -> Decoded<T>)
    requires Named(cs1, f) == Named(cs2, f)
    ensures TextField(cs1, f, parse) == TextField(cs2, f, parse)
  {
  }

  lemma OptionalTextReadsOnlyItsField(cs1: seq<Node>, cs2: seq<Node>, f: string)
    requires Named(cs1, f) == Named(cs2, f)
    ensures OptionalText(cs1, f) == OptionalText(cs2, f)
  {
  }

  lemma ElementFieldReadsOnlyItsField<T>(cs1: seq<Node>, cs2: seq<Node>, f: string, decode: Node -> Decoded<T>)
    requires Named(cs1, f) == Named(cs2, f)
    ensures ElementField(cs1, f, decode) == ElementField(cs2, f, decode)
  {
  }

  lemma OptionalElementReadsOnlyItsField<T>(cs1: seq<Node>, cs2: seq<Node>, f: string, decode: Node -> Decoded<T>)
    requires Named(cs1, f) == Named(cs2, f)
    ensures OptionalElement(cs1, f, decode) == OptionalElement(cs2, f, decode)
  {
  }

  lemma RepeatedElementReadsOnlyItsField<T>(cs1: seq<Node>, cs2: seq<Node>, f: string, decode: Node -> Decoded<T>)
    requires Named(cs1, f) == Named(cs2, f)
    ensures RepeatedElement(cs1, f, decode) == RepeatedElement(cs2, f, decode)
  {
  }

  lemma OptionalRepeatedElementReadsOnlyItsField<T>(cs1: seq<Node>, cs2: seq<Node>, f: string, decode: Node -> Decoded<T>)
    requires Named(cs1, f) == Named(cs2, f)
    ensures OptionalRepeatedElement(cs1, f, decode) == OptionalRepeatedElement(cs2, f, decode)
  {
  }

  // ---------------------------------------------------------------------------
  // Each record type
  // ---------------------------------------------------------------------------

  lemma DateRangeReadsOnlyItsFields(a: Node, b: Node)
    requires SameFields(a.children, b.children, DateRangeFields)
    ensures DecodeDateRange(a) == DecodeDateRange(b)
  {
    SameFieldAt(a.children, b.children, DateRangeFields, 0);
    SameFieldAt(a.children, b.children, DateRangeFields, 1);
  }

  lemma ReportMetadataReadsOnlyItsFields(a: Node, b: Node)
    requires SameFields(a.children, b.children, ReportMetadataFields)
    ensures DecodeReportMetadata(a) == DecodeReportMetadata(b)
  {
    SameFieldAt(a.children, b.children, ReportMetadataFields, 0);
    SameFieldAt(a.children, b.children, ReportMetadataFields, 1);
    SameFieldAt(a.children, b.children, ReportMetadataFields, 2);
    SameFieldAt(a.children, b.children, ReportMetadataFields, 3);
    SameFieldAt(a.children, b.children, ReportMetadataFields, 4);
    SameFieldAt(a.children, b.children, ReportMetadataFields, 5);
    ReportMetadataReadsNamed(a, b);
  }

  /** `ReportMetadataReadsOnlyItsFields`, with the agreement spelled out field by field. */
  lemma ReportMetadataReadsNamed(a: Node, b: Node)
    requires Named(a.children, "org_name") == Named(b.children, "org_name")
    requires Named(a.children, "email") == Named(b.children, "email")
    requires Named(a.children, "extra_contact_info") == Named(b.children, "extra_contact_info")
    requires Named(a.children, "report_id") == Named(b.children, "report_id")
    requires Named(a.children, "date_range") == Named(b.children, "date_range")
    requires Named(a.children, "error") == Named(b.children, "error")
    ensures DecodeReportMetadata(a) == DecodeReportMetadata(b)
  {
    TextFieldReadsOnlyItsField(a.children, b.children, "org_name", Verbatim);
    TextFieldReadsOnlyItsField(a.children, b.children, "email", Verbatim);
    OptionalTextReadsOnlyItsField(a.children, b.children, "extra_contact_info");
    TextFieldReadsOnlyItsField(a.children, b.children, "report_id", Verbatim);
    ElementFieldReadsOnlyItsField(a.children, b.children, "date_range", DecodeDateRange);
    OptionalRepeatedElementReadsOnlyItsField(a.children, b.children, "error", TextOf);
  }

  lemma PolicyPublishedReadsOnlyItsFields(a: Node, b: Node)
    requires SameFields(a.children, b.children, PolicyPublishedFields)
    ensures DecodePolicyPublished(a) == DecodePolicyPublished(b)
  {
    SameFieldAt(a.children, b.children, PolicyPublishedFields, 0);
    TextFieldReadsOnlyItsField(a.children, b.children, "domain", Verbatim);
    SameFieldAt(a.children, b.children, PolicyPublishedFields, 1);
    TextFieldReadsOnlyItsField(a.children, b.children, "adkim", DecodeAlignment);
    SameFieldAt(a.children, b.children, PolicyPublishedFields, 2);
    TextFieldReadsOnlyItsField(a.children, b.children, "aspf", DecodeAlignment);
    SameFieldAt(a.children, b.children, PolicyPublishedFields, 3);
    TextFieldReadsOnlyItsField(a.children, b.children, "p", DecodeDisposition);
    SameFieldAt(a.children, b.children, PolicyPublishedFields, 4);
    TextFieldReadsOnlyItsField(a.children, b.children, "sp", DecodeDisposition);
    SameFieldAt(a.children, b.children, PolicyPublishedFields, 5);
    TextFieldReadsOnlyItsField(a.children, b.children, "pct", ParseU8);
  }

  lemma PolicyOverrideReasonReadsOnlyItsFields(a: Node, b: Node)
    requires SameFields(a.children, b.children, PolicyOverrideReasonFields)
    ensures DecodePolicyOverrideReason(a) == DecodePolicyOverrideReason(b)
  {
    SameFieldAt(a.children, b.children, PolicyOverrideReasonFields, 0);
    SameFieldAt(a.children, b.children, PolicyOverrideReasonFields, 1);
  }

  lemma PolicyEvaluatedReadsOnlyItsFields(a: Node, b: Node)
    requires SameFields(a.children, b.children, PolicyEvaluatedFields)
    ensures DecodePolicyEvaluated(a) == DecodePolicyEvaluated(b)
  {
    SameFieldAt(a.children, b.children, PolicyEvaluatedFields, 0);
    TextFieldReadsOnlyItsField(a.children, b.children, "disposition", DecodeDisposition);
    SameFieldAt(a.children, b.children, PolicyEvaluatedFields, 1);
    TextFieldReadsOnlyItsField(a.children, b.children, "dkim", DecodeDmarcResult);
    SameFieldAt(a.children, b.children, PolicyEvaluatedFields, 2);
    TextFieldReadsOnlyItsField(a.children, b.children, "spf", DecodeDmarcResult);
    SameFieldAt(a.children, b.children, PolicyEvaluatedFields, 3);
    OptionalRepeatedElementReadsOnlyItsField(a.children, b.children, "reason", DecodePolicyOverrideReason);
  }

  lemma RowReadsOnlyItsFields(ip: IpText, a: Node, b: Node)
    requires SameFields(a.children, b.children, RowFields)
    ensures DecodeRow(ip, a) == DecodeRow(ip, b)
  {
    SameFieldAt(a.children, b.children, RowFields, 0);
    SameFieldAt(a.children, b.children, RowFields, 1);
    SameFieldAt(a.children, b.children, RowFields, 2);
  }

  lemma IdentifierReadsOnlyItsFields(a: Node, b: Node)
    requires SameFields(a.children, b.children, IdentifierFields)
    ensures DecodeIdentifier(a) == DecodeIdentifier(b)
  {
    SameFieldAt(a.children, b.children, IdentifierFields, 0);
    SameFieldAt(a.children, b.children, IdentifierFields, 1);
  }

  lemma DkimAuthResultReadsOnlyItsFields(a: Node, b: Node)
    requires SameFields(a.children, b.children, DkimAuthResultFields)
    ensures DecodeDkimAuthResult(a) == DecodeDkimAuthResult(b)
  {
    SameFieldAt(a.children, b.children, DkimAuthResultFields, 0);
    TextFieldReadsOnlyItsField(a.children, b.children, "domain", Verbatim);
    SameFieldAt(a.children, b.children, DkimAuthResultFields, 1);
    OptionalTextReadsOnlyItsField(a.children, b.children, "selector");
    SameFieldAt(a.children, b.children, DkimAuthResultFields, 2);
    TextFieldReadsOnlyItsField(a.children, b.children, "result", DecodeDkimResult);
    SameFieldAt(a.children, b.children, DkimAuthResultFields, 3);
    OptionalTextReadsOnlyItsField(a.children, b.children, "human_result");
  }

  lemma SpfAuthResultReadsOnlyItsFields(a: Node, b: Node)
    requires SameFields(a.children, b.children, SpfAuthResultFields)
    ensures DecodeSpfAuthResult(a) == DecodeSpfAuthResult(b)
  {
    SameFieldAt(a.children, b.children, SpfAuthResultFields, 0);
    SameFieldAt(a.children, b.children, SpfAuthResultFields, 1);
  }

  lemma AuthResultReadsOnlyItsFields(a: Node, b: Node)
    requires SameFields(a.children, b.children, AuthResultFields)
    ensures DecodeAuthResult(a) == DecodeAuthResult(b)
  {
    SameFieldAt(a.children, b.children, AuthResultFields, 0);
    SameFieldAt(a.children, b.children, AuthResultFields, 1);
  }

  lemma RecordReadsOnlyItsFields(ip: IpText, a: Node, b: Node)
    requires SameFields(a.children, b.children, RecordFields)
    ensures DecodeRecord(ip, a) == DecodeRecord(ip, b)
  {
    SameFieldAt(a.children, b.children, RecordFields, 0);
    SameFieldAt(a.children, b.children, RecordFields, 1);
    ElementFieldReadsOnlyItsField(a.children, b.children, "identifiers", DecodeIdentifier);
    SameFieldAt(a.children, b.children, RecordFields, 2);
    ElementFieldReadsOnlyItsField(a.children, b.children, "auth_results", DecodeAuthResult);
  }

  lemma FeedbackReadsOnlyItsFields(ip: IpText, a: Node, b: Node)
    requires SameFields(a.children, b.children, FeedbackFields)
    ensures DecodeFeedback(ip, a) == DecodeFeedback(ip, b)
  {
    SameFieldAt(a.children, b.children, FeedbackFields, 0);
    SameFieldAt(a.children, b.children, FeedbackFields, 1);
    SameFieldAt(a.children, b.children, FeedbackFields, 2);
  }

  /** An unknown element among a report's children, such as `np` in `policy_published`, is skipped. */
  lemma PolicyPublishedSkipsUnknown(tag: string, t: string, cs: seq<Node>, u: Node, ds: seq<Node>)
    requires forall i :: 0 <= i < |PolicyPublishedFields| ==> PolicyPublishedFields[i].name != u.name
    ensures DecodePolicyPublished(Node(tag, t, cs + [u] + ds)) == DecodePolicyPublished(Node(tag, t, cs + ds))
  {
    UnknownSiblingKeepsFields(cs, u, ds, PolicyPublishedFields);
    PolicyPublishedReadsOnlyItsFields(Node(tag, t, cs + [u] + ds), Node(tag, t, cs + ds));
  }

  /** Two adjacent fields of a DKIM result, such as `result` and `selector`, can come in either order. */
  lemma DkimAuthResultIgnoresFieldOrder(tag: string, t: string, cs: seq<Node>, x: Node, y: Node, ds: seq<Node>)
    requires x.name != y.name
    ensures DecodeDkimAuthResult(Node(tag, t, cs + [x, y] + ds)) == DecodeDkimAuthResult(Node(tag, t, cs + [y, x] + ds))
  {
    SwapKeepsFields(cs, x, y, ds, DkimAuthResultFields);
    DkimAuthResultReadsOnlyItsFields(Node(tag, t, cs + [x, y] + ds), Node(tag, t, cs + [y, x] + ds));
  }
}

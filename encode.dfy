/**
 * Writing a report as the element tree the decoder reads: the inverse of the
 * decoder, not a model of the XML text serde would produce. Every record type
 * becomes an element whose children are its fields in declaration order: a
 * required field is one element, an absent optional field is no element, a
 * list is one element per item in list order. Numbers are written in plain
 * decimal.
 */
module Encoder {
  import opened Wrappers
  import opened Tokens
  import opened Numbers
  import opened ElementTree
  import opened Schema

  // ---------------------------------------------------------------------------
  // The elements of one field
  // ---------------------------------------------------------------------------

  function LeafChunk(f: string, t: string): (c: seq<Node>)
  {
    [Leaf(f, t)]
  }

  function OptionalLeafChunk(f: string, o: Option<string>): (c: seq<Node>)
  {
    match o
    case None => []
    case Some(t) => [Leaf(f, t)]
  }

  /** An `Option` field holding a nested record: nothing when absent, else one element. */
  function OptionalElementChunk<T>(o: Option<T>, encode: T -> Node): (c: seq<Node>)
  {
    match o
    case None => []
    case Some(x) => [encode(x)]
  }

  /** An `Option<Vec>` field: nothing when absent, else one element per item. */
  function OptionalEachChunk<T>(o: Option<seq<T>>, encode: T -> Node): (c: seq<Node>)
  {
    match o
    case None => []
    case Some(xs) => EncodeEach(xs, encode)
  }

  // ---------------------------------------------------------------------------
  // One encoder per record type
  // ---------------------------------------------------------------------------

  function DateRangeChunks(d: DateRangeType): (c: seq<seq<Node>>)
    ensures Layout(c, DateRangeFields)
  {
    [LeafChunk("begin", ShowNat(d.begin)), LeafChunk("end", ShowNat(d.end))]
  }

  function EncodeDateRange(tag: string, d: DateRangeType): (n: Node)
    ensures n.name == tag && n.text == ""
  {
    Element(tag, Flatten(DateRangeChunks(d)))
  }

  function TextLeaf(tag: string): string -> Node
  {
    t => Leaf(tag, t)
  }

  function ReportMetadataChunks(m: ReportMetadataType): (c: seq<seq<Node>>)
    ensures Layout(c, ReportMetadataFields)
  {
    [ LeafChunk("org_name", m.orgName),
      LeafChunk("email", m.email),
      OptionalLeafChunk("extra_contact_info", m.extraContactInfo),
      LeafChunk("report_id", m.reportId),
      [EncodeDateRange("date_range", m.dateRange)],
      OptionalEachChunk(m.error, TextLeaf("error"))]
  }

  function EncodeReportMetadata(tag: string, m: ReportMetadataType): (n: Node)
    ensures n.name == tag && n.text == ""
  {
    Element(tag, Flatten(ReportMetadataChunks(m)))
  }

  function PolicyPublishedChunks(p: PolicyPublishedType): (c: seq<seq<Node>>)
    ensures Layout(c, PolicyPublishedFields)
  {
    [ LeafChunk("domain", p.domain),
      LeafChunk("adkim", EncodeAlignment(p.adkim)),
      LeafChunk("aspf", EncodeAlignment(p.aspf)),
      LeafChunk("p", EncodeDisposition(p.p)),
      LeafChunk("sp", EncodeDisposition(p.sp)),
      LeafChunk("pct", ShowNat(p.pct))]
  }

  function EncodePolicyPublished(tag: string, p: PolicyPublishedType): (n: Node)
    ensures n.name == tag && n.text == ""
  {
    Element(tag, Flatten(PolicyPublishedChunks(p)))
  }

  function PolicyOverrideReasonChunks(o: PolicyOverrideReason): (c: seq<seq<Node>>)
    ensures Layout(c, PolicyOverrideReasonFields)
  {
    [LeafChunk("type", EncodePolicyOverride(o.typeAttr)), OptionalLeafChunk("comment", o.comment)]
  }

  function EncodePolicyOverrideReason(tag: string, o: PolicyOverrideReason): (n: Node)
    ensures n.name == tag && n.text == ""
  {
    Element(tag, Flatten(PolicyOverrideReasonChunks(o)))
  }

  function ReasonElement(): PolicyOverrideReason -> Node
  {
    o => EncodePolicyOverrideReason("reason", o)
  }

  function PolicyEvaluatedChunks(e: PolicyEvaluatedType): (c: seq<seq<Node>>)
    ensures Layout(c, PolicyEvaluatedFields)
  {
    [ LeafChunk("disposition", EncodeDisposition(e.disposition)),
      LeafChunk("dkim", EncodeDmarcResult(e.dkim)),
      LeafChunk("spf", EncodeDmarcResult(e.spf)),
      OptionalEachChunk(e.reason, ReasonElement())]
  }

  function EncodePolicyEvaluated(tag: string, e: PolicyEvaluatedType): (n: Node)
    ensures n.name == tag && n.text == ""
  {
    Element(tag, Flatten(PolicyEvaluatedChunks(e)))
  }

  function EvaluatedElement(): PolicyEvaluatedType -> Node
  {
    e => EncodePolicyEvaluated("policy_evaluated", e)
  }

  function RowChunks(ip: IpText, r: RowType): (c: seq<seq<Node>>)
    ensures Layout(c, RowFields)
  {
    [ LeafChunk("source_ip", ip.show(r.sourceIp)),
      LeafChunk("count", ShowNat(r.count)),
      OptionalElementChunk(r.policyEvaluated, EvaluatedElement())]
  }

  function EncodeRow(ip: IpText, tag: string, r: RowType): (n: Node)
    ensures n.name == tag && n.text == ""
  {
    Element(tag, Flatten(RowChunks(ip, r)))
  }

  function IdentifierChunks(i: IdentifierType): (c: seq<seq<Node>>)
    ensures Layout(c, IdentifierFields)
  {
    [OptionalLeafChunk("envelope_to", i.envelopeTo), LeafChunk("header_from", i.headerFrom)]
  }

  function EncodeIdentifier(tag: string, i: IdentifierType): (n: Node)
    ensures n.name == tag && n.text == ""
  {
    Element(tag, Flatten(IdentifierChunks(i)))
  }

  function DkimAuthResultChunks(d: DkimAuthResultType): (c: seq<seq<Node>>)
    ensures Layout(c, DkimAuthResultFields)
  {
    [ LeafChunk("domain", d.domain),
      OptionalLeafChunk("selector", d.selector),
      LeafChunk("result", EncodeDkimResult(d.result)),
      OptionalLeafChunk("human_result", d.humanResult)]
  }

  function EncodeDkimAuthResult(tag: string, d: DkimAuthResultType): (n: Node)
    ensures n.name == tag && n.text == ""
  {
    Element(tag, Flatten(DkimAuthResultChunks(d)))
  }

  function SpfAuthResultChunks(s: SpfAuthResultType): (c: seq<seq<Node>>)
    ensures Layout(c, SpfAuthResultFields)
  {
    [LeafChunk("domain", s.domain), LeafChunk("result", EncodeSpfResult(s.result))]
  }

  function EncodeSpfAuthResult(tag: string, s: SpfAuthResultType): (n: Node)
    ensures n.name == tag && n.text == ""
  {
    Element(tag, Flatten(SpfAuthResultChunks(s)))
  }

  function DkimElement(): DkimAuthResultType -> Node
  {
    d => EncodeDkimAuthResult("dkim", d)
  }

  function SpfElement(): SpfAuthResultType -> Node
  {
    s => EncodeSpfAuthResult("spf", s)
  }

  function AuthResultChunks(a: AuthResultType): (c: seq<seq<Node>>)
    ensures Layout(c, AuthResultFields)
    ensures |c[1]| == |a.spf|
  {
    [OptionalEachChunk(a.dkim, DkimElement()), EncodeEach(a.spf, SpfElement())]
  }

  function EncodeAuthResult(tag: string, a: AuthResultType): (n: Node)
    ensures n.name == tag && n.text == ""
  {
    Element(tag, Flatten(AuthResultChunks(a)))
  }

  function RecordChunks(ip: IpText, r: RecordType): (c: seq<seq<Node>>)
    ensures Layout(c, RecordFields)
  {
    [ [EncodeRow(ip, "row", r.row)],
      [EncodeIdentifier("identifiers", r.identifiers)],
      [EncodeAuthResult("auth_results", r.authResults)]]
  }

  function EncodeRecord(ip: IpText, tag: string, r: RecordType): (n: Node)
    ensures n.name == tag && n.text == ""
  {
    Element(tag, Flatten(RecordChunks(ip, r)))
  }

  function RecordElement(ip: IpText): RecordType -> Node
  {
    r => EncodeRecord(ip, "record", r)
  }

  function FeedbackChunks(ip: IpText, f: Feedback): (c: seq<seq<Node>>)
    ensures Layout(c, FeedbackFields)
    ensures |c[2]| == |f.record|
  {
    [ [EncodeReportMetadata("report_metadata", f.reportMetadata)],
      [EncodePolicyPublished("policy_published", f.policyPublished)],
      EncodeEach(f.record, RecordElement(ip))]
  }

  function EncodeFeedback(ip: IpText, f: Feedback): (n: Node)
    ensures n.name == "feedback" && n.text == ""
  {
    Element("feedback", Flatten(FeedbackChunks(ip, f)))
  }

  // ---------------------------------------------------------------------------
  // What the encoder writes: every field as often as its type admits, in
  // declaration order
  // ---------------------------------------------------------------------------

  lemma DateRangeEncodingConforms(tag: string, d: DateRangeType)
    ensures Conforms(EncodeDateRange(tag, d).children, DateRangeFields)
    ensures InDeclarationOrder(EncodeDateRange(tag, d).children, DateRangeFields)
  {
    assert DistinctNames(DateRangeFields) by { FieldTablesAreDistinct(); }
    LayoutConformsChunkByChunk(DateRangeChunks(d), DateRangeFields);
    FlattenOrdered(DateRangeChunks(d), DateRangeFields);
  }

  lemma ReportMetadataEncodingConforms(tag: string, m: ReportMetadataType)
    ensures Conforms(EncodeReportMetadata(tag, m).children, ReportMetadataFields)
    ensures InDeclarationOrder(EncodeReportMetadata(tag, m).children, ReportMetadataFields)
  {
    assert DistinctNames(ReportMetadataFields) by { FieldTablesAreDistinct(); }
    LayoutConformsChunkByChunk(ReportMetadataChunks(m), ReportMetadataFields);
    FlattenOrdered(ReportMetadataChunks(m), ReportMetadataFields);
  }

  lemma PolicyPublishedEncodingConforms(tag: string, p: PolicyPublishedType)
    ensures Conforms(EncodePolicyPublished(tag, p).children, PolicyPublishedFields)
    ensures InDeclarationOrder(EncodePolicyPublished(tag, p).children, PolicyPublishedFields)
  {
    assert DistinctNames(PolicyPublishedFields) by { FieldTablesAreDistinct(); }
    LayoutConformsChunkByChunk(PolicyPublishedChunks(p), PolicyPublishedFields);
    FlattenOrdered(PolicyPublishedChunks(p), PolicyPublishedFields);
  }

  lemma PolicyOverrideReasonEncodingConforms(tag: string, o: PolicyOverrideReason)
    ensures Conforms(EncodePolicyOverrideReason(tag, o).children, PolicyOverrideReasonFields)
    ensures InDeclarationOrder(EncodePolicyOverrideReason(tag, o).children, PolicyOverrideReasonFields)
  {
    assert DistinctNames(PolicyOverrideReasonFields) by { FieldTablesAreDistinct(); }
    LayoutConformsChunkByChunk(PolicyOverrideReasonChunks(o), PolicyOverrideReasonFields);
    FlattenOrdered(PolicyOverrideReasonChunks(o), PolicyOverrideReasonFields);
  }

  lemma PolicyEvaluatedEncodingConforms(tag: string, e: PolicyEvaluatedType)
    ensures Conforms(EncodePolicyEvaluated(tag, e).children, PolicyEvaluatedFields)
    ensures InDeclarationOrder(EncodePolicyEvaluated(tag, e).children, PolicyEvaluatedFields)
  {
    assert DistinctNames(PolicyEvaluatedFields) by { FieldTablesAreDistinct(); }
    LayoutConformsChunkByChunk(PolicyEvaluatedChunks(e), PolicyEvaluatedFields);
    FlattenOrdered(PolicyEvaluatedChunks(e), PolicyEvaluatedFields);
  }

  lemma RowEncodingConforms(ip: IpText, tag: string, r: RowType)
    ensures Conforms(EncodeRow(ip, tag, r).children, RowFields)
    ensures InDeclarationOrder(EncodeRow(ip, tag, r).children, RowFields)
  {
    assert DistinctNames(RowFields) by { FieldTablesAreDistinct(); }
    LayoutConformsChunkByChunk(RowChunks(ip, r), RowFields);
    FlattenOrdered(RowChunks(ip, r), RowFields);
  }

  lemma IdentifierEncodingConforms(tag: string, i: IdentifierType)
    ensures Conforms(EncodeIdentifier(tag, i).children, IdentifierFields)
    ensures InDeclarationOrder(EncodeIdentifier(tag, i).children, IdentifierFields)
  {
    assert DistinctNames(IdentifierFields) by { FieldTablesAreDistinct(); }
    LayoutConformsChunkByChunk(IdentifierChunks(i), IdentifierFields);
    FlattenOrdered(IdentifierChunks(i), IdentifierFields);
  }

  lemma DkimAuthResultEncodingConforms(tag: string, d: DkimAuthResultType)
    ensures Conforms(EncodeDkimAuthResult(tag, d).children, DkimAuthResultFields)
    ensures InDeclarationOrder(EncodeDkimAuthResult(tag, d).children, DkimAuthResultFields)
  {
    assert DistinctNames(DkimAuthResultFields) by { FieldTablesAreDistinct(); }
    LayoutConformsChunkByChunk(DkimAuthResultChunks(d), DkimAuthResultFields);
    FlattenOrdered(DkimAuthResultChunks(d), DkimAuthResultFields);
  }

  lemma SpfAuthResultEncodingConforms(tag: string, s: SpfAuthResultType)
    ensures Conforms(EncodeSpfAuthResult(tag, s).children, SpfAuthResultFields)
    ensures InDeclarationOrder(EncodeSpfAuthResult(tag, s).children, SpfAuthResultFields)
  {
    assert DistinctNames(SpfAuthResultFields) by { FieldTablesAreDistinct(); }
    LayoutConformsChunkByChunk(SpfAuthResultChunks(s), SpfAuthResultFields);
    FlattenOrdered(SpfAuthResultChunks(s), SpfAuthResultFields);
  }

  /** The element written for authentication results conforms exactly when it holds an SPF result. */
  lemma AuthResultEncodingConforms(tag: string, a: AuthResultType)
    ensures Conforms(EncodeAuthResult(tag, a).children, AuthResultFields) <==> a.spf != []
    ensures InDeclarationOrder(EncodeAuthResult(tag, a).children, AuthResultFields)
  {
    assert DistinctNames(AuthResultFields) by { FieldTablesAreDistinct(); }
    LayoutConformsChunkByChunk(AuthResultChunks(a), AuthResultFields);
    FlattenOrdered(AuthResultChunks(a), AuthResultFields);
  }

  lemma RecordEncodingConforms(ip: IpText, tag: string, r: RecordType)
    ensures Conforms(EncodeRecord(ip, tag, r).children, RecordFields)
    ensures InDeclarationOrder(EncodeRecord(ip, tag, r).children, RecordFields)
  {
    assert DistinctNames(RecordFields) by { FieldTablesAreDistinct(); }
    LayoutConformsChunkByChunk(RecordChunks(ip, r), RecordFields);
    FlattenOrdered(RecordChunks(ip, r), RecordFields);
  }

  /** A written report conforms exactly when it holds a record. */
  lemma FeedbackEncodingConforms(ip: IpText, f: Feedback)
    ensures Conforms(EncodeFeedback(ip, f).children, FeedbackFields) <==> f.record != []
    ensures InDeclarationOrder(EncodeFeedback(ip, f).children, FeedbackFields)
  {
    assert DistinctNames(FeedbackFields) by { FieldTablesAreDistinct(); }
    LayoutConformsChunkByChunk(FeedbackChunks(ip, f), FeedbackFields);
    FlattenOrdered(FeedbackChunks(ip, f), FeedbackFields);
  }
}

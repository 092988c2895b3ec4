/**
 * Decoding what the encoder writes gives the value back, for every value the
 * decoder can produce. The values it cannot produce are exactly those holding
 * `Some([])` in an `Option<Vec>` field (written like `None`) or an empty
 * `record` or `spf` list (written as a missing field).
 */
module RoundTrip {
  import opened Wrappers
  import opened Errors
  import opened Tokens
  import opened Numbers
  import opened ElementTree
  import opened Schema
  import opened Decoder
  import opened Encoder

  // ---------------------------------------------------------------------------
  // Reading back one laid-out field
  // ---------------------------------------------------------------------------

  /** A required text field written as one leaf reads back through its parser. */
  lemma ReadsLeafChunk<T>(cs: seq<Node>, chunks: seq<seq<Node>>, fields: seq<FieldSpec>, k: nat, parse: string -> Decoded<T>, t: string, v: T)
    requires cs == Flatten(chunks) && Layout(chunks, fields) && DistinctNames(fields) && k < |fields|
    requires chunks[k] == LeafChunk(fields[k].name, t) && parse(t) == Ok(v)
    ensures TextField(cs, fields[k].name, parse) == Ok(v)
  {
    NamedFlatten(chunks, fields, k);
  }

  /** An optional text field written as at most one leaf reads back as the same option. */
  lemma ReadsOptionalLeafChunk(cs: seq<Node>, chunks: seq<seq<Node>>, fields: seq<FieldSpec>, k: nat, o: Option<string>)
    requires cs == Flatten(chunks) && Layout(chunks, fields) && DistinctNames(fields) && k < |fields|
    requires chunks[k] == OptionalLeafChunk(fields[k].name, o)
    ensures OptionalText(cs, fields[k].name) == Ok(o)
  {
    NamedFlatten(chunks, fields, k);
  }

  /** A required nested record written as one element reads back through its decoder. */
  lemma ReadsElementChunk<T>(cs: seq<Node>, chunks: seq<seq<Node>>, fields: seq<FieldSpec>, k: nat, decode: Node -> Decoded<T>, e: Node, v: T)
    requires cs == Flatten(chunks) && Layout(chunks, fields) && DistinctNames(fields) && k < |fields|
    requires chunks[k] == [e] && decode(e) == Ok(v)
    ensures ElementField(cs, fields[k].name, decode) == Ok(v)
  {
    NamedFlatten(chunks, fields, k);
  }

  /** An optional nested record written as at most one element reads back as the same option. */
  lemma ReadsOptionalElementChunk<T>(cs: seq<Node>, chunks: seq<seq<Node>>, fields: seq<FieldSpec>, k: nat, encode: T -> Node, decode: Node -> Decoded<T>, o: Option<T>)
    requires cs == Flatten(chunks) && Layout(chunks, fields) && DistinctNames(fields) && k < |fields|
    requires chunks[k] == OptionalElementChunk(o, encode)
    requires o.Some? ==> decode(encode(o.value)) == Ok(o.value)
    ensures OptionalElement(cs, fields[k].name, decode) == Ok(o)
  {
    NamedFlatten(chunks, fields, k);
  }

  /** An `Option<Vec>` field written one element per item reads back as the same option. */
  lemma ReadsOptionalEachChunk<T>(cs: seq<Node>, chunks: seq<seq<Node>>, fields: seq<FieldSpec>, k: nat, encode: T -> Node, decode: Node -> Decoded<T>, o: Option<seq<T>>)
    requires cs == Flatten(chunks) && Layout(chunks, fields) && DistinctNames(fields) && k < |fields|
    requires chunks[k] == OptionalEachChunk(o, encode) && NonEmptyIfPresent(o)
    requires o.Some? ==> forall i :: 0 <= i < |o.value| ==> decode(encode(o.value[i])) == Ok(o.value[i])
    ensures OptionalRepeatedElement(cs, fields[k].name, decode) == Ok(o)
  {
    NamedFlatten(chunks, fields, k);
    if o.Some? {
      DecodeEachInverse(o.value, encode, decode);
    }
  }

  /** A `Vec` field written one element per item reads back as the same list. */
  lemma ReadsEachChunk<T>(cs: seq<Node>, chunks: seq<seq<Node>>, fields: seq<FieldSpec>, k: nat, encode: T -> Node, decode: Node -> Decoded<T>, xs: seq<T>)
    requires cs == Flatten(chunks) && Layout(chunks, fields) && DistinctNames(fields) && k < |fields|
    requires chunks[k] == EncodeEach(xs, encode) && xs != []
    requires forall i :: 0 <= i < |xs| ==> decode(encode(xs[i])) == Ok(xs[i])
    ensures RepeatedElement(cs, fields[k].name, decode) == Ok(xs)
  {
    NamedFlatten(chunks, fields, k);
    DecodeEachInverse(xs, encode, decode);
  }

  // ---------------------------------------------------------------------------
  // One round trip per record type
  // ---------------------------------------------------------------------------

  lemma DateRangeRoundTrip(tag: string, d: DateRangeType)
    ensures DecodeDateRange(EncodeDateRange(tag, d)) == Ok(d)
  {
    DateRangeDecodesLayout(EncodeDateRange(tag, d), DateRangeChunks(d), d);
  }

  /** An element whose children are the chunks written for `d` decodes to `d`. */
  lemma DateRangeDecodesLayout(n: Node, chunks: seq<seq<Node>>, d: DateRangeType)
    requires n.children == Flatten(chunks) && Layout(chunks, DateRangeFields)
    requires chunks[0] == LeafChunk("begin", ShowNat(d.begin))
    requires chunks[1] == LeafChunk("end", ShowNat(d.end))
    ensures DecodeDateRange(n) == Ok(d)
  {
    assert DistinctNames(DateRangeFields) by { FieldTablesAreDistinct(); }
    var cs := n.children;
    U32Bound(d.begin);
    U32Bound(d.end);
    ReadsLeafChunk(cs, chunks, DateRangeFields, 0, ParseU32, ShowNat(d.begin), d.begin);
    ReadsLeafChunk(cs, chunks, DateRangeFields, 1, ParseU32, ShowNat(d.end), d.end);
  }

  lemma ReportMetadataRoundTrip(tag: string, m: ReportMetadataType)
    requires WellFormedMetadata(m)
    ensures DecodeReportMetadata(EncodeReportMetadata(tag, m)) == Ok(m)
  {
    ReportMetadataDecodesLayout(EncodeReportMetadata(tag, m), ReportMetadataChunks(m), m);
  }

  /** An element whose children are the chunks written for `m` decodes to `m`. */
  lemma ReportMetadataDecodesLayout(n: Node, chunks: seq<seq<Node>>, m: ReportMetadataType)
    requires WellFormedMetadata(m)
    requires n.children == Flatten(chunks) && Layout(chunks, ReportMetadataFields)
    requires chunks[0] == LeafChunk("org_name", m.orgName)
    requires chunks[1] == LeafChunk("email", m.email)
    requires chunks[2] == OptionalLeafChunk("extra_contact_info", m.extraContactInfo)
    requires chunks[3] == LeafChunk("report_id", m.reportId)
    requires chunks[4] == [EncodeDateRange("date_range", m.dateRange)]
    requires chunks[5] == OptionalEachChunk(m.error, TextLeaf("error"))
    ensures DecodeReportMetadata(n) == Ok(m)
  {
    assert DistinctNames(ReportMetadataFields) by { FieldTablesAreDistinct(); }
    var cs := n.children;
    ReadsLeafChunk(cs, chunks, ReportMetadataFields, 0, Verbatim, m.orgName, m.orgName);
    ReadsLeafChunk(cs, chunks, ReportMetadataFields, 1, Verbatim, m.email, m.email);
    ReadsOptionalLeafChunk(cs, chunks, ReportMetadataFields, 2, m.extraContactInfo);
    ReadsLeafChunk(cs, chunks, ReportMetadataFields, 3, Verbatim, m.reportId, m.reportId);
    DateRangeRoundTrip("date_range", m.dateRange);
    ReadsElementChunk(cs, chunks, ReportMetadataFields, 4, DecodeDateRange, EncodeDateRange("date_range", m.dateRange), m.dateRange);
    ReadsOptionalEachChunk(cs, chunks, ReportMetadataFields, 5, TextLeaf("error"), TextOf, m.error);
  }

  lemma PolicyPublishedRoundTrip(tag: string, p: PolicyPublishedType)
    ensures DecodePolicyPublished(EncodePolicyPublished(tag, p)) == Ok(p)
  {
    PolicyPublishedDecodesLayout(EncodePolicyPublished(tag, p), PolicyPublishedChunks(p), p);
  }

  /** An element whose children are the chunks written for `p` decodes to `p`. */
  lemma PolicyPublishedDecodesLayout(n: Node, chunks: seq<seq<Node>>, p: PolicyPublishedType)
    requires n.children == Flatten(chunks) && Layout(chunks, PolicyPublishedFields)
    requires chunks[0] == LeafChunk("domain", p.domain)
    requires chunks[1] == LeafChunk("adkim", EncodeAlignment(p.adkim))
    requires chunks[2] == LeafChunk("aspf", EncodeAlignment(p.aspf))
    requires chunks[3] == LeafChunk("p", EncodeDisposition(p.p))
    requires chunks[4] == LeafChunk("sp", EncodeDisposition(p.sp))
    requires chunks[5] == LeafChunk("pct", ShowNat(p.pct))
    ensures DecodePolicyPublished(n) == Ok(p)
  {
    assert DistinctNames(PolicyPublishedFields) by { FieldTablesAreDistinct(); }
    var cs := n.children;
    U8Bound(p.pct);
    ReadsLeafChunk(cs, chunks, PolicyPublishedFields, 0, Verbatim, p.domain, p.domain);
    ReadsLeafChunk(cs, chunks, PolicyPublishedFields, 1, DecodeAlignment, EncodeAlignment(p.adkim), p.adkim);
    ReadsLeafChunk(cs, chunks, PolicyPublishedFields, 2, DecodeAlignment, EncodeAlignment(p.aspf), p.aspf);
    ReadsLeafChunk(cs, chunks, PolicyPublishedFields, 3, DecodeDisposition, EncodeDisposition(p.p), p.p);
    ReadsLeafChunk(cs, chunks, PolicyPublishedFields, 4, DecodeDisposition, EncodeDisposition(p.sp), p.sp);
    ReadsLeafChunk(cs, chunks, PolicyPublishedFields, 5, ParseU8, ShowNat(p.pct), p.pct);
  }

  lemma PolicyOverrideReasonRoundTrip(tag: string, o: PolicyOverrideReason)
    ensures DecodePolicyOverrideReason(EncodePolicyOverrideReason(tag, o)) == Ok(o)
  {
    PolicyOverrideReasonDecodesLayout(EncodePolicyOverrideReason(tag, o), PolicyOverrideReasonChunks(o), o);
  }

  /** An element whose children are the chunks written for `o` decodes to `o`. */
  lemma PolicyOverrideReasonDecodesLayout(n: Node, chunks: seq<seq<Node>>, o: PolicyOverrideReason)
    requires n.children == Flatten(chunks) && Layout(chunks, PolicyOverrideReasonFields)
    requires chunks[0] == LeafChunk("type", EncodePolicyOverride(o.typeAttr))
    requires chunks[1] == OptionalLeafChunk("comment", o.comment)
    ensures DecodePolicyOverrideReason(n) == Ok(o)
  {
    assert DistinctNames(PolicyOverrideReasonFields) by { FieldTablesAreDistinct(); }
    var cs := n.children;
    ReadsLeafChunk(cs, chunks, PolicyOverrideReasonFields, 0, DecodePolicyOverride, EncodePolicyOverride(o.typeAttr), o.typeAttr);
    ReadsOptionalLeafChunk(cs, chunks, PolicyOverrideReasonFields, 1, o.comment);
  }

  lemma PolicyEvaluatedRoundTrip(tag: string, e: PolicyEvaluatedType)
    requires WellFormedEvaluated(e)
    ensures DecodePolicyEvaluated(EncodePolicyEvaluated(tag, e)) == Ok(e)
  {
    PolicyEvaluatedDecodesLayout(EncodePolicyEvaluated(tag, e), PolicyEvaluatedChunks(e), e);
  }

  /** An element whose children are the chunks written for `e` decodes to `e`. */
  lemma PolicyEvaluatedDecodesLayout(n: Node, chunks: seq<seq<Node>>, e: PolicyEvaluatedType)
    requires WellFormedEvaluated(e)
    requires n.children == Flatten(chunks) && Layout(chunks, PolicyEvaluatedFields)
    requires chunks[0] == LeafChunk("disposition", EncodeDisposition(e.disposition))
    requires chunks[1] == LeafChunk("dkim", EncodeDmarcResult(e.dkim))
    requires chunks[2] == LeafChunk("spf", EncodeDmarcResult(e.spf))
    requires chunks[3] == OptionalEachChunk(e.reason, ReasonElement())
    ensures DecodePolicyEvaluated(n) == Ok(e)
  {
    assert DistinctNames(PolicyEvaluatedFields) by { FieldTablesAreDistinct(); }
    var cs := n.children;
    ReadsLeafChunk(cs, chunks, PolicyEvaluatedFields, 0, DecodeDisposition, EncodeDisposition(e.disposition), e.disposition);
    ReadsLeafChunk(cs, chunks, PolicyEvaluatedFields, 1, DecodeDmarcResult, EncodeDmarcResult(e.dkim), e.dkim);
    ReadsLeafChunk(cs, chunks, PolicyEvaluatedFields, 2, DecodeDmarcResult, EncodeDmarcResult(e.spf), e.spf);
    if e.reason.Some? {
      var xs := e.reason.value;
      forall i | 0 <= i < |xs|
        ensures DecodePolicyOverrideReason(ReasonElement()(xs[i])) == Ok(xs[i])
      {
        PolicyOverrideReasonRoundTrip("reason", xs[i]);
      }
    }
    ReadsOptionalEachChunk(cs, chunks, PolicyEvaluatedFields, 3, ReasonElement(), DecodePolicyOverrideReason, e.reason);
  }

  lemma RowRoundTrip(ip: IpText, tag: string, r: RowType)
    requires ValidIpText(ip) && WellFormedRow(r)
    ensures DecodeRow(ip, EncodeRow(ip, tag, r)) == Ok(r)
  {
    RowDecodesLayout(ip, EncodeRow(ip, tag, r), RowChunks(ip, r), r);
  }

  /** An element whose children are the chunks written for `r` decodes to `r`. */
  lemma RowDecodesLayout(ip: IpText, n: Node, chunks: seq<seq<Node>>, r: RowType)
    requires ValidIpText(ip) && WellFormedRow(r)
    requires n.children == Flatten(chunks) && Layout(chunks, RowFields)
    requires chunks[0] == LeafChunk("source_ip", ip.show(r.sourceIp))
    requires chunks[1] == LeafChunk("count", ShowNat(r.count))
    requires chunks[2] == OptionalElementChunk(r.policyEvaluated, EvaluatedElement())
    ensures DecodeRow(ip, n) == Ok(r)
  {
    assert DistinctNames(RowFields) by { FieldTablesAreDistinct(); }
    var cs := n.children;
    assert ip.parse(ip.show(r.sourceIp)) == Some(r.sourceIp);
    ReadsLeafChunk(cs, chunks, RowFields, 0, t => ParseAddress(ip, t), ip.show(r.sourceIp), r.sourceIp);
    U32Bound(r.count);
    ReadsLeafChunk(cs, chunks, RowFields, 1, ParseU32, ShowNat(r.count), r.count);
    if r.policyEvaluated.Some? {
      PolicyEvaluatedRoundTrip("policy_evaluated", r.policyEvaluated.value);
    }
    ReadsOptionalElementChunk(cs, chunks, RowFields, 2, EvaluatedElement(), DecodePolicyEvaluated, r.policyEvaluated);
  }

  lemma IdentifierRoundTrip(tag: string, i: IdentifierType)
    ensures DecodeIdentifier(EncodeIdentifier(tag, i)) == Ok(i)
  {
    IdentifierDecodesLayout(EncodeIdentifier(tag, i), IdentifierChunks(i), i);
  }

  /** An element whose children are the chunks written for `i` decodes to `i`. */
  lemma IdentifierDecodesLayout(n: Node, chunks: seq<seq<Node>>, i: IdentifierType)
    requires n.children == Flatten(chunks) && Layout(chunks, IdentifierFields)
    requires chunks[0] == OptionalLeafChunk("envelope_to", i.envelopeTo)
    requires chunks[1] == LeafChunk("header_from", i.headerFrom)
    ensures DecodeIdentifier(n) == Ok(i)
  {
    assert DistinctNames(IdentifierFields) by { FieldTablesAreDistinct(); }
    var cs := n.children;
    ReadsOptionalLeafChunk(cs, chunks, IdentifierFields, 0, i.envelopeTo);
    ReadsLeafChunk(cs, chunks, IdentifierFields, 1, Verbatim, i.headerFrom, i.headerFrom);
  }

  lemma DkimAuthResultRoundTrip(tag: string, d: DkimAuthResultType)
    ensures DecodeDkimAuthResult(EncodeDkimAuthResult(tag, d)) == Ok(d)
  {
    DkimAuthResultDecodesLayout(EncodeDkimAuthResult(tag, d), DkimAuthResultChunks(d), d);
  }

  /** An element whose children are the chunks written for `d` decodes to `d`. */
  lemma DkimAuthResultDecodesLayout(n: Node, chunks: seq<seq<Node>>, d: DkimAuthResultType)
    requires n.children == Flatten(chunks) && Layout(chunks, DkimAuthResultFields)
    requires chunks[0] == LeafChunk("domain", d.domain)
    requires chunks[1] == OptionalLeafChunk("selector", d.selector)
    requires chunks[2] == LeafChunk("result", EncodeDkimResult(d.result))
    requires chunks[3] == OptionalLeafChunk("human_result", d.humanResult)
    ensures DecodeDkimAuthResult(n) == Ok(d)
  {
    assert DistinctNames(DkimAuthResultFields) by { FieldTablesAreDistinct(); }
    var cs := n.children;
    ReadsLeafChunk(cs, chunks, DkimAuthResultFields, 0, Verbatim, d.domain, d.domain);
    ReadsOptionalLeafChunk(cs, chunks, DkimAuthResultFields, 1, d.selector);
    ReadsLeafChunk(cs, chunks, DkimAuthResultFields, 2, DecodeDkimResult, EncodeDkimResult(d.result), d.result);
    ReadsOptionalLeafChunk(cs, chunks, DkimAuthResultFields, 3, d.humanResult);
  }

  lemma SpfAuthResultRoundTrip(tag: string, s: SpfAuthResultType)
    ensures DecodeSpfAuthResult(EncodeSpfAuthResult(tag, s)) == Ok(s)
  {
    SpfAuthResultDecodesLayout(EncodeSpfAuthResult(tag, s), SpfAuthResultChunks(s), s);
  }

  /** An element whose children are the chunks written for `s` decodes to `s`. */
  lemma SpfAuthResultDecodesLayout(n: Node, chunks: seq<seq<Node>>, s: SpfAuthResultType)
    requires n.children == Flatten(chunks) && Layout(chunks, SpfAuthResultFields)
    requires chunks[0] == LeafChunk("domain", s.domain)
    requires chunks[1] == LeafChunk("result", EncodeSpfResult(s.result))
    ensures DecodeSpfAuthResult(n) == Ok(s)
  {
    assert DistinctNames(SpfAuthResultFields) by { FieldTablesAreDistinct(); }
    var cs := n.children;
    ReadsLeafChunk(cs, chunks, SpfAuthResultFields, 0, Verbatim, s.domain, s.domain);
    ReadsLeafChunk(cs, chunks, SpfAuthResultFields, 1, DecodeSpfResult, EncodeSpfResult(s.result), s.result);
  }

  lemma AuthResultRoundTrip(tag: string, a: AuthResultType)
    requires WellFormedAuthResult(a)
    ensures DecodeAuthResult(EncodeAuthResult(tag, a)) == Ok(a)
  {
    AuthResultDecodesLayout(EncodeAuthResult(tag, a), AuthResultChunks(a), a);
  }

  /** An element whose children are the chunks written for `a` decodes to `a`. */
  lemma AuthResultDecodesLayout(n: Node, chunks: seq<seq<Node>>, a: AuthResultType)
    requires WellFormedAuthResult(a)
    requires n.children == Flatten(chunks) && Layout(chunks, AuthResultFields)
    requires chunks[0] == OptionalEachChunk(a.dkim, DkimElement())
    requires chunks[1] == EncodeEach(a.spf, SpfElement())
    ensures DecodeAuthResult(n) == Ok(a)
  {
    assert DistinctNames(AuthResultFields) by { FieldTablesAreDistinct(); }
    var cs := n.children;
    if a.dkim.Some? {
      var xs := a.dkim.value;
      forall i | 0 <= i < |xs|
        ensures DecodeDkimAuthResult(DkimElement()(xs[i])) == Ok(xs[i])
      {
        DkimAuthResultRoundTrip("dkim", xs[i]);
      }
    }
    ReadsOptionalEachChunk(cs, chunks, AuthResultFields, 0, DkimElement(), DecodeDkimAuthResult, a.dkim);
    forall i | 0 <= i < |a.spf|
      ensures DecodeSpfAuthResult(SpfElement()(a.spf[i])) == Ok(a.spf[i])
    {
      SpfAuthResultRoundTrip("spf", a.spf[i]);
    }
    ReadsEachChunk(cs, chunks, AuthResultFields, 1, SpfElement(), DecodeSpfAuthResult, a.spf);
  }

  lemma RecordRoundTrip(ip: IpText, tag: string, r: RecordType)
    requires ValidIpText(ip) && WellFormedRecord(r)
    ensures DecodeRecord(ip, EncodeRecord(ip, tag, r)) == Ok(r)
  {
    RecordDecodesLayout(ip, EncodeRecord(ip, tag, r), RecordChunks(ip, r), r);
  }

  /** An element whose children are the chunks written for `r` decodes to `r`. */
  lemma RecordDecodesLayout(ip: IpText, n: Node, chunks: seq<seq<Node>>, r: RecordType)
    requires ValidIpText(ip) && WellFormedRecord(r)
    requires n.children == Flatten(chunks) && Layout(chunks, RecordFields)
    requires chunks[0] == [EncodeRow(ip, "row", r.row)]
    requires chunks[1] == [EncodeIdentifier("identifiers", r.identifiers)]
    requires chunks[2] == [EncodeAuthResult("auth_results", r.authResults)]
    ensures DecodeRecord(ip, n) == Ok(r)
  {
    assert DistinctNames(RecordFields) by { FieldTablesAreDistinct(); }
    var cs := n.children;
    RowRoundTrip(ip, "row", r.row);
    ReadsElementChunk(cs, chunks, RecordFields, 0, e => DecodeRow(ip, e), EncodeRow(ip, "row", r.row), r.row);
    IdentifierRoundTrip("identifiers", r.identifiers);
    ReadsElementChunk(cs, chunks, RecordFields, 1, DecodeIdentifier, EncodeIdentifier("identifiers", r.identifiers), r.identifiers);
    AuthResultRoundTrip("auth_results", r.authResults);
    ReadsElementChunk(cs, chunks, RecordFields, 2, DecodeAuthResult, EncodeAuthResult("auth_results", r.authResults), r.authResults);
  }

  /** The round-trip law for a whole report. */
  lemma FeedbackRoundTrip(ip: IpText, f: Feedback)
    requires ValidIpText(ip) && WellFormedFeedback(f)
    ensures DecodeFeedback(ip, EncodeFeedback(ip, f)) == Ok(f)
  {
    FeedbackDecodesLayout(ip, EncodeFeedback(ip, f), FeedbackChunks(ip, f), f);
  }

  /** An element whose children are the chunks written for `f` decodes to `f`. */
  lemma FeedbackDecodesLayout(ip: IpText, n: Node, chunks: seq<seq<Node>>, f: Feedback)
    requires ValidIpText(ip) && WellFormedFeedback(f)
    requires n.children == Flatten(chunks) && Layout(chunks, FeedbackFields)
    requires chunks[0] == [EncodeReportMetadata("report_metadata", f.reportMetadata)]
    requires chunks[1] == [EncodePolicyPublished("policy_published", f.policyPublished)]
    requires chunks[2] == EncodeEach(f.record, RecordElement(ip))
    ensures DecodeFeedback(ip, n) == Ok(f)
  {
    assert DistinctNames(FeedbackFields) by { FieldTablesAreDistinct(); }
    var cs := n.children;
    ReportMetadataRoundTrip("report_metadata", f.reportMetadata);
    ReadsElementChunk(cs, chunks, FeedbackFields, 0, DecodeReportMetadata, EncodeReportMetadata("report_metadata", f.reportMetadata), f.reportMetadata);
    PolicyPublishedRoundTrip("policy_published", f.policyPublished);
    ReadsElementChunk(cs, chunks, FeedbackFields, 1, DecodePolicyPublished, EncodePolicyPublished("policy_published", f.policyPublished), f.policyPublished);
    forall i | 0 <= i < |f.record|
      ensures DecodeRecord(ip, RecordElement(ip)(f.record[i])) == Ok(f.record[i])
    {
      RecordRoundTrip(ip, "record", f.record[i]);
    }
    ReadsEachChunk(cs, chunks, FeedbackFields, 2, RecordElement(ip), e => DecodeRecord(ip, e), f.record);
    FeedbackFromParts(ip, n, f.reportMetadata, f.policyPublished, f.record);
  }

  /** A report decodes to the parts its three fields decode to. */
  lemma FeedbackFromParts(ip: IpText, n: Node, m: ReportMetadataType, p: PolicyPublishedType, rs: seq<RecordType>)
    requires ElementField(n.children, "report_metadata", DecodeReportMetadata) == Ok(m)
    requires ElementField(n.children, "policy_published", DecodePolicyPublished) == Ok(p)
    requires DecodeRecords(ip, n.children) == Ok(rs)
    ensures DecodeFeedback(ip, n) == Ok(Feedback(m, p, rs))
  {
  }

  /** A report survives being written and read back exactly when the decoder could have produced it. */
  lemma RoundTripExactlyOnWellFormed(ip: IpText, f: Feedback)
    requires ValidIpText(ip)
    ensures DecodeFeedback(ip, EncodeFeedback(ip, f)) == Ok(f) <==> WellFormedFeedback(f)
  {
    if WellFormedFeedback(f) {
      FeedbackRoundTrip(ip, f);
    }
  }

  /** Re-encoding a decoded report and decoding it again gives the same report. */
  lemma ReencodeIsStable(ip: IpText, n: Node)
    requires ValidIpText(ip) && DecodeFeedback(ip, n).Ok?
    ensures DecodeFeedback(ip, EncodeFeedback(ip, DecodeFeedback(ip, n).value)) == DecodeFeedback(ip, n)
  {
    FeedbackRoundTrip(ip, DecodeFeedback(ip, n).value);
  }

  /** Distinct decodable reports are written as distinct trees. */
  lemma EncodeIsInjective(ip: IpText, f: Feedback, g: Feedback)
    requires ValidIpText(ip) && WellFormedFeedback(f) && WellFormedFeedback(g)
    ensures EncodeFeedback(ip, f) == EncodeFeedback(ip, g) ==> f == g
  {
    FeedbackRoundTrip(ip, f);
    FeedbackRoundTrip(ip, g);
  }

  /** An empty `error` list is written exactly like an absent one. */
  lemma EmptyErrorListIsAbsent(tag: string, m: ReportMetadataType)
    requires m.error == Some([])
    ensures EncodeReportMetadata(tag, m) == EncodeReportMetadata(tag, m.(error := Option.None))
    ensures DecodeReportMetadata(EncodeReportMetadata(tag, m)) != Ok(m)
  {
    assert ReportMetadataChunks(m) == ReportMetadataChunks(m.(error := Option.None));
  }
}

/**
 * The record types of a DMARC aggregate report, one datatype per Rust struct,
 * and each struct's field table: the element name of every field, in
 * declaration order, with the cardinality its Rust type gives it.
 */
module Schema {
  import opened Wrappers
  import opened Tokens
  import opened Numbers
  import opened ElementTree

  /** The four octets of an IPv4 address. */
  type Octets4 = s: seq<U8> | |s| == 4 witness [0, 0, 0, 0]

  /** The sixteen octets of an IPv6 address. */
  type Octets16 = s: seq<U8> | |s| == 16 witness [0, 0, 0, 0, 0, 0, 0, 0, 0, 0, 0, 0, 0, 0, 0, 0]

  /** An IP address as the address parser hands it over; its textual grammar is not modelled. */
  datatype IpAddr = V4(v4: Octets4) | V6(v6: Octets16)

  /** The address parser (`FromStr`) and printer (`Display`) the decoder and encoder are given. */
  datatype IpText = IpText(parse: string -> Option<IpAddr>, show: IpAddr -> string)

  /** Parsing what the printer writes gives the address back. */
  ghost predicate ValidIpText(ip: IpText)
  {
    forall a :: ip.parse(ip.show(a)) == Some(a)
  }

  /** Writes each octet as one character, after a `4` or a `6` that tells the two kinds apart. */
  function OctetText(a: IpAddr): string
  {
    match a
    case V4(o) => "4" + seq(4, i requires 0 <= i < 4 => o[i] as char)
    case V6(o) => "6" + seq(16, i requires 0 <= i < 16 => o[i] as char)
  }

  /** The `n` octets written by `OctetText` after its marker, when the text has exactly that shape. */
  function OctetsAfterMarker(t: string, n: nat): (r: Option<seq<U8>>)
    ensures r.Some? ==> |r.value| == n
  {
    if |t| == n + 1 && forall i :: 1 <= i <= n ==> t[i] as int <= U8_MAX
    then Some(seq(n, i requires 0 <= i < n => t[i + 1] as int))
    else Option.None
  }

  /** The inverse of `OctetText`; any other text is rejected. */
  function ParseOctetText(t: string): Option<IpAddr>
  {
    if |t| > 0 && t[0] == '4' && OctetsAfterMarker(t, 4).Some? then Some(V4(OctetsAfterMarker(t, 4).value))
    else if |t| > 0 && t[0] == '6' && OctetsAfterMarker(t, 16).Some? then Some(V6(OctetsAfterMarker(t, 16).value))
    else Option.None
  }

  /** Some address codec meets `ValidIpText`, so the lemmas that require it are not vacuous. */
  lemma OctetCodecIsValid()
    ensures ValidIpText(IpText(ParseOctetText, OctetText))
  {
    forall a: IpAddr
      ensures ParseOctetText(OctetText(a)) == Some(a)
    {
      var t := OctetText(a);
      match a
      case V4(o) =>
        assert OctetsAfterMarker(t, 4).Some? && OctetsAfterMarker(t, 4).value == o;
      case V6(o) =>
        assert OctetsAfterMarker(t, 16).Some? && OctetsAfterMarker(t, 16).value == o;
    }
  }

  /** The time range covered by the report, in seconds since the epoch. */
  datatype DateRangeType = DateRangeType(begin: U32, end: U32)

  /** Who generated the report. */
  datatype ReportMetadataType = ReportMetadataType(
    orgName: string,
    email: string,
    extraContactInfo: Option<string>,
    reportId: string,
    dateRange: DateRangeType,
    error: Option<seq<string>>)

  /** The DMARC policy published for the domain. */
  datatype PolicyPublishedType = PolicyPublishedType(
    domain: string,
    adkim: AlignmentType,
    aspf: AlignmentType,
    p: DispositionType,
    sp: DispositionType,
    pct: U8)

  /** Why the applied disposition differs from the policy; its `type` element is the field `typeAttr`. */
  datatype PolicyOverrideReason = PolicyOverrideReason(typeAttr: PolicyOverrideType, comment: Option<string>)

  /** The result of applying DMARC to the messages of a record. */
  datatype PolicyEvaluatedType = PolicyEvaluatedType(
    disposition: DispositionType,
    dkim: DmarcResultType,
    spf: DmarcResultType,
    reason: Option<seq<PolicyOverrideReason>>)

  datatype RowType = RowType(sourceIp: IpAddr, count: U32, policyEvaluated: Option<PolicyEvaluatedType>)

  datatype IdentifierType = IdentifierType(envelopeTo: Option<string>, headerFrom: string)

  datatype DkimAuthResultType = DkimAuthResultType(
    domain: string,
    selector: Option<string>,
    result: DkimResultType,
    humanResult: Option<string>)

  datatype SpfAuthResultType = SpfAuthResultType(domain: string, result: SpfResultType)

  /** Raw DKIM and SPF results, uninterpreted with respect to DMARC. */
  datatype AuthResultType = AuthResultType(dkim: Option<seq<DkimAuthResultType>>, spf: seq<SpfAuthResultType>)

  datatype RecordType = RecordType(row: RowType, identifiers: IdentifierType, authResults: AuthResultType)

  /** One aggregate report. */
  datatype Feedback = Feedback(
    reportMetadata: ReportMetadataType,
    policyPublished: PolicyPublishedType,
    record: seq<RecordType>)

  // ---------------------------------------------------------------------------
  // Field tables, in declaration order
  // ---------------------------------------------------------------------------

  const DateRangeFields := [FieldSpec("begin", Required), FieldSpec("end", Required)]

  const ReportMetadataFields := [
    FieldSpec("org_name", Required),
    FieldSpec("email", Required),
    FieldSpec("extra_contact_info", Optional),
    FieldSpec("report_id", Required),
    FieldSpec("date_range", Required),
    FieldSpec("error", OptionalRepeated)]

  const PolicyPublishedFields := [
    FieldSpec("domain", Required),
    FieldSpec("adkim", Required),
    FieldSpec("aspf", Required),
    FieldSpec("p", Required),
    FieldSpec("sp", Required),
    FieldSpec("pct", Required)]

  const PolicyOverrideReasonFields := [FieldSpec("type", Required), FieldSpec("comment", Optional)]

  const PolicyEvaluatedFields := [
    FieldSpec("disposition", Required),
    FieldSpec("dkim", Required),
    FieldSpec("spf", Required),
    FieldSpec("reason", OptionalRepeated)]

  const RowFields := [
    FieldSpec("source_ip", Required),
    FieldSpec("count", Required),
    FieldSpec("policy_evaluated", Optional)]

  const IdentifierFields := [FieldSpec("envelope_to", Optional), FieldSpec("header_from", Required)]

  const DkimAuthResultFields := [
    FieldSpec("domain", Required),
    FieldSpec("selector", Optional),
    FieldSpec("result", Required),
    FieldSpec("human_result", Optional)]

  const SpfAuthResultFields := [FieldSpec("domain", Required), FieldSpec("result", Required)]

  const AuthResultFields := [FieldSpec("dkim", OptionalRepeated), FieldSpec("spf", Repeated)]

  const RecordFields := [
    FieldSpec("row", Required),
    FieldSpec("identifiers", Required),
    FieldSpec("auth_results", Required)]

  const FeedbackFields := [
    FieldSpec("report_metadata", Required),
    FieldSpec("policy_published", Required),
    FieldSpec("record", Repeated)]

  /** No table names a field twice, so every element belongs to at most one field. */
  lemma FieldTablesAreDistinct()
    ensures DistinctNames(DateRangeFields) && DistinctNames(ReportMetadataFields)
    ensures DistinctNames(PolicyPublishedFields) && DistinctNames(PolicyOverrideReasonFields)
    ensures DistinctNames(PolicyEvaluatedFields) && DistinctNames(RowFields)
    ensures DistinctNames(IdentifierFields) && DistinctNames(DkimAuthResultFields)
    ensures DistinctNames(SpfAuthResultFields) && DistinctNames(AuthResultFields)
    ensures DistinctNames(RecordFields) && DistinctNames(FeedbackFields)
  {
    ReportTablesAreDistinct();
    RecordTablesAreDistinct();
    AuthTablesAreDistinct();
  }

  lemma ReportTablesAreDistinct()
    ensures DistinctNames(DateRangeFields) && DistinctNames(ReportMetadataFields)
    ensures DistinctNames(PolicyPublishedFields) && DistinctNames(FeedbackFields)
  {
  }

  lemma RecordTablesAreDistinct()
    ensures DistinctNames(PolicyOverrideReasonFields) && DistinctNames(PolicyEvaluatedFields)
    ensures DistinctNames(RowFields) && DistinctNames(RecordFields)
  {
  }

  lemma AuthTablesAreDistinct()
    ensures DistinctNames(IdentifierFields) && DistinctNames(DkimAuthResultFields)
    ensures DistinctNames(SpfAuthResultFields) && DistinctNames(AuthResultFields)
  {
  }

  // ---------------------------------------------------------------------------
  // The values a decode can produce
  // ---------------------------------------------------------------------------

  /**
   * An `Option<Vec<T>>` read from elements is `None` or a non-empty list, and a
   * `Vec<T>` read from elements is non-empty: `Some([])` and an empty `record`
   * or `spf` list have no element form the decoder accepts.
   */
  predicate NonEmptyIfPresent<T>(o: Option<seq<T>>)
  {
    o.Some? ==> o.value != []
  }

  predicate WellFormedMetadata(m: ReportMetadataType)
  {
    NonEmptyIfPresent(m.error)
  }

  predicate WellFormedEvaluated(e: PolicyEvaluatedType)
  {
    NonEmptyIfPresent(e.reason)
  }

  predicate WellFormedRow(r: RowType)
  {
    r.policyEvaluated.Some? ==> WellFormedEvaluated(r.policyEvaluated.value)
  }

  predicate WellFormedAuthResult(a: AuthResultType)
  {
    NonEmptyIfPresent(a.dkim) && a.spf != []
  }

  predicate WellFormedRecord(r: RecordType)
  {
    WellFormedRow(r.row) && WellFormedAuthResult(r.authResults)
  }

  predicate WellFormedFeedback(f: Feedback)
  {
    && WellFormedMetadata(f.reportMetadata)
    && f.record != []
    && forall i :: 0 <= i < |f.record| ==> WellFormedRecord(f.record[i])
  }
}

/**
 * The sample report of the library's test: its element tree, the report it
 * must decode to, and the proof that it does. The sample has an element `np`
 * that `policy_published` does not declare, and gives a DKIM result's
 * `selector` after its `result`.
 */
module Fixture {
  import opened Wrappers
  import opened Errors
  import opened Tokens
  import opened Numbers
  import opened ElementTree
  import opened Schema
  import opened Decoder
  import opened RoundTrip

  function SampleDateRange(): Node
  {
    Element("date_range", [Leaf("begin", "1706832000"), Leaf("end", "1706918399")])
  }

  function SampleMetadata(): Node
  {
    Element("report_metadata", [
      Leaf("org_name", "google.com"),
      Leaf("email", "noreply-dmarc-support@google.com"),
      Leaf("extra_contact_info", "https://support.google.com/a/answer/2466580"),
      Leaf("report_id", "5717107811868587391"),
      SampleDateRange()])
  }

  function SamplePolicy(): Node
  {
    Element("policy_published", [
      Leaf("domain", "azzinna.ro"),
      Leaf("adkim", "r"),
      Leaf("aspf", "r"),
      Leaf("p", "none"),
      Leaf("sp", "none"),
      Leaf("pct", "100"),
      Leaf("np", "none")])
  }

  function SampleEvaluated(): Node
  {
    Element("policy_evaluated", [Leaf("disposition", "none"), Leaf("dkim", "pass"), Leaf("spf", "pass")])
  }

  function SampleRow(): Node
  {
    Element("row", [Leaf("source_ip", "185.70.43.17"), Leaf("count", "1"), SampleEvaluated()])
  }

  function SampleIdentifiers(): Node
  {
    Element("identifiers", [Leaf("header_from", "azzinna.ro")])
  }

  function SampleDkim(): Node
  {
    Element("dkim", [Leaf("domain", "azzinna.ro"), Leaf("result", "pass"), Leaf("selector", "protonmail2")])
  }

  function SampleSpf(): Node
  {
    Element("spf", [Leaf("domain", "azzinna.ro"), Leaf("result", "pass")])
  }

  function SampleAuthResults(): Node
  {
    Element("auth_results", [SampleDkim(), SampleSpf()])
  }

  function SampleRecord(): Node
  {
    Element("record", [SampleRow(), SampleIdentifiers(), SampleAuthResults()])
  }

  function SampleReport(): Node
  {
    Element("feedback", [SampleMetadata(), SamplePolicy(), SampleRecord()])
  }

  /** The address the sample's `source_ip` stands for. */
  const SampleAddress := V4([185, 70, 43, 17])

  /** The report the library's test expects the sample to decode to. */
  function ExpectedFeedback(): Feedback
  {
    Feedback(ExpectedMetadata(), ExpectedPolicy(), [ExpectedRecord()])
  }

  function ExpectedDateRange(): DateRangeType
  {
    DateRangeType(1706832000, 1706918399)
  }

  function ExpectedMetadata(): ReportMetadataType
  {
    ReportMetadataType(
      "google.com",
      "noreply-dmarc-support@google.com",
      Some("https://support.google.com/a/answer/2466580"),
      "5717107811868587391",
      ExpectedDateRange(),
      Option.None)
  }

  function ExpectedPolicy(): PolicyPublishedType
  {
    PolicyPublishedType("azzinna.ro", R, R, DispositionType.None, DispositionType.None, 100)
  }

  function ExpectedEvaluated(): PolicyEvaluatedType
  {
    PolicyEvaluatedType(DispositionType.None, DmarcResultType.Pass, DmarcResultType.Pass, Option.None)
  }

  function ExpectedRow(): RowType
  {
    RowType(SampleAddress, 1, Some(ExpectedEvaluated()))
  }

  function ExpectedIdentifiers(): IdentifierType
  {
    IdentifierType(Option.None, "azzinna.ro")
  }

  function ExpectedDkim(): DkimAuthResultType
  {
    DkimAuthResultType("azzinna.ro", Some("protonmail2"), DkimResultType.Pass, Option.None)
  }

  function ExpectedSpf(): SpfAuthResultType
  {
    SpfAuthResultType("azzinna.ro", SpfResultType.Pass)
  }

  function ExpectedAuthResults(): AuthResultType
  {
    AuthResultType(Some([ExpectedDkim()]), [ExpectedSpf()])
  }

  function ExpectedRecord(): RecordType
  {
    RecordType(ExpectedRow(), ExpectedIdentifiers(), ExpectedAuthResults())
  }

  lemma ShowBegin()
    ensures ShowNat(1706832000) == "1706832000"
  {
    assert ShowNat(17) == "17";
    assert ShowNat(1706) == "1706";
    assert ShowNat(170683) == "170683";
    assert ShowNat(17068320) == "17068320";
  }

  lemma ShowEnd()
    ensures ShowNat(1706918399) == "1706918399"
  {
    assert ShowNat(17) == "17";
    assert ShowNat(1706) == "1706";
    assert ShowNat(170691) == "170691";
    assert ShowNat(17069183) == "17069183";
  }

  lemma ParseBegin()
    ensures ParseU32("1706832000") == Ok(1706832000)
  {
    ShowBegin();
    U32Bound(1706832000);
  }

  lemma ParseEnd()
    ensures ParseU32("1706918399") == Ok(1706918399)
  {
    ShowEnd();
    U32Bound(1706918399);
  }

  lemma ParseCount()
    ensures ParseU32("1") == Ok(1)
  {
    assert ShowNat(1) == "1";
    U32Bound(1);
  }

  /** A one-element list decodes to the one value its element decodes to. */
  lemma DecodeSingle<T>(n: Node, decode: Node -> Decoded<T>, v: T)
    requires decode(n) == Ok(v)
    ensures DecodeEach([n], decode) == Ok([v])
  {
    var r := DecodeEach([n], decode);
    assert r.Ok? && |r.value| == 1 && decode(n) == Ok(r.value[0]);
    assert r.value == [v];
  }

  lemma ParsePct()
    ensures ParseU8("100") == Ok(100)
  {
    assert ShowNat(100) == "100";
    U8Bound(100);
  }

  lemma SampleDateRangeDecodes()
    ensures DecodeDateRange(SampleDateRange()) == Ok(ExpectedDateRange())
  {
    var cs := SampleDateRange().children;
    NamedSingle(cs, 0);
    NamedSingle(cs, 1);
    ParseBegin();
    ParseEnd();
  }

  /** The four text fields of the sample's metadata. */
  lemma SampleMetadataTexts()
    ensures TextField(SampleMetadata().children, "org_name", Verbatim) == Ok(ExpectedMetadata().orgName)
    ensures TextField(SampleMetadata().children, "email", Verbatim) == Ok(ExpectedMetadata().email)
    ensures OptionalText(SampleMetadata().children, "extra_contact_info") == Ok(ExpectedMetadata().extraContactInfo)
    ensures TextField(SampleMetadata().children, "report_id", Verbatim) == Ok(ExpectedMetadata().reportId)
  {
    MetadataTagsAreDistinct(0);
    MetadataTagsAreDistinct(1);
    MetadataTagsAreDistinct(2);
    MetadataTagsAreDistinct(3);
  }

  /** The sample's metadata has no `error` element. */
  lemma SampleMetadataHasNoErrors()
    ensures Named(SampleMetadata().children, "error") == []
  {
    NamedNoneMatch(SampleMetadata().children, "error");
  }

  lemma SampleMetadataDecodes()
    ensures DecodeReportMetadata(SampleMetadata()) == Ok(ExpectedMetadata())
  {
    SampleMetadataTexts();
    SampleMetadataHasNoErrors();
    MetadataTagsAreDistinct(4);
    SampleDateRangeDecodes();
  }

  /** Within each sample element, no two children share a tag. */
  lemma MetadataTagsAreDistinct(k: nat)
    requires k < |SampleMetadata().children|
    ensures Named(SampleMetadata().children, SampleMetadata().children[k].name) == [SampleMetadata().children[k]]
  {
    NamedSingle(SampleMetadata().children, k);
  }

  lemma PolicyTagsAreDistinct(k: nat)
    requires k < |SamplePolicy().children|
    ensures Named(SamplePolicy().children, SamplePolicy().children[k].name) == [SamplePolicy().children[k]]
  {
    NamedSingle(SamplePolicy().children, k);
  }

  lemma EvaluatedTagsAreDistinct(k: nat)
    requires k < |SampleEvaluated().children|
    ensures Named(SampleEvaluated().children, SampleEvaluated().children[k].name) == [SampleEvaluated().children[k]]
  {
    NamedSingle(SampleEvaluated().children, k);
  }

  lemma RowTagsAreDistinct(k: nat)
    requires k < |SampleRow().children|
    ensures Named(SampleRow().children, SampleRow().children[k].name) == [SampleRow().children[k]]
  {
    NamedSingle(SampleRow().children, k);
  }

  lemma DkimTagsAreDistinct(k: nat)
    requires k < |SampleDkim().children|
    ensures Named(SampleDkim().children, SampleDkim().children[k].name) == [SampleDkim().children[k]]
  {
    NamedSingle(SampleDkim().children, k);
  }

  lemma RecordTagsAreDistinct(k: nat)
    requires k < |SampleRecord().children|
    ensures Named(SampleRecord().children, SampleRecord().children[k].name) == [SampleRecord().children[k]]
  {
    NamedSingle(SampleRecord().children, k);
  }

  lemma ReportTagsAreDistinct(k: nat)
    requires k < |SampleReport().children|
    ensures Named(SampleReport().children, SampleReport().children[k].name) == [SampleReport().children[k]]
  {
    NamedSingle(SampleReport().children, k);
  }

  /** The tokens the sample uses, each read as its variant. */
  lemma SampleTokens()
    ensures DecodeAlignment("r") == Ok(R)
    ensures DecodeDisposition("none") == Ok(DispositionType.None)
    ensures DecodeDmarcResult("pass") == Ok(DmarcResultType.Pass)
    ensures DecodeDkimResult("pass") == Ok(DkimResultType.Pass)
    ensures DecodeSpfResult("pass") == Ok(SpfResultType.Pass)
  {
    assert EncodeAlignment(R) == "r";
    assert EncodeDisposition(DispositionType.None) == "none";
    assert EncodeDmarcResult(DmarcResultType.Pass) == "pass";
    assert EncodeDkimResult(DkimResultType.Pass) == "pass";
    assert EncodeSpfResult(SpfResultType.Pass) == "pass";
  }

  /** `np` is not a field of `policy_published` and is skipped. */
  lemma SamplePolicyDecodes()
    ensures DecodePolicyPublished(SamplePolicy()) == Ok(ExpectedPolicy())
  {
    var cs := SamplePolicy().children;
    PolicyTagsAreDistinct(0);
    PolicyTagsAreDistinct(1);
    PolicyTagsAreDistinct(2);
    PolicyTagsAreDistinct(3);
    PolicyTagsAreDistinct(4);
    PolicyTagsAreDistinct(5);
    SampleTokens();
    ParsePct();
  }

  lemma SampleEvaluatedDecodes()
    ensures DecodePolicyEvaluated(SampleEvaluated()) == Ok(ExpectedEvaluated())
  {
    var cs := SampleEvaluated().children;
    EvaluatedTagsAreDistinct(0);
    EvaluatedTagsAreDistinct(1);
    EvaluatedTagsAreDistinct(2);
    NamedNoneMatch(cs, "reason");
    SampleTokens();
  }

  lemma SampleRowDecodes(ip: IpText)
    requires ip.parse("185.70.43.17") == Some(SampleAddress)
    ensures DecodeRow(ip, SampleRow()) == Ok(ExpectedRow())
  {
    var cs := SampleRow().children;
    assert TextField(cs, "source_ip", t => ParseAddress(ip, t)) == Ok(SampleAddress) by {
      RowTagsAreDistinct(0);
    }
    assert TextField(cs, "count", ParseU32) == Ok(1) by {
      RowTagsAreDistinct(1);
      ParseCount();
    }
    assert OptionalElement(cs, "policy_evaluated", DecodePolicyEvaluated) == Ok(Some(ExpectedEvaluated())) by {
      RowTagsAreDistinct(2);
      SampleEvaluatedDecodes();
    }
    RowFromParts(ip, SampleRow(), SampleAddress, 1, Some(ExpectedEvaluated()));
  }

  /** A row decodes to the parts its three fields decode to. */
  lemma RowFromParts(ip: IpText, n: Node, a: IpAddr, c: U32, e: Option<PolicyEvaluatedType>)
    requires TextField(n.children, "source_ip", t => ParseAddress(ip, t)) == Ok(a)
    requires TextField(n.children, "count", ParseU32) == Ok(c)
    requires OptionalElement(n.children, "policy_evaluated", DecodePolicyEvaluated) == Ok(e)
    ensures DecodeRow(ip, n) == Ok(RowType(a, c, e))
  {
  }

  lemma SampleIdentifiersDecode()
    ensures DecodeIdentifier(SampleIdentifiers()) == Ok(ExpectedIdentifiers())
  {
    var cs := SampleIdentifiers().children;
    NamedSingle(cs, 0);
    NamedNoneMatch(cs, "envelope_to");
  }

  /** The sample gives `selector` after `result`; fields are found by tag, not by position. */
  lemma SampleDkimDecodes()
    ensures DecodeDkimAuthResult(SampleDkim()) == Ok(ExpectedDkim())
  {
    var cs := SampleDkim().children;
    DkimTagsAreDistinct(0);
    DkimTagsAreDistinct(1);
    DkimTagsAreDistinct(2);
    NamedNoneMatch(cs, "human_result");
    SampleTokens();
  }

  lemma SampleSpfDecodes()
    ensures DecodeSpfAuthResult(SampleSpf()) == Ok(ExpectedSpf())
  {
    var cs := SampleSpf().children;
    NamedSingle(cs, 0);
    NamedSingle(cs, 1);
    SampleTokens();
  }

  lemma SampleAuthResultsDecode()
    ensures DecodeAuthResult(SampleAuthResults()) == Ok(ExpectedAuthResults())
  {
    var cs := SampleAuthResults().children;
    NamedSingle(cs, 0);
    NamedSingle(cs, 1);
    SampleDkimDecodes();
    SampleSpfDecodes();
    DecodeSingle(SampleDkim(), DecodeDkimAuthResult, ExpectedDkim());
    DecodeSingle(SampleSpf(), DecodeSpfAuthResult, ExpectedSpf());
    assert OptionalRepeatedElement(cs, "dkim", DecodeDkimAuthResult) == Ok(Some([ExpectedDkim()]));
    assert RepeatedElement(cs, "spf", DecodeSpfAuthResult) == Ok([ExpectedSpf()]);
  }

  lemma SampleRecordDecodes(ip: IpText)
    requires ip.parse("185.70.43.17") == Some(SampleAddress)
    ensures DecodeRecord(ip, SampleRecord()) == Ok(ExpectedRecord())
  {
    var cs := SampleRecord().children;
    RecordTagsAreDistinct(0);
    RecordTagsAreDistinct(1);
    RecordTagsAreDistinct(2);
    SampleRowDecodes(ip);
    SampleIdentifiersDecode();
    SampleAuthResultsDecode();
  }

  /** The sample's one `record` element is its one record. */
  lemma SampleRecordsDecode(ip: IpText)
    requires ip.parse("185.70.43.17") == Some(SampleAddress)
    ensures DecodeRecords(ip, SampleReport().children) == Ok([ExpectedRecord()])
  {
    ReportTagsAreDistinct(2);
    SampleRecordDecodes(ip);
    DecodeSingle(SampleRecord(), e => DecodeRecord(ip, e), ExpectedRecord());
  }

  lemma SampleMetadataField()
    ensures ElementField(SampleReport().children, "report_metadata", DecodeReportMetadata) == Ok(ExpectedMetadata())
  {
    ReportTagsAreDistinct(0);
    SampleMetadataDecodes();
  }

  lemma SamplePolicyField()
    ensures ElementField(SampleReport().children, "policy_published", DecodePolicyPublished) == Ok(ExpectedPolicy())
  {
    ReportTagsAreDistinct(1);
    SamplePolicyDecodes();
  }

  /** The library's sample report decodes to exactly the report its test expects. */
  lemma SampleReportDecodes(ip: IpText)
    requires ip.parse("185.70.43.17") == Some(SampleAddress)
    ensures DecodeFeedback(ip, SampleReport()) == Ok(ExpectedFeedback())
  {
    SampleMetadataField();
    SamplePolicyField();
    SampleRecordsDecode(ip);
    FeedbackFromParts(ip, SampleReport(), ExpectedMetadata(), ExpectedPolicy(), [ExpectedRecord()]);
  }
}

# DMARC aggregate-report schema, modelled in Dafny

This project models the data model of a DMARC aggregate ("RUA") report, as
`dmarcer/src/schema.rs` declares it. That file holds the XML schema of RFC 7489
Appendix C as Rust structs and enums. Their derived serde `Deserialize`
implementations read that schema. The structs also derive `Serialize`, but the
library never serialises a report. The model covers two things and proves
properties about both.

- **Enumeration tokens** (`tokens.dfy`). There are six closed enumerations:
  alignment, disposition, DMARC result, policy-override type, DKIM result and
  SPF result.
  - Each enumeration has an `Encode` function from variant to token and a
    `Decode` function from text to `Decoded<variant>`.
  - The tokens follow the `rename_all` rule of each enum. The rule is
    `lowercase` for five of them and `snake_case` for the override type.
  - Decoding accepts exactly the tokens of the enumeration and is
    case-sensitive. Any other text fails with `UnknownVariant`.
- **Bounded integers** (`numbers.dfy`). `ParseU8` and `ParseU32` model Rust's
  `u8::from_str` and `u32::from_str`.
  - They accept an optional leading `+`, then one or more ASCII digits, with
    leading zeros allowed.
  - As in Rust, digits are read from the left and the first failure decides
    the error. Text whose leading digits already exceed the type's maximum is
    `OutOfRange`, even when a non-digit follows. Any other malformed text is
    `InvalidInteger`.
  - `ParseUnsignedIsDigitScan` shows that this closed form agrees with a
    digit-by-digit scan in the manner of `from_str_radix`.
  - `ShowNat` models `Display`.
- **Element trees** (`tree.dfy`). A report arrives as an already-lexed tree of
  `Node(name, text, children)`.
  - A field of a struct is found by tag among the children of the struct's
    element (`Named`). Children with any other tag are ignored.
  - A field's Rust type gives it a cardinality:
    - `T` is required and singular.
    - `Option<T>` is optional and singular.
    - `Vec<T>` is repeated.
    - `Option<Vec<T>>` is optional and repeated.
  - A missing required field is `MissingField`. A singular field given twice is
    `DuplicateField`.
  - A `Vec` with no element at all is also `MissingField`. serde's derive treats
    a missing sequence field that way unless it has a default, and this schema
    gives none. So `record` and `spf` can never decode as empty lists.
- **Schema** (`schema.dfy`). There is one datatype per struct, plus a field
  table per struct giving each field's element name, in declaration order, with
  its cardinality. `PolicyOverrideReason` reads its `type_attr` field from the
  element `type`.
- **Decoder and encoder** (`decode.dfy`, `encode.dfy`).
  - There is one decoder per struct. The decoder of `Feedback` decodes a whole
    report.
  - There is one encoder per struct. It builds the element tree that the
    decoder reads: field tags in declaration order, absent optional fields
    omitted, repeated fields in list order, and the root tagged `feedback`.
    It is the partner the round-trip lemmas need. It is not a claim about the
    text serde_xml_rs would write (see "## Left out").
- **Round trip** (`roundtrip.dfy`). Decoding what the encoder wrote gives the
  value back, for every value the decoder can produce.
  - The one exception is structural: an `Option<Vec<T>>` holding `Some([])` is
    written exactly like `None`. The empty list of `Vec` fields is the same case.
    `EmptyErrorListIsAbsent` states this.
  - So the round trip holds exactly on the `WellFormed` values, as
    `RoundTripExactlyOnWellFormed` states.
- **Compatibility** (`compat.dfy`). For each record type, two elements whose
  children agree on every field of the record decode alike. Agreeing means the
  same elements, in the same order, under each field's tag. The lemmas are about
  the children of one element:
  - A child whose tag is not a field of the record can be inserted anywhere
    without changing the decode. The `np` element of a `policy_published`
    written under RFC 9091 is such a child.
  - Two adjacent children with different tags can be exchanged without
    changing the decode. In serde_xml_rs, an exchange that splits a run of
    repeated elements is an exception (see "## Left out").
  - A change inside a nested record's element is not covered by these lemmas.
- **The library's sample report** (`fixture.dfy`). The sample element tree of
  the library's test decodes to exactly the `Feedback` value the test expects.

An IP address is either four octets (`V4`) or sixteen (`V6`), as
`std::net::IpAddr` is. It is read and written through an `IpText` value, which
holds a parser and a printer that the decoder and encoder are given. The
round-trip lemmas require only that parsing what the printer writes gives every
address back (`ValidIpText`). `Schema.OctetCodecIsValid` shows a codec that
meets this requirement, so the requirement can be met.

Constraints that the DMARC format (RFC 7489) states or that a reader may expect,
but that the code does not enforce; the model follows the code:
- The code does not bound `pct` to 0–100, the range section 6.3 of RFC 7489
  gives it. The field is a `u8`, so 0–255 decode
  and 256 is `OutOfRange`.
- The code does not reject `count = 0`.
- The code does not check `begin <= end`.
- The code does not check that `org_name` is non-empty.
- Element text is taken as the XML reader hands it over. The schema itself
  treats no empty element as absent and no empty text as an error.

## Model

| member | source | states |
|---|---|---|
| Tokens.EncodeAlignment | dmarcer/src/schema.rs:29-35 | every alignment token is a lower-case word |
| Tokens.DecodeAlignment | dmarcer/src/schema.rs:29-35 | a text decodes to a variant exactly when it is that variant's token; any other text fails with `UnknownVariant` of that text |
| Tokens.AlignmentRenameRule | dmarcer/src/schema.rs:31-35 | each token is the variant's Rust name under the `lowercase` rule (`R` → `r`, `S` → `s`) |
| Tokens.EncodeDisposition | dmarcer/src/schema.rs:37-44 | every disposition token is a lower-case word |
| Tokens.DecodeDisposition | dmarcer/src/schema.rs:37-44 | a text decodes to a disposition exactly when it is its token; otherwise `UnknownVariant` |
| Tokens.DispositionRenameRule | dmarcer/src/schema.rs:39-44 | each token is the Rust name lower-cased (`none`, `quarantine`, `reject`) |
| Tokens.EncodeDmarcResult | dmarcer/src/schema.rs:57-63 | every DMARC result token is a lower-case word |
| Tokens.DecodeDmarcResult | dmarcer/src/schema.rs:57-63 | a text decodes to a DMARC result exactly when it is its token; otherwise `UnknownVariant` |
| Tokens.DmarcResultRenameRule | dmarcer/src/schema.rs:59-63 | each token is the Rust name lower-cased (`pass`, `fail`) |
| Tokens.EncodeDkimResult | dmarcer/src/schema.rs:132-143 | every DKIM result token is a lower-case word, with no underscore |
| Tokens.DecodeDkimResult | dmarcer/src/schema.rs:132-143 | a text decodes to a DKIM result exactly when it is its token; otherwise `UnknownVariant` |
| Tokens.DkimResultRenameRule | dmarcer/src/schema.rs:134-143 | each token is the Rust name lower-cased, so `TempError` is `temperror` and `PermError` is `permerror` |
| Tokens.EncodeSpfResult | dmarcer/src/schema.rs:160-173 | every SPF result token is a lower-case word, with no underscore |
| Tokens.DecodeSpfResult | dmarcer/src/schema.rs:160-173 | a text decodes to an SPF result exactly when it is its token; otherwise `UnknownVariant` |
| Tokens.SpfResultRenameRule | dmarcer/src/schema.rs:162-173 | each token is the Rust name lower-cased, so `SoftFail` is `softfail` |
| Tokens.EncodePolicyOverride | dmarcer/src/schema.rs:65-91 | every override token is lower-case letters and underscores, starting and ending with a letter |
| Tokens.DecodePolicyOverride | dmarcer/src/schema.rs:65-91 | a text decodes to an override type exactly when it is its token; otherwise `UnknownVariant` |
| Tokens.PolicyOverrideRenameRule | dmarcer/src/schema.rs:67-91 | each token is the Rust name under the `snake_case` rule (`SampledOut` → `sampled_out`, `TrustedForwarder` → `trusted_forwarder`, ...) |
| Tokens.SnakeOneWord | dmarcer/src/schema.rs:67 | `snake_case` of a one-word name lower-cases its initial and inserts nothing |
| Tokens.SnakeTwoWords | dmarcer/src/schema.rs:67 | `snake_case` of a two-word name joins the lower-cased words with one underscore |
| Tokens.TokensAreInjective | dmarcer/src/schema.rs:29-173 | in each of the six enumerations, distinct variants have distinct tokens |
| Tokens.TokensAreCaseSensitive | dmarcer/src/schema.rs:29-173 | the Rust spellings `R`, `Quarantine`, `Pass`, `SampledOut`, `TempError`, `SoftFail` are rejected |
| Tokens.DkimResultsAreLowercase | dmarcer/src/schema.rs:134-143 | `temp_error` and `perm_error` are not DKIM results |
| Tokens.SpfResultsAreLowercase | dmarcer/src/schema.rs:162-173 | `soft_fail` and `temp_error` are not SPF results |
| Tokens.OverridesAreSnakeCase | dmarcer/src/schema.rs:67-91 | `sampledout` and `trustedforwarder` are not override types |
| Numbers.ParseUnsigned | dmarcer/src/schema.rs:14-15 | a text is accepted exactly when it is `+`? followed by one or more digits and its value is at most the bound, and then yields that value; text whose leading digits exceed the bound is `OutOfRange`, whatever follows them; any other text is `InvalidInteger` |
| Numbers.ParseUnsignedIsDigitScan | dmarcer/src/schema.rs:14-15 | on every text and bound the parser gives the same result as reading the digits from the left and stopping at the first non-digit or overflow |
| Numbers.OverflowBeforeBadCharacter | dmarcer/src/schema.rs:54 | `256x` as a `u8` and `4294967296-` as a `u32` are `OutOfRange`, not malformed |
| Numbers.BadCharacterWithinRange | dmarcer/src/schema.rs:54 | `25x` as a `u8` is `InvalidInteger` |
| Numbers.ParseU8 | dmarcer/src/schema.rs:54 | `u8::from_str`: a literal of value at most 255 gives that value; text whose leading digits exceed 255 is `OutOfRange`; any other text is `InvalidInteger` |
| Numbers.ParseU32 | dmarcer/src/schema.rs:14-15 | `u32::from_str`: a literal of value at most 4294967295 gives that value; text whose leading digits exceed 4294967295 is `OutOfRange`; any other text is `InvalidInteger` |
| Numbers.ShowNat | dmarcer/src/schema.rs:14-15 | the printed form of `n` is a non-empty digit string of value `n` with no leading zero |
| Numbers.ParseShow | dmarcer/src/schema.rs:14-15 | reading back the printed form of `n` gives `n` when `n` is within the bound and `OutOfRange` otherwise |
| Numbers.U8Bound | dmarcer/src/schema.rs:54 | the printed form of `n` decodes as a `u8` exactly when `n <= 255`, and then to `n` |
| Numbers.U32Bound | dmarcer/src/schema.rs:14-15 | the printed form of `n` decodes as a `u32` exactly when `n <= 4294967295`, and then to `n` |
| Numbers.PctBoundaries | dmarcer/src/schema.rs:54 | `pct` accepts `0` and `255` and rejects `256` as out of range |
| Numbers.U32Boundaries | dmarcer/src/schema.rs:117 | `count`, `begin` and `end` accept `4294967295` and reject `4294967296` as out of range |
| Numbers.SignAndZerosAccepted | dmarcer/src/schema.rs:54 | `+100` decodes to 100 and `007` to 7 |
| Numbers.MalformedRejected | dmarcer/src/schema.rs:54 | empty text, a bare `+`, `-0` and `1e2` are `InvalidInteger` |
| ElementTree.RequiredChild | dmarcer/src/schema.rs:49 | a plain field is found exactly when one element has its tag; none is `MissingField`, more than one is `DuplicateField` |
| ElementTree.OptionalChild | dmarcer/src/schema.rs:23 | an `Option` field succeeds exactly when at most one element has its tag, and is absent exactly when none does; more than one is `DuplicateField` |
| ElementTree.RepeatedChildren | dmarcer/src/schema.rs:191 | a `Vec` field succeeds exactly when some element has its tag, and yields all of them in document order; none is `MissingField` |
| ElementTree.OptionalChildren | dmarcer/src/schema.rs:26 | an `Option<Vec>` field is absent exactly when no element has its tag, and otherwise yields all of them in document order |
| ElementTree.DecodeEach | dmarcer/src/schema.rs:191 | a list of elements decodes exactly when each one does, into the items in the same order |
| ElementTree.DecodeEachInverse | dmarcer/src/schema.rs:191 | decoding the encodings of a list gives the list back when each item round-trips |
| ElementTree.NamedSkipsOther | dmarcer/src/lib.rs:40 | an element with another tag inserted anywhere does not change what a field finds |
| ElementTree.NamedIgnoresSwap | dmarcer/src/lib.rs:58-59 | swapping two adjacent elements with different tags does not change what any field finds |
| ElementTree.UnknownSiblingKeepsFields | dmarcer/src/lib.rs:40 | an element that is not a field of a struct leaves every field of that struct unchanged |
| ElementTree.SwapKeepsFields | dmarcer/src/lib.rs:58-59 | adjacent elements with different tags can be exchanged without changing any field |
| Decoder.TextField | dmarcer/src/schema.rs:21-24 | a required scalar field with no element is `MissingField`, with several is `DuplicateField`, and with exactly one is the result of parsing that element's text |
| Decoder.OptionalText | dmarcer/src/schema.rs:23 | an `Option<String>` field succeeds exactly when at most one element has its tag; it is `None` exactly when none does, and otherwise that element's text; several are `DuplicateField` |
| Decoder.ElementField | dmarcer/src/schema.rs:25 | a required struct field with no element is `MissingField`, with several is `DuplicateField`, and with exactly one is the decoding of that element |
| Decoder.OptionalElement | dmarcer/src/schema.rs:120 | an optional struct field is `None` when no element has its tag, `DuplicateField` when several do, and otherwise the decoding of the single element, or its error |
| Decoder.RepeatedElement | dmarcer/src/schema.rs:191 | a `Vec` field with no element is `MissingField`; otherwise it is the element-by-element decoding of every element with its tag, in document order, failing when one of them fails |
| Decoder.OptionalRepeatedElement | dmarcer/src/schema.rs:188 | an `Option<Vec>` field is `None` when no element has its tag; otherwise it is the element-by-element decoding of all of them in document order, failing when one of them fails |
| Decoder.DecodeDateRange | dmarcer/src/schema.rs:13-16 | success means `begin` and `end` each occur exactly once |
| Decoder.DecodeReportMetadata | dmarcer/src/schema.rs:20-27 | success means every field occurs as often as its type admits and the result is well formed; `extra_contact_info` and `error` are `None` exactly when their elements are absent; the `error` list holds the texts of the `error` elements in document order |
| Decoder.DecodePolicyPublished | dmarcer/src/schema.rs:48-55 | success means all six fields occur exactly once |
| Decoder.DecodePolicyOverrideReason | dmarcer/src/schema.rs:96-99 | success means the fields occur as their types admit and the variant is read from the one element named `type` |
| Decoder.DecodePolicyEvaluated | dmarcer/src/schema.rs:104-109 | success means the fields occur as their types admit and the result is well formed; `reason` is `None` exactly when no `reason` element is present, and otherwise holds the decoding of each `reason` element in document order |
| Decoder.ParseAddress | dmarcer/src/schema.rs:114 | the address text decodes exactly when the address parser accepts it, to the parser's address |
| Decoder.DecodeRow | dmarcer/src/schema.rs:112-121 | success means the fields occur as their types admit and the result is well formed; `policy_evaluated` is `None` exactly when its element is absent |
| Decoder.DecodeIdentifier | dmarcer/src/schema.rs:124-130 | success means the fields occur as their types admit; `envelope_to` is `None` exactly when its element is absent |
| Decoder.DecodeDkimAuthResult | dmarcer/src/schema.rs:146-158 | success means the fields occur as their types admit; `selector` and `human_result` are `None` exactly when their elements are absent |
| Decoder.DecodeSpfAuthResult | dmarcer/src/schema.rs:176-182 | success means both fields occur exactly once |
| Decoder.DecodeAuthResult | dmarcer/src/schema.rs:186-192 | success means the fields occur as their types admit, with at least one `spf`; `spf` holds the decoding of each `spf` element and `dkim`, when present, of each `dkim` element, both in document order; `dkim` is `None` exactly when no `dkim` element is present |
| Decoder.DecodeRecord | dmarcer/src/schema.rs:197-201 | success means all three fields occur exactly once and the record is well formed |
| Decoder.DecodeRecords | dmarcer/src/schema.rs:208 | the records are one per `record` element, at least one, each the decoding of its element, in document order |
| Decoder.DecodeFeedback | dmarcer/src/schema.rs:205-209 | success means the report's fields occur as their types admit and it is well formed, with one record per `record` element, each decoded from its element in order |
| Schema.FieldTablesAreDistinct | dmarcer/src/schema.rs:13-209 | no struct has two fields with the same element name |
| Schema.OctetCodecIsValid | dmarcer/src/schema.rs:114 | some codec for four- and sixteen-octet addresses reads back every address it writes, so the round-trip requirement on the address codec can be met |
| Encoder.DateRangeChunks | dmarcer/src/schema.rs:13-16 | the elements written for the fields come in one group per field, in declaration order (`begin`, `end`), each group holding only elements tagged with its field's name |
| Encoder.EncodeDateRange | dmarcer/src/schema.rs:13-16 | the written element has the tag it is given and no text of its own |
| Encoder.ReportMetadataChunks | dmarcer/src/schema.rs:20-27 | the elements written for the fields come in one group per field, in declaration order (`org_name`, `email`, `extra_contact_info`, `report_id`, `date_range`, `error`), each group holding only elements tagged with its field's name |
| Encoder.EncodeReportMetadata | dmarcer/src/schema.rs:20-27 | the written element has the tag it is given and no text of its own |
| Encoder.PolicyPublishedChunks | dmarcer/src/schema.rs:48-55 | the elements written for the fields come in one group per field, in declaration order (`domain`, `adkim`, `aspf`, `p`, `sp`, `pct`), each group holding only elements tagged with its field's name |
| Encoder.EncodePolicyPublished | dmarcer/src/schema.rs:48-55 | the written element has the tag it is given and no text of its own |
| Encoder.PolicyOverrideReasonChunks | dmarcer/src/schema.rs:96-99 | the elements written for the fields come in one group per field, in declaration order (`type`, `comment`), each group holding only elements tagged with its field's name |
| Encoder.EncodePolicyOverrideReason | dmarcer/src/schema.rs:96-99 | the written element has the tag it is given and no text of its own |
| Encoder.PolicyEvaluatedChunks | dmarcer/src/schema.rs:104-109 | the elements written for the fields come in one group per field, in declaration order (`disposition`, `dkim`, `spf`, `reason`), each group holding only elements tagged with its field's name |
| Encoder.EncodePolicyEvaluated | dmarcer/src/schema.rs:104-109 | the written element has the tag it is given and no text of its own |
| Encoder.RowChunks | dmarcer/src/schema.rs:112-121 | the elements written for the fields come in one group per field, in declaration order (`source_ip`, `count`, `policy_evaluated`), each group holding only elements tagged with its field's name |
| Encoder.EncodeRow | dmarcer/src/schema.rs:112-121 | the written element has the tag it is given and no text of its own |
| Encoder.IdentifierChunks | dmarcer/src/schema.rs:124-130 | the elements written for the fields come in one group per field, in declaration order (`envelope_to`, `header_from`), each group holding only elements tagged with its field's name |
| Encoder.EncodeIdentifier | dmarcer/src/schema.rs:124-130 | the written element has the tag it is given and no text of its own |
| Encoder.DkimAuthResultChunks | dmarcer/src/schema.rs:146-158 | the elements written for the fields come in one group per field, in declaration order (`domain`, `selector`, `result`, `human_result`), each group holding only elements tagged with its field's name |
| Encoder.EncodeDkimAuthResult | dmarcer/src/schema.rs:146-158 | the written element has the tag it is given and no text of its own |
| Encoder.SpfAuthResultChunks | dmarcer/src/schema.rs:176-182 | the elements written for the fields come in one group per field, in declaration order (`domain`, `result`), each group holding only elements tagged with its field's name |
| Encoder.EncodeSpfAuthResult | dmarcer/src/schema.rs:176-182 | the written element has the tag it is given and no text of its own |
| Encoder.AuthResultChunks | dmarcer/src/schema.rs:186-192 | the elements written for the fields come in one group per field, in declaration order (`dkim`, `spf`), each group holding only elements tagged with its field's name and the `spf` chunk has one element per SPF result |
| Encoder.EncodeAuthResult | dmarcer/src/schema.rs:186-192 | the written element has the tag it is given and no text of its own |
| Encoder.RecordChunks | dmarcer/src/schema.rs:197-201 | the elements written for the fields come in one group per field, in declaration order (`row`, `identifiers`, `auth_results`), each group holding only elements tagged with its field's name |
| Encoder.EncodeRecord | dmarcer/src/schema.rs:197-201 | the written element has the tag it is given and no text of its own |
| Encoder.FeedbackChunks | dmarcer/src/schema.rs:205-209 | the elements written for the fields come in one group per field, in declaration order (`report_metadata`, `policy_published`, `record`), each group holding only elements tagged with its field's name and the `record` chunk has one element per record |
| Encoder.EncodeFeedback | dmarcer/src/schema.rs:205-209 | the written element has the tag `feedback` and no text of its own |
| Encoder.DateRangeEncodingConforms | dmarcer/src/schema.rs:13-16 | the encoder writes each field of a date range exactly once, in declaration order |
| Encoder.ReportMetadataEncodingConforms | dmarcer/src/schema.rs:20-27 | the encoder writes each metadata field as often as its type admits, in declaration order |
| Encoder.PolicyPublishedEncodingConforms | dmarcer/src/schema.rs:48-55 | the encoder writes each of the six policy fields exactly once, in declaration order |
| Encoder.PolicyOverrideReasonEncodingConforms | dmarcer/src/schema.rs:96-99 | the encoder writes `type` once and `comment` at most once, in that order |
| Encoder.PolicyEvaluatedEncodingConforms | dmarcer/src/schema.rs:104-109 | the encoder writes the evaluated fields as their types admit, in declaration order |
| Encoder.RowEncodingConforms | dmarcer/src/schema.rs:112-121 | the encoder writes the row fields as their types admit, in declaration order |
| Encoder.IdentifierEncodingConforms | dmarcer/src/schema.rs:124-130 | the encoder writes the identifier fields as their types admit, in declaration order |
| Encoder.DkimAuthResultEncodingConforms | dmarcer/src/schema.rs:146-158 | the encoder writes the DKIM result fields as their types admit, in declaration order |
| Encoder.SpfAuthResultEncodingConforms | dmarcer/src/schema.rs:176-182 | the encoder writes `domain` and `result` once each, in that order |
| Encoder.AuthResultEncodingConforms | dmarcer/src/schema.rs:186-192 | the encoded children are in declaration order, and they conform exactly when the `spf` list is non-empty |
| Encoder.RecordEncodingConforms | dmarcer/src/schema.rs:197-201 | the encoder writes `row`, `identifiers` and `auth_results` once each, in that order |
| Encoder.FeedbackEncodingConforms | dmarcer/src/schema.rs:205-209 | the encoded report is in declaration order, and it conforms exactly when it has at least one record |
| RoundTrip.DateRangeRoundTrip | dmarcer/src/schema.rs:12-16 | decoding an encoded date range gives it back |
| RoundTrip.ReportMetadataRoundTrip | dmarcer/src/schema.rs:19-27 | decoding an encoded well-formed metadata gives it back |
| RoundTrip.PolicyPublishedRoundTrip | dmarcer/src/schema.rs:47-55 | decoding an encoded published policy gives it back |
| RoundTrip.PolicyOverrideReasonRoundTrip | dmarcer/src/schema.rs:95-100 | decoding an encoded override reason gives it back |
| RoundTrip.PolicyEvaluatedRoundTrip | dmarcer/src/schema.rs:103-109 | decoding an encoded well-formed evaluated policy gives it back |
| RoundTrip.RowRoundTrip | dmarcer/src/schema.rs:111-121 | decoding an encoded well-formed row gives it back, for an address printer whose output the parser reads back |
| RoundTrip.IdentifierRoundTrip | dmarcer/src/schema.rs:123-130 | decoding encoded identifiers gives them back |
| RoundTrip.DkimAuthResultRoundTrip | dmarcer/src/schema.rs:145-158 | decoding an encoded DKIM result gives it back |
| RoundTrip.SpfAuthResultRoundTrip | dmarcer/src/schema.rs:175-182 | decoding an encoded SPF result gives it back |
| RoundTrip.AuthResultRoundTrip | dmarcer/src/schema.rs:185-192 | decoding encoded well-formed auth results gives them back |
| RoundTrip.RecordRoundTrip | dmarcer/src/schema.rs:196-201 | decoding an encoded well-formed record gives it back |
| RoundTrip.FeedbackRoundTrip | dmarcer/src/schema.rs:204-209 | decoding an encoded well-formed report gives it back |
| RoundTrip.RoundTripExactlyOnWellFormed | dmarcer/src/schema.rs:204-209 | a report survives encoding and decoding if and only if it is well formed |
| RoundTrip.ReencodeIsStable | dmarcer/src/schema.rs:204-209 | re-encoding a decoded report and decoding it again gives the same report |
| RoundTrip.EncodeIsInjective | dmarcer/src/schema.rs:204-209 | two well-formed reports that encode to the same tree are equal |
| RoundTrip.EmptyErrorListIsAbsent | dmarcer/src/schema.rs:26 | `error: Some([])` is written exactly like `error: None`, so it does not round-trip |
| Compatibility.DateRangeReadsOnlyItsFields | dmarcer/src/schema.rs:13-16 | two child lists that agree on `begin` and `end` decode alike |
| Compatibility.ReportMetadataReadsOnlyItsFields | dmarcer/src/schema.rs:20-27 | two child lists that agree on the metadata fields decode alike |
| Compatibility.ReportMetadataReadsNamed | dmarcer/src/schema.rs:20-27 | two elements whose children agree on each of the six metadata tags, named one by one, decode alike |
| Compatibility.PolicyPublishedReadsOnlyItsFields | dmarcer/src/schema.rs:48-55 | two child lists that agree on the six policy fields decode alike |
| Compatibility.PolicyOverrideReasonReadsOnlyItsFields | dmarcer/src/schema.rs:96-99 | two child lists that agree on `type` and `comment` decode alike |
| Compatibility.PolicyEvaluatedReadsOnlyItsFields | dmarcer/src/schema.rs:104-109 | two child lists that agree on the evaluated fields decode alike |
| Compatibility.RowReadsOnlyItsFields | dmarcer/src/schema.rs:112-121 | two child lists that agree on the row fields decode alike |
| Compatibility.IdentifierReadsOnlyItsFields | dmarcer/src/schema.rs:124-130 | two child lists that agree on the identifier fields decode alike |
| Compatibility.DkimAuthResultReadsOnlyItsFields | dmarcer/src/schema.rs:146-158 | two child lists that agree on the DKIM result fields decode alike |
| Compatibility.SpfAuthResultReadsOnlyItsFields | dmarcer/src/schema.rs:176-182 | two child lists that agree on `domain` and `result` decode alike |
| Compatibility.AuthResultReadsOnlyItsFields | dmarcer/src/schema.rs:186-192 | two child lists that agree on `dkim` and `spf` decode alike |
| Compatibility.RecordReadsOnlyItsFields | dmarcer/src/schema.rs:197-201 | two child lists that agree on the record fields decode alike |
| Compatibility.FeedbackReadsOnlyItsFields | dmarcer/src/schema.rs:205-209 | two child lists that agree on the report fields decode alike |
| Compatibility.PolicyPublishedSkipsUnknown | dmarcer/src/lib.rs:33-41 | an element that is not a policy field, such as `np`, can be inserted anywhere without changing the decoded policy |
| Compatibility.DkimAuthResultIgnoresFieldOrder | dmarcer/src/lib.rs:56-60 | two adjacent DKIM result elements with different tags, such as `result` and `selector`, decode alike in either order |
| Fixture.SampleMetadataDecodes | dmarcer/src/lib.rs:75-87 | the sample's `report_metadata` decodes to the expected metadata, with `extra_contact_info` present and `error` absent |
| Fixture.SamplePolicyDecodes | dmarcer/src/lib.rs:88-95 | the sample's `policy_published`, `np` included, decodes to the expected policy |
| Fixture.SampleDkimDecodes | dmarcer/src/lib.rs:56-60 | the sample's DKIM result, with `selector` after `result`, decodes to the expected value |
| Fixture.SampleRecordDecodes | dmarcer/src/lib.rs:96-123 | the sample's one `record` decodes to the expected record, for an address parser that reads the sample's `source_ip` as 185.70.43.17 |
| Fixture.SampleReportDecodes | dmarcer/src/lib.rs:20-125 | the whole sample report decodes to exactly the `Feedback` value the test expects |

## Left out

- XML lexing, the `<?xml ...?>` declaration, whitespace handling and the
  serde / serde_xml_rs machinery are not modelled. The model starts from an
  element tree whose texts are what the XML reader hands over.
- The textual grammar of `std::net::IpAddr` is not modelled. The decoder and
  encoder take its parser and printer as an `IpText` parameter. The round-trip
  lemmas assume only that the parser reads back every four- and sixteen-octet
  address the printer writes.
- serde_xml_rs collects a repeated field only from consecutive elements.
  Repeats that are split by other elements are not modelled: `Named` collects
  every element with the tag wherever it stands.
- `Decoder.DecodeFeedback`: when a tree has several defects, which error is
  reported is not stated. The model reports the first defect in field order.
  serde reports whichever defect it meets first in document order.
- The tag of the root element is not checked, since serde_xml_rs does not check
  it. The encoder writes `feedback`, the tag of RFC 7489 Appendix C.
- Encoder.EncodeDateRange: the contract states only the tag and the empty text; what the children hold is stated by `Encoder.DateRangeEncodingConforms` and `RoundTrip.DateRangeRoundTrip`, which keeps those proofs apart from every caller of the encoder.
- Encoder.EncodeReportMetadata: the contract states only the tag and the empty text; what the children hold is stated by `Encoder.ReportMetadataEncodingConforms` and `RoundTrip.ReportMetadataRoundTrip`, which keeps those proofs apart from every caller of the encoder.
- Encoder.EncodePolicyPublished: the contract states only the tag and the empty text; what the children hold is stated by `Encoder.PolicyPublishedEncodingConforms` and `RoundTrip.PolicyPublishedRoundTrip`, which keeps those proofs apart from every caller of the encoder.
- Encoder.EncodePolicyOverrideReason: the contract states only the tag and the empty text; what the children hold is stated by `Encoder.PolicyOverrideReasonEncodingConforms` and `RoundTrip.PolicyOverrideReasonRoundTrip`, which keeps those proofs apart from every caller of the encoder.
- Encoder.EncodePolicyEvaluated: the contract states only the tag and the empty text; what the children hold is stated by `Encoder.PolicyEvaluatedEncodingConforms` and `RoundTrip.PolicyEvaluatedRoundTrip`, which keeps those proofs apart from every caller of the encoder.
- Encoder.EncodeRow: the contract states only the tag and the empty text; what the children hold is stated by `Encoder.RowEncodingConforms` and `RoundTrip.RowRoundTrip`, which keeps those proofs apart from every caller of the encoder.
- Encoder.EncodeIdentifier: the contract states only the tag and the empty text; what the children hold is stated by `Encoder.IdentifierEncodingConforms` and `RoundTrip.IdentifierRoundTrip`, which keeps those proofs apart from every caller of the encoder.
- Encoder.EncodeDkimAuthResult: the contract states only the tag and the empty text; what the children hold is stated by `Encoder.DkimAuthResultEncodingConforms` and `RoundTrip.DkimAuthResultRoundTrip`, which keeps those proofs apart from every caller of the encoder.
- Encoder.EncodeSpfAuthResult: the contract states only the tag and the empty text; what the children hold is stated by `Encoder.SpfAuthResultEncodingConforms` and `RoundTrip.SpfAuthResultRoundTrip`, which keeps those proofs apart from every caller of the encoder.
- Encoder.EncodeAuthResult: the contract states only the tag and the empty text; what the children hold is stated by `Encoder.AuthResultEncodingConforms` and `RoundTrip.AuthResultRoundTrip`, which keeps those proofs apart from every caller of the encoder.
- Encoder.EncodeRecord: the contract states only the tag and the empty text; what the children hold is stated by `Encoder.RecordEncodingConforms` and `RoundTrip.RecordRoundTrip`, which keeps those proofs apart from every caller of the encoder.
- Encoder.EncodeFeedback: the contract states only the tag and the empty text; what the children hold is stated by `Encoder.FeedbackEncodingConforms` and `RoundTrip.FeedbackRoundTrip`, which keeps those proofs apart from every caller of the encoder.
- serde's error messages and field paths are left out. Failures are the coarse
  kinds of `Errors.DecodeError`.
- Range checks the code does not make are left out: `pct` within 0–100,
  `count >= 1`, `begin <= end` and non-empty strings. None of them is
  attributed to the decoder.
- The `add` function in `dmarcer/src/lib.rs` is a placeholder unrelated to
  reports and is not part of this model.
- What serde_xml_rs would write for a report is not claimed. The derived
  `Serialize` would name the root after the struct, `Feedback`, since
  `Feedback` carries no `rename`. No `Option` field carries
  `skip_serializing_if`, so the derive hands every `None` field to the writer,
  and how the writer renders a `None` field or a list is not modelled. The
  encoder is the inverse of the decoder over element trees, nothing more.
  Serialisation to XML text is left out as well.

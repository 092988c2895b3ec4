/**
 * The six closed enumerations of the aggregate-report schema and their wire
 * tokens. Serialisation and deserialisation share one rename rule per
 * enumeration, so each enumeration has one token table: `EncodeX` gives the
 * token of a variant and `DecodeX` accepts exactly the tokens `EncodeX` produces,
 * case-sensitively, and fails with `UnknownVariant` on any other text.
 */
module Tokens {
  import opened Wrappers
  import opened Errors

  // ---------------------------------------------------------------------------
  // The rename rules applied to the Rust variant identifiers
  // ---------------------------------------------------------------------------

  predicate IsUpper(c: char) { 'A' <= c <= 'Z' }

  predicate IsLower(c: char) { 'a' <= c <= 'z' }

  /** ASCII lower-casing of one character. */
  function Lower(c: char): (l: char)
    ensures IsUpper(c) ==> IsLower(l) && l as int == c as int + 32
    ensures !IsUpper(c) ==> l == c
  {
    if IsUpper(c) then (c as int + 32) as char else c
  }

  /** The `lowercase` rule: every letter lower-cased, nothing inserted. */
  function Lowercase(ident: string): (t: string)
    ensures |t| == |ident|
  {
    seq(|ident|, i requires 0 <= i < |ident| => Lower(ident[i]))
  }

  /** The `snake_case` rule: an underscore before every upper-case letter but the first, then lower-cased. */
  function SnakeCase(ident: string): (t: string)
  {
    if ident == [] then [] else [Lower(ident[0])] + SnakeTail(ident[1..])
  }

  function SnakeTail(s: string): string
  {
    if s == [] then [] else (if IsUpper(s[0]) then "_" else "") + [Lower(s[0])] + SnakeTail(s[1..])
  }

  predicate AllLower(s: string) { forall i :: 0 <= i < |s| ==> IsLower(s[i]) }

  /** A token made of lower-case letters only: what `lowercase` yields for a capitalised identifier. */
  predicate IsLowercaseToken(t: string) { |t| > 0 && AllLower(t) }

  /** A token of lower-case words joined by underscores: what `snake_case` yields. */
  predicate IsSnakeCaseToken(t: string)
  {
    && |t| > 0 && IsLower(t[0]) && IsLower(t[|t| - 1])
    && forall i :: 0 <= i < |t| ==> IsLower(t[i]) || t[i] == '_'
  }

  lemma {:induction false} SnakeTailAppend(a: string, b: string)
    ensures SnakeTail(a + b) == SnakeTail(a) + SnakeTail(b)
  {
    if a == [] {
      assert a + b == b;
    } else {
      assert (a + b)[1..] == a[1..] + b;
      SnakeTailAppend(a[1..], b);
    }
  }

  lemma {:induction false} SnakeTailOfLower(s: string)
    requires AllLower(s)
    ensures SnakeTail(s) == s
  {
    if s != [] {
      SnakeTailOfLower(s[1..]);
    }
  }

  /** `snake_case` of a one-word identifier `U w`. */
  lemma {:induction false} SnakeOneWord(u: char, w: string)
    requires IsUpper(u) && AllLower(w)
    ensures SnakeCase([u] + w) == [Lower(u)] + w
  {
    assert ([u] + w)[1..] == w;
    SnakeTailOfLower(w);
  }

  /** `snake_case` of a two-word identifier `U w V x` is `u w _ v x`. */
  lemma {:induction false} SnakeTwoWords(u: char, w: string, v: char, x: string)
    requires IsUpper(u) && IsUpper(v) && AllLower(w) && AllLower(x)
    ensures SnakeCase([u] + w + [v] + x) == [Lower(u)] + w + "_" + [Lower(v)] + x
  {
    assert ([u] + w + [v] + x)[1..] == w + ([v] + x);
    SnakeTailAppend(w, [v] + x);
    SnakeTailOfLower(w);
    assert ([v] + x)[1..] == x;
    SnakeTailOfLower(x);
  }

  // ---------------------------------------------------------------------------
  // AlignmentType: lowercase
  // ---------------------------------------------------------------------------

  /** Alignment mode for DKIM and SPF: relaxed or strict. */
  datatype AlignmentType = R | S

  /** The Rust identifier of each variant, to which the rename rule applies. */
  function AlignmentIdent(a: AlignmentType): string
  {
    match a
    case R => "R"
    case S => "S"
  }

  function EncodeAlignment(a: AlignmentType): (t: string)
    ensures IsLowercaseToken(t)
  {
    match a
    case R => "r"
    case S => "s"
  }

  function DecodeAlignment(t: string): (r: Decoded<AlignmentType>)
    ensures forall a :: r == Ok(a) <==> EncodeAlignment(a) == t
    ensures r.Err? ==> r.error == UnknownVariant(t)
  {
    match t
    case "r" => Ok(R)
    case "s" => Ok(S)
    case _ => Err(UnknownVariant(t))
  }

  lemma AlignmentRenameRule(a: AlignmentType)
    ensures EncodeAlignment(a) == Lowercase(AlignmentIdent(a))
  {
  }

  // ---------------------------------------------------------------------------
  // DispositionType: lowercase
  // ---------------------------------------------------------------------------

  /** The policy action requested by `p` and `sp`, or applied to messages. */
  datatype DispositionType = None | Quarantine | Reject

  function DispositionIdent(v: DispositionType): string
  {
    match v
    case None => "None"
    case Quarantine => "Quarantine"
    case Reject => "Reject"
  }

  function EncodeDisposition(v: DispositionType): (t: string)
    ensures IsLowercaseToken(t)
  {
    match v
    case None => "none"
    case Quarantine => "quarantine"
    case Reject => "reject"
  }

  function DecodeDisposition(t: string): (r: Decoded<DispositionType>)
    ensures forall v :: r == Ok(v) <==> EncodeDisposition(v) == t
    ensures r.Err? ==> r.error == UnknownVariant(t)
  {
    match t
    case "none" => Ok(DispositionType.None)
    case "quarantine" => Ok(DispositionType.Quarantine)
    case "reject" => Ok(DispositionType.Reject)
    case _ => Err(UnknownVariant(t))
  }

  lemma DispositionRenameRule(v: DispositionType)
    ensures EncodeDisposition(v) == Lowercase(DispositionIdent(v))
  {
  }

  // ---------------------------------------------------------------------------
  // DmarcResultType: lowercase
  // ---------------------------------------------------------------------------

  /** The DMARC-aligned verdict for DKIM or SPF. */
  datatype DmarcResultType = Pass | Fail

  function DmarcResultIdent(v: DmarcResultType): string
  {
    match v
    case Pass => "Pass"
    case Fail => "Fail"
  }

  function EncodeDmarcResult(v: DmarcResultType): (t: string)
    ensures IsLowercaseToken(t)
  {
    match v
    case Pass => "pass"
    case Fail => "fail"
  }

  function DecodeDmarcResult(t: string): (r: Decoded<DmarcResultType>)
    ensures forall v :: r == Ok(v) <==> EncodeDmarcResult(v) == t
    ensures r.Err? ==> r.error == UnknownVariant(t)
  {
    match t
    case "pass" => Ok(DmarcResultType.Pass)
    case "fail" => Ok(DmarcResultType.Fail)
    case _ => Err(UnknownVariant(t))
  }

  lemma DmarcResultRenameRule(v: DmarcResultType)
    ensures EncodeDmarcResult(v) == Lowercase(DmarcResultIdent(v))
  {
  }

  // ---------------------------------------------------------------------------
  // DkimResultType: lowercase
  // ---------------------------------------------------------------------------

  /** A raw DKIM verification result (RFC 5451 section 2.4.1). */
  datatype DkimResultType = None | Pass | Fail | Policy | Neutral | TempError | PermError

  function DkimResultIdent(v: DkimResultType): string
  {
    match v
    case None => "None"
    case Pass => "Pass"
    case Fail => "Fail"
    case Policy => "Policy"
    case Neutral => "Neutral"
    case TempError => "TempError"
    case PermError => "PermError"
  }

  function EncodeDkimResult(v: DkimResultType): (t: string)
    ensures IsLowercaseToken(t)
  {
    match v
    case None => "none"
    case Pass => "pass"
    case Fail => "fail"
    case Policy => "policy"
    case Neutral => "neutral"
    case TempError => "temperror"
    case PermError => "permerror"
  }

  function DecodeDkimResult(t: string): (r: Decoded<DkimResultType>)
    ensures forall v :: r == Ok(v) <==> EncodeDkimResult(v) == t
    ensures r.Err? ==> r.error == UnknownVariant(t)
  {
    match t
    case "none" => Ok(DkimResultType.None)
    case "pass" => Ok(DkimResultType.Pass)
    case "fail" => Ok(DkimResultType.Fail)
    case "policy" => Ok(DkimResultType.Policy)
    case "neutral" => Ok(DkimResultType.Neutral)
    case "temperror" => Ok(DkimResultType.TempError)
    case "permerror" => Ok(DkimResultType.PermError)
    case _ => Err(UnknownVariant(t))
  }

  lemma DkimResultRenameRule(v: DkimResultType)
    ensures EncodeDkimResult(v) == Lowercase(DkimResultIdent(v))
  {
  }

  // ---------------------------------------------------------------------------
  // SpfResultType: lowercase
  // ---------------------------------------------------------------------------

  /** A raw SPF verification result. */
  datatype SpfResultType = None | Neutral | Pass | Fail | SoftFail | TempError | PermError

  function SpfResultIdent(v: SpfResultType): string
  {
    match v
    case None => "None"
    case Neutral => "Neutral"
    case Pass => "Pass"
    case Fail => "Fail"
    case SoftFail => "SoftFail"
    case TempError => "TempError"
    case PermError => "PermError"
  }

  function EncodeSpfResult(v: SpfResultType): (t: string)
    ensures IsLowercaseToken(t)
  {
    match v
    case None => "none"
    case Neutral => "neutral"
    case Pass => "pass"
    case Fail => "fail"
    case SoftFail => "softfail"
    case TempError => "temperror"
    case PermError => "permerror"
  }

  function DecodeSpfResult(t: string): (r: Decoded<SpfResultType>)
    ensures forall v :: r == Ok(v) <==> EncodeSpfResult(v) == t
    ensures r.Err? ==> r.error == UnknownVariant(t)
  {
    match t
    case "none" => Ok(SpfResultType.None)
    case "neutral" => Ok(SpfResultType.Neutral)
    case "pass" => Ok(SpfResultType.Pass)
    case "fail" => Ok(SpfResultType.Fail)
    case "softfail" => Ok(SpfResultType.SoftFail)
    case "temperror" => Ok(SpfResultType.TempError)
    case "permerror" => Ok(SpfResultType.PermError)
    case _ => Err(UnknownVariant(t))
  }

  lemma SpfResultRenameRule(v: SpfResultType)
    ensures EncodeSpfResult(v) == Lowercase(SpfResultIdent(v))
  {
  }

  // ---------------------------------------------------------------------------
  // PolicyOverrideType: snake_case
  // ---------------------------------------------------------------------------

  /** Reasons that may have changed the DMARC disposition actually applied. */
  datatype PolicyOverrideType = Forwarded | SampledOut | TrustedForwarder | MailingList | LocalPolicy | Other

  function PolicyOverrideIdent(v: PolicyOverrideType): string
  {
    match v
    case Forwarded => "Forwarded"
    case SampledOut => "SampledOut"
    case TrustedForwarder => "TrustedForwarder"
    case MailingList => "MailingList"
    case LocalPolicy => "LocalPolicy"
    case Other => "Other"
  }

  function EncodePolicyOverride(v: PolicyOverrideType): (t: string)
    ensures IsSnakeCaseToken(t)
  {
    match v
    case Forwarded => "forwarded"
    case SampledOut => "sampled_out"
    case TrustedForwarder => "trusted_forwarder"
    case MailingList => "mailing_list"
    case LocalPolicy => "local_policy"
    case Other => "other"
  }

  function DecodePolicyOverride(t: string): (r: Decoded<PolicyOverrideType>)
    ensures forall v :: r == Ok(v) <==> EncodePolicyOverride(v) == t
    ensures r.Err? ==> r.error == UnknownVariant(t)
  {
    match t
    case "forwarded" => Ok(Forwarded)
    case "sampled_out" => Ok(SampledOut)
    case "trusted_forwarder" => Ok(TrustedForwarder)
    case "mailing_list" => Ok(MailingList)
    case "local_policy" => Ok(LocalPolicy)
    case "other" => Ok(Other)
    case _ => Err(UnknownVariant(t))
  }

  /** The concrete instances of SnakeOneWord and SnakeTwoWords, one per variant. */
  lemma ForwardedSnake() ensures SnakeCase("Forwarded") == "forwarded"
  {
    assert IsUpper('F') && AllLower("orwarded") && Lower('F') == 'f';
    assert "Forwarded" == ['F'] + "orwarded";
    SnakeOneWord('F', "orwarded");
  }

  lemma OtherSnake() ensures SnakeCase("Other") == "other"
  {
    assert IsUpper('O') && AllLower("ther") && Lower('O') == 'o';
    assert "Other" == ['O'] + "ther";
    SnakeOneWord('O', "ther");
  }

  lemma SampledOutSnake() ensures SnakeCase("SampledOut") == "sampled_out"
  {
    assert IsUpper('S') && IsUpper('O') && AllLower("ampled") && AllLower("ut");
    assert Lower('S') == 's' && Lower('O') == 'o';
    assert "SampledOut" == ['S'] + "ampled" + ['O'] + "ut";
    assert "sampled_out" == ['s'] + "ampled" + "_" + ['o'] + "ut";
    SnakeTwoWords('S', "ampled", 'O', "ut");
  }

  lemma TrustedForwarderSnake() ensures SnakeCase("TrustedForwarder") == "trusted_forwarder"
  {
    assert IsUpper('T') && IsUpper('F') && AllLower("rusted") && AllLower("orwarder");
    assert Lower('T') == 't' && Lower('F') == 'f';
    assert "TrustedForwarder" == ['T'] + "rusted" + ['F'] + "orwarder";
    assert "trusted_forwarder" == ['t'] + "rusted" + "_" + ['f'] + "orwarder";
    SnakeTwoWords('T', "rusted", 'F', "orwarder");
  }

  lemma MailingListSnake() ensures SnakeCase("MailingList") == "mailing_list"
  {
    assert IsUpper('M') && IsUpper('L') && AllLower("ailing") && AllLower("ist");
    assert Lower('M') == 'm' && Lower('L') == 'l';
    assert "MailingList" == ['M'] + "ailing" + ['L'] + "ist";
    assert "mailing_list" == ['m'] + "ailing" + "_" + ['l'] + "ist";
    SnakeTwoWords('M', "ailing", 'L', "ist");
  }

  lemma LocalPolicySnake() ensures SnakeCase("LocalPolicy") == "local_policy"
  {
    assert IsUpper('L') && IsUpper('P') && AllLower("ocal") && AllLower("olicy");
    assert Lower('L') == 'l' && Lower('P') == 'p';
    assert "LocalPolicy" == ['L'] + "ocal" + ['P'] + "olicy";
    assert "local_policy" == ['l'] + "ocal" + "_" + ['p'] + "olicy";
    SnakeTwoWords('L', "ocal", 'P', "olicy");
  }

  lemma PolicyOverrideRenameRule(v: PolicyOverrideType)
    ensures EncodePolicyOverride(v) == SnakeCase(PolicyOverrideIdent(v))
  {
    match v
    case Forwarded => ForwardedSnake();
    case SampledOut => SampledOutSnake();
    case TrustedForwarder => TrustedForwarderSnake();
    case MailingList => MailingListSnake();
    case LocalPolicy => LocalPolicySnake();
    case Other => OtherSnake();
  }

  // ---------------------------------------------------------------------------
  // Properties shared by all six codecs
  // ---------------------------------------------------------------------------

  /** Distinct variants have distinct tokens, in every enumeration. */
  lemma TokensAreInjective()
    ensures forall a, b :: EncodeAlignment(a) == EncodeAlignment(b) ==> a == b
    ensures forall a, b :: EncodeDisposition(a) == EncodeDisposition(b) ==> a == b
    ensures forall a, b :: EncodeDmarcResult(a) == EncodeDmarcResult(b) ==> a == b
    ensures forall a, b :: EncodePolicyOverride(a) == EncodePolicyOverride(b) ==> a == b
    ensures forall a, b :: EncodeDkimResult(a) == EncodeDkimResult(b) ==> a == b
    ensures forall a, b :: EncodeSpfResult(a) == EncodeSpfResult(b) ==> a == b
  {
  }

  /** Decoding is case-sensitive: the Rust spellings of the variants are not tokens. */
  lemma TokensAreCaseSensitive()
    ensures DecodeAlignment("R").Err?
    ensures DecodeDisposition("Quarantine").Err?
    ensures DecodeDmarcResult("Pass").Err?
    ensures DecodePolicyOverride("SampledOut").Err?
    ensures DecodeDkimResult("TempError").Err?
    ensures DecodeSpfResult("SoftFail").Err?
  {
  }

  /** `lowercase` inserts no underscore between the words of a DKIM result. */
  lemma DkimResultsAreLowercase()
    ensures DecodeDkimResult("temp_error").Err? && DecodeDkimResult("perm_error").Err?
  {
  }

  /** `lowercase` inserts no underscore between the words of an SPF result. */
  lemma SpfResultsAreLowercase()
    ensures DecodeSpfResult("soft_fail").Err? && DecodeSpfResult("temp_error").Err?
  {
  }

  /** `snake_case` always inserts an underscore between the words of an override type. */
  lemma OverridesAreSnakeCase()
    ensures DecodePolicyOverride("sampledout").Err? && DecodePolicyOverride("trustedforwarder").Err?
  {
  }
}

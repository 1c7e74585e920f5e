/** Approved artifacts, revocation and the check before execution (common/supply_chain.py). */
module SupplyChain {
  import opened Contracts
  import opened Etcd
  import Leases
  import Text

  const POLICY_KEY := "/distributed-ai/policies/supply-chain"
  const MODELS := "/distributed-ai/artifacts/models/"
  const REVOCATIONS := "/distributed-ai/revocations/artifacts/"
  const CI_KEYS := "/distributed-ai/ci/keys/"

  const DEFAULT_POLICY: SupplyChainPolicy :=
    SupplyChainPolicy(true, true, ["spiffe://distributed-ai.local/ci-builder"], 0, 0)

  function ModelKey(modelId: string): string { MODELS + modelId }

  function RevocationKey(digest: string): string { REVOCATIONS + Text.Lower(digest) }

  function CiKey(keyId: string): string { CI_KEYS + keyId }

  /** Keys of different kinds never coincide, whatever ids they are built from. */
  lemma KeysApart(modelId: string, digest: string, keyId: string)
    ensures POLICY_KEY != ModelKey(modelId) && POLICY_KEY != RevocationKey(digest) && POLICY_KEY != CiKey(keyId)
    ensures ModelKey(modelId) != RevocationKey(digest) && ModelKey(modelId) != CiKey(keyId)
    ensures RevocationKey(digest) != CiKey(keyId)
  {
    assert POLICY_KEY[16] == 'p' && ModelKey(modelId)[16] == 'a';
    assert RevocationKey(digest)[16] == 'r' && CiKey(keyId)[16] == 'c';
  }

  predicate IsSpace(c: char) { c == ' ' || '\t' <= c <= '\r' || 28 as char <= c <= 31 as char }

  function StripLeft(s: string): string
  {
    if s != [] && IsSpace(s[0]) then StripLeft(s[1..]) else s
  }

  function StripRight(s: string): string
  {
    if s != [] && IsSpace(s[|s| - 1]) then StripRight(s[..|s| - 1]) else s
  }

  /** Without the white space around it. */
  function Stripped(s: string): string { StripRight(StripLeft(s)) }

  predicate IsImmutableDigest(digest: string)
  {
    var d := Text.Lower(Stripped(digest));
    |d| == 71 && d[..7] == "sha256:" && forall i :: 7 <= i < 71 ==> 'a' <= d[i] <= 'f' || '0' <= d[i] <= '9'
  }

  predicate AllSpace(s: string)
  {
    forall i :: 0 <= i < |s| ==> IsSpace(s[i])
  }

  predicate IsHex(c: char) { '0' <= c <= '9' || 'a' <= c <= 'f' || 'A' <= c <= 'F' }

  /** "sha256:" in any case, and 64 hexadecimal digits. */
  ghost predicate IsBareDigest(s: string)
  {
    |s| == 71 && Text.Lower(s[..7]) == "sha256:" && forall i :: 7 <= i < 71 ==> IsHex(s[i])
  }

  lemma {:induction false} StripLeftSplits(s: string) returns (left: string)
    ensures s == left + StripLeft(s) && AllSpace(left)
    ensures StripLeft(s) != [] ==> !IsSpace(StripLeft(s)[0])
  {
    if s != [] && IsSpace(s[0]) {
      left := StripLeftSplits(s[1..]);
      left := [s[0]] + left;
      assert s == [s[0]] + s[1..];
    } else {
      left := [];
    }
  }

  lemma {:induction false} StripRightSplits(s: string) returns (right: string)
    ensures s == StripRight(s) + right && AllSpace(right)
    ensures StripRight(s) != [] ==> !IsSpace(StripRight(s)[|StripRight(s)| - 1])
  {
    if s != [] && IsSpace(s[|s| - 1]) {
      right := StripRightSplits(s[..|s| - 1]);
      right := right + [s[|s| - 1]];
      assert s == s[..|s| - 1] + [s[|s| - 1]];
    } else {
      right := [];
    }
  }

  lemma {:induction false} StripLeftOf(left: string, s: string)
    requires AllSpace(left) && (s != [] ==> !IsSpace(s[0]))
    ensures StripLeft(left + s) == s
  {
    if left != [] {
      assert (left + s)[1..] == left[1..] + s;
      StripLeftOf(left[1..], s);
    } else {
      assert left + s == s;
    }
  }

  lemma {:induction false} StripRightOf(s: string, right: string)
    requires AllSpace(right) && (s != [] ==> !IsSpace(s[|s| - 1]))
    ensures StripRight(s + right) == s
  {
    if right != [] {
      assert (s + right)[..|s + right| - 1] == s + right[..|right| - 1];
      StripRightOf(s, right[..|right| - 1]);
    } else {
      assert s + right == s;
    }
  }

  lemma BareIsLower(s: string)
    ensures IsBareDigest(s) <==>
      var d := Text.Lower(s);
      |d| == 71 && d[..7] == "sha256:" && forall i :: 7 <= i < 71 ==> 'a' <= d[i] <= 'f' || '0' <= d[i] <= '9'
  {
    if |s| == 71 {
      assert Text.Lower(s[..7]) == Text.Lower(s)[..7];
      assert forall i :: 7 <= i < 71 ==> Text.Lower(s)[i] == Text.LowerChar(s[i]);
    }
  }

  lemma BareHasNoSpace(s: string)
    requires IsBareDigest(s)
    ensures !IsSpace(s[0]) && !IsSpace(s[70])
  {
    assert Text.Lower(s[..7])[0] == Text.LowerChar(s[0]) == 's';
    assert IsHex(s[70]);
  }

  /** An immutable digest is a bare one with nothing but white space around it. */
  lemma ImmutableExactly(digest: string)
    ensures IsImmutableDigest(digest) <==>
      exists left, bare, right ::
        digest == left + bare + right && AllSpace(left) && AllSpace(right) && IsBareDigest(bare)
  {
    BareIsLower(Stripped(digest));
    if IsImmutableDigest(digest) {
      var left := StripLeftSplits(digest);
      var right := StripRightSplits(StripLeft(digest));
      assert digest == left + Stripped(digest) + right;
    }
    if left, bare, right :| digest == left + bare + right && AllSpace(left) && AllSpace(right) && IsBareDigest(bare) {
      BareHasNoSpace(bare);
      assert left + bare + right == left + (bare + right);
      StripLeftOf(left, bare + right);
      StripRightOf(bare, right);
      assert Stripped(digest) == bare;
    }
  }

  datatype ArtifactError =
    | MutableReference
    | NotRegistered
    | CorruptRecord
    | DigestMismatch
    | Revoked
    | SigningKeyMissing
    | BadSignature
    | BuilderNotAllowed
    | TooManyCritical
    | TooManyHigh

  /** Does this signature over this provenance verify under this stored public key? */
  type SignatureCheck = (ArtifactProvenance, string, Value) -> bool

  function ActivePolicy(kv: map<string, Value>): SupplyChainPolicy
  {
    if POLICY_KEY in kv && kv[POLICY_KEY].PolicyJson? then kv[POLICY_KEY].policy else DEFAULT_POLICY
  }

  predicate IsDigestRevoked(kv: map<string, Value>, digest: string)
  {
    RevocationKey(digest) in kv
  }

  /** A missing key and an empty string are alike for the readers below. */
  predicate Missing(kv: map<string, Value>, key: string)
  {
    key !in kv || kv[key] == Plain("")
  }

  function Count(vulnerabilities: map<string, int>, level: string): int
  {
    if level in vulnerabilities then vulnerabilities[level] else 0
  }

  function Verify(kv: map<string, Value>, verifies: SignatureCheck, modelId: string, digest: Option<string>)
    : Result<ApprovedArtifactRecord, ArtifactError>
  {
    var policy := ActivePolicy(kv);
    if policy.requireImmutableDigest && (digest.None? || !IsImmutableDigest(digest.value)) then Err(MutableReference)
    else if Missing(kv, ModelKey(modelId)) then Err(NotRegistered)
    else if !kv[ModelKey(modelId)].RecordJson? then Err(CorruptRecord)
    else
      var record := kv[ModelKey(modelId)].record;
      if digest.Some? && digest.value != "" && Text.Lower(record.digest) != Text.Lower(digest.value)
      then Err(DigestMismatch)
      else if record.revoked || IsDigestRevoked(kv, record.digest) then Err(Revoked)
      else if policy.requireSignature && Missing(kv, CiKey(record.signingKeyId)) then Err(SigningKeyMissing)
      else if policy.requireSignature
        && !verifies(record.provenance, record.signature, kv[CiKey(record.signingKeyId)]) then Err(BadSignature)
      else if policy.allowedBuilders != [] && record.provenance.builderIdentity !in policy.allowedBuilders
      then Err(BuilderNotAllowed)
      else if Count(record.provenance.vulnerabilities, "CRITICAL") > policy.maxAllowedCriticalVulns
      then Err(TooManyCritical)
      else if Count(record.provenance.vulnerabilities, "HIGH") > policy.maxAllowedHighVulns then Err(TooManyHigh)
      else Ok(record)
  }

  /** A level that is not mentioned counts as zero. */
  predicate AtMost(vulnerabilities: map<string, int>, level: string, limit: int)
  {
    if level in vulnerabilities then vulnerabilities[level] <= limit else 0 <= limit
  }

  /** What the stored state says in favour of a record, in no particular order. */
  ghost predicate Approves(kv: map<string, Value>, verifies: SignatureCheck, modelId: string, asked: Option<string>,
    record: ApprovedArtifactRecord)
  {
    var policy := ActivePolicy(kv);
    && ModelKey(modelId) in kv && kv[ModelKey(modelId)] == RecordJson(record)
    && (policy.requireImmutableDigest ==> asked.Some? && IsImmutableDigest(asked.value))
    && (asked.Some? && asked.value != "" ==> Text.Lower(asked.value) == Text.Lower(record.digest))
    && !record.revoked && RevocationKey(record.digest) !in kv
    && (policy.requireSignature ==>
      && CiKey(record.signingKeyId) in kv && kv[CiKey(record.signingKeyId)] != Plain("")
      && verifies(record.provenance, record.signature, kv[CiKey(record.signingKeyId)]))
    && (policy.allowedBuilders == [] || record.provenance.builderIdentity in policy.allowedBuilders)
    && AtMost(record.provenance.vulnerabilities, "CRITICAL", policy.maxAllowedCriticalVulns)
    && AtMost(record.provenance.vulnerabilities, "HIGH", policy.maxAllowedHighVulns)
  }

  /** Verification returns exactly the record that the stored state approves for what was asked. */
  lemma VerifiesExactly(kv: map<string, Value>, verifies: SignatureCheck, modelId: string, asked: Option<string>,
    record: ApprovedArtifactRecord)
    ensures Verify(kv, verifies, modelId, asked) == Ok(record) <==> Approves(kv, verifies, modelId, asked, record)
  {
  }

  /** A refusal names a condition that really fails. */
  lemma RefusalsAreReasons(kv: map<string, Value>, verifies: SignatureCheck, modelId: string, asked: Option<string>)
    requires Verify(kv, verifies, modelId, asked).Err?
    ensures
      var policy := ActivePolicy(kv);
      var stored := Lookup(kv, ModelKey(modelId));
      match Verify(kv, verifies, modelId, asked).error
      case MutableReference => policy.requireImmutableDigest && (asked.None? || !IsImmutableDigest(asked.value))
      case NotRegistered => stored == None || stored == Some(Plain(""))
      case CorruptRecord => stored.Some? && !stored.value.RecordJson?
      case DigestMismatch =>
        asked.Some? && asked.value != "" && stored.value.RecordJson?
        && Text.Lower(asked.value) != Text.Lower(stored.value.record.digest)
      case Revoked =>
        stored.value.RecordJson?
        && (stored.value.record.revoked || IsDigestRevoked(kv, stored.value.record.digest))
      case SigningKeyMissing =>
        policy.requireSignature && stored.value.RecordJson? && Missing(kv, CiKey(stored.value.record.signingKeyId))
      case BadSignature =>
        policy.requireSignature && stored.value.RecordJson?
        && (CiKey(stored.value.record.signingKeyId) in kv ==>
          !verifies(stored.value.record.provenance, stored.value.record.signature,
            kv[CiKey(stored.value.record.signingKeyId)]))
      case BuilderNotAllowed =>
        stored.value.RecordJson? && policy.allowedBuilders != []
        && stored.value.record.provenance.builderIdentity !in policy.allowedBuilders
      case TooManyCritical =>
        stored.value.RecordJson?
        && !AtMost(stored.value.record.provenance.vulnerabilities, "CRITICAL", policy.maxAllowedCriticalVulns)
      case TooManyHigh =>
        stored.value.RecordJson?
        && !AtMost(stored.value.record.provenance.vulnerabilities, "HIGH", policy.maxAllowedHighVulns)
  {
  }

  function RecordFor(modelId: string, digest: string, provenance: ArtifactProvenance, signature: string, keyId: string)
    : ApprovedArtifactRecord
  {
    ApprovedArtifactRecord(modelId, Text.Lower(digest), provenance, signature, keyId, false)
  }

  function WithRegistration(kv: map<string, Value>, record: ApprovedArtifactRecord, pem: string): map<string, Value>
  {
    kv[CiKey(record.signingKeyId) := Plain(pem)][ModelKey(record.modelId) := RecordJson(record)]
  }

  method RegisterApprovedModel(etcd: SimulatedEtcdProvider, modelId: string, digest: string,
    provenance: ArtifactProvenance, pem: string, signature: string, keyId: string)
    returns (r: Result<ApprovedArtifactRecord, ArtifactError>)
    modifies etcd
    ensures r.Ok? <==> IsImmutableDigest(digest)
    ensures r.Err? ==> r.error == MutableReference && etcd.View() == old(etcd.View())
    ensures r.Ok? ==> r.value == RecordFor(modelId, digest, provenance, signature, keyId)
    ensures r.Ok? ==>
      && r.value.modelId == modelId && r.value.digest == Text.Lower(digest) && r.value.provenance == provenance
      && r.value.signature == signature && r.value.signingKeyId == keyId && !r.value.revoked
    ensures r.Ok? ==> etcd.View() == old(etcd.View()).(kv := WithRegistration(old(etcd.kv), r.value, pem))
  {
    if !IsImmutableDigest(digest) {
      return Err(MutableReference);
    }
    etcd.PutKey(CiKey(keyId), Plain(pem));
    var record := RecordFor(modelId, digest, provenance, signature, keyId);
    etcd.PutKey(ModelKey(modelId), RecordJson(record));
    return Ok(record);
  }

  method RevokeArtifactDigest(etcd: SimulatedEtcdProvider, digest: string, payload: string)
    modifies etcd
    ensures etcd.View() == old(etcd.View()).(kv := old(etcd.kv)[RevocationKey(digest) := Plain(payload)])
  {
    etcd.PutKey(RevocationKey(digest), Plain(payload));
  }

  method SetSupplyChainPolicy(etcd: SimulatedEtcdProvider, policy: SupplyChainPolicy)
    modifies etcd
    ensures etcd.View() == old(etcd.View()).(kv := old(etcd.kv)[POLICY_KEY := PolicyJson(policy)])
    ensures ActivePolicy(etcd.kv) == policy
  {
    etcd.PutKey(POLICY_KEY, PolicyJson(policy));
  }

  /** A freshly registered artifact verifies, under any spelling of its digest in upper or lower case,
      exactly when its digest is not revoked and the policy admits its builder and its findings. */
  lemma RegistrationRoundTrip(kv: map<string, Value>, verifies: SignatureCheck, modelId: string, digest: string,
    provenance: ArtifactProvenance, pem: string, signature: string, keyId: string, asked: string)
    requires IsImmutableDigest(asked) && Text.Lower(asked) == Text.Lower(digest)
    requires pem != "" && verifies(provenance, signature, Plain(pem))
    ensures
      var record := RecordFor(modelId, digest, provenance, signature, keyId);
      var policy := ActivePolicy(kv);
      Verify(WithRegistration(kv, record, pem), verifies, modelId, Some(asked)) == Ok(record) <==>
        && !IsDigestRevoked(kv, digest)
        && (policy.allowedBuilders == [] || provenance.builderIdentity in policy.allowedBuilders)
        && Count(provenance.vulnerabilities, "CRITICAL") <= policy.maxAllowedCriticalVulns
        && Count(provenance.vulnerabilities, "HIGH") <= policy.maxAllowedHighVulns
  {
    KeysApart(modelId, digest, keyId);
    Text.LowerTwice(digest);
    var record := RecordFor(modelId, digest, provenance, signature, keyId);
    var kv' := WithRegistration(kv, record, pem);
    assert ActivePolicy(kv') == ActivePolicy(kv);
    assert RevocationKey(record.digest) == RevocationKey(digest);
    assert IsDigestRevoked(kv', record.digest) == IsDigestRevoked(kv, digest);
    assert !Missing(kv', ModelKey(modelId)) && !Missing(kv', CiKey(keyId));
  }

  lemma RevokedNeverVerifies(kv: map<string, Value>, verifies: SignatureCheck, modelId: string,
    asked: Option<string>, revoked: string)
    requires IsDigestRevoked(kv, revoked)
    ensures var r := Verify(kv, verifies, modelId, asked);
      r.Ok? ==> Text.Lower(r.value.digest) != Text.Lower(revoked)
  {
  }

  /** Exactly the records whose digest is the revoked one, up to case, are stopped by a revocation. */
  lemma RevocationStopsExactly(kv: map<string, Value>, verifies: SignatureCheck, modelId: string,
    asked: Option<string>, revoked: string, payload: string)
    requires Verify(kv, verifies, modelId, asked).Ok?
    ensures
      var record := Verify(kv, verifies, modelId, asked).value;
      Verify(kv[RevocationKey(revoked) := Plain(payload)], verifies, modelId, asked)
      == if Text.Lower(record.digest) == Text.Lower(revoked) then Err(Revoked) else Ok(record)
  {
    var record := Verify(kv, verifies, modelId, asked).value;
    var kv' := kv[RevocationKey(revoked) := Plain(payload)];
    KeysApart(modelId, revoked, record.signingKeyId);
    assert ActivePolicy(kv') == ActivePolicy(kv);
    assert RevocationKey(record.digest)[|REVOCATIONS|..] == Text.Lower(record.digest);
    assert RevocationKey(revoked)[|REVOCATIONS|..] == Text.Lower(revoked);
  }

  lemma {:induction false} StripLeftShortens(s: string)
    ensures |StripLeft(s)| <= |s| && (|StripLeft(s)| == |s| ==> StripLeft(s) == s)
  {
    if s != [] && IsSpace(s[0]) {
      StripLeftShortens(s[1..]);
    }
  }

  lemma {:induction false} StripRightShortens(s: string)
    ensures |StripRight(s)| <= |s| && (|StripRight(s)| == |s| ==> StripRight(s) == s)
  {
    if s != [] && IsSpace(s[|s| - 1]) {
      StripRightShortens(s[..|s| - 1]);
    }
  }

  /** The format check looks at the digest without the white space around it, registration and revocation keep it.
      Revoking the bare digest therefore stops a record exactly if this was registered without white space. */
  lemma BareRevocationStopsExactly(kv: map<string, Value>, verifies: SignatureCheck, modelId: string,
    asked: Option<string>, payload: string)
    requires Verify(kv, verifies, modelId, asked).Ok?
    ensures
      var record := Verify(kv, verifies, modelId, asked).value;
      Verify(kv[RevocationKey(Stripped(record.digest)) := Plain(payload)], verifies, modelId, asked).Err?
      <==> Stripped(record.digest) == record.digest
  {
    var digest := Verify(kv, verifies, modelId, asked).value.digest;
    RevocationStopsExactly(kv, verifies, modelId, asked, Stripped(digest), payload);
    StripLeftShortens(digest);
    StripRightShortens(StripLeft(digest));
    assert |Text.Lower(digest)| == |digest| && |Text.Lower(Stripped(digest))| == |Stripped(digest)|;
  }

  /** An input that escapes: with the bare digest revoked, the same digest after a space is accepted by
      registration, and then it verifies. */
  lemma PaddedSpellingEscapes(verifies: SignatureCheck, bare: string, payload: string, modelId: string,
    provenance: ArtifactProvenance, pem: string, signature: string, keyId: string)
    requires IsImmutableDigest(bare) && pem != "" && verifies(provenance, signature, Plain(pem))
    requires provenance.builderIdentity in DEFAULT_POLICY.allowedBuilders && provenance.vulnerabilities == map[]
    ensures
      var kv := map[RevocationKey(bare) := Plain(payload)];
      var record := RecordFor(modelId, " " + bare, provenance, signature, keyId);
      && IsDigestRevoked(kv, bare) && IsImmutableDigest(" " + bare)
      && Verify(WithRegistration(kv, record, pem), verifies, modelId, Some(" " + bare)) == Ok(record)
  {
    var kv := map[RevocationKey(bare) := Plain(payload)];
    assert (" " + bare)[1..] == bare;
    KeysApart(modelId, bare, keyId);
    assert |RevocationKey(" " + bare)| == |RevocationKey(bare)| + 1;
    assert !IsDigestRevoked(kv, " " + bare) && ActivePolicy(kv) == DEFAULT_POLICY;
    RegistrationRoundTrip(kv, verifies, modelId, " " + bare, provenance, pem, signature, keyId, " " + bare);
  }

  /** Revocation outlives every later registration, key replacement and policy change: whatever is written
      to the store afterwards, verification never returns a record with that digest in any case. */
  lemma RevocationIsPermanent(ops: seq<Leases.Timed>, i: nat, j: nat, revoked: string,
    verifies: SignatureCheck, modelId: string, asked: Option<string>)
    requires i < j <= |ops| && ops[i].op.Put? && ops[i].op.key == RevocationKey(revoked)
    requires forall k :: i < k < j ==> ops[k].op != Delete(RevocationKey(revoked))
    ensures var r := Verify(Leases.StoreAfter(ops[..j]).kv, verifies, modelId, asked);
      r.Ok? ==> Text.Lower(r.value.digest) != Text.Lower(revoked)
  {
    assert ops[..i + 1][..i] == ops[..i] && ops[..i + 1][i] == ops[i];
    Leases.KeyStays(ops, RevocationKey(revoked), i + 1, j);
    RevokedNeverVerifies(Leases.StoreAfter(ops[..j]).kv, verifies, modelId, asked, revoked);
  }
}

/**
 * Deterministic contract identifiers (`DgraphClient.generate_contract_id`):
 * eight identity fields of a deployment record are rendered with `str()`,
 * joined with `|`, hashed with SHA-256 and cut to sixteen hex characters.
 * SHA-256 itself is a parameter: any function from text to a 64-character
 * lower-case hex digest.
 */
module ContractIds {
  import opened PyValues
  import opened Text
  import opened Deployment

  predicate IsHexDigit(c: char)
  {
    '0' <= c <= '9' || 'a' <= c <= 'f'
  }

  /** `hashlib.sha256(text.encode()).hexdigest()`. */
  type Digest = d: string | |d| == 64 && forall k | 0 <= k < |d| :: IsHexDigit(d[k])
    witness seq(64, _ => '0')

  type Sha256 = string -> Digest

  /** The fields the identifier is derived from. */
  const IdentityKeys: set<string> := {ContractKey, BlockKey, StorageProtocolKey, StorageAddressKey,
    ExperimentalKey, SolcVersionKey, VerifiedSourceKey, SourceCodeKey}

  /** The first sixteen characters of the digest of `text`. */
  function ShortHash(sha: Sha256, text: string): (h: string)
    ensures |h| == 16 && forall k | 0 <= k < 16 :: IsHexDigit(h[k])
  {
    sha(text)[..16]
  }

  /** The source-code part: a short hash of a truthy string, "" for a falsy value, None where `.encode()` would raise. */
  function SourceCodeHash(sha: Sha256, code: Value): (h: Option<string>)
    ensures h.None? <==> Truthy(code) && !code.Str?
    ensures h == Some("") <==> !Truthy(code)
  {
    if !Truthy(code) then Some("")
    else if code.Str? then Some(ShortHash(sha, code.s))
    else None
  }

  /** The eight texts joined into the id string, in order; None where the main path raises. */
  function IdParts(sha: Sha256, r: Record): Option<seq<string>>
  {
    match SourceCodeHash(sha, GetOr(r, SourceCodeKey, Str("")))
    case None => None
    case Some(codeHash) => Some([
      PyStr(GetOr(r, ContractKey, Str(""))),
      PyStr(GetOr(r, BlockKey, Str(""))),
      PyStr(GetOr(r, StorageProtocolKey, Str(""))),
      PyStr(GetOr(r, StorageAddressKey, Str(""))),
      PyStr(GetOr(r, ExperimentalKey, Bool(false))),
      PyStr(GetOr(r, SolcVersionKey, Str(""))),
      PyStr(GetOr(r, VerifiedSourceKey, Bool(false))),
      codeHash])
  }

  /** `generate_contract_id`: None stands for the exception that escapes when the fallback's `.encode()` fails too. */
  function GenerateContractId(sha: Sha256, r: Record): (id: Option<string>)
    ensures id.Some? ==> |id.value| == 16 && forall k | 0 <= k < 16 :: IsHexDigit(id.value[k])
  {
    match IdParts(sha, r)
    case Some(parts) => Some(ShortHash(sha, Join("|", parts)))
    case None =>
      match GetOr(r, ContractKey, Str("unknown"))
      case Str(address) => Some(ShortHash(sha, address))
      case _ => None
  }

  /** Two records that agree on the identity fields receive the same identifier. */
  lemma SameIdentitySameId(sha: Sha256, r1: Record, r2: Record)
    requires forall k | k in IdentityKeys :: (k in r1 <==> k in r2) && (k in r1 ==> r1[k] == r2[k])
    ensures GenerateContractId(sha, r1) == GenerateContractId(sha, r2)
  {
    assert forall k, d | k in IdentityKeys :: GetOr(r1, k, d) == GetOr(r2, k, d);
  }

  /** Writing any other field, in particular `ContractDeployment.id`, leaves the identifier unchanged. */
  lemma OtherFieldKeepsId(sha: Sha256, r: Record, key: string, v: Value)
    requires key !in IdentityKeys
    ensures GenerateContractId(sha, r[key := v]) == GenerateContractId(sha, r)
  {
    SameIdentitySameId(sha, r[key := v], r);
  }

  /** The identifier fails to exist exactly when both the main path and the fallback raise. */
  lemma RaisesExactly(sha: Sha256, r: Record)
    ensures GenerateContractId(sha, r).None? <==>
      var code := GetOr(r, SourceCodeKey, Str(""));
      Truthy(code) && !code.Str? && !GetOr(r, ContractKey, Str("unknown")).Str?
  {
  }

  /** When the source code cannot be encoded, the identifier is the short hash of the contract address, or of "unknown". */
  lemma FallbackUsesAddress(sha: Sha256, r: Record)
    requires var code := GetOr(r, SourceCodeKey, Str("")); Truthy(code) && !code.Str?
    ensures ContractKey !in r ==> GenerateContractId(sha, r) == Some(ShortHash(sha, "unknown"))
    ensures ContractKey in r && r[ContractKey].Str? ==>
      GenerateContractId(sha, r) == Some(ShortHash(sha, r[ContractKey].s))
  {
  }

  /** The id string splits back into its eight parts whenever no part contains `|`. */
  lemma IdStringSplits(sha: Sha256, r: Record)
    requires IdParts(sha, r).Some?
    requires forall k | 0 <= k < 8 :: '|' !in IdParts(sha, r).value[k]
    ensures |IdParts(sha, r).value| == 8
    ensures Split(Join("|", IdParts(sha, r).value), "|") == IdParts(sha, r).value
  {
    SplitJoin(IdParts(sha, r).value, "|");
  }

  /**
   * So records whose identity texts differ in any part, and contain no `|`,
   * are hashed from different id strings.
   */
  lemma DistinctPartsDistinctIdString(sha: Sha256, r1: Record, r2: Record)
    requires IdParts(sha, r1).Some? && IdParts(sha, r2).Some?
    requires forall k | 0 <= k < 8 :: '|' !in IdParts(sha, r1).value[k] && '|' !in IdParts(sha, r2).value[k]
    requires IdParts(sha, r1) != IdParts(sha, r2)
    ensures Join("|", IdParts(sha, r1).value) != Join("|", IdParts(sha, r2).value)
  {
    IdStringSplits(sha, r1);
    IdStringSplits(sha, r2);
  }

  /** A record with none of the identity fields hashes the id string "||||False||False|". */
  lemma EmptyRecordId(sha: Sha256)
    ensures GenerateContractId(sha, map[]) == Some(ShortHash(sha, "||||False||False|"))
  {
    EmptyRecordParts(sha);
    EmptyPartsJoined();
  }

  /** The fields of an empty record: empty texts, and `False` for the two flags. */
  lemma EmptyRecordParts(sha: Sha256)
    ensures IdParts(sha, map[]) == Some(["", "", "", "", "False", "", "False", ""])
  {
  }

  lemma EmptyPartsJoined()
    ensures Join("|", ["", "", "", "", "False", "", "False", ""]) == "||||False||False|"
  {
    var parts := ["", "", "", "", "False", "", "False", ""];
    assert Join("|", parts[6..]) == "False|";
    assert Join("|", parts[4..]) == "False||False|" by {
      assert parts[4..][1..] == parts[5..];
      assert parts[5..][1..] == parts[6..];
    }
    assert parts[1..][1..] == parts[2..];
    assert parts[2..][1..] == parts[3..];
    assert parts[3..][1..] == parts[4..];
  }
}

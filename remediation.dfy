/** `_generate_remediation` and `_get_remediation_advice` of src/auditor.py:
    one advice entry per distinct finding type of the custom bucket, in the
    order the types first appear, looked up in a fixed table. */
module Remediation {
  import opened Wrappers
  import opened Findings
  import opened Dicts
  import opened Results

  /** The three types the table knows. */
  const KnownTypes: seq<string> := ["reentrancy", "integer_overflow", "access_control"]

  const ReentrancyAdvice: Advice := Advice(
    Some("Critical"),
    Some("重入攻击 (Reentrancy)"),
    Some("攻击者可以在状态更新前递归调用函数，可能导致资金被多次提取"),
    Some([
        "函数外部调用前未更新状态",
        "使用.transfer()代替.call()但仍有重入风险"]),
    Some([
        "使用Checks-Effects-Interactions模式：先检查条件，再更新状态，最后执行外部调用",
        "使用OpenZeppelin的ReentrancyGuard修饰器",
        "对于简单支付，使用.transfer()或.send()（但有gas限制）",
        "使用nonReentrant修饰器保护关键函数"]),
    Some(ReentrancyAdviceCode))

  /** The code example, line by line. */
  const ReentrancyAdviceCode :=
    "" + "\n" +
    "// ✅ 正确实现" + "\n" +
    "function withdraw(uint256 amount) external nonReentrant {" + "\n" +
    "    require(balances[msg.sender] >= amount, \"Insufficient balance\");" + "\n" +
    "" + "\n" +
    "    // 1. 先更新状态" + "\n" +
    "    balances[msg.sender] -= amount;" + "\n" +
    "" + "\n" +
    "    // 2. 再执行外部调用" + "\n" +
    "    (bool success, ) = msg.sender.call{value: amount}(\"\");" + "\n" +
    "    require(success, \"Transfer failed\");" + "\n" +
    "}" + "\n" +
    "" + "\n" +
    "// ❌ 错误实现" + "\n" +
    "function withdraw(uint256 amount) external {" + "\n" +
    "    require(balances[msg.sender] >= amount, \"Insufficient balance\");" + "\n" +
    "" + "\n" +
    "    // ❌ 先执行外部调用" + "\n" +
    "    (bool success, ) = msg.sender.call{value: amount}(\"\");" + "\n" +
    "    require(success, \"Transfer failed\");" + "\n" +
    "" + "\n" +
    "    // ❌ 后更新状态" + "\n" +
    "    balances[msg.sender] -= amount;" + "\n" +
    "}" + "\n" +
    "                "

  const IntegerOverflowAdvice: Advice := Advice(
    Some("High"),
    Some("整数溢出/下溢 (Integer Overflow/Underflow)"),
    Some("Solidity 0.8.x版本之前需要手动检查溢出，可能导致数值计算错误"),
    Some([
        "加法可能导致数值超出类型上限",
        "减法可能导致数值变成巨大的正数"]),
    Some([
        "使用Solidity 0.8.x或更高版本（内置溢出检查）",
        "使用OpenZeppelin的SafeMath库",
        "使用unchecked块进行已验证的安全计算以节省gas",
        "考虑使用uint256处理大数值"]),
    Some(IntegerOverflowAdviceCode))

  /** The code example, line by line. */
  const IntegerOverflowAdviceCode :=
    "" + "\n" +
    "// ✅ Solidity 0.8+ (自动溢出检查)" + "\n" +
    "function add(uint256 a, uint256 b) public pure returns (uint256) {" + "\n" +
    "    return a + b;  // 自动检测溢出" + "\n" +
    "}" + "\n" +
    "" + "\n" +
    "// ✅ 使用SafeMath (Solidity 0.8之前)" + "\n" +
    "import \"@openzeppelin/contracts/utils/math/SafeMath.sol\";" + "\n" +
    "" + "\n" +
    "function add(uint256 a, uint256 b) public pure returns (uint256) {" + "\n" +
    "    return SafeMath.add(a, b);" + "\n" +
    "}" + "\n" +
    "" + "\n" +
    "// ✅ 使用unchecked (仅在确定安全时)" + "\n" +
    "function subtract(uint256 a, uint256 b) public pure returns (uint256) {" + "\n" +
    "    unchecked {" + "\n" +
    "        return a - b;  // 仅在已知a >= b时使用" + "\n" +
    "    }" + "\n" +
    "}" + "\n" +
    "                "

  const AccessControlAdvice: Advice := Advice(
    Some("High"),
    Some("访问控制绕过 (Access Control)"),
    Some("权限检查缺失或不当可能导致未授权用户执行特权操作"),
    Some([
        "缺失onlyOwner修饰器",
        "使用tx.origin代替msg.sender进行身份验证",
        "公开函数暴露敏感操作"]),
    Some([
        "使用OpenZeppelin的AccessControl或Ownable合约",
        "使用基于角色的访问控制 (RBAC)",
        "避免使用tx.origin进行授权检查",
        "严格区分公开和内部函数",
        "对修改状态的函数添加权限检查"]),
    Some(AccessControlAdviceCode))

  /** The code example, line by line. */
  const AccessControlAdviceCode :=
    "" + "\n" +
    "// ✅ 正确实现" + "\n" +
    "import \"@openzeppelin/contracts/access/Ownable.sol\";" + "\n" +
    "" + "\n" +
    "contract MyContract is Ownable {" + "\n" +
    "    function sensitiveFunction() external onlyOwner {" + "\n" +
    "        // 只有所有者可以执行" + "\n" +
    "    }" + "\n" +
    "}" + "\n" +
    "" + "\n" +
    "// ❌ 错误实现" + "\n" +
    "contract VulnerableContract {" + "\n" +
    "    function sensitiveFunction() external {" + "\n" +
    "        // ❌ 无权限检查，任何人都可以执行" + "\n" +
    "    }" + "\n" +
    "}" + "\n" +
    "" + "\n" +
    "// ❌ 危险：使用tx.origin" + "\n" +
    "function withdraw() external {" + "\n" +
    "    require(tx.origin == owner, \"Not authorized\");  // ❌ 容易被钓鱼攻击" + "\n" +
    "    payable(msg.sender).transfer(address(this).balance);" + "\n" +
    "}" + "\n" +
    "                "

  /** The advice for a type the table does not know. */
  function FallbackAdvice(issueType: string): Advice {
    Advice(Some("Medium"), Some(issueType), Some("请进一步分析此问题"), None,
      Some(["请查阅相关安全文档和最佳实践"]), None)
  }

  /** `_get_remediation_advice(issue_type)`: `Critical` for reentrancy,
      `High` for the other two known types, each with a code example; any
      other type gets `Medium` advice titled with the type itself, one
      solution and no code example. */
  function AdviceFor(issueType: string): (a: Advice)
    ensures issueType == "reentrancy" ==> a.severity == Some("Critical") && a.codeExample.Some?
    ensures issueType in KnownTypes[1..] ==> a.severity == Some("High") && a.codeExample.Some?
    ensures issueType !in KnownTypes ==>
      a.severity == Some("Medium") && a.title == Some(issueType) &&
      a.solutions.Some? && |a.solutions.value| == 1 && a.examples.None? && a.codeExample.None?
  {
    if issueType == "reentrancy" then ReentrancyAdvice
    else if issueType == "integer_overflow" then IntegerOverflowAdvice
    else if issueType == "access_control" then AccessControlAdvice
    else FallbackAdvice(issueType)
  }

  /** `finding.get("type", "")` */
  function KindOf(f: Finding): string {
    f.kind.GetOr("")
  }

  /** The types of the given findings, in order. */
  function FindingKinds(fs: seq<Finding>): (r: seq<string>)
    ensures |r| == |fs|
    ensures forall j | 0 <= j < |fs| :: r[j] == KindOf(fs[j])
  {
    seq(|fs|, j requires 0 <= j < |fs| => KindOf(fs[j]))
  }

  /** The types of the findings of the custom bucket, entry by entry; none
      when the key is missing. The slither bucket is never consulted. */
  function CustomKinds(results: AuditResult): seq<string> {
    FindingKinds(FindingsOf(results.custom))
  }

  /** One pass of the inner loop: a non-empty type not yet advised gets
      the advice `lookup` gives for it, as a new key at the end. */
  function AddAdvice(rem: Dict<Advice>, issueType: string, lookup: string -> Advice): Dict<Advice> {
    if issueType != "" && !HasKey(rem, issueType) then rem + [(issueType, lookup(issueType))]
    else rem
  }

  /** The advice dictionary after visiting the given types in order. */
  function AdviseAll(rem: Dict<Advice>, kinds: seq<string>, lookup: string -> Advice): Dict<Advice> {
    if kinds == [] then rem
    else AddAdvice(AdviseAll(rem, kinds[..|kinds| - 1], lookup), kinds[|kinds| - 1], lookup)
  }

  /** What `_generate_remediation(results)` returns. */
  function RemediationOf(results: AuditResult): Dict<Advice> {
    AdviseAll([], CustomKinds(results), AdviceFor)
  }

  /** The position of the first occurrence of k in ks, or |ks|. */
  function Position(ks: seq<string>, k: string): (r: nat)
    ensures r <= |ks|
    ensures r < |ks| ==> ks[r] == k
    ensures forall j | 0 <= j < r :: ks[j] != k
  {
    if ks == [] then 0
    else if ks[0] == k then 0
    else
      var r := Position(ks[1..], k);
      assert forall j | 1 <= j < r + 1 :: ks[j] == ks[1..][j - 1];
      r + 1
  }

  lemma FindingKindsAppend(a: seq<Finding>, b: seq<Finding>)
    ensures FindingKinds(a + b) == FindingKinds(a) + FindingKinds(b)
  {
  }

  lemma AdviseNext(rem: Dict<Advice>, kinds: seq<string>, k: string, lookup: string -> Advice)
    ensures AdviseAll(rem, kinds + [k], lookup) == AddAdvice(AdviseAll(rem, kinds, lookup), k, lookup)
  {
    assert (kinds + [k])[..|kinds|] == kinds;
  }

  /** Visiting two runs of types one after the other. */
  lemma {:induction false} AdviseAppend(rem: Dict<Advice>, a: seq<string>, b: seq<string>, lookup: string -> Advice)
    ensures AdviseAll(rem, a + b, lookup) == AdviseAll(AdviseAll(rem, a, lookup), b, lookup)
    decreases |b|
  {
    if b == [] {
      assert a + b == a;
    } else {
      var b' := b[..|b| - 1];
      assert a + b == (a + b') + [b[|b| - 1]];
      AdviseNext(rem, a + b', b[|b| - 1], lookup);
      AdviseAppend(rem, a, b', lookup);
    }
  }

  /** The inner loop of `_generate_remediation`, over one detector's
      findings. */
  method AdviseFindings(rem: Dict<Advice>, findings: seq<Finding>) returns (r: Dict<Advice>)
    ensures r == AdviseAll(rem, FindingKinds(findings), AdviceFor)
  {
    r := rem;
    for j := 0 to |findings|
      invariant r == AdviseAll(rem, FindingKinds(findings[..j]), AdviceFor)
    {
      var issueType := findings[j].kind.GetOr("");
      assert FindingKinds(findings[..j + 1]) == FindingKinds(findings[..j]) + [issueType];
      AdviseNext(rem, FindingKinds(findings[..j]), issueType, AdviceFor);
      if issueType != "" && !HasKey(r, issueType) {
        r := r + [(issueType, AdviceFor(issueType))];
      }
    }
    assert findings[..|findings|] == findings;
  }

  /** `_generate_remediation(results)` */
  method GenerateRemediation(results: AuditResult) returns (rem: Dict<Advice>)
    ensures rem == RemediationOf(results)
  {
    rem := [];
    if results.custom.Some? {
      var custom := results.custom.value;
      for i := 0 to |custom|
        invariant rem == AdviseAll([], FindingKinds(Flatten(custom[..i])), AdviceFor)
      {
        FlattenNext(custom, i);
        FindingKindsAppend(Flatten(custom[..i]), custom[i].1);
        AdviseAppend([], FindingKinds(Flatten(custom[..i])), FindingKinds(custom[i].1), AdviceFor);
        rem := AdviseFindings(rem, custom[i].1);
      }
      assert custom[..|custom|] == custom;
    }
  }

  /** Every type that has advice appears among the visited types and is not
      empty, and conversely; keys are unique and each maps to the table's
      advice for it. */
  lemma {:induction false} AdviseKeys(kinds: seq<string>, lookup: string -> Advice)
    ensures UniqueKeys(AdviseAll([], kinds, lookup))
    ensures forall k :: HasKey(AdviseAll([], kinds, lookup), k) <==> k != "" && k in kinds
    ensures forall i | 0 <= i < |AdviseAll([], kinds, lookup)| ::
      AdviseAll([], kinds, lookup)[i].1 == lookup(AdviseAll([], kinds, lookup)[i].0)
  {
    if kinds != [] {
      var init := kinds[..|kinds| - 1];
      var k := kinds[|kinds| - 1];
      AdviseKeys(init, lookup);
      assert kinds == init + [k];
      var before := AdviseAll([], init, lookup);
      assert AdviseAll([], kinds, lookup) == AddAdvice(before, k, lookup);
      if k != "" && !HasKey(before, k) {
        var after := before + [(k, lookup(k))];
        forall k' ensures HasKey(after, k') <==> HasKey(before, k') || k' == k {
          if HasKey(before, k') {
            var i :| 0 <= i < |before| && before[i].0 == k';
            assert after[i] == before[i];
          }
          if k' == k {
            assert after[|before|].0 == k;
          }
        }
      }
    }
  }

  /** Advice entries are in the order their types first appear. */
  lemma {:induction false} AdviseOrder(kinds: seq<string>, lookup: string -> Advice)
    ensures forall i, j | 0 <= i < j < |AdviseAll([], kinds, lookup)| ::
      Position(kinds, AdviseAll([], kinds, lookup)[i].0) < Position(kinds, AdviseAll([], kinds, lookup)[j].0)
  {
    if kinds != [] {
      var init := kinds[..|kinds| - 1];
      var k := kinds[|kinds| - 1];
      AdviseOrder(init, lookup);
      AdviseKeys(init, lookup);
      var before := AdviseAll([], init, lookup);
      assert kinds == init + [k];
      forall i | 0 <= i < |before|
        ensures Position(kinds, before[i].0) == Position(init, before[i].0) < |init|
      {
        assert HasKey(before, before[i].0);
        PositionExtend(init, k, before[i].0);
      }
      if k != "" && !HasKey(before, k) {
        PositionExtend(init, k, k);
      }
    }
  }

  lemma PositionExtend(ks: seq<string>, k: string, x: string)
    ensures x in ks ==> Position(ks + [k], x) == Position(ks, x) < |ks|
    ensures x !in ks && x == k ==> Position(ks + [k], x) == |ks|
  {
    var p := Position(ks, x);
    var e := ks + [k];
    assert forall j | 0 <= j < |ks| :: e[j] == ks[j];
    if x in ks {
      assert p < |ks|;
      assert Position(e, x) <= p;
    } else if x == k {
      assert e[|ks|] == x;
    }
  }

  /** A type is advised exactly when some finding of the custom bucket has
      it as a non-empty `type`. */
  lemma RemediationKeys(results: AuditResult)
    ensures UniqueKeys(RemediationOf(results))
    ensures forall k :: HasKey(RemediationOf(results), k) <==>
      k != "" && results.custom.Some? &&
      exists i, f | 0 <= i < |results.custom.value| && f in results.custom.value[i].1 :: f.kind == Some(k)
    ensures forall i | 0 <= i < |RemediationOf(results)| ::
      RemediationOf(results)[i].1 == AdviceFor(RemediationOf(results)[i].0)
  {
    AdviseKeys(CustomKinds(results), AdviceFor);
    forall k | k != "" {
      CustomKindsMember(results, k);
    }
  }

  /** The custom types are those of some finding in some entry of the
      custom bucket. */
  lemma CustomKindsMember(results: AuditResult, k: string)
    requires k != ""
    ensures k in CustomKinds(results) <==> (results.custom.Some? &&
      exists i, f | 0 <= i < |results.custom.value| && f in results.custom.value[i].1 :: f.kind == Some(k))
  {
    var fs := FindingsOf(results.custom);
    var kinds := CustomKinds(results);
    if k in kinds {
      var j :| 0 <= j < |fs| && kinds[j] == k;
      KindFromMember(results, fs[j], k);
    }
    if results.custom.Some? &&
      exists i, f | 0 <= i < |results.custom.value| && f in results.custom.value[i].1 :: f.kind == Some(k)
    {
      var i, f :| 0 <= i < |results.custom.value| && f in results.custom.value[i].1 && f.kind == Some(k);
      FlattenMembers(results.custom.value, f);
      var j :| 0 <= j < |fs| && fs[j] == f;
      assert kinds[j] == k;
    }
  }

  lemma KindFromMember(results: AuditResult, f: Finding, k: string)
    requires k != "" && f in FindingsOf(results.custom) && KindOf(f) == k
    ensures results.custom.Some? &&
      exists i, g | 0 <= i < |results.custom.value| && g in results.custom.value[i].1 :: g.kind == Some(k)
  {
    assert results.custom.Some?;
    FlattenMembers(results.custom.value, f);
  }

  /** Entries are in the order their types first appear among the custom
      findings. */
  lemma RemediationOrder(results: AuditResult)
    ensures forall i, j | 0 <= i < j < |RemediationOf(results)| ::
      Position(CustomKinds(results), RemediationOf(results)[i].0) <
      Position(CustomKinds(results), RemediationOf(results)[j].0)
  {
    AdviseOrder(CustomKinds(results), AdviceFor);
  }

  /** Every advice the table gives has a severity, a title, a description
      and at least one solution. */
  lemma AdviceComplete(issueType: string)
    ensures var a := AdviceFor(issueType);
      a.severity.Some? && a.title.Some? && a.description.Some? &&
      a.solutions.Some? && |a.solutions.value| >= 1
  {
  }
}

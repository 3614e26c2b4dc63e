/**
 Composing a role ARN from an annotation that only names the role (pkg/cache/cache.go:218-231), and
 the pattern the result is checked against.
 */
module RoleArn {
  import opened Common

  datatype ComposeRoleArn = ComposeRoleArn(enabled: bool, accountId: string, partition: string)

  /** main.go:153-166. */
  function Partition(region: string): (p: string)
    ensures IsPartition(p)
  {
    if "cn-" <= region then "aws-cn"
    else if "us-gov-" <= region then "aws-us-gov"
    else if "us-iso-" <= region then "aws-iso"
    else if "us-isob-" <= region then "aws-iso-b"
    else if "eusc-" <= region then "aws-eusc"
    else "aws"
  }

  /** The order of the cases does not matter: no region has two of the prefixes. */
  lemma PartitionOfPrefix(region: string)
    ensures "cn-" <= region ==> Partition(region) == "aws-cn"
    ensures "us-gov-" <= region ==> Partition(region) == "aws-us-gov"
    ensures "us-iso-" <= region ==> Partition(region) == "aws-iso"
    ensures "us-isob-" <= region ==> Partition(region) == "aws-iso-b"
    ensures "eusc-" <= region ==> Partition(region) == "aws-eusc"
    ensures Partition(region) == "aws" <==>
              !("cn-" <= region || "us-gov-" <= region || "us-iso-" <= region || "us-isob-" <= region || "eusc-" <= region)
  {
    assert "us-isob-" <= region ==> region[6] == 'b';
    assert "us-iso-" <= region ==> region[6] == '-' && region[3] == 'i';
    assert "us-gov-" <= region ==> region[3] == 'g' && region[0] == 'u';
    assert "us-isob-" <= region ==> region[3] == 'i';
    assert "cn-" <= region ==> region[0] == 'c';
    assert "eusc-" <= region ==> region[0] == 'e';
  }

  function Compose(partition: string, account: string, role: string): string {
    "arn:" + partition + ":iam::" + account + ":role/" + role
  }

  /** `strings.Contains`. */
  predicate Contains(s: string, sub: string) {
    sub <= s || (s != "" && Contains(s[1..], sub))
  }

  /** `Contains` finds the text wherever it starts. */
  lemma {:induction false} ContainsIff(s: string, sub: string)
    ensures Contains(s, sub) <==> exists i :: 0 <= i <= |s| && sub <= s[i..]
  {
    assert s[0..] == s;
    if s != "" {
      ContainsIff(s[1..], sub);
      if i :| 0 <= i <= |s| && sub <= s[i..] {
        assert i > 0 ==> s[1..][i - 1..] == s[i..];
      }
      if i :| 0 <= i <= |s[1..]| && sub <= s[1..][i..] {
        assert s[1..][i..] == s[i + 1..];
      }
    }
  }

  lemma {:induction false} ContainedCharacters(s: string, sub: string, i: nat)
    requires Contains(s, sub) && i < |sub|
    ensures sub[i] in s
  {
    if sub <= s {
      assert s[i] == sub[i];
    } else {
      ContainedCharacters(s[1..], sub, i);
    }
  }

  /** The role an annotation stands for. */
  function Resolve(annotation: string, c: ComposeRoleArn): string {
    if !Contains(annotation, "arn:") && c.enabled then Compose(c.partition, c.accountId, annotation) else annotation
  }

  // ---------------------------------------------------------------- ^arn:aws[a-z0-9-]*:iam::\d{12}:role\/[\w-\/.@+=,]+$

  predicate IsDigit(c: char) { '0' <= c <= '9' }

  predicate IsPartitionChar(c: char) { 'a' <= c <= 'z' || IsDigit(c) || c == '-' }

  predicate IsRoleChar(c: char) {
    IsDigit(c) || 'a' <= c <= 'z' || 'A' <= c <= 'Z' || c in "_-/.@+=,"
  }

  predicate IsPartition(p: string) {
    "aws" <= p && forall i | 3 <= i < |p| :: IsPartitionChar(p[i])
  }

  predicate IsAccount(a: string) {
    |a| == 12 && forall i | 0 <= i < |a| :: IsDigit(a[i])
  }

  predicate IsRole(r: string) {
    r != "" && forall i | 0 <= i < |r| :: IsRoleChar(r[i])
  }

  /** `s` matches the pattern with these texts at its three variable places. */
  predicate MatchesAs(s: string, partition: string, account: string, role: string) {
    IsPartition(partition) && IsAccount(account) && IsRole(role) && s == Compose(partition, account, role)
  }

  ghost predicate Matches(s: string) {
    exists p, a, r :: MatchesAs(s, p, a, r)
  }

  /** The composed text as fields separated by colons. */
  lemma ComposeText(p: string, a: string, role: string)
    ensures var r1 := a + [':'] + ("role/" + role);
            var r3 := "iam" + [':'] + ("" + [':'] + r1);
            Compose(p, a, role) == "arn" + [':'] + (p + [':'] + r3)
  {
    var r1 := a + [':'] + ("role/" + role);
    var r3 := "iam" + [':'] + ("" + [':'] + r1);
    assert r3 == "iam::" + r1;
    assert ":iam::" + r1 == [':'] + r3;
    assert r1 == a + ":role/" + role;
  }

  lemma PartitionHasNoColon(p: string)
    requires IsPartition(p)
    ensures ':' !in p
  {
    assert forall i | 0 <= i < |p| :: p[i] == (if i < 3 then "aws"[i] else p[i]);
  }

  /** Colons separate the fields, whatever the role is. */
  lemma ComposeSplits(p: string, a: string, role: string)
    requires IsPartition(p) && IsAccount(a)
    ensures Split(Compose(p, a, role), ':') == ["arn", p, "iam", "", a] + Split("role/" + role, ':')
  {
    PartitionHasNoColon(p);
    assert ':' !in a;
    hide Split, Compose, IsPartition, IsAccount;
    ComposeText(p, a, role);
    var r0 := "role/" + role;
    var r1 := a + [':'] + r0;
    var r2 := "" + [':'] + r1;
    var r3 := "iam" + [':'] + r2;
    SplitCons("arn", p + [':'] + r3, ':');
    SplitCons(p, r3, ':');
    SplitCons("iam", r2, ':');
    SplitCons("", r1, ':');
    SplitCons(a, r0, ':');
  }

  lemma RoleSplits(role: string)
    ensures Split("role/" + role, ':') == ["role/" + role] <==> ':' !in role
  {
    var s := "role/" + role;
    if ':' !in role {
      assert ':' !in s;
      SplitAtom(s, ':');
    } else {
      assert ':' in s by {
        var i :| 0 <= i < |role| && role[i] == ':';
        assert s[5 + i] == ':';
      }
      assert s !in Split(s, ':');
    }
  }

  /**
   The composed ARN matches the pattern exactly when the annotation is a non-empty text over the
   allowed characters, and then it splits back into the partition, account and role it was made of -
   the only way it can match.
   */
  lemma ComposedMatches(p: string, a: string, role: string)
    requires IsPartition(p) && IsAccount(a)
    ensures Matches(Compose(p, a, role)) <==> IsRole(role)
    ensures forall p', a', role' | MatchesAs(Compose(p, a, role), p', a', role') :: p' == p && a' == a && role' == role
  {
    if IsRole(role) {
      assert MatchesAs(Compose(p, a, role), p, a, role);
    }
    forall p', a', role' | MatchesAs(Compose(p, a, role), p', a', role') ensures p' == p && a' == a && role' == role {
      ComposeSplits(p, a, role);
      ComposeSplits(p', a', role');
      var parts := Split(Compose(p, a, role), ':');
      assert p == parts[1] == p' && a == parts[4] == a';
      assert Split("role/" + role, ':') == parts[5..] == Split("role/" + role', ':');
      RoleSplits(role');
      JoinSplit("role/" + role, ':');
      JoinSplit("role/" + role', ':');
      assert role == ("role/" + role)[5..] == ("role/" + role')[5..] == role';
    }
  }

  /** Resolving is stable: an ARN that has been composed, or was given in full, is left alone. */
  lemma ResolveIsIdempotent(annotation: string, c: ComposeRoleArn)
    ensures Resolve(Resolve(annotation, c), c) == Resolve(annotation, c)
  {
    if !Contains(annotation, "arn:") && c.enabled {
      assert "arn:" <= Resolve(annotation, c);
    }
  }

  /** For every region and 12-digit account, an annotation over the allowed characters becomes a valid ARN. */
  lemma AnnotatedRoleComposes(region: string, account: string, role: string)
    requires IsAccount(account) && IsRole(role)
    ensures var arn := Resolve(role, ComposeRoleArn(true, account, Partition(region)));
            MatchesAs(arn, Partition(region), account, role)
  {
    if Contains(role, "arn:") {
      ContainedCharacters(role, "arn:", 3);
    }
  }
}

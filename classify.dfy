/** The keyword tables of the Terraform workflow: the two architectural-layer
    classifiers, the importance score, the type families of the DOT clusterer
    and the fixed names and purposes attached to them. Every rule is a
    first-match test of `includes` on the lower-cased resource type. */
module Classify {
  import opened Strings
  import opened Assets
  import opened Lists

  /** A rule of a first-match table: its label applies when the type includes one of its keywords. */
  datatype Rule<L> = Rule(keywords: seq<string>, outcome: L)

  /** Some keyword occurs in `t`. */
  predicate AnyContains(t: string, keywords: seq<string>)
    decreases |keywords|
  {
    |keywords| > 0 && (Contains(t, keywords[0]) || AnyContains(t, keywords[1..]))
  }

  lemma {:induction false} AnyContainsIff(t: string, keywords: seq<string>)
    ensures AnyContains(t, keywords) <==> exists i :: 0 <= i < |keywords| && Contains(t, keywords[i])
    decreases |keywords|
  {
    if |keywords| > 0 {
      AnyContainsIff(t, keywords[1..]);
      if exists i :: 0 <= i < |keywords| && Contains(t, keywords[i]) {
        var i :| 0 <= i < |keywords| && Contains(t, keywords[i]);
        if i > 0 {
          assert keywords[1..][i - 1] == keywords[i];
        }
      }
    }
  }

  /** The first-match scan from rule `k` on: rule `k`'s outcome if it
      matches, the scan from rule `k + 1` otherwise. */
  lemma FirstMatchSuffix<L>(rules: seq<Rule<L>>, t: string, default: L, k: nat)
    requires k < |rules|
    ensures FirstMatch(rules[k..], t, default)
         == if AnyContains(t, rules[k].keywords) then rules[k].outcome else FirstMatch(rules[k + 1..], t, default)
  {
    assert rules[k..][1..] == rules[k + 1..];
  }

  /** A table of seven rules read as the if-chain it stands for. */
  lemma FirstMatchOfSeven<L>(rules: seq<Rule<L>>, t: string, default: L)
    requires |rules| == 7
    ensures FirstMatch(rules, t, default)
         == if AnyContains(t, rules[0].keywords) then rules[0].outcome
            else if AnyContains(t, rules[1].keywords) then rules[1].outcome
            else if AnyContains(t, rules[2].keywords) then rules[2].outcome
            else if AnyContains(t, rules[3].keywords) then rules[3].outcome
            else if AnyContains(t, rules[4].keywords) then rules[4].outcome
            else if AnyContains(t, rules[5].keywords) then rules[5].outcome
            else if AnyContains(t, rules[6].keywords) then rules[6].outcome
            else default
  {
    FirstMatchSuffix(rules, t, default, 6);
    FirstMatchSuffix(rules, t, default, 5);
    FirstMatchSuffix(rules, t, default, 4);
    FirstMatchSuffix(rules, t, default, 3);
    FirstMatchSuffix(rules, t, default, 2);
    FirstMatchSuffix(rules, t, default, 1);
    FirstMatchSuffix(rules, t, default, 0);
    assert rules[7..] == [];
    assert rules[0..] == rules;
  }

  lemma {:induction false} AnyContainsAppend(t: string, a: seq<string>, b: seq<string>)
    ensures AnyContains(t, a + b) <==> AnyContains(t, a) || AnyContains(t, b)
    decreases |a|
  {
    if a == [] {
      assert a + b == b;
    } else {
      assert (a + b)[1..] == a[1..] + b;
      AnyContainsAppend(t, a[1..], b);
    }
  }

  lemma AnyContains1(t: string, a: string)
    ensures AnyContains(t, [a]) <==> Contains(t, a)
  {
    assert [a][1..] == [];
  }

  lemma AnyContains2(t: string, a: string, b: string)
    ensures AnyContains(t, [a, b]) <==> Contains(t, a) || Contains(t, b)
  {
    assert [a, b][1..] == [b];
    AnyContains1(t, b);
  }

  lemma AnyContains3(t: string, a: string, b: string, c: string)
    ensures AnyContains(t, [a, b, c]) <==> Contains(t, a) || Contains(t, b) || Contains(t, c)
  {
    assert [a, b, c][1..] == [b, c];
    AnyContains2(t, b, c);
  }

  lemma AnyContains4(t: string, a: string, b: string, c: string, e: string)
    ensures AnyContains(t, [a, b, c, e]) <==> Contains(t, a) || Contains(t, b) || Contains(t, c) || Contains(t, e)
  {
    assert [a, b, c, e][1..] == [b, c, e];
    AnyContains3(t, b, c, e);
  }

  lemma AnyContains5(t: string, a: string, b: string, c: string, e: string, f: string)
    ensures AnyContains(t, [a, b, c, e, f])
        <==> Contains(t, a) || Contains(t, b) || Contains(t, c) || Contains(t, e) || Contains(t, f)
  {
    assert [a, b, c, e, f][1..] == [b, c, e, f];
    AnyContains4(t, b, c, e, f);
  }

  lemma AnyContains6(t: string, a: string, b: string, c: string, e: string, f: string, g: string)
    ensures AnyContains(t, [a, b, c, e, f, g])
        <==> Contains(t, a) || Contains(t, b) || Contains(t, c) || Contains(t, e) || Contains(t, f) || Contains(t, g)
  {
    assert [a, b, c, e, f, g][1..] == [b, c, e, f, g];
    AnyContains5(t, b, c, e, f, g);
  }

  /** The label of the first rule that matches `t`, or `default` when none does. */
  function FirstMatch<L>(rules: seq<Rule<L>>, t: string, default: L): L
    decreases |rules|
  {
    if rules == [] then default
    else if AnyContains(t, rules[0].keywords) then rules[0].outcome
    else FirstMatch(rules[1..], t, default)
  }

  /** First match wins: the result is the label of the first matching rule, or the default when no rule matches. */
  lemma {:induction false} FirstMatchWins<L>(rules: seq<Rule<L>>, t: string, default: L)
    ensures forall i :: 0 <= i < |rules| && AnyContains(t, rules[i].keywords)
                        && (forall j :: 0 <= j < i ==> !AnyContains(t, rules[j].keywords))
                        ==> FirstMatch(rules, t, default) == rules[i].outcome
    ensures (forall i :: 0 <= i < |rules| ==> !AnyContains(t, rules[i].keywords))
            ==> FirstMatch(rules, t, default) == default
    decreases |rules|
  {
    if rules != [] {
      FirstMatchWins(rules[1..], t, default);
      forall i | 0 <= i < |rules| && AnyContains(t, rules[i].keywords)
                 && (forall j :: 0 <= j < i ==> !AnyContains(t, rules[j].keywords))
        ensures FirstMatch(rules, t, default) == rules[i].outcome
      {
        if i > 0 {
          assert rules[1..][i - 1] == rules[i];
          forall j | 0 <= j < i - 1 ensures !AnyContains(t, rules[1..][j].keywords) {
            assert rules[1..][j] == rules[j + 1];
          }
        }
      }
      if forall i :: 0 <= i < |rules| ==> !AnyContains(t, rules[i].keywords) {
        forall j | 0 <= j < |rules| - 1 ensures !AnyContains(t, rules[1..][j].keywords) {
          assert rules[1..][j] == rules[j + 1];
        }
      }
    }
  }

  /** A first-match result is always the default or the label of some rule. */
  lemma {:induction false} FirstMatchLabel<L>(rules: seq<Rule<L>>, t: string, default: L)
    ensures FirstMatch(rules, t, default) == default
            || exists i :: 0 <= i < |rules| && FirstMatch(rules, t, default) == rules[i].outcome
    decreases |rules|
  {
    if rules != [] && !AnyContains(t, rules[0].keywords) {
      FirstMatchLabel(rules[1..], t, default);
      if FirstMatch(rules, t, default) != default {
        var i :| 0 <= i < |rules[1..]| && FirstMatch(rules[1..], t, default) == rules[1..][i].outcome;
        assert rules[1..][i] == rules[i + 1];
      }
    }
  }

  // ----- determineHighLevelArchitecture (the layer table of the no-graph path) -----

  const HighLevelLayers: seq<string> := [
    "Frontend & API Layer", "Application Layer", "Database Layer", "Storage Layer",
    "Security & Identity", "Network Infrastructure", "Monitoring & Operations",
    "Supporting Infrastructure"]

  const HighLevelRules: seq<Rule<string>> := [
    Rule(["api_gateway", "cloudfront", "load_balancer"], "Frontend & API Layer"),
    Rule(["lambda", "ecs", "ec2", "function"], "Application Layer"),
    Rule(["rds", "dynamodb", "database", "table"], "Database Layer"),
    Rule(["s3", "bucket", "storage"], "Storage Layer"),
    Rule(["iam", "role", "policy", "cognito", "auth"], "Security & Identity"),
    Rule(["vpc", "subnet", "security_group", "route", "gateway", "nat"], "Network Infrastructure"),
    Rule(["cloudwatch", "log", "alarm", "metric", "sns", "sqs"], "Monitoring & Operations")]

  /** The architectural layer of an asset on the no-graph path; it is total and
      always one of the eight fixed layers. */
  function HighLevelArchitecture(asset: Asset): (layer: string)
    ensures layer in HighLevelLayers
  {
    var t := ToLower(asset.kind);
    if Contains(t, "api_gateway") || Contains(t, "cloudfront") || Contains(t, "load_balancer") then
      "Frontend & API Layer"
    else if Contains(t, "lambda") || Contains(t, "ecs") || Contains(t, "ec2") || Contains(t, "function") then
      "Application Layer"
    else if Contains(t, "rds") || Contains(t, "dynamodb") || Contains(t, "database") || Contains(t, "table") then
      "Database Layer"
    else if Contains(t, "s3") || Contains(t, "bucket") || Contains(t, "storage") then
      "Storage Layer"
    else if Contains(t, "iam") || Contains(t, "role") || Contains(t, "policy")
         || Contains(t, "cognito") || Contains(t, "auth") then
      "Security & Identity"
    else if Contains(t, "vpc") || Contains(t, "subnet") || Contains(t, "security_group")
         || Contains(t, "route") || Contains(t, "gateway") || Contains(t, "nat") then
      "Network Infrastructure"
    else if Contains(t, "cloudwatch") || Contains(t, "log") || Contains(t, "alarm")
         || Contains(t, "metric") || Contains(t, "sns") || Contains(t, "sqs") then
      "Monitoring & Operations"
    else
      "Supporting Infrastructure"
  }

  /** The if-chain is the first-match reading of its keyword table, defaulting to Supporting Infrastructure. */
  lemma HighLevelArchitectureIsFirstMatch(asset: Asset)
    ensures HighLevelArchitecture(asset)
            == FirstMatch(HighLevelRules, ToLower(asset.kind), "Supporting Infrastructure")
  {
    var t := ToLower(asset.kind);
    var r := HighLevelRules;
    var d := "Supporting Infrastructure";
    FirstMatchOfSeven(r, t, d);
    AnyContains3(t, "api_gateway", "cloudfront", "load_balancer");
    AnyContains4(t, "lambda", "ecs", "ec2", "function");
    AnyContains4(t, "rds", "dynamodb", "database", "table");
    AnyContains3(t, "s3", "bucket", "storage");
    AnyContains5(t, "iam", "role", "policy", "cognito", "auth");
    AnyContains6(t, "vpc", "subnet", "security_group", "route", "gateway", "nat");
    AnyContains6(t, "cloudwatch", "log", "alarm", "metric", "sns", "sqs");
  }


  // ----- determineArchitecturalComponent (the layer table of the graph path) -----

  const ComponentLayers: seq<string> := [
    "API & Frontend Layer", "Compute Layer", "Database Layer", "Storage Layer",
    "Security & IAM Layer", "Network Infrastructure", "Monitoring & Logging",
    "Supporting Infrastructure"]

  const ComponentRules: seq<Rule<string>> := [
    Rule(["api_gateway", "load_balancer", "cloudfront"], "API & Frontend Layer"),
    Rule(["lambda", "function", "ecs", "ec2"], "Compute Layer"),
    Rule(["rds", "dynamodb", "database"], "Database Layer"),
    Rule(["s3", "bucket", "storage"], "Storage Layer"),
    Rule(["iam", "role", "policy", "security_group"], "Security & IAM Layer"),
    Rule(["vpc", "subnet", "route", "gateway"], "Network Infrastructure"),
    Rule(["cloudwatch", "log", "monitoring"], "Monitoring & Logging")]

  /** The architectural layer of an asset on the graph path; it is total and
      always one of its eight fixed layers. */
  function ArchitecturalComponent(asset: Asset): (layer: string)
    ensures layer in ComponentLayers
  {
    var t := ToLower(asset.kind);
    if Contains(t, "api_gateway") || Contains(t, "load_balancer") || Contains(t, "cloudfront") then
      "API & Frontend Layer"
    else if Contains(t, "lambda") || Contains(t, "function") || Contains(t, "ecs") || Contains(t, "ec2") then
      "Compute Layer"
    else if Contains(t, "rds") || Contains(t, "dynamodb") || Contains(t, "database") then
      "Database Layer"
    else if Contains(t, "s3") || Contains(t, "bucket") || Contains(t, "storage") then
      "Storage Layer"
    else if Contains(t, "iam") || Contains(t, "role") || Contains(t, "policy") || Contains(t, "security_group") then
      "Security & IAM Layer"
    else if Contains(t, "vpc") || Contains(t, "subnet") || Contains(t, "route") || Contains(t, "gateway") then
      "Network Infrastructure"
    else if Contains(t, "cloudwatch") || Contains(t, "log") || Contains(t, "monitoring") then
      "Monitoring & Logging"
    else
      "Supporting Infrastructure"
  }

  lemma ArchitecturalComponentIsFirstMatch(asset: Asset)
    ensures ArchitecturalComponent(asset)
            == FirstMatch(ComponentRules, ToLower(asset.kind), "Supporting Infrastructure")
  {
    var t := ToLower(asset.kind);
    FirstMatchOfSeven(ComponentRules, t, "Supporting Infrastructure");
    AnyContains3(t, "api_gateway", "load_balancer", "cloudfront");
    AnyContains4(t, "lambda", "function", "ecs", "ec2");
    AnyContains3(t, "rds", "dynamodb", "database");
    AnyContains3(t, "s3", "bucket", "storage");
    AnyContains4(t, "iam", "role", "policy", "security_group");
    AnyContains4(t, "vpc", "subnet", "route", "gateway");
    AnyContains3(t, "cloudwatch", "log", "monitoring");
  }


  // ----- getResourceImportanceScore and isArchitecturallySignificant -----

  const ScoreRules: seq<Rule<nat>> := [
    Rule(["api_gateway_rest_api", "load_balancer"], 10),
    Rule(["lambda_function", "ecs_service"], 9),
    Rule(["rds_instance", "dynamodb_table"], 8),
    Rule(["s3_bucket"], 7),
    Rule(["iam_role"], 6),
    Rule(["vpc", "security_group"], 5),
    Rule(["policy", "attachment"], 3),
    Rule(["method", "integration"], 2)]

  /** The importance score of an asset: always one of 1, 2, 3, 5, 6, 7, 8, 9, 10. */
  function ImportanceScore(asset: Asset): (score: nat)
    ensures score in {1, 2, 3, 5, 6, 7, 8, 9, 10}
  {
    var t := ToLower(asset.kind);
    if Contains(t, "api_gateway_rest_api") || Contains(t, "load_balancer") then 10
    else if Contains(t, "lambda_function") || Contains(t, "ecs_service") then 9
    else if Contains(t, "rds_instance") || Contains(t, "dynamodb_table") then 8
    else if Contains(t, "s3_bucket") then 7
    else if Contains(t, "iam_role") then 6
    else if Contains(t, "vpc") || Contains(t, "security_group") then 5
    else if Contains(t, "policy") || Contains(t, "attachment") then 3
    else if Contains(t, "method") || Contains(t, "integration") then 2
    else 1
  }

  lemma ImportanceScoreIsFirstMatch(asset: Asset)
    ensures ImportanceScore(asset) == FirstMatch(ScoreRules, ToLower(asset.kind), 1)
  {
    var t := ToLower(asset.kind);
    FirstMatchSuffix(ScoreRules, t, 1, 0);
    assert ScoreRules[0..] == ScoreRules;
    FirstMatchOfSeven(ScoreRules[1..], t, 1);
    AnyContains2(t, "api_gateway_rest_api", "load_balancer");
    AnyContains2(t, "lambda_function", "ecs_service");
    AnyContains2(t, "rds_instance", "dynamodb_table");
    AnyContains1(t, "s3_bucket");
    AnyContains1(t, "iam_role");
    AnyContains2(t, "vpc", "security_group");
    AnyContains2(t, "policy", "attachment");
    AnyContains2(t, "method", "integration");
  }


  /** A resource worth keeping on its own on the graph path. */
  predicate IsArchitecturallySignificant(asset: Asset) {
    ImportanceScore(asset) >= 5
  }

  /** The keywords of the rules scoring 5 or more. */
  const SignificantKeywords: seq<string> := [
    "api_gateway_rest_api", "load_balancer", "lambda_function", "ecs_service", "rds_instance",
    "dynamodb_table", "s3_bucket", "iam_role", "vpc", "security_group"]

  /** An asset is significant exactly when its type names an API root, a load balancer,
      a function or container service, a database, a bucket, a role, a VPC or a security group. */
  lemma SignificantIff(asset: Asset)
    ensures IsArchitecturallySignificant(asset) <==> AnyContains(ToLower(asset.kind), SignificantKeywords)
  {
    var t := ToLower(asset.kind);
    var front := ["api_gateway_rest_api", "load_balancer", "lambda_function", "ecs_service", "rds_instance"];
    var back := ["dynamodb_table", "s3_bucket", "iam_role", "vpc", "security_group"];
    assert SignificantKeywords == front + back;
    AnyContainsAppend(t, front, back);
    AnyContains5(t, "api_gateway_rest_api", "load_balancer", "lambda_function", "ecs_service", "rds_instance");
    AnyContains5(t, "dynamodb_table", "s3_bucket", "iam_role", "vpc", "security_group");
  }


  /** The keywords of the rules scoring 7 or more: the singletons the no-graph path keeps. */
  const KeptSingletonKeywords: seq<string> := [
    "api_gateway_rest_api", "load_balancer", "lambda_function", "ecs_service", "rds_instance",
    "dynamodb_table", "s3_bucket"]

  lemma KeptSingletonIff(asset: Asset)
    ensures ImportanceScore(asset) >= 7 <==> AnyContains(ToLower(asset.kind), KeptSingletonKeywords)
  {
    var t := ToLower(asset.kind);
    var front := ["api_gateway_rest_api", "load_balancer", "lambda_function", "ecs_service"];
    var back := ["rds_instance", "dynamodb_table", "s3_bucket"];
    assert KeptSingletonKeywords == front + back;
    AnyContainsAppend(t, front, back);
    AnyContains4(t, "api_gateway_rest_api", "load_balancer", "lambda_function", "ecs_service");
    AnyContains3(t, "rds_instance", "dynamodb_table", "s3_bucket");
  }


  /** The importance score as a comparison key. */
  function Score(a: Asset): int {
    ImportanceScore(a)
  }


  /** `selectMostImportantResource`: none for no assets, otherwise the first asset of greatest score. */
  function SelectMostImportantResource(assets: seq<Asset>): (r: Option<Asset>)
    ensures r.None? <==> |assets| == 0
    ensures r.Some? ==> r.value in assets
    ensures r.Some? ==> forall a :: a in assets ==> ImportanceScore(a) <= ImportanceScore(r.value)
    ensures r.Some? ==> exists k :: 0 <= k < |assets| && assets[k] == r.value
                          && forall j :: 0 <= j < k ==> ImportanceScore(assets[j]) < ImportanceScore(r.value)
  {
    if |assets| == 0 then None else Some(assets[ArgMax(assets, Score)])
  }

  // ----- getTypeFamily and areRelatedTypes (the DOT clusterer) -----

  const FamilyTags: seq<string> := [
    "storage_system", "security_system", "api_system", "compute_system", "network_system",
    "database_system", "infrastructure_system"]

  /** The six keyword rules of `getTypeFamily`, in the order they are tried. */
  const FamilyRules: seq<Rule<string>> := [
    Rule(["s3"], "storage_system"),
    Rule(["iam"], "security_system"),
    Rule(["api_gateway"], "api_system"),
    Rule(["lambda"], "compute_system"),
    Rule(["vpc", "subnet"], "network_system"),
    Rule(["rds", "dynamodb"], "database_system")]

  /** The family tag of a resource type; always one of seven tags. Unlike the layer tables it is case-sensitive. */
  function TypeFamily(resourceType: string): (tag: string)
    ensures tag in FamilyTags
  {
    var t := resourceType;
    if Contains(t, "s3") then "storage_system"
    else if Contains(t, "iam") then "security_system"
    else if Contains(t, "api_gateway") then "api_system"
    else if Contains(t, "lambda") then "compute_system"
    else if Contains(t, "vpc") || Contains(t, "subnet") then "network_system"
    else if Contains(t, "rds") || Contains(t, "dynamodb") then "database_system"
    else "infrastructure_system"
  }

  /** The family is the outcome of the first family rule with a keyword in
      the type itself (not lower-cased), `infrastructure_system` when none has. */
  lemma TypeFamilyIsFirstMatch(t: string)
    ensures TypeFamily(t) == FirstMatch(FamilyRules, t, "infrastructure_system")
  {
    FirstMatchSuffix(FamilyRules, t, "infrastructure_system", 0);
    assert FamilyRules[0..] == FamilyRules;
    FirstMatchSuffix(FamilyRules, t, "infrastructure_system", 1);
    FirstMatchSuffix(FamilyRules, t, "infrastructure_system", 2);
    FirstMatchSuffix(FamilyRules, t, "infrastructure_system", 3);
    FirstMatchSuffix(FamilyRules, t, "infrastructure_system", 4);
    FirstMatchSuffix(FamilyRules, t, "infrastructure_system", 5);
    assert FamilyRules[6..] == [];
    AnyContains1(t, "s3");
    AnyContains1(t, "iam");
    AnyContains1(t, "api_gateway");
    AnyContains1(t, "lambda");
    AnyContains2(t, "vpc", "subnet");
    AnyContains2(t, "rds", "dynamodb");
  }

  const RelatedGroups: seq<seq<string>> := [
    ["aws_s3_bucket", "aws_s3_bucket_policy", "aws_s3_bucket_acl", "aws_s3_bucket_cors_configuration"],
    ["aws_iam_role", "aws_iam_role_policy_attachment", "aws_iam_policy"],
    ["aws_api_gateway_rest_api", "aws_api_gateway_resource", "aws_api_gateway_method"],
    ["aws_lambda_function", "aws_lambda_permission", "aws_lambda_alias"],
    ["aws_vpc", "aws_subnet", "aws_route_table", "aws_security_group"]]

  /** Two types are related when one group of the table lists both; every
      type the table lists is an `aws_` type. */
  predicate AreRelatedTypes(t1: string, t2: string)
    ensures AreRelatedTypes(t1, t2) ==> StartsWith(t1, "aws_") && StartsWith(t2, "aws_")
  {
    GroupsPrefixed();
    exists i :: 0 <= i < |RelatedGroups| && t1 in RelatedGroups[i] && t2 in RelatedGroups[i]
  }

  /** A VPC and a route table are related, in both orders. */
  lemma VpcRouteTableRelated(vpc: string, table: string)
    requires vpc == "aws_vpc" && table == "aws_route_table"
    ensures AreRelatedTypes(vpc, table) && AreRelatedTypes(table, vpc)
  {
    assert vpc in RelatedGroups[4] && table in RelatedGroups[4];
  }

  lemma TypeFamilyOfVpc(vpc: string)
    requires vpc == "aws_vpc"
    ensures TypeFamily(vpc) == "network_system"
  {
    NoCharNoContains(vpc, "s3", '3');
    NoCharNoContains(vpc, "iam", 'i');
    NoCharNoContains(vpc, "api_gateway", 'i');
    NoCharNoContains(vpc, "lambda", 'l');
    assert OccursAt(vpc, "vpc", 4);
    ContainsAt(vpc, "vpc", 4);
  }

  /** The letters `aws_route_table` is spelt with. */
  lemma RouteTableAlphabet(table: string)
    requires table == "aws_route_table"
    ensures forall c :: c in table ==> c in {'a', 'w', 's', '_', 'r', 'o', 'u', 't', 'e', 'b', 'l'}
  {
  }

  /** None of the eight family keywords occurs in a word spelt with those
      letters: each holds a letter outside them. */
  lemma RouteTableMissesFamilies(table: string)
    requires forall c :: c in table ==> c in {'a', 'w', 's', '_', 'r', 'o', 'u', 't', 'e', 'b', 'l'}
    ensures !Contains(table, "s3") && !Contains(table, "iam") && !Contains(table, "api_gateway") && !Contains(table, "lambda")
    ensures !Contains(table, "vpc") && !Contains(table, "subnet") && !Contains(table, "rds") && !Contains(table, "dynamodb")
  {
    NoCharNoContains(table, "s3", '3');
    NoCharNoContains(table, "iam", 'i');
    NoCharNoContains(table, "api_gateway", 'g');
    NoCharNoContains(table, "lambda", 'm');
    NoCharNoContains(table, "vpc", 'v');
    NoCharNoContains(table, "subnet", 'n');
    NoCharNoContains(table, "rds", 'd');
    NoCharNoContains(table, "dynamodb", 'y');
  }

  lemma TypeFamilyOfRouteTable(table: string)
    requires table == "aws_route_table"
    ensures TypeFamily(table) == "infrastructure_system"
  {
    RouteTableAlphabet(table);
    RouteTableMissesFamilies(table);
  }

  /** Only the listed AWS types are related to anything. */
  lemma RelatedTypesAreListed(t1: string, t2: string)
    requires AreRelatedTypes(t1, t2)
    ensures AreRelatedTypes(t2, t1)
    ensures StartsWith(t1, "aws_") && StartsWith(t2, "aws_")
  {
    var i :| 0 <= i < |RelatedGroups| && t1 in RelatedGroups[i] && t2 in RelatedGroups[i];
    GroupIsPrefixed(i, t1);
    GroupIsPrefixed(i, t2);
  }

  lemma GroupsPrefixed()
    ensures forall i, t :: 0 <= i < |RelatedGroups| && t in RelatedGroups[i] ==> StartsWith(t, "aws_")
  {
    forall i, t | 0 <= i < |RelatedGroups| && t in RelatedGroups[i] ensures StartsWith(t, "aws_") {
      GroupIsPrefixed(i, t);
    }
  }

  lemma GroupIsPrefixed(i: nat, t: string)
    requires i < |RelatedGroups| && t in RelatedGroups[i]
    ensures StartsWith(t, "aws_")
  {
    var g := RelatedGroups[i];
    var j :| 0 <= j < |g| && g[j] == t;
    AwsPrefixed(t, t[4..]);
  }

  lemma AwsPrefixed(t: string, rest: string)
    requires t == "aws_" + rest
    ensures StartsWith(t, "aws_")
  {
  }


  // ----- getSystemPurpose and getArchitecturalName -----

  const SystemPurposes: map<string, string> := map[
    "Frontend & API Layer" := "Handles external requests and user interactions",
    "Application Layer" := "Executes business logic and application processing",
    "Database Layer" := "Manages persistent data storage and retrieval",
    "Storage Layer" := "Handles file storage, backups, and static content",
    "Security & Identity" := "Controls access, authentication, and authorization",
    "Network Infrastructure" := "Provides connectivity, isolation, and traffic routing",
    "Monitoring & Operations" := "Enables observability, alerting, and operational insights",
    "Supporting Infrastructure" := "Provides auxiliary services and configurations"]

  const DefaultPurpose := "Infrastructure component"

  /** The fixed purpose of a layer; the default for any name outside the table. */
  function SystemPurpose(layer: string): (purpose: string)
    ensures layer !in HighLevelLayers ==> purpose == DefaultPurpose
    ensures purpose != ""
  {
    if layer in SystemPurposes then SystemPurposes[layer] else DefaultPurpose
  }

  /** Every layer the no-graph classifier can produce has its own purpose, never the default. */
  lemma EveryLayerHasPurpose(asset: Asset)
    ensures SystemPurpose(HighLevelArchitecture(asset)) != DefaultPurpose
  {
  }

  const ArchitecturalNames: map<string, string> := map[
    "storage_system" := "Storage System",
    "security_system" := "Security & IAM System",
    "api_system" := "API Gateway System",
    "compute_system" := "Compute System",
    "network_system" := "Network Infrastructure",
    "database_system" := "Database System",
    "infrastructure_system" := "Infrastructure System"]

  /** The display name of a cluster key: the table's name for a family tag,
      otherwise the key with underscores as spaces followed by " System". */
  function ArchitecturalName(key: string): (name: string)
    ensures key in FamilyTags ==> name == ArchitecturalNames[key]
    ensures key !in ArchitecturalNames ==> name == ReplaceChar(key, '_', ' ') + " System"
    ensures '_' !in name
  {
    if key in ArchitecturalNames then ArchitecturalNames[key] else ReplaceChar(key, '_', ' ') + " System"
  }

  /** The seven family tags have seven different display names. */
  lemma ArchitecturalNamesDistinct(i: nat, j: nat)
    requires i < j < |FamilyTags|
    ensures ArchitecturalName(FamilyTags[i]) != ArchitecturalName(FamilyTags[j])
  {
  }

  /** The display name of a `<prefix>_group` key: the prefix with underscores
      as spaces, then ` group System`; it is the display name of no family. */
  lemma GroupKeyName(prefix: string)
    ensures ArchitecturalName(prefix + "_group") == ReplaceChar(prefix, '_', ' ') + " group System"
    ensures forall k :: k in FamilyTags ==> ArchitecturalName(prefix + "_group") != ArchitecturalNames[k]
  {
    var key := prefix + "_group";
    assert key[|key| - 1] == 'p';
    assert key !in ArchitecturalNames;
    ReplaceCharAppend(prefix, "_group", '_', ' ');
    assert ReplaceChar("_group", '_', ' ') == " group";
    var name := ReplaceChar(prefix, '_', ' ') + " group System";
    assert name[|name| - 8] == 'p';
    FamilyNamesLackP();
  }

  /** No family display name has a `p` eight places from its end. */
  lemma FamilyNamesLackP()
    ensures forall k :: k in FamilyTags ==> |ArchitecturalNames[k]| >= 8 && ArchitecturalNames[k][|ArchitecturalNames[k]| - 8] != 'p'
  {
  }
}

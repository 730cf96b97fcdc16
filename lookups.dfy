/** The three lookups the bot offers the language model as tools: the files in a
    bucket, the bucket's own policy, and the first identity-group policy
    statement that names the bucket. Each answers with a tagged result; only
    the file lookup swallows every fault. */
module Lookups {
  import opened PyRuntime
  import opened Cloud

  const NoSuchBucket: string := "No such bucket found"
  const NoGroupPolicy: string := "No user group configured policy for bucket"
  const CheckGroupPolicy: string := "Check user group policy for configuration"
  const S3ArnPrefix: string := "arn:aws:s3:::"

  /** The dictionary a lookup returns: `{"files": ...}`, `{"policy": ...}` or
      `{"error": ...}`. */
  datatype ToolResult = Files(files: seq<string>) | Policy(policy: Json) | Error(error: string)

  /** The resource name a policy uses for bucket `name`. */
  function BucketArn(name: string): string {
    S3ArnPrefix + name
  }

  // ---------------------------------------------------------------------------
  // get_bucket_files

  /** `[item.get('Key', '') for item in entries]` */
  function ObjectKeys(entries: seq<ObjectEntry>): (keys: seq<string>)
    ensures |keys| == |entries|
    ensures forall i :: 0 <= i < |entries| ==>
      entries[i].key == Some(keys[i]) || (entries[i].key.None? && keys[i] == "")
  {
    if entries == [] then [] else [entries[0].key.GetOr("")] + ObjectKeys(entries[1..])
  }

  /** The keys of a listing; a listing without `Contents` has none. */
  function ListingKeys(listing: ObjectListing): seq<string> {
    ObjectKeys(listing.contents.GetOr([]))
  }

  /** The file lookup never raises: an unknown bucket and any fault on the way
      both give an empty file list. */
  function BucketFiles(account: Account, name: string): (r: ToolResult)
    ensures r.Files?
    ensures !BucketExists(account, name) ==> r.files == []
    ensures BucketExists(account, name) && account.listObjects(name).Raised? ==> r.files == []
    ensures BucketExists(account, name) && account.listObjects(name).Done? ==>
      r.files == ListingKeys(account.listObjects(name).value)
  {
    match account.buckets
    case Raised(_) => Files([])
    case Done(names) =>
      if name !in names then Files([])
      else
        match account.listObjects(name)
        case Raised(_) => Files([])
        case Done(listing) => Files(ListingKeys(listing))
  }

  // ---------------------------------------------------------------------------
  // get_bucket_policy

  /** The bucket-policy lookup: the gate first, then the document's `Statement`
      unchanged. Only ClientError is caught; any other fault, including a
      document without `Statement`, escapes. */
  function BucketPolicy(account: Account, name: string): (r: Attempt<ToolResult>)
    ensures account.buckets.Raised? ==> r == Raised(account.buckets.fault)
    ensures account.buckets.Done? && name !in account.buckets.value ==> r == Done(Error(NoSuchBucket))
    ensures BucketExists(account, name) && account.bucketPolicy(name) == Raised(ClientError) ==>
      r == Done(Error(CheckGroupPolicy))
    ensures BucketExists(account, name) && account.bucketPolicy(name).Raised? && account.bucketPolicy(name).fault != ClientError ==>
      r == Raised(account.bucketPolicy(name).fault)
    ensures BucketExists(account, name) && account.bucketPolicy(name).Done? ==>
      match Index(account.bucketPolicy(name).value, "Statement")
      case Done(statement) => r == Done(Policy(statement))
      case Raised(f) => r == Raised(f)
    ensures r.Done? ==> r.value.Policy? || r.value.Error?
  {
    match account.buckets
    case Raised(f) => Raised(f)
    case Done(names) =>
      if name !in names then Done(Error(NoSuchBucket))
      else
        match account.bucketPolicy(name)
        case Raised(ClientError) => Done(Error(CheckGroupPolicy))
        case Raised(f) => Raised(f)
        case Done(document) =>
          match Index(document, "Statement")
          case Raised(f) => Raised(f)
          case Done(statement) => Done(Policy(statement))
  }

  // ---------------------------------------------------------------------------
  // get_user_group_policy: the scan as a flat sequence of steps

  /** One step of the group-policy scan: a statement to examine, or a fault met
      on the way to the next statements (a listing or a fetch that raised, a
      document without `Statement`, one that cannot be iterated). */
  datatype Step = Visit(statement: Json) | Fail(fault: Fault)

  /** A statement's `Resource` names `arn`: it is a list holding `arn`, or the
      string `arn` itself. Any other shape never matches. */
  predicate Matches(arn: string, resource: Json) {
    || (resource.JList? && JStr(arn) in resource.items)
    || (resource.JStr? && arn == resource.s)
  }

  /** What one step decides: `Done(None)` lets the scan go on, a matching
      statement ends it with that statement, a fault ends it by raising. */
  function StepOutcome(arn: string, step: Step): Attempt<Option<Json>> {
    match step
    case Fail(f) => Raised(f)
    case Visit(statement) =>
      match Index(statement, "Resource")
      case Raised(f) => Raised(f)
      case Done(resource) => if Matches(arn, resource) then Done(Some(statement)) else Done(None)
  }

  /** The scan passes over this step. */
  predicate Passes(arn: string, step: Step) {
    StepOutcome(arn, step) == Done(None)
  }

  /** A step that ends the scan with a statement visits that statement, and the
      statement's resource names `arn`. */
  lemma StepFound(arn: string, step: Step, statement: Json)
    requires StepOutcome(arn, step) == Done(Some(statement))
    ensures step == Visit(statement)
    ensures Index(statement, "Resource").Done? && Matches(arn, Index(statement, "Resource").value)
  {
  }

  /** The first step that does not pass decides the scan. */
  function FirstMatch(arn: string, steps: seq<Step>): Attempt<Option<Json>> {
    if steps == [] then Done(None)
    else if Passes(arn, steps[0]) then FirstMatch(arn, steps[1..])
    else StepOutcome(arn, steps[0])
  }

  /** The scan finds nothing exactly when it passes over every step. */
  lemma {:induction false} FirstMatchNone(arn: string, steps: seq<Step>)
    ensures FirstMatch(arn, steps) == Done(None) <==> forall k :: 0 <= k < |steps| ==> Passes(arn, steps[k])
  {
    if steps != [] {
      FirstMatchNone(arn, steps[1..]);
      if Passes(arn, steps[0]) {
        assert forall k :: 1 <= k < |steps| ==> steps[k] == steps[1..][k - 1];
      }
    }
  }

  /** Any other outcome is the outcome of the first step that does not pass. */
  lemma {:induction false} FirstMatchFirst(arn: string, steps: seq<Step>)
    requires FirstMatch(arn, steps) != Done(None)
    ensures exists k :: (0 <= k < |steps| && FirstMatch(arn, steps) == StepOutcome(arn, steps[k]) &&
      forall j :: 0 <= j < k ==> Passes(arn, steps[j]))
  {
    if Passes(arn, steps[0]) {
      FirstMatchFirst(arn, steps[1..]);
      var k :| 0 <= k < |steps[1..]| && FirstMatch(arn, steps[1..]) == StepOutcome(arn, steps[1..][k]) &&
        forall j :: 0 <= j < k ==> Passes(arn, steps[1..][j]);
      assert forall j :: 1 <= j < k + 1 ==> steps[j] == steps[1..][j - 1];
      assert 0 <= k + 1 < |steps| && FirstMatch(arn, steps) == StepOutcome(arn, steps[k + 1]);
    } else {
      assert FirstMatch(arn, steps) == StepOutcome(arn, steps[0]);
    }
  }

  lemma FirstMatchCons(arn: string, step: Step, rest: seq<Step>)
    ensures FirstMatch(arn, [step] + rest) ==
      if Passes(arn, step) then FirstMatch(arn, rest) else StepOutcome(arn, step)
  {
    assert ([step] + rest)[0] == step;
    assert ([step] + rest)[1..] == rest;
  }

  /** Scanning two runs of steps one after the other. */
  lemma {:induction false} FirstMatchAppend(arn: string, a: seq<Step>, b: seq<Step>)
    ensures FirstMatch(arn, a + b) ==
      if FirstMatch(arn, a) == Done(None) then FirstMatch(arn, b) else FirstMatch(arn, a)
  {
    if a == [] {
      assert a + b == b;
    } else {
      FirstMatchAppend(arn, a[1..], b);
      assert a + b == [a[0]] + (a[1..] + b);
      FirstMatchCons(arn, a[0], a[1..] + b);
    }
  }

  /** `for policy_text in statement_value` followed by `policy_text['Resource']`:
      a list gives its items; an empty dict or string gives no iteration; a
      non-empty dict or string yields a string first, which cannot be indexed
      by `'Resource'`; any other value is not iterable. */
  function StatementsToScan(value: Json): Attempt<seq<Json>> {
    match value
    case JList(items) => Done(items)
    case JDict(entries) => if entries == map[] then Done([]) else Raised(TypeError)
    case JStr(s) => if s == "" then Done([]) else Raised(TypeError)
    case _ => Raised(TypeError)
  }

  function StatementSteps(statements: seq<Json>): seq<Step> {
    if statements == [] then [] else [Visit(statements[0])] + StatementSteps(statements[1..])
  }

  /** The steps for one attached policy: its document's statements in order. */
  function PolicySteps(policy: AttachedPolicy): seq<Step> {
    match policy.document
    case Raised(f) => [Fail(f)]
    case Done(document) =>
      match Index(document, "Statement")
      case Raised(f) => [Fail(f)]
      case Done(value) =>
        match StatementsToScan(value)
        case Raised(f) => [Fail(f)]
        case Done(statements) => StatementSteps(statements)
  }

  function PoliciesSteps(policies: seq<AttachedPolicy>): seq<Step> {
    if policies == [] then [] else PolicySteps(policies[0]) + PoliciesSteps(policies[1..])
  }

  /** The steps for one group: its attached policies in order. */
  function GroupSteps(group: Group): seq<Step> {
    match group.attached
    case Raised(f) => [Fail(f)]
    case Done(policies) => PoliciesSteps(policies)
  }

  function GroupsSteps(groups: seq<Group>): seq<Step> {
    if groups == [] then [] else GroupSteps(groups[0]) + GroupsSteps(groups[1..])
  }

  /** Every step of the scan, group then policy then statement. */
  function ScanSteps(groups: Attempt<seq<Group>>): seq<Step> {
    match groups
    case Raised(f) => [Fail(f)]
    case Done(gs) => GroupsSteps(gs)
  }

  /** What the group-policy lookup returns for `name`. */
  function UserGroupPolicy(account: Account, name: string): Attempt<ToolResult> {
    match account.buckets
    case Raised(f) => Raised(f)
    case Done(names) =>
      if name !in names then Done(Error(NoSuchBucket))
      else
        match FirstMatch(BucketArn(name), ScanSteps(account.groups))
        case Raised(f) => Raised(f)
        case Done(None) => Done(Error(NoGroupPolicy))
        case Done(Some(statement)) => Done(Policy(statement))
  }

  /** An unknown bucket is refused before any group data is looked at. */
  lemma UserGroupPolicyGate(account: Account, name: string)
    requires account.buckets.Done? && name !in account.buckets.value
    ensures UserGroupPolicy(account, name) == Done(Error(NoSuchBucket))
  {
  }

  /** A returned statement names the bucket's resource and is the first in scan
      order to do so: every step before it is a statement the scan passes over. */
  lemma UserGroupPolicySound(account: Account, name: string, statement: Json)
    requires UserGroupPolicy(account, name) == Done(Policy(statement))
    ensures BucketExists(account, name)
    ensures exists k :: (0 <= k < |ScanSteps(account.groups)| &&
      ScanSteps(account.groups)[k] == Visit(statement) &&
      forall j :: 0 <= j < k ==> Passes(BucketArn(name), ScanSteps(account.groups)[j]))
    ensures Index(statement, "Resource").Done? && Matches(BucketArn(name), Index(statement, "Resource").value)
  {
    var arn, steps := BucketArn(name), ScanSteps(account.groups);
    FirstMatchFirst(arn, steps);
    var k :| 0 <= k < |steps| && FirstMatch(arn, steps) == StepOutcome(arn, steps[k]) &&
      forall j :: 0 <= j < k ==> Passes(arn, steps[j]);
    StepFound(arn, steps[k], statement);
  }

  /** Conversely, the first statement in scan order whose resource names the
      bucket is the one returned, when every step before it passes. */
  lemma UserGroupPolicyFirst(account: Account, name: string, k: nat, statement: Json)
    requires BucketExists(account, name)
    requires k < |ScanSteps(account.groups)| && ScanSteps(account.groups)[k] == Visit(statement)
    requires Index(statement, "Resource").Done? && Matches(BucketArn(name), Index(statement, "Resource").value)
    requires forall j :: 0 <= j < k ==> Passes(BucketArn(name), ScanSteps(account.groups)[j])
    ensures UserGroupPolicy(account, name) == Done(Policy(statement))
  {
    var arn, steps := BucketArn(name), ScanSteps(account.groups);
    assert StepOutcome(arn, steps[k]) == Done(Some(statement));
    FirstMatchNone(arn, steps);
    FirstMatchFirst(arn, steps);
    var m :| 0 <= m < |steps| && FirstMatch(arn, steps) == StepOutcome(arn, steps[m]) &&
      forall j :: 0 <= j < m ==> Passes(arn, steps[j]);
    assert !(m < k) && !(k < m);
  }

  /** "No user group configured policy" exactly when the bucket exists and the
      scan passes over every step: no fault, no statement naming the bucket. */
  lemma UserGroupPolicyNoMatch(account: Account, name: string)
    ensures UserGroupPolicy(account, name) == Done(Error(NoGroupPolicy)) <==>
      BucketExists(account, name) &&
      forall k :: 0 <= k < |ScanSteps(account.groups)| ==> Passes(BucketArn(name), ScanSteps(account.groups)[k])
  {
    FirstMatchNone(BucketArn(name), ScanSteps(account.groups));
  }

  /** A fault raised by the lookup is the bucket listing's own, or that of the
      first step of the scan that does not pass. */
  lemma UserGroupPolicyRaises(account: Account, name: string, f: Fault)
    requires UserGroupPolicy(account, name) == Raised(f)
    ensures account.buckets == Raised(f) ||
      exists k :: 0 <= k < |ScanSteps(account.groups)| &&
        StepOutcome(BucketArn(name), ScanSteps(account.groups)[k]) == Raised(f) &&
        forall j :: 0 <= j < k ==> Passes(BucketArn(name), ScanSteps(account.groups)[j])
  {
    if account.buckets.Done? {
      FirstMatchFirst(BucketArn(name), ScanSteps(account.groups));
    }
  }

  // ---------------------------------------------------------------------------
  // get_user_group_policy: the nested loops, one method per level

  /** The innermost loop: each statement's `Resource` checked in order; the
      first one naming `arn` ends the scan. */
  method ScanStatements(arn: string, statements: seq<Json>) returns (r: Attempt<Option<Json>>)
    ensures r == FirstMatch(arn, StatementSteps(statements))
  {
    assert statements[0..] == statements;
    var si := 0;
    while si < |statements|
      invariant 0 <= si <= |statements|
      invariant FirstMatch(arn, StatementSteps(statements)) == FirstMatch(arn, StatementSteps(statements[si..]))
    {
      var statement := statements[si];
      assert statements[si..][1..] == statements[si + 1..];
      FirstMatchCons(arn, Visit(statement), StatementSteps(statements[si + 1..]));
      var resource := Index(statement, "Resource");
      if resource.Raised? {
        return Raised(resource.fault);
      }
      if resource.value.JList? && JStr(arn) in resource.value.items {
        return Done(Some(statement));
      } else if resource.value.JStr? && arn == resource.value.s {
        return Done(Some(statement));
      }
      si := si + 1;
    }
    return Done(None);
  }

  /** One attached policy: fetch its default version's document, take its
      `Statement` and scan it. */
  method ScanPolicy(arn: string, policy: AttachedPolicy) returns (r: Attempt<Option<Json>>)
    ensures r == FirstMatch(arn, PolicySteps(policy))
  {
    if policy.document.Raised? {
      FirstMatchCons(arn, Fail(policy.document.fault), []);
      return Raised(policy.document.fault);
    }
    var statementValue := Index(policy.document.value, "Statement");
    if statementValue.Raised? {
      FirstMatchCons(arn, Fail(statementValue.fault), []);
      return Raised(statementValue.fault);
    }
    var toScan := StatementsToScan(statementValue.value);
    if toScan.Raised? {
      FirstMatchCons(arn, Fail(toScan.fault), []);
      return Raised(toScan.fault);
    }
    r := ScanStatements(arn, toScan.value);
  }

  /** The middle loop: a group's attached policies in order. */
  method ScanPolicies(arn: string, policies: seq<AttachedPolicy>) returns (r: Attempt<Option<Json>>)
    ensures r == FirstMatch(arn, PoliciesSteps(policies))
  {
    assert policies[0..] == policies;
    var pi := 0;
    while pi < |policies|
      invariant 0 <= pi <= |policies|
      invariant FirstMatch(arn, PoliciesSteps(policies)) == FirstMatch(arn, PoliciesSteps(policies[pi..]))
    {
      assert policies[pi..][1..] == policies[pi + 1..];
      FirstMatchAppend(arn, PolicySteps(policies[pi]), PoliciesSteps(policies[pi + 1..]));
      var found := ScanPolicy(arn, policies[pi]);
      if found != Done(None) {
        return found;
      }
      pi := pi + 1;
    }
    return Done(None);
  }

  /** The outer loop: the groups in order, each with its attached policies. */
  method ScanGroups(arn: string, groups: seq<Group>) returns (r: Attempt<Option<Json>>)
    ensures r == FirstMatch(arn, GroupsSteps(groups))
  {
    assert groups[0..] == groups;
    var gi := 0;
    while gi < |groups|
      invariant 0 <= gi <= |groups|
      invariant FirstMatch(arn, GroupsSteps(groups)) == FirstMatch(arn, GroupsSteps(groups[gi..]))
    {
      var group := groups[gi];
      assert groups[gi..][1..] == groups[gi + 1..];
      FirstMatchAppend(arn, GroupSteps(group), GroupsSteps(groups[gi + 1..]));
      if group.attached.Raised? {
        FirstMatchCons(arn, Fail(group.attached.fault), []);
        return Raised(group.attached.fault);
      }
      var found := ScanPolicies(arn, group.attached.value);
      if found != Done(None) {
        return found;
      }
      gi := gi + 1;
    }
    return Done(None);
  }

  /** The lookup as the source runs it: the gate, then the nested scan, which
      returns at the first statement whose resource names the bucket. */
  method GetUserGroupPolicy(account: Account, name: string) returns (r: Attempt<ToolResult>)
    ensures r == UserGroupPolicy(account, name)
  {
    if account.buckets.Raised? {
      return Raised(account.buckets.fault);
    }
    if name !in account.buckets.value {
      return Done(Error(NoSuchBucket));
    }
    var arn := BucketArn(name);
    var found: Attempt<Option<Json>>;
    if account.groups.Raised? {
      FirstMatchCons(arn, Fail(account.groups.fault), []);
      found := Raised(account.groups.fault);
    } else {
      found := ScanGroups(arn, account.groups.value);
    }
    match found
    case Raised(f) => r := Raised(f);
    case Done(None) => r := Done(Error(NoGroupPolicy));
    case Done(Some(statement)) => r := Done(Policy(statement));
  }
}

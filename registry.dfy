/** The tool table: a tool call names a tool, the name is lowercased and looked
    up among the three lookups, and the lookup runs on the call's bucket name. */
module Registry {
  import opened PyRuntime
  import opened PyStrings
  import opened Cloud
  import opened Lookups

  datatype ToolId = FilesTool | BucketPolicyTool | GroupPolicyTool

  /** The key each tool has in the dispatch table. */
  function ToolName(t: ToolId): string {
    match t
    case FilesTool => "get_bucket_files"
    case BucketPolicyTool => "get_bucket_policy"
    case GroupPolicyTool => "get_user_group_policy"
  }

  /** A tool call as the engine emits it: the tool's name as the engine wrote
      it, the `bucket_name` argument, and the call's identifier. */
  datatype ToolCall = ToolCall(name: string, bucketName: string, id: string)

  /** The message a tool invocation produces: the identifier of the call it
      answers and the lookup's result. */
  datatype ToolMessage = ToolMessage(callId: string, result: ToolResult)

  /** The dispatch table indexed by `name.lower()`; None is the KeyError. */
  function ResolveTool(name: string): (r: Option<ToolId>)
    ensures r.Some? ==> ToolName(r.value) == Lower(name)
    ensures r.None? ==> forall t: ToolId :: ToolName(t) != Lower(name)
  {
    var key := Lower(name);
    if key == "get_bucket_files" then Some(FilesTool)
    else if key == "get_bucket_policy" then Some(BucketPolicyTool)
    else if key == "get_user_group_policy" then Some(GroupPolicyTool)
    else None
  }

  /** Each tool's own name resolves to it. */
  lemma ResolveToolName(t: ToolId)
    ensures ResolveTool(ToolName(t)) == Some(t)
  {
    LowerWordFixed(ToolName(t));
  }

  /** Resolution ignores case: a name and its lowercase resolve alike. */
  lemma ResolveIgnoresCase(name: string)
    ensures ResolveTool(Lower(name)) == ResolveTool(name)
  {
    LowerIdempotent(name);
  }

  /** Running one tool on a bucket name. */
  function RunTool(account: Account, t: ToolId, bucketName: string): (r: Attempt<ToolResult>)
    ensures t == FilesTool ==> r.Done? && r.value.Files?
    ensures t != FilesTool && r.Done? ==> r.value.Policy? || r.value.Error?
  {
    match t
    case FilesTool => Done(BucketFiles(account, bucketName))
    case BucketPolicyTool => BucketPolicy(account, bucketName)
    case GroupPolicyTool => UserGroupPolicy(account, bucketName)
  }

  /** A bucket missing from a listing that answered: the file lookup reports no
      files and both policy lookups report that there is no such bucket, whatever
      the policy data holds. */
  lemma UnknownBucket(account: Account, bucketName: string)
    requires account.buckets.Done? && bucketName !in account.buckets.value
    ensures RunTool(account, FilesTool, bucketName) == Done(Files([]))
    ensures RunTool(account, BucketPolicyTool, bucketName) == Done(Error(NoSuchBucket))
    ensures RunTool(account, GroupPolicyTool, bucketName) == Done(Error(NoSuchBucket))
  {
    UserGroupPolicyGate(account, bucketName);
  }

  /** Resolving one call and running its tool: an unknown name raises KeyError,
      a fault in the lookup escapes, and otherwise the answer carries the call's
      identifier and the lookup's result. */
  function Invoke(account: Account, call: ToolCall): (r: Attempt<ToolMessage>)
    ensures ResolveTool(call.name).None? ==> r == Raised(KeyError)
    ensures ResolveTool(call.name).Some? ==>
      match RunTool(account, ResolveTool(call.name).value, call.bucketName)
      case Done(result) => r == Done(ToolMessage(call.id, result))
      case Raised(f) => r == Raised(f)
  {
    match ResolveTool(call.name)
    case None => Raised(KeyError)
    case Some(t) =>
      match RunTool(account, t, call.bucketName)
      case Raised(f) => Raised(f)
      case Done(result) => Done(ToolMessage(call.id, result))
  }

  /** `selected_tool.invoke(tool_call)`, the group lookup run by its loops. */
  method InvokeTool(account: Account, call: ToolCall) returns (r: Attempt<ToolMessage>)
    ensures r == Invoke(account, call)
  {
    var t := ResolveTool(call.name);
    if t.None? {
      return Raised(KeyError);
    }
    var result: Attempt<ToolResult>;
    match t.value {
      case FilesTool => result := Done(BucketFiles(account, call.bucketName));
      case BucketPolicyTool => result := BucketPolicy(account, call.bucketName);
      case GroupPolicyTool => result := GetUserGroupPolicy(account, call.bucketName);
    }
    match result {
      case Raised(f) => r := Raised(f);
      case Done(res) => r := Done(ToolMessage(call.id, res));
    }
  }

  /** The answers to a run of tool calls, in order, up to the first that
      raised, and that fault. */
  datatype Dispatched = Dispatched(replies: seq<ToolMessage>, fault: Option<Fault>)

  /** Invoking calls one by one, in order; a fault stops the run. */
  function Dispatch(account: Account, calls: seq<ToolCall>): Dispatched {
    if calls == [] then Dispatched([], None)
    else
      match Invoke(account, calls[0])
      case Raised(f) => Dispatched([], Some(f))
      case Done(reply) =>
        var rest := Dispatch(account, calls[1..]);
        Dispatched([reply] + rest.replies, rest.fault)
  }

  /** Every call before the fault is answered, in call order: the i-th answer
      is the i-th call's; a fault is the fault of the first call not answered;
      without a fault every call is answered. */
  lemma {:induction false} DispatchAnswers(account: Account, calls: seq<ToolCall>)
    ensures var d := Dispatch(account, calls);
      && |d.replies| <= |calls|
      && (d.fault.None? ==> |d.replies| == |calls|)
      && (forall i :: 0 <= i < |d.replies| ==> Invoke(account, calls[i]) == Done(d.replies[i]))
      && (d.fault.Some? ==> |d.replies| < |calls| && Invoke(account, calls[|d.replies|]) == Raised(d.fault.value))
  {
    if calls != [] && Invoke(account, calls[0]).Done? {
      var rest := calls[1..];
      DispatchAnswers(account, rest);
      DispatchDone(account, calls);
      var d, dr := Dispatch(account, calls), Dispatch(account, rest);
      forall i | 0 <= i < |d.replies|
        ensures Invoke(account, calls[i]) == Done(d.replies[i])
      {
        if i > 0 {
          assert calls[i] == rest[i - 1] && d.replies[i] == dr.replies[i - 1];
        }
      }
      if d.fault.Some? {
        assert calls[|d.replies|] == rest[|dr.replies|];
      }
    }
  }

  /** A run whose first call answers: that answer, then the rest's. */
  lemma DispatchDone(account: Account, calls: seq<ToolCall>)
    requires calls != [] && Invoke(account, calls[0]).Done?
    ensures Dispatch(account, calls) ==
      Dispatched([Invoke(account, calls[0]).value] + Dispatch(account, calls[1..]).replies, Dispatch(account, calls[1..]).fault)
  {
  }

  /** No call is dropped: the run completes exactly when every call answers. */
  lemma {:induction false} DispatchCompletes(account: Account, calls: seq<ToolCall>)
    ensures Dispatch(account, calls).fault.None? <==> forall i :: 0 <= i < |calls| ==> Invoke(account, calls[i]).Done?
  {
    DispatchAnswers(account, calls);
    if calls != [] {
      DispatchCompletes(account, calls[1..]);
      assert forall i :: 1 <= i < |calls| ==> calls[i] == calls[1..][i - 1];
    }
  }
}

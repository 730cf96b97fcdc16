# AWS S3 security bot — a Dafny model of its logic

The bot is a chat assistant. A user names an S3 bucket, and a language model
("the engine") answers. The engine can call three lookup tools:

- the files in a bucket;
- the bucket's own policy;
- the first identity-group policy statement whose resource is the bucket.

The bot runs the tool calls the engine asks for and adds their results to the
chat history. It then asks the engine once more and shows the second reply. It
also takes an "issues" summary from that reply: the second paragraph.

This project models the parts of `submission.py` that are logic, not plumbing:

- **py_runtime.dfy** (`PyRuntime`): the bits of Python the logic depends on.
  - `Attempt` says whether an expression returned a value or raised a `Fault`.
  - `Json` is a parsed policy document.
  - `Index` is `v[key]`. It raises KeyError or TypeError the way Python does.
- **py_strings.dfy** (`PyStrings`): `str.lower`, `str.find`, `str.split(sep)`
  and `sep.join`.
- **cloud.dfy** (`Cloud`): what the S3 and IAM clients would answer, given as
  plain input data (`Account`). Every remote answer is an `Attempt`.
- **lookups.dfy** (`Lookups`): `get_bucket_files`, `get_bucket_policy` and
  `get_user_group_policy`.
  - The group lookup has a flat reference: `FirstMatch` over the scan's
    `Step`s, in group, then policy, then statement order.
  - Its nested loops run from one method per level and are proved equal to
    that reference.
- **registry.dfy** (`Registry`): the dispatch table, keyed by the lowercased
  tool name. `Dispatch` invokes calls one by one until one of them raises.
- **conversation.dfy** (`Conversation`): the chat history and the user-turn
  handler.
  - `Turn` is the turn as a pure function of the history before it.
  - `Session` is a class with the `messages` and `issues` fields.
  - `Session.HandleTurn` does the appends with loops, as the handler does, and
    is proved equal to `Turn`.
  - `Issues` is the `split("\n\n")[1]` summary.

What the code does, where a reader might expect otherwise:

- The history roles are `system`, `human`, `ai` and `tool` (submission.py:163, 185, 193, 198, 215).
- The error texts are `No such bucket found`, `Check user group policy for
  configuration` and `No user group configured policy for bucket`
  (submission.py:46, 73, 80, 59).
- A turn whose first reply asks for no tool adds three entries: the user's
  message and both engine replies (submission.py:185, 193, 215).
- Only the file lookup swallows every fault (submission.py:30-33). The
  bucket-policy lookup catches only ClientError (submission.py:79), and the
  group lookup catches nothing, so their other faults escape and end the turn.
- The summary is the second piece of `split("\n\n")` (submission.py:202).
- `issues` in the session is set empty at start-up (submission.py:164) and
  never written again. The summary is shown and then dropped, so `HandleTurn`
  returns it in its outcome and leaves the field unchanged.

## Model

| member | source | states |
|---|---|---|
| Lookups.ObjectKeys | submission.py:29 | One key per listed object, in listing order; an object without `Key` gives `""` |
| Lookups.BucketFiles | submission.py:24-33 | Always a `files` result, never a fault; `[]` for a bucket not in the listing, a failed bucket listing or a failed object listing; otherwise the listing's keys, `[]` when `Contents` is missing |
| Lookups.BucketPolicy | submission.py:69-80 | A fault of the bucket listing escapes; an unknown bucket gives `No such bucket found`; a ClientError from the policy fetch gives `Check user group policy for configuration`; any other fault escapes; otherwise the document's `Statement` unchanged, or the KeyError/TypeError of indexing it; a returned value is always `policy` or `error` |
| Lookups.StepFound | submission.py:55-58 | A scan step that returns a statement visits that statement, and its `Resource` is a list holding the bucket ARN or that ARN as a string |
| Lookups.FirstMatchNone | submission.py:54-59 | The scan finds nothing exactly when every step lets it go on |
| Lookups.FirstMatchFirst | submission.py:54-58 | Any other outcome is that of the first step that does not let the scan go on |
| Lookups.FirstMatchAppend | submission.py:49-58 | Scanning two runs of steps one after the other: the second is scanned only when the first found nothing |
| Lookups.UserGroupPolicyGate | submission.py:42-46 | A bucket missing from the listing gives `No such bucket found`, whatever the group data is |
| Lookups.UserGroupPolicySound | submission.py:48-58 | A returned statement belongs to an existing bucket, is a step of the scan, and its `Resource` names `arn:aws:s3:::` + name; every earlier step in group→policy→statement order is one the scan passes over |
| Lookups.UserGroupPolicyFirst | submission.py:48-58 | Conversely, when the bucket exists and step k visits a statement whose `Resource` names `arn:aws:s3:::` + name, with every earlier step passing, that statement is what the lookup returns |
| Lookups.UserGroupPolicyNoMatch | submission.py:48-59 | `No user group configured policy for bucket` exactly when the bucket exists and every step of the scan passes: no fault, no matching statement |
| Lookups.UserGroupPolicyRaises | submission.py:42-55 | A raised fault is the bucket listing's own, or that of the first step of the scan that does not pass |
| Lookups.ScanStatements | submission.py:54-58 | The statement loop returns exactly what `FirstMatch` gives over that policy's statements |
| Lookups.ScanPolicy | submission.py:51-54 | Fetching one policy's document and iterating its `Statement` gives `FirstMatch` over that policy's steps, including a failed fetch, a missing `Statement` and a `Statement` that cannot be iterated |
| Lookups.ScanPolicies | submission.py:50-58 | The attached-policy loop gives `FirstMatch` over all of the group's policies, in order |
| Lookups.ScanGroups | submission.py:49-58 | The group loop gives `FirstMatch` over all groups, in order, including a group whose policy listing raises |
| Lookups.GetUserGroupPolicy | submission.py:42-59 | The lookup as the code runs it, with its early returns, equals the reference `UserGroupPolicy` |
| PyStrings.Lower | submission.py:195 | Lowercasing keeps the length |
| PyStrings.LowerLeavesNoCapital | submission.py:195 | After lowercasing, no ASCII capital and no Kelvin sign is left |
| PyStrings.LowerIdempotent | submission.py:195 | Lowercasing twice is lowercasing once |
| PyStrings.Split | submission.py:202 | `split` always gives at least one piece |
| PyStrings.JoinSplit | submission.py:202 | Joining the pieces with the separator gives the reply text back |
| PyStrings.SplitPartsFree | submission.py:202 | No piece contains the separator |
| PyStrings.SplitFirst | submission.py:202 | Without the separator, the split is the whole text as one piece; otherwise the first piece is the text before the leftmost occurrence, and the rest is the split of what follows it |
| Registry.ResolveTool | submission.py:195 | A resolved tool's table key equals the lowercased name; an unresolved name equals the key of none of the three tools |
| Registry.ResolveToolName | submission.py:195 | Each of the three table keys resolves to its own tool |
| Registry.ResolveIgnoresCase | submission.py:195 | A name and its lowercase resolve alike |
| Registry.RunTool | submission.py:195-196 | The file tool always answers with `files`; an answer from a policy tool is `policy` or `error` |
| Registry.UnknownBucket | submission.py:24-73 | For a bucket missing from a listing that answered: `{"files": []}` and `No such bucket found` from both policy lookups, whatever the policy data is |
| Registry.Invoke | submission.py:195-196 | An unknown tool name raises KeyError; a fault of the lookup escapes; otherwise the answer carries the call's id and the lookup's result |
| Registry.InvokeTool | submission.py:195-196 | Running the selected tool, the group lookup through its loops, gives `Invoke` |
| Registry.DispatchAnswers | submission.py:194-198 | The answers are those of the calls in call order, up to the first call that raises; a fault is that call's own; without a fault every call is answered |
| Registry.DispatchCompletes | submission.py:194-198 | The tool round finishes exactly when every call resolves and answers |
| Conversation.IssuesBetweenBreaks | submission.py:201-207 | There is a summary exactly when the reply contains `\n\n`; it is the text after the first `\n\n` up to the next `\n\n`, or to the end |
| Conversation.IssuesHaveNoBreak | submission.py:202 | The summary itself contains no `\n\n` |
| Conversation.TurnNeedsInput | submission.py:181 | With no input or empty input, the history is unchanged and nothing is asked |
| Conversation.TurnCompletes | submission.py:194-200 | A submitted turn completes exactly when every tool call of the first reply resolves and answers |
| Conversation.TurnHistory | submission.py:185-215 | A completed turn with k tool calls keeps the old history as a prefix and adds exactly 3+k entries: `human`, `ai` (first reply), one `tool` entry per call in call order answering that call's id, then `ai` (final reply); the final reply's tool calls are never run |
| Conversation.TurnSecondInput | submission.py:187-202 | The engine's second input is the old contents, the human message, the first reply and the tool answers, in that order; the summary comes from the second reply |
| Conversation.TurnWithoutTools | submission.py:185-215 | A first reply without tool calls: the turn completes, the second input is the old contents, the human message and the first reply, and exactly three entries are added |
| Conversation.TurnAborted | submission.py:194-198 | A tool call that raises ends the turn: the history keeps the human entry, the first reply and the answers before that call; the fault is that call's own; the engine is not asked again |
| Conversation.CollectContents | submission.py:187-189 | `so_far` is the contents of the history, in order |
| Conversation.Session.constructor | submission.py:162-164 | A new session holds only the system message, and its issues list is empty |
| Conversation.Session.HandleTurn | submission.py:181-215 | The new history and the outcome are those of `Turn` on the old history; `issues` is unchanged |
| Conversation.Session.RecordReply | submission.py:192-193 | An engine reply is appended as an `ai` entry, and `so_far` keeps mirroring the history |
| Conversation.Session.RecordToolCalls | submission.py:194-198 | The tool loop gives `Dispatch` of the calls; it appends one `tool` entry per answer, and `so_far` keeps mirroring the history |

## Left out

- Streamlit rendering is UI, so it is not modelled: the title, the chat containers, the sidebar and the history display loop with its per-entry `try`/`print`. The displayed text is dropped; only the summary is returned.
- The boto3 clients and the S3/IAM calls are network clients. Their answers are inputs (`Cloud.Account`), each either a value or a raised fault.
- One `Cloud.Account` answers every remote call of a turn, so it is a single snapshot. The bucket listing, which each tool call fetches again (submission.py:26, 42, 69), gives the same answer every time. A listing that changes between calls, or fails only some of the time, is not modelled.
- Pagination limits of the listings are not visible in the code; a listing is taken as complete.
- The two identical `get_policy` calls for one attached policy read the same value, so they are one fetch. The `PolicyArn`/`GroupName` field accesses are folded into the fetch outcomes too.
- `json.loads` of the bucket policy text is a foreign library. The document is given already parsed; a text that does not parse is `OtherError`.
- Floating-point JSON numbers are not modelled; numbers are integers.
- The OpenAI/LangChain engine is a foreign call. It is an uninterpreted function from the contents so far to a reply, and faults raised by the engine itself are not modelled.
- The `@tool` schema and `bind_tools` are left out, and so are LangChain's checks of tool-call arguments. A tool call carries its name, its `bucket_name` argument and its id. Its result is the lookup's tagged result, not the text LangChain makes from it.
- The prompt text and `load_dotenv` are configuration; the system prompt is a constructor parameter.
- PyStrings.Lower: only ASCII capitals and U+212A KELVIN SIGN are lowercased; every other character is left as it is. That is enough to compare with the three ASCII tool names. No other character lowercases to an ASCII letter on its own; U+0130 lowercases to two characters, `i` followed by a combining dot, so it cannot produce an ASCII name either.
- The `print` of a fault inside the file lookup is left out; the fault is swallowed.

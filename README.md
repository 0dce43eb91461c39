# Change-pipeline story contract, modelled in Dafny

This project models the smart contract that tracks a user story (a bug, story or enhancement)
through a change pipeline: ASSIGNED, DESIGNING, DEVELOPING, VERIFYING, PACKAGING, DEPLOYING,
RUNNING. It follows the contract's two source files, with the transaction table kept apart
from the imperative contract.

- `story.dfy`, module `Story` (`contract/lib/story.js`): the `storyState` enumeration as the
  datatype `StoryState` with its ledger numbers `Code` (1 to 7). `StoryRecord` is the stored
  field bag. The fields `createInstance` receives are plain strings. Every later field is an
  `Option<string>`, `None` where the JavaScript property is `undefined`. `currentState` is an
  `Option<int>` because the ledger stores the number. `UserStory` is the object a transaction
  changes in place. It has getters, field setters, state setters (`SetAssigned` …
  `SetRunning`) and state predicates (`IsAssigned` … `IsRunning`). Its class tag and identity
  parts `[storyType, storyNumber]` are fixed when it is built.
- `workflow.dfy`, module `Workflow`: the seven transactions as a table over the store
  (`map<(string, string), StoryRecord>`). `Required` gives the state each transaction needs.
  `Mismatch` gives the first correlating check that fails, in source order. `Advance` gives
  what a transaction writes. `Outcome` gives the returned story or the thrown error. `Apply`
  and `Replay` run one transaction or a sequence of them. The lemmas state the guard
  semantics and the store invariants.
- `storycontract.dfy`, module `StoryContract` (`contract/lib/storycontract.js`): the class
  `UserStoryContract` holds the store in its field `stories`. It has one method per
  transaction, written as the source writes it. The method loads the story into a fresh
  `UserStory` and returns a `Failure` at the first failed guard. Otherwise it calls the
  setters and writes the object's fields back under the same key. Each method is proved to
  return exactly `Workflow.Outcome`. On failure the store is unchanged. On success only the
  story's own key changes. Each method keeps the invariant `Valid()`: every story is filed
  under its own type and number, and every state lies between ASSIGNED and DEPLOYING.
- `wrappers.dfy`, module `Wrappers`: `Option` and `Result`.

Known defect, kept as written: `run` calls `setDeploying()` where `setRunning()` is meant
(`contract/lib/storycontract.js:302`). A successful `run` therefore leaves the story in
DEPLOYING, and no transaction ever stores RUNNING. `Workflow.RunStaysDeploying` and
`Workflow.RunningUnreachable` state this. `UserStoryContract.Run` also states it in its
postcondition. The model does not correct it.

`assign` writes unconditionally (`contract/lib/storycontract.js:75` adds the story with no
check on its key). So re-assigning an existing story replaces it with a fresh ASSIGNED story,
and the fields set by later transactions are lost. `Workflow.ReassignRewinds` shows this.
The forward-only results below therefore cover the transactions other than `assign`.

## Model

| member | source | states |
|---|---|---|
| `Story.Code` | change-pipeline/contract/lib/story.js:11-19 | every state is stored as a number from 1 to 7 |
| `Story.CodesFollowPipeline` | change-pipeline/contract/lib/story.js:11-19 | the numbers are 1…7 in pipeline order (ASSIGNED first, RUNNING last), every state appears in that order, and no two states share a number |
| `Story.UserStory.constructor` | change-pipeline/contract/lib/story.js:27-30 | the object carries the class tag `com.embotics.devweek.userstory`, the identity parts `[storyType, storyNumber]`, and exactly the fields it was built from |
| `Story.UserStory.CreateInstance` | change-pipeline/contract/lib/story.js:185-187 | a fresh story with the given type, number, name and sprint, every other field unset, and no `currentState` |
| `Story.UserStory.SetStoryType` | change-pipeline/contract/lib/story.js:35-41 | only `storyType` changes (the identity parts do not), and `GetStoryType` returns the new value |
| `Story.UserStory.SetDesignerName` | change-pipeline/contract/lib/story.js:43-49 | only `designerName` changes, and `GetDesignerName` returns the new value |
| `Story.UserStory.SetDeveloperName` | change-pipeline/contract/lib/story.js:51-57 | only `developerName` changes, and `GetDeveloperName` returns the new value |
| `Story.UserStory.SetSprintName` | change-pipeline/contract/lib/story.js:59-65 | only `sprintName` changes, and `GetSprintName` returns the new value |
| `Story.UserStory.SetVersion` | change-pipeline/contract/lib/story.js:67-73 | only `version` changes, and `GetVersion` returns the new value |
| `Story.UserStory.SetCommitHash` | change-pipeline/contract/lib/story.js:75-81 | only `commitHash` changes, and `GetCommitHash` returns the new value |
| `Story.UserStory.SetTestExecution` | change-pipeline/contract/lib/story.js:83-89 | only `testExecution` changes, and `GetTestExecution` returns the new value |
| `Story.UserStory.SetImageName` | change-pipeline/contract/lib/story.js:91-97 | only `imageName` changes, and `GetImageName` returns the new value |
| `Story.UserStory.SetServer` | change-pipeline/contract/lib/story.js:99-105 | only `server` changes, and `GetServer` returns the new value |
| `Story.UserStory.SetAssigned` | change-pipeline/contract/lib/story.js:110-112 | only `currentState` changes, to ASSIGNED's number, and `IsAssigned` then holds |
| `Story.UserStory.SetDesigning` | change-pipeline/contract/lib/story.js:114-116 | only `currentState` changes, to DESIGNING's number, and `IsDesigning` then holds |
| `Story.UserStory.SetDeveloping` | change-pipeline/contract/lib/story.js:118-120 | only `currentState` changes, to DEVELOPING's number, and `IsDeveloping` then holds |
| `Story.UserStory.SetVerifying` | change-pipeline/contract/lib/story.js:122-124 | only `currentState` changes, to VERIFYING's number, and `IsVerifying` then holds |
| `Story.UserStory.SetPackaging` | change-pipeline/contract/lib/story.js:126-128 | only `currentState` changes, to PACKAGING's number, and `IsPackaging` then holds |
| `Story.UserStory.SetDeploying` | change-pipeline/contract/lib/story.js:130-132 | only `currentState` changes, to DEPLOYING's number, and `IsDeploying` then holds |
| `Story.UserStory.SetRunning` | change-pipeline/contract/lib/story.js:134-136 | only `currentState` changes, to RUNNING's number, and `IsRunning` then holds |
| `Story.StatePredicatesMatchEnumeration` | change-pipeline/contract/lib/story.js:138-164 | `isAssigned` … `isRunning` each hold exactly when `currentState` is 1 … 7 respectively |
| `Story.StatePredicatesExclusive` | change-pipeline/contract/lib/story.js:138-164 | at most one state predicate holds for any `currentState`, and none holds before `setAssigned` |
| `StoryContract.UserStoryContract.constructor` | change-pipeline/contract/lib/storycontract.js:17-25 | the contract starts over an empty story collection, which satisfies the invariant |
| `StoryContract.UserStoryContract.Assign` | change-pipeline/contract/lib/storycontract.js:64-78 | stores under `(storyType, storyNumber)` an ASSIGNED story with the four supplied fields, returns it, and changes no other key |
| `StoryContract.UserStoryContract.Design` | change-pipeline/contract/lib/storycontract.js:90-113 | succeeds only from ASSIGNED with the stored sprint equal to the argument; the result is DESIGNING with the designer set; a failure leaves the store unchanged |
| `StoryContract.UserStoryContract.Develop` | change-pipeline/contract/lib/storycontract.js:124-154 | succeeds only from DESIGNING with matching sprint and designer; the result is DEVELOPING with the developer set; a failure leaves the store unchanged |
| `StoryContract.UserStoryContract.Verify` | change-pipeline/contract/lib/storycontract.js:165-190 | succeeds only from DEVELOPING with the matching developer; the result is VERIFYING with the commit hash set; a failure leaves the store unchanged |
| `StoryContract.UserStoryContract.Package` | change-pipeline/contract/lib/storycontract.js:201-231 | succeeds only from VERIFYING with the matching commit hash and a test result of exactly `Passed`; the result is PACKAGING with the test result stored; a failure leaves the store unchanged |
| `StoryContract.UserStoryContract.Deploy` | change-pipeline/contract/lib/storycontract.js:243-269 | succeeds only from PACKAGING with the matching commit hash; the result is DEPLOYING with image name and version set; a failure leaves the store unchanged |
| `StoryContract.UserStoryContract.Run` | change-pipeline/contract/lib/storycontract.js:282-310 | succeeds only from DEPLOYING with matching image name and version; the result stays DEPLOYING with the server set; a failure leaves the store unchanged |
| `Workflow.Required` | change-pipeline/contract/lib/storycontract.js:90-291 | no transaction accepts a story that is already RUNNING |
| `Workflow.Target` | change-pipeline/contract/lib/storycontract.js:301-303 | every transaction but `run` writes the state one above the one it requires; `run` writes back the state it requires; none writes RUNNING |
| `Workflow.Advance` | change-pipeline/contract/lib/storycontract.js:90-310 | a passing transaction keeps the story's type, number, name and sprint, and sets the state it targets |
| `Workflow.Apply` | change-pipeline/contract/lib/storycontract.js:64-310 | a transaction touches no key but its own; a thrown error leaves the store as it was; on success the returned story is what is stored |
| `Workflow.Outcome` | change-pipeline/contract/lib/storycontract.js:64-310 | `assign` always succeeds with a story filed under its key; a missing story fails with `NotFound`; a story in the wrong state fails with `WrongState` reporting its state, before any correlating check; a success keeps the stored identity and carries the target state |
| `Workflow.Mismatch` | change-pipeline/contract/lib/storycontract.js:90-299 | the correlating checks find no mismatch exactly when every supplied value matches (`Authorized`), and a mismatch is never a missing-story or state error |
| `Workflow.Authorized` | change-pipeline/contract/lib/storycontract.js:90-299 | a transaction is authorized only when every field it checks is set (designer, developer, commit hash, image name and version), and `package` only with the test result `Passed` |
| `Workflow.Sound` | change-pipeline/contract/lib/storycontract.js:64-310 | the empty ledger is sound, and a sound store holds no RUNNING story |
| `Workflow.WritesOnlyItsFields` | change-pipeline/contract/lib/storycontract.js:90-310 | a successful transaction sets the target state and its own fields (designer; developer; commit hash; test result; image name and version; server) and keeps every other stored field |
| `Workflow.ReassignRewinds` | change-pipeline/contract/lib/storycontract.js:64-78 | assigning a story that is already DESIGNING replaces it with an ASSIGNED story with no designer and the new sprint |
| `Workflow.SucceedsIffAuthorized` | change-pipeline/contract/lib/storycontract.js:90-299 | a transaction other than `assign` succeeds exactly when the story exists, is in the required state, and every correlating value equals the stored one (both directions) |
| `Workflow.UnsetFieldBlocks` | change-pipeline/contract/lib/storycontract.js:90-299 | a correlating field that was never set makes its check fail whatever value the caller supplies, and the store stays unchanged |
| `Workflow.AdvancesOneStep` | change-pipeline/contract/lib/storycontract.js:90-310 | a successful transaction other than `assign` keeps type, number, name and sprint, and raises the state number by exactly one (by zero for `run`) |
| `Workflow.RunStaysDeploying` | change-pipeline/contract/lib/storycontract.js:301-303 | a successful `run` starts and ends in DEPLOYING and records the server |
| `Workflow.AssignStoresAssigned` | change-pipeline/contract/lib/storycontract.js:68-75 | after `assign` the key holds an ASSIGNED story with the supplied name and sprint and no designer |
| `Workflow.ApplyKeepsSound` | change-pipeline/contract/lib/storycontract.js:64-310 | every transaction keeps each story filed under its own type and number, in a state from ASSIGNED to DEPLOYING |
| `Workflow.NeverRewinds` | change-pipeline/contract/lib/storycontract.js:90-310 | a transaction other than `assign` never lowers any story's state |
| `Workflow.ReplayKeepsSound` | change-pipeline/contract/lib/storycontract.js:64-310 | any sequence of transactions keeps that invariant |
| `Workflow.RunningUnreachable` | change-pipeline/contract/lib/storycontract.js:301-303 | from an empty ledger, no sequence of transactions stores a RUNNING story |
| `Workflow.ReplayNeverRewinds` | change-pipeline/contract/lib/storycontract.js:90-310 | across any sequence of transactions without `assign`, every story stays present and its state never decreases |
| `Workflow.WrongDeveloperRejected` | change-pipeline/contract/lib/storycontract.js:176-179 | after assign, design and develop by `Raj`, a `verify` naming another developer throws, reports `Raj`, and leaves the story DEVELOPING |
| `Workflow.FullPipelineEndsDeploying` | change-pipeline/contract/lib/storycontract.js:282-310 | a story driven through all seven transactions with matching values ends in DEPLOYING with its test result and server recorded |

## Left out

- `queryAll` and `historyFor` (`contract/lib/storycontract.js:317-386`): they iterate over the
  ledger's query and history cursors, parse JSON with a raw-string fallback, and convert
  timestamps. This is ledger I/O. The history key format at line 355 is not modelled either.
- `contract/lib/storylist.js` and the ledger state list it delegates to. `ledger-api/statelist.js`
  is not part of this model. The story collection is the map field `stories`. `addStory` is an
  unconditional write. A lookup of a missing key fails with `NotFound`, with no write. In the
  source, that failure comes from the unseen state list or from calling `isX` on what it returns.
- Serialization: `toBuffer`, `fromBuffer` and `deserialize` (JSON and `State.deserializeClass`),
  and `makeKey`. `ledger-api/state.js` is not part of this model. `StoryRecord` stands for the
  serialized form. `UserStory.ToRecord` and the `UserStory` constructor stand for the two
  directions. The `(storyType, storyNumber)` pair is used as the key directly.
- `getCurrentState` is defined in the unseen state base class. The model reads
  `currentState` directly where the source reports it in an error message.
- Error messages: each `Error` value carries only the value its message reports (the actual
  state, the requested sprint, or the stored owner, hash, image name or version). It does not
  carry the message text.
- `instantiate`, `createContext` and console logging: they have no effect on the stored stories.
- Transaction atomicity and isolation are the ledger's job. Each method is one atomic update
  of `stories`.
- Arguments are modelled as strings. A caller passing a missing (`undefined`) argument is not
  modelled.
- The client applications and the webhook server under `organization/DevCorp` (gateway
  connection, command-line arguments, `git show`, HTTP): network and CLI plumbing.

/**
 * The story contract's transactions as a table over the story store: which state each one
 * requires, which supplied values must equal the stored ones, and what it writes. The
 * imperative contract in module StoryContract is proved to compute exactly `Outcome`.
 */
module Workflow {
  import opened Wrappers
  import opened Story

  /** A story is looked up by its type and number. */
  type Key = (string, string)

  /** The ledger's story collection. */
  type Store = map<Key, StoryRecord>

  /** One submitted transaction with its arguments, in the order the contract takes them. */
  datatype Request =
    | Assign(storyType: string, storyNumber: string, storyName: string, sprintName: string)
    | Design(storyType: string, storyNumber: string, sprintName: string, designerName: string)
    | Develop(storyType: string, storyNumber: string, sprintName: string, designerName: string, developerName: string)
    | Verify(storyType: string, storyNumber: string, developerName: string, commitHash: string)
    | Package(storyType: string, storyNumber: string, commitHash: string, testExecution: string)
    | Deploy(storyType: string, storyNumber: string, commitHash: string, imageName: string, version: string)
    | Run(storyType: string, storyNumber: string, imageName: string, version: string, server: string)

  /** Why a transaction throws; each carries the value its message reports. */
  datatype Error =
    | NotFound(key: Key)
    | WrongState(actual: Option<int>)
    | SprintMismatch(requested: string)
    | DesignerMismatch(owner: Option<string>)
    | DeveloperMismatch(owner: Option<string>)
    | CommitMismatch(stored: Option<string>)
    | NotPassed
    | ImageNameMismatch(stored: Option<string>)
    | VersionMismatch(stored: Option<string>)

  /** The test result `package` accepts. */
  const Passed: string := "Passed"

  function KeyOf(req: Request): Key
  {
    (req.storyType, req.storyNumber)
  }

  /** The state a story must be in for the transaction to proceed. */
  function Required(req: Request): (s: StoryState)
    requires !req.Assign?
    ensures s != Running
  {
    match req
    case Design(_, _, _, _) => Assigned
    case Develop(_, _, _, _, _) => Designing
    case Verify(_, _, _, _) => Developing
    case Package(_, _, _, _) => Verifying
    case Deploy(_, _, _, _, _) => Packaging
    case Run(_, _, _, _, _) => Deploying
  }

  /** The state the transaction writes; `run` writes DEPLOYING again, as the contract does. */
  function Target(req: Request): (s: StoryState)
    ensures s != Running
    ensures req.Assign? ==> s == Assigned
    ensures !req.Assign? && !req.Run? ==> Code(s) == Code(Required(req)) + 1
    ensures req.Run? ==> s == Required(req)
  {
    match req
    case Assign(_, _, _, _) => Assigned
    case Design(_, _, _, _) => Designing
    case Develop(_, _, _, _, _) => Developing
    case Verify(_, _, _, _) => Verifying
    case Package(_, _, _, _) => Packaging
    case Deploy(_, _, _, _, _) => Deploying
    case Run(_, _, _, _, _) => Deploying
  }

  /** The first correlating check that fails, in the order the contract makes them. */
  function Mismatch(req: Request, r: StoryRecord): (m: Option<Error>)
    requires !req.Assign?
    ensures m.None? <==> Authorized(req, r)
    ensures m.Some? ==> !m.value.NotFound? && !m.value.WrongState?
  {
    match req
    case Design(_, _, sprint, _) =>
      if r.sprintName != sprint then Some(SprintMismatch(sprint)) else None
    case Develop(_, _, sprint, designer, _) =>
      if r.sprintName != sprint then Some(SprintMismatch(sprint))
      else if r.designerName != Some(designer) then Some(DesignerMismatch(r.designerName))
      else None
    case Verify(_, _, developer, _) =>
      if r.developerName != Some(developer) then Some(DeveloperMismatch(r.developerName)) else None
    case Package(_, _, commit, test) =>
      if r.commitHash != Some(commit) then Some(CommitMismatch(r.commitHash))
      else if test != Passed then Some(NotPassed)
      else None
    case Deploy(_, _, commit, _, _) =>
      if r.commitHash != Some(commit) then Some(CommitMismatch(r.commitHash)) else None
    case Run(_, _, image, ver, _) =>
      if r.imageName != Some(image) then Some(ImageNameMismatch(r.imageName))
      else if r.version != Some(ver) then Some(VersionMismatch(r.version))
      else None
  }

  /** What a transaction that passed its guards writes back: the target state and its new fields. */
  function Advance(req: Request, r: StoryRecord): (r': StoryRecord)
    requires !req.Assign?
    ensures r'.storyType == r.storyType && r'.storyNumber == r.storyNumber
    ensures r'.storyName == r.storyName && r'.sprintName == r.sprintName
    ensures r'.currentState == Some(Code(Target(req)))
  {
    var moved := r.(currentState := Some(Code(Target(req))));
    match req
    case Design(_, _, _, designer) => moved.(designerName := Some(designer))
    case Develop(_, _, _, _, developer) => moved.(developerName := Some(developer))
    case Verify(_, _, _, commit) => moved.(commitHash := Some(commit))
    case Package(_, _, _, test) => moved.(testExecution := Some(test))
    case Deploy(_, _, _, image, ver) => moved.(imageName := Some(image), version := Some(ver))
    case Run(_, _, _, _, srv) => moved.(server := Some(srv))
  }

  /** The story a transaction returns, or the error it throws, given the store before it. */
  function Outcome(store: Store, req: Request): (out: Result<StoryRecord, Error>)
    ensures req.Assign? ==> out.Success?
    ensures req.Assign? ==> (out.value.storyType, out.value.storyNumber) == KeyOf(req)
    ensures out.Success? && !req.Assign? ==>
      && KeyOf(req) in store
      && out.value.storyType == store[KeyOf(req)].storyType
      && out.value.storyNumber == store[KeyOf(req)].storyNumber
    ensures out.Success? ==> out.value.currentState == Some(Code(Target(req)))
    ensures !req.Assign? && KeyOf(req) !in store ==> out == Failure(NotFound(KeyOf(req)))
    ensures !req.Assign? && KeyOf(req) in store && store[KeyOf(req)].currentState != Some(Code(Required(req)))
      ==> out == Failure(WrongState(store[KeyOf(req)].currentState))
  {
    if req.Assign? then
      Success(NewStory(req.storyType, req.storyNumber, req.storyName, req.sprintName).(currentState := Some(Code(Assigned))))
    else if KeyOf(req) !in store then
      Failure(NotFound(KeyOf(req)))
    else
      var r := store[KeyOf(req)];
      if r.currentState != Some(Code(Required(req))) then Failure(WrongState(r.currentState))
      else match Mismatch(req, r)
        case Some(e) => Failure(e)
        case None => Success(Advance(req, r))
  }

  /** The store after a transaction: the returned story written under its key, or no change on a throw. */
  function Apply(store: Store, req: Request): (store': Store)
    ensures forall k | k != KeyOf(req) :: (k in store' <==> k in store) && (k in store ==> store'[k] == store[k])
    ensures Outcome(store, req).Failure? ==> store' == store
    ensures Outcome(store, req).Success? ==> KeyOf(req) in store' && store'[KeyOf(req)] == Outcome(store, req).value
  {
    var out := Outcome(store, req);
    if out.Success? then store[KeyOf(req) := out.value] else store
  }

  /** The store after a sequence of transactions, applied in order. */
  function Replay(store: Store, reqs: seq<Request>): Store
    decreases |reqs|
  {
    if reqs == [] then store else Replay(Apply(store, reqs[0]), reqs[1..])
  }

  /** The values a transaction must find stored before it may proceed, all at once. */
  predicate Authorized(req: Request, r: StoryRecord)
    ensures Authorized(req, r) && req.Develop? ==> r.designerName.Some?
    ensures Authorized(req, r) && req.Verify? ==> r.developerName.Some?
    ensures Authorized(req, r) && (req.Package? || req.Deploy?) ==> r.commitHash.Some?
    ensures Authorized(req, r) && req.Package? ==> req.testExecution == Passed
    ensures Authorized(req, r) && req.Run? ==> r.imageName.Some? && r.version.Some?
  {
    match req
    case Assign(_, _, _, _) => true
    case Design(_, _, sprint, _) => r.sprintName == sprint
    case Develop(_, _, sprint, designer, _) => r.sprintName == sprint && r.designerName == Some(designer)
    case Verify(_, _, developer, _) => r.developerName == Some(developer)
    case Package(_, _, commit, test) => r.commitHash == Some(commit) && test == Passed
    case Deploy(_, _, commit, _, _) => r.commitHash == Some(commit)
    case Run(_, _, image, ver, _) => r.imageName == Some(image) && r.version == Some(ver)
  }

  /**
   * Every story is filed under its own type and number and holds one of the states the
   * transactions write, ASSIGNED to DEPLOYING.
   */
  predicate Sound(store: Store)
    ensures store == map[] ==> Sound(store)
    ensures Sound(store) ==> forall k | k in store :: store[k].currentState != Some(Code(Running))
  {
    forall k | k in store ::
      && store[k].storyType == k.0 && store[k].storyNumber == k.1
      && store[k].currentState.Some?
      && Code(Assigned) <= store[k].currentState.value <= Code(Deploying)
  }

  // ---------------------------------------------------------------------------------------
  // Properties of single transactions

  /**
   * A transaction other than `assign` succeeds exactly when the story exists, is in the
   * required state, and every correlating value matches the stored one.
   */
  lemma SucceedsIffAuthorized(store: Store, req: Request)
    requires !req.Assign?
    ensures Outcome(store, req).Success? <==>
      && KeyOf(req) in store
      && store[KeyOf(req)].currentState == Some(Code(Required(req)))
      && Authorized(req, store[KeyOf(req)])
  {
  }

  /**
   * A correlating field that was never set blocks the transaction that checks it, whatever
   * value the caller supplies.
   */
  lemma UnsetFieldBlocks(store: Store, req: Request)
    requires KeyOf(req) in store
    requires var r := store[KeyOf(req)];
      || (req.Develop? && r.designerName == None)
      || (req.Verify? && r.developerName == None)
      || ((req.Package? || req.Deploy?) && r.commitHash == None)
      || (req.Run? && (r.imageName == None || r.version == None))
    ensures Outcome(store, req).Failure?
    ensures Apply(store, req) == store
  {
  }

  /**
   * A successful transaction other than `assign` keeps the story's identity, name and sprint
   * and moves it exactly one state forward; `run` leaves it where it was.
   */
  lemma AdvancesOneStep(store: Store, req: Request)
    requires !req.Assign? && Outcome(store, req).Success?
    ensures KeyOf(req) in store
    ensures var before, after := store[KeyOf(req)], Outcome(store, req).value;
      && after.storyType == before.storyType && after.storyNumber == before.storyNumber
      && after.storyName == before.storyName && after.sprintName == before.sprintName
      && before.currentState.Some? && after.currentState.Some?
      && after.currentState.value == before.currentState.value + (if req.Run? then 0 else 1)
  {
  }

  /** `run` never moves a story to RUNNING: on success it stays DEPLOYING, with the server recorded. */
  lemma RunStaysDeploying(store: Store, storyType: string, storyNumber: string, imageName: string, version: string, server: string)
    requires Outcome(store, Run(storyType, storyNumber, imageName, version, server)).Success?
    ensures var r := Outcome(store, Run(storyType, storyNumber, imageName, version, server)).value;
      && r.currentState == Some(Code(Deploying))
      && r.server == Some(server)
      && (storyType, storyNumber) in store
      && store[(storyType, storyNumber)].currentState == Some(Code(Deploying))
  {
  }

  /**
   * A successful transaction writes exactly its own fields besides the state, and keeps
   * every other field of the stored story.
   */
  lemma WritesOnlyItsFields(store: Store, req: Request)
    requires !req.Assign? && Outcome(store, req).Success?
    ensures KeyOf(req) in store
    ensures var before, after := store[KeyOf(req)], Outcome(store, req).value;
      && (req.Design? ==> after == before.(currentState := Some(Code(Designing)), designerName := Some(req.designerName)))
      && (req.Develop? ==> after == before.(currentState := Some(Code(Developing)), developerName := Some(req.developerName)))
      && (req.Verify? ==> after == before.(currentState := Some(Code(Verifying)), commitHash := Some(req.commitHash)))
      && (req.Package? ==> after == before.(currentState := Some(Code(Packaging)), testExecution := Some(req.testExecution)))
      && (req.Deploy? ==> after == before.(currentState := Some(Code(Deploying)), imageName := Some(req.imageName), version := Some(req.version)))
      && (req.Run? ==> after == before.(currentState := Some(Code(Deploying)), server := Some(req.server)))
  {
  }

  /** After `assign` the store holds, under the story's key, a fresh ASSIGNED story with the supplied fields. */
  lemma AssignStoresAssigned(store: Store, storyType: string, storyNumber: string, storyName: string, sprintName: string)
    ensures var store' := Apply(store, Assign(storyType, storyNumber, storyName, sprintName));
      && (storyType, storyNumber) in store'
      && store'[(storyType, storyNumber)].currentState == Some(Code(Assigned))
      && store'[(storyType, storyNumber)].storyName == storyName
      && store'[(storyType, storyNumber)].sprintName == sprintName
      && store'[(storyType, storyNumber)].designerName == None
  {
  }

  /** Every transaction keeps the store sound. */
  lemma ApplyKeepsSound(store: Store, req: Request)
    requires Sound(store)
    ensures Sound(Apply(store, req))
  {
  }

  /** Transactions other than `assign` never move a story backwards. */
  lemma NeverRewinds(store: Store, req: Request, k: Key)
    requires Sound(store) && !req.Assign? && k in store
    ensures k in Apply(store, req)
    ensures Apply(store, req)[k].currentState.value >= store[k].currentState.value
  {
  }

  // ---------------------------------------------------------------------------------------
  // Properties of whole histories

  /** Any sequence of transactions keeps a sound store sound. */
  lemma {:induction false} ReplayKeepsSound(store: Store, reqs: seq<Request>)
    requires Sound(store)
    ensures Sound(Replay(store, reqs))
    decreases |reqs|
  {
    if reqs != [] {
      ApplyKeepsSound(store, reqs[0]);
      ReplayKeepsSound(Apply(store, reqs[0]), reqs[1..]);
    }
  }

  /** Starting from an empty ledger, no sequence of transactions puts any story in RUNNING. */
  lemma RunningUnreachable(reqs: seq<Request>)
    ensures forall k | k in Replay(map[], reqs) :: Replay(map[], reqs)[k].currentState != Some(Code(Running))
  {
    ReplayKeepsSound(map[], reqs);
  }

  /**
   * Without a further `assign`, a story's state only rises: each story present before is
   * still present, in the same or a later state.
   */
  lemma {:induction false} ReplayNeverRewinds(store: Store, reqs: seq<Request>, k: Key)
    requires Sound(store) && k in store
    requires forall i | 0 <= i < |reqs| :: !reqs[i].Assign?
    ensures k in Replay(store, reqs) && Replay(store, reqs)[k].currentState.Some?
    ensures Replay(store, reqs)[k].currentState.value >= store[k].currentState.value
    decreases |reqs|
  {
    if reqs != [] {
      NeverRewinds(store, reqs[0], k);
      ApplyKeepsSound(store, reqs[0]);
      ReplayNeverRewinds(Apply(store, reqs[0]), reqs[1..], k);
    }
  }

  // ---------------------------------------------------------------------------------------
  // Scenarios

  /**
   * A bug is assigned, designed and developed; a verify call naming the wrong developer is
   * rejected and the story stays DEVELOPING.
   */
  lemma WrongDeveloperRejected()
    ensures
      var s1 := Apply(map[], Assign("Bug", "7", "Crash on save", "SprintA"));
      var s2 := Apply(s1, Design("Bug", "7", "SprintA", "Dana"));
      var s3 := Apply(s2, Develop("Bug", "7", "SprintA", "Dana", "Raj"));
      && ("Bug", "7") in s3
      && s3[("Bug", "7")].currentState == Some(Code(Developing))
      && s3[("Bug", "7")].designerName == Some("Dana")
      && s3[("Bug", "7")].developerName == Some("Raj")
      && Outcome(s3, Verify("Bug", "7", "WrongName", "abc123")) == Failure(DeveloperMismatch(Some("Raj")))
      && Apply(s3, Verify("Bug", "7", "WrongName", "abc123")) == s3
  {
  }

  /**
   * `assign` writes unconditionally: assigning a story that is already DESIGNING replaces it
   * with a fresh ASSIGNED story, and its designer is gone.
   */
  lemma ReassignRewinds()
    ensures
      var s1 := Apply(map[], Assign("Bug", "7", "Crash on save", "SprintA"));
      var s2 := Apply(s1, Design("Bug", "7", "SprintA", "Dana"));
      var s3 := Apply(s2, Assign("Bug", "7", "Crash on save", "SprintB"));
      && s2[("Bug", "7")].currentState == Some(Code(Designing))
      && s3[("Bug", "7")].currentState == Some(Code(Assigned))
      && s3[("Bug", "7")].designerName == None
      && s3[("Bug", "7")].sprintName == "SprintB"
  {
  }

  /**
   * A story driven through every transaction with matching values ends in DEPLOYING with its
   * server recorded: the last step cannot reach RUNNING.
   */
  lemma FullPipelineEndsDeploying()
    ensures
      var s1 := Apply(map[], Assign("Story", "12", "Login page", "S1"));
      var s2 := Apply(s1, Design("Story", "12", "S1", "Ann"));
      var s3 := Apply(s2, Develop("Story", "12", "S1", "Ann", "Bo"));
      var s4 := Apply(s3, Verify("Story", "12", "Bo", "c0ffee"));
      var s5 := Apply(s4, Package("Story", "12", "c0ffee", "Passed"));
      var s6 := Apply(s5, Deploy("Story", "12", "c0ffee", "web", "1.0"));
      var s7 := Apply(s6, Run("Story", "12", "web", "1.0", "10.0.0.1"));
      && ("Story", "12") in s7
      && s7[("Story", "12")].currentState == Some(Code(Deploying))
      && s7[("Story", "12")].server == Some("10.0.0.1")
      && s7[("Story", "12")].testExecution == Some("Passed")
  {
  }
}

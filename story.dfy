/**
 * The user story record: its seven pipeline states, the bag of workflow fields it carries,
 * and the object that the contract loads, changes through setters and writes back.
 */
module Story {
  import opened Wrappers

  /** The pipeline states, in pipeline order. */
  datatype StoryState = Assigned | Designing | Developing | Verifying | Packaging | Deploying | Running

  /** The states listed in the order a story is meant to pass through them. */
  const Pipeline: seq<StoryState> := [Assigned, Designing, Developing, Verifying, Packaging, Deploying, Running]

  /** The number the ledger stores for a state (the `storyState` enumeration). */
  function Code(s: StoryState): (c: int)
    ensures 1 <= c <= 7
  {
    match s
    case Assigned => 1
    case Designing => 2
    case Developing => 3
    case Verifying => 4
    case Packaging => 5
    case Deploying => 6
    case Running => 7
  }

  /** The enumeration gives the states the distinct numbers 1 to 7, in pipeline order. */
  lemma CodesFollowPipeline()
    ensures |Pipeline| == 7
    ensures forall i | 0 <= i < |Pipeline| :: Code(Pipeline[i]) == i + 1
    ensures forall s: StoryState :: s in Pipeline
    ensures forall a: StoryState, b: StoryState :: Code(a) == Code(b) ==> a == b
  {
    forall s: StoryState ensures s in Pipeline {
      assert Pipeline[Code(s) - 1] == s;
    }
  }

  /**
   * The fields of a stored story, as its serialized form carries them. The four fields
   * `createInstance` receives are always present; every other field is absent until the
   * transaction that sets it, and `currentState` is absent until `setAssigned`.
   */
  datatype StoryRecord = StoryRecord(
    storyType: string,
    storyNumber: string,
    storyName: string,
    sprintName: string,
    designerName: Option<string>,
    developerName: Option<string>,
    commitHash: Option<string>,
    testExecution: Option<string>,
    imageName: Option<string>,
    version: Option<string>,
    server: Option<string>,
    currentState: Option<int>)

  /** The fields a story created from its four identifying arguments starts with. */
  function NewStory(storyType: string, storyNumber: string, storyName: string, sprintName: string): StoryRecord
  {
    StoryRecord(storyType, storyNumber, storyName, sprintName, None, None, None, None, None, None, None, None)
  }

  /** A user story object; the setters change it in place. */
  class UserStory {
    /** The class tag and the identity parts are fixed when the object is built. */
    const classTag: string
    const keyParts: seq<string>

    var storyType: string
    var storyNumber: string
    var storyName: string
    var sprintName: string
    var designerName: Option<string>
    var developerName: Option<string>
    var commitHash: Option<string>
    var testExecution: Option<string>
    var imageName: Option<string>
    var version: Option<string>
    var server: Option<string>
    var currentState: Option<int>

    /** The class tag every user story carries in the shared ledger. */
    static function GetClass(): (tag: string)
      ensures tag == "com.embotics.devweek.userstory"
    {
      "com.embotics.devweek.userstory"
    }

    /** The object's fields as a value: what the ledger stores for it. */
    function ToRecord(): StoryRecord
      reads this
    {
      StoryRecord(storyType, storyNumber, storyName, sprintName, designerName, developerName,
                  commitHash, testExecution, imageName, version, server, currentState)
    }

    /** Builds a story object from a field bag, tagging it with the class and its identity parts. */
    constructor (r: StoryRecord)
      ensures classTag == "com.embotics.devweek.userstory"
      ensures keyParts == [r.storyType, r.storyNumber]
      ensures ToRecord() == r
    {
      classTag := GetClass();
      keyParts := [r.storyType, r.storyNumber];
      storyType := r.storyType;
      storyNumber := r.storyNumber;
      storyName := r.storyName;
      sprintName := r.sprintName;
      designerName := r.designerName;
      developerName := r.developerName;
      commitHash := r.commitHash;
      testExecution := r.testExecution;
      imageName := r.imageName;
      version := r.version;
      server := r.server;
      currentState := r.currentState;
    }

    /** A new story holding only its type, number, name and sprint, and no state yet. */
    static method CreateInstance(storyType: string, storyNumber: string, storyName: string, sprintName: string)
      returns (s: UserStory)
      ensures fresh(s)
      ensures s.classTag == "com.embotics.devweek.userstory" && s.keyParts == [storyType, storyNumber]
      ensures s.storyType == storyType && s.storyNumber == storyNumber
      ensures s.storyName == storyName && s.sprintName == sprintName
      ensures s.designerName == None && s.developerName == None && s.commitHash == None
      ensures s.testExecution == None && s.imageName == None && s.version == None && s.server == None
      ensures s.currentState == None
    {
      s := new UserStory(NewStory(storyType, storyNumber, storyName, sprintName));
    }

    // Getters: each returns one field.

    function GetStoryType(): string reads this { storyType }
    function GetDesignerName(): Option<string> reads this { designerName }
    function GetDeveloperName(): Option<string> reads this { developerName }
    function GetSprintName(): string reads this { sprintName }
    function GetVersion(): Option<string> reads this { version }
    function GetCommitHash(): Option<string> reads this { commitHash }
    function GetTestExecution(): Option<string> reads this { testExecution }
    function GetImageName(): Option<string> reads this { imageName }
    function GetServer(): Option<string> reads this { server }

    // Setters: each changes its own field and nothing else; the identity parts stay as built.

    method SetStoryType(newStoryType: string)
      modifies this
      ensures ToRecord() == old(ToRecord()).(storyType := newStoryType)
      ensures GetStoryType() == newStoryType
    {
      storyType := newStoryType;
    }

    method SetDesignerName(newDesignerName: string)
      modifies this
      ensures ToRecord() == old(ToRecord()).(designerName := Some(newDesignerName))
      ensures GetDesignerName() == Some(newDesignerName)
    {
      designerName := Some(newDesignerName);
    }

    method SetDeveloperName(newDeveloperName: string)
      modifies this
      ensures ToRecord() == old(ToRecord()).(developerName := Some(newDeveloperName))
      ensures GetDeveloperName() == Some(newDeveloperName)
    {
      developerName := Some(newDeveloperName);
    }

    method SetSprintName(newSprintName: string)
      modifies this
      ensures ToRecord() == old(ToRecord()).(sprintName := newSprintName)
      ensures GetSprintName() == newSprintName
    {
      sprintName := newSprintName;
    }

    method SetVersion(newVersion: string)
      modifies this
      ensures ToRecord() == old(ToRecord()).(version := Some(newVersion))
      ensures GetVersion() == Some(newVersion)
    {
      version := Some(newVersion);
    }

    method SetCommitHash(newCommitHash: string)
      modifies this
      ensures ToRecord() == old(ToRecord()).(commitHash := Some(newCommitHash))
      ensures GetCommitHash() == Some(newCommitHash)
    {
      commitHash := Some(newCommitHash);
    }

    method SetTestExecution(newTestExecution: string)
      modifies this
      ensures ToRecord() == old(ToRecord()).(testExecution := Some(newTestExecution))
      ensures GetTestExecution() == Some(newTestExecution)
    {
      testExecution := Some(newTestExecution);
    }

    method SetImageName(newImageName: string)
      modifies this
      ensures ToRecord() == old(ToRecord()).(imageName := Some(newImageName))
      ensures GetImageName() == Some(newImageName)
    {
      imageName := Some(newImageName);
    }

    method SetServer(newServer: string)
      modifies this
      ensures ToRecord() == old(ToRecord()).(server := Some(newServer))
      ensures GetServer() == Some(newServer)
    {
      server := Some(newServer);
    }

    // State setters: each moves `currentState` to its state and leaves every other field intact.

    method SetAssigned()
      modifies this
      ensures ToRecord() == old(ToRecord()).(currentState := Some(Code(Assigned)))
      ensures IsAssigned()
    {
      currentState := Some(Code(Assigned));
    }

    method SetDesigning()
      modifies this
      ensures ToRecord() == old(ToRecord()).(currentState := Some(Code(Designing)))
      ensures IsDesigning()
    {
      currentState := Some(Code(Designing));
    }

    method SetDeveloping()
      modifies this
      ensures ToRecord() == old(ToRecord()).(currentState := Some(Code(Developing)))
      ensures IsDeveloping()
    {
      currentState := Some(Code(Developing));
    }

    method SetVerifying()
      modifies this
      ensures ToRecord() == old(ToRecord()).(currentState := Some(Code(Verifying)))
      ensures IsVerifying()
    {
      currentState := Some(Code(Verifying));
    }

    method SetPackaging()
      modifies this
      ensures ToRecord() == old(ToRecord()).(currentState := Some(Code(Packaging)))
      ensures IsPackaging()
    {
      currentState := Some(Code(Packaging));
    }

    method SetDeploying()
      modifies this
      ensures ToRecord() == old(ToRecord()).(currentState := Some(Code(Deploying)))
      ensures IsDeploying()
    {
      currentState := Some(Code(Deploying));
    }

    method SetRunning()
      modifies this
      ensures ToRecord() == old(ToRecord()).(currentState := Some(Code(Running)))
      ensures IsRunning()
    {
      currentState := Some(Code(Running));
    }

    // State predicates: each compares the stored number with its state's number.

    /** True when the story holds the number of state `s`. */
    predicate InState(s: StoryState)
      reads this
    {
      currentState == Some(Code(s))
    }

    predicate IsAssigned() reads this { InState(Assigned) }
    predicate IsDesigning() reads this { InState(Designing) }
    predicate IsDeveloping() reads this { InState(Developing) }
    predicate IsVerifying() reads this { InState(Verifying) }
    predicate IsPackaging() reads this { InState(Packaging) }
    predicate IsDeploying() reads this { InState(Deploying) }
    predicate IsRunning() reads this { InState(Running) }
  }

  /** Each state predicate holds exactly when `currentState` is the enumeration's number for it. */
  lemma StatePredicatesMatchEnumeration(s: UserStory)
    ensures s.IsAssigned() <==> s.currentState == Some(1)
    ensures s.IsDesigning() <==> s.currentState == Some(2)
    ensures s.IsDeveloping() <==> s.currentState == Some(3)
    ensures s.IsVerifying() <==> s.currentState == Some(4)
    ensures s.IsPackaging() <==> s.currentState == Some(5)
    ensures s.IsDeploying() <==> s.currentState == Some(6)
    ensures s.IsRunning() <==> s.currentState == Some(7)
  {
  }

  /** At most one state predicate holds of a story, whatever its `currentState`. */
  lemma StatePredicatesExclusive(s: UserStory)
    ensures forall a: StoryState, b: StoryState :: s.InState(a) && s.InState(b) ==> a == b
    ensures s.currentState == None ==> forall a: StoryState :: !s.InState(a)
  {
  }
}

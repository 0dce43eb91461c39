/**
 * The user story contract: one transaction per pipeline edge. Each loads the story by type
 * and number, throws unless the story is in the required state and every correlating value
 * matches, and otherwise changes the loaded object through its setters and writes it back.
 */
module StoryContract {
  import opened Wrappers
  import opened Story
  import opened Workflow

  /** The contract together with the story collection it writes to. */
  class UserStoryContract {
    /** The stored stories, by (story type, story number). */
    var stories: Store

    /** Every stored story is filed under its own identity and holds a state from ASSIGNED to DEPLOYING. */
    ghost predicate Valid()
      reads this
    {
      Sound(stories)
    }

    /** A contract over an empty ledger. */
    constructor ()
      ensures Valid() && stories == map[]
    {
      stories := map[];
    }

    /**
     * Assigns a story to a sprint: stores a new ASSIGNED story carrying the four supplied
     * fields under its key, and returns it.
     */
    method Assign(storyType: string, storyNumber: string, storyName: string, sprintName: string)
      returns (r: StoryRecord)
      requires Valid()
      modifies this
      ensures Valid()
      ensures Outcome(old(stories), Request.Assign(storyType, storyNumber, storyName, sprintName)) == Success(r)
      ensures stories == old(stories)[(storyType, storyNumber) := r]
    {
      var story := UserStory.CreateInstance(storyType, storyNumber, storyName, sprintName);
      story.SetAssigned();
      r := story.ToRecord();
      stories := stories[(storyType, storyNumber) := r];
      ApplyKeepsSound(old(stories), Request.Assign(storyType, storyNumber, storyName, sprintName));
    }

    /** ASSIGNED to DESIGNING, when the story is in the named sprint; records the designer. */
    method Design(storyType: string, storyNumber: string, sprintName: string, designerName: string)
      returns (r: Result<StoryRecord, Error>)
      requires Valid()
      modifies this
      ensures Valid()
      ensures r == Outcome(old(stories), Request.Design(storyType, storyNumber, sprintName, designerName))
      ensures r.Failure? ==> stories == old(stories)
      ensures r.Success? ==> stories == old(stories)[(storyType, storyNumber) := r.value]
    {
      var key := (storyType, storyNumber);
      if key !in stories {
        return Failure(NotFound(key));
      }
      var story := new UserStory(stories[key]);
      if !story.IsAssigned() {
        return Failure(WrongState(story.currentState));
      }
      if story.GetSprintName() != sprintName {
        return Failure(SprintMismatch(sprintName));
      }
      story.SetDesigning();
      story.SetDesignerName(designerName);
      r := Success(story.ToRecord());
      stories := stories[key := story.ToRecord()];
      ApplyKeepsSound(old(stories), Request.Design(storyType, storyNumber, sprintName, designerName));
    }

    /** DESIGNING to DEVELOPING, when sprint and designer match; records the developer. */
    method Develop(storyType: string, storyNumber: string, sprintName: string, designerName: string, developerName: string)
      returns (r: Result<StoryRecord, Error>)
      requires Valid()
      modifies this
      ensures Valid()
      ensures r == Outcome(old(stories), Request.Develop(storyType, storyNumber, sprintName, designerName, developerName))
      ensures r.Failure? ==> stories == old(stories)
      ensures r.Success? ==> stories == old(stories)[(storyType, storyNumber) := r.value]
    {
      var key := (storyType, storyNumber);
      if key !in stories {
        return Failure(NotFound(key));
      }
      var story := new UserStory(stories[key]);
      if !story.IsDesigning() {
        return Failure(WrongState(story.currentState));
      }
      if story.GetSprintName() != sprintName {
        return Failure(SprintMismatch(sprintName));
      }
      if story.GetDesignerName() != Some(designerName) {
        return Failure(DesignerMismatch(story.GetDesignerName()));
      }
      story.SetDeveloping();
      story.SetDeveloperName(developerName);
      r := Success(story.ToRecord());
      stories := stories[key := story.ToRecord()];
      ApplyKeepsSound(old(stories), Request.Develop(storyType, storyNumber, sprintName, designerName, developerName));
    }

    /** DEVELOPING to VERIFYING, when the committing developer owns the story; records the commit. */
    method Verify(storyType: string, storyNumber: string, developerName: string, commitHash: string)
      returns (r: Result<StoryRecord, Error>)
      requires Valid()
      modifies this
      ensures Valid()
      ensures r == Outcome(old(stories), Request.Verify(storyType, storyNumber, developerName, commitHash))
      ensures r.Failure? ==> stories == old(stories)
      ensures r.Success? ==> stories == old(stories)[(storyType, storyNumber) := r.value]
    {
      var key := (storyType, storyNumber);
      if key !in stories {
        return Failure(NotFound(key));
      }
      var story := new UserStory(stories[key]);
      if !story.IsDeveloping() {
        return Failure(WrongState(story.currentState));
      }
      if story.GetDeveloperName() != Some(developerName) {
        return Failure(DeveloperMismatch(story.GetDeveloperName()));
      }
      story.SetVerifying();
      story.SetCommitHash(commitHash);
      r := Success(story.ToRecord());
      stories := stories[key := story.ToRecord()];
      ApplyKeepsSound(old(stories), Request.Verify(storyType, storyNumber, developerName, commitHash));
    }

    /** VERIFYING to PACKAGING, when the commit matches and the tests passed; records the test result. */
    method Package(storyType: string, storyNumber: string, commitHash: string, testExecution: string)
      returns (r: Result<StoryRecord, Error>)
      requires Valid()
      modifies this
      ensures Valid()
      ensures r == Outcome(old(stories), Request.Package(storyType, storyNumber, commitHash, testExecution))
      ensures r.Failure? ==> stories == old(stories)
      ensures r.Success? ==> stories == old(stories)[(storyType, storyNumber) := r.value]
    {
      var key := (storyType, storyNumber);
      if key !in stories {
        return Failure(NotFound(key));
      }
      var story := new UserStory(stories[key]);
      if !story.IsVerifying() {
        return Failure(WrongState(story.currentState));
      }
      if story.GetCommitHash() != Some(commitHash) {
        return Failure(CommitMismatch(story.GetCommitHash()));
      }
      if testExecution != Passed {
        return Failure(NotPassed);
      }
      story.SetPackaging();
      story.SetTestExecution(testExecution);
      r := Success(story.ToRecord());
      stories := stories[key := story.ToRecord()];
      ApplyKeepsSound(old(stories), Request.Package(storyType, storyNumber, commitHash, testExecution));
    }

    /** PACKAGING to DEPLOYING, when the commit matches; records the image name and version. */
    method Deploy(storyType: string, storyNumber: string, commitHash: string, imageName: string, version: string)
      returns (r: Result<StoryRecord, Error>)
      requires Valid()
      modifies this
      ensures Valid()
      ensures r == Outcome(old(stories), Request.Deploy(storyType, storyNumber, commitHash, imageName, version))
      ensures r.Failure? ==> stories == old(stories)
      ensures r.Success? ==> stories == old(stories)[(storyType, storyNumber) := r.value]
    {
      var key := (storyType, storyNumber);
      if key !in stories {
        return Failure(NotFound(key));
      }
      var story := new UserStory(stories[key]);
      if !story.IsPackaging() {
        return Failure(WrongState(story.currentState));
      }
      if story.GetCommitHash() != Some(commitHash) {
        return Failure(CommitMismatch(story.GetCommitHash()));
      }
      story.SetDeploying();
      story.SetImageName(imageName);
      story.SetVersion(version);
      r := Success(story.ToRecord());
      stories := stories[key := story.ToRecord()];
      ApplyKeepsSound(old(stories), Request.Deploy(storyType, storyNumber, commitHash, imageName, version));
    }

    /**
     * Meant to move DEPLOYING to RUNNING, when image name and version match; records the
     * server. It sets DEPLOYING again, so the story stays DEPLOYING.
     */
    method Run(storyType: string, storyNumber: string, imageName: string, version: string, server: string)
      returns (r: Result<StoryRecord, Error>)
      requires Valid()
      modifies this
      ensures Valid()
      ensures r == Outcome(old(stories), Request.Run(storyType, storyNumber, imageName, version, server))
      ensures r.Failure? ==> stories == old(stories)
      ensures r.Success? ==> stories == old(stories)[(storyType, storyNumber) := r.value]
      ensures r.Success? ==> r.value.currentState == Some(Code(Deploying)) && r.value.server == Some(server)
    {
      var key := (storyType, storyNumber);
      if key !in stories {
        return Failure(NotFound(key));
      }
      var story := new UserStory(stories[key]);
      if !story.IsDeploying() {
        return Failure(WrongState(story.currentState));
      }
      if story.GetImageName() != Some(imageName) {
        return Failure(ImageNameMismatch(story.GetImageName()));
      }
      if story.GetVersion() != Some(version) {
        return Failure(VersionMismatch(story.GetVersion()));
      }
      story.SetDeploying();
      story.SetServer(server);
      r := Success(story.ToRecord());
      stories := stories[key := story.ToRecord()];
      ApplyKeepsSound(old(stories), Request.Run(storyType, storyNumber, imageName, version, server));
    }
  }
}

/**
 * The life of a test's data: the Project and BuildType that `generate()`
 * produced are registered with the storage as the requester creates them,
 * and the storage's cleanup then deletes them, the build configuration
 * before the project it belongs to.
 */
module SuiteCleanup {
  import opened Wrappers
  import opened Endpoints
  import opened Models
  import RandomData
  import opened Storage
  import opened SuiteGeneration
  import opened SuiteTestData

  /** The ids `getEntityId` reads from the episode's Project and BuildType are their random ids. */
  lemma EpisodeIds(n: nat, d: nat, src: RandomData.LetterSource)
    ensures WellFormed(TEAMCITY)
    ensures Typed(TEAMCITY, EpisodeProject(n, d, src)) && Typed(TEAMCITY, EpisodeBuildType(n, d, src))
    ensures EntityId(TEAMCITY, EpisodeProject(n, d, src)) == Ok(Some(RandomData.GetString(src, d)))
    ensures EntityId(TEAMCITY, EpisodeBuildType(n, d, src)) == Ok(Some(RandomData.GetString(src, d + 2)))
  {
    TeamCityDeclares();
  }

  /**
   * A generated User has no id yet, so registering it adds nothing; the user
   * the server returns carries its assigned id, and that id is recorded.
   */
  lemma UserIds(n: nat, id: string)
    ensures WellFormed(TEAMCITY)
    ensures Typed(TEAMCITY, Obj(n, User, [Null])) && EntityId(TEAMCITY, Obj(n, User, [Null])) == Ok(None)
    ensures Typed(TEAMCITY, Obj(n, User, [Str(id)])) && EntityId(TEAMCITY, Obj(n, User, [Str(id)])) == Ok(Some(id))
  {
    TeamCityDeclares();
  }

  /**
   * A test that creates the episode's Project and then its BuildType, and
   * then ends: the requester receives exactly two deletes, the BuildType's
   * id on the build types endpoint and then the Project's id on the
   * projects endpoint.
   */
  method CleanUpEpisode(n: nat, d: nat, src: RandomData.LetterSource, requester: DeleteRecorder)
    modifies requester
    ensures requester.calls == old(requester.calls)
                               + [(BuildTypes, RandomData.GetString(src, d + 2)), (Projects, RandomData.GetString(src, d))]
  {
    EpisodeIds(n, d, src);
    var storage := new TestDataStorage();
    var r1 := storage.AddCreatedModel(TEAMCITY, Projects, EpisodeProject(n, d, src));
    var r2 := storage.AddCreatedModel(TEAMCITY, BuildTypes, EpisodeBuildType(n, d, src));
    ghost var recorded := storage.createdEntities;
    assert recorded == Added(Added(map[], Projects, Some(RandomData.GetString(src, d))), BuildTypes, Some(RandomData.GetString(src, d + 2)));
    storage.DeleteCreatedEntities(requester);
    ghost var t :| requester.calls == old(requester.calls) + t && DrainOf(recorded, t);
    DrainIgnoresRecordingOrder(RandomData.GetString(src, d), RandomData.GetString(src, d + 2), t);
  }
}

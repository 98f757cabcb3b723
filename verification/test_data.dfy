/**
 * `generate()` on TestData: the holder's fields newProjectDescription,
 * project, user and buildType are generated in declaration order, each in
 * the context of the models generated before it.
 */
module SuiteTestData {
  import opened Wrappers
  import opened Models
  import opened Generator
  import RandomData
  import opened GenerationSteps
  import opened SuiteGeneration

  /** The Project of the episode: id and name copied from the description generated first. */
  function EpisodeProject(n: nat, d: nat, src: RandomData.LetterSource): Obj {
    Obj(n + 2, Project, [Draw(src, d), Draw(src, d + 1), Null])
  }

  /** The BuildType of the episode: two fresh draws and the episode's own Project. */
  function EpisodeBuildType(n: nat, d: nat, src: RandomData.LetterSource): Obj {
    Obj(n + 4, BuildType, [Draw(src, d + 2), Draw(src, d + 3), Model(EpisodeProject(n, d, src)), Null])
  }

  /** The schema declares TestData's classes with their TeamCity shapes. */
  ghost predicate DeclaresTestData(s: Schema) {
    && WellFormed(s)
    && Project in s && s[Project] == PROJECT
    && NewProjectDescription in s && s[NewProjectDescription] == NEW_PROJECT_DESCRIPTION
    && User in s && s[User] == USER
    && BuildType in s && s[BuildType] == BUILD_TYPE
  }

  lemma EpisodeStart(s: Schema, n: nat, d: nat, src: RandomData.LetterSource)
    requires WellFormed(s)
    ensures RunEpisode(s, TEST_DATA, Supply(n, d), src, 0) == Ok(Episode([Null, Null, Null, Null], [], Supply(n, d)))
  {
    assert seq(4, _ => Null) == [Null, Null, Null, Null];
  }

  lemma EpisodeAfterDescription(s: Schema, n: nat, d: nat, src: RandomData.LetterSource)
    requires DeclaresTestData(s)
    ensures RunEpisode(s, TEST_DATA, Supply(n, d), src, 1)
            == Ok(Episode([Model(NewDescription(n, d, src)), Null, Null, Null], [NewDescription(n, d, src)], Supply(n + 2, d + 2)))
  {
    EpisodeStart(s, n, d, src);
    DescriptionGenerated(s, [], n, d, src);
    EpisodeAdvance(s, TEST_DATA, Supply(n, d), src, 0, Episode([Null, Null, Null, Null], [], Supply(n, d)),
      Generated(NewDescription(n, d, src), Supply(n + 2, d + 2)));
    assert [Null, Null, Null, Null][0 := Model(NewDescription(n, d, src))] == [Model(NewDescription(n, d, src)), Null, Null, Null];
    assert [] + [NewDescription(n, d, src)] == [NewDescription(n, d, src)];
  }

  lemma EpisodeAfterProject(s: Schema, n: nat, d: nat, src: RandomData.LetterSource)
    requires DeclaresTestData(s)
    ensures RunEpisode(s, TEST_DATA, Supply(n, d), src, 2)
            == Ok(Episode([Model(NewDescription(n, d, src)), Model(EpisodeProject(n, d, src)), Null, Null],
                          [NewDescription(n, d, src), EpisodeProject(n, d, src)], Supply(n + 3, d + 2)))
  {
    EpisodeAfterDescription(s, n, d, src);
    assert FirstOfClass([NewDescription(n, d, src)], NewProjectDescription) == Some(0);
    ProjectFromDescription(s, [NewDescription(n, d, src)], n + 2, d + 2, src, 0);
    EpisodeAdvance(s, TEST_DATA, Supply(n, d), src, 1,
      Episode([Model(NewDescription(n, d, src)), Null, Null, Null], [NewDescription(n, d, src)], Supply(n + 2, d + 2)),
      Generated(EpisodeProject(n, d, src), Supply(n + 3, d + 2)));
    assert [Model(NewDescription(n, d, src)), Null, Null, Null][1 := Model(EpisodeProject(n, d, src))]
        == [Model(NewDescription(n, d, src)), Model(EpisodeProject(n, d, src)), Null, Null];
    assert [NewDescription(n, d, src)] + [EpisodeProject(n, d, src)] == [NewDescription(n, d, src), EpisodeProject(n, d, src)];
  }

  lemma EpisodeAfterUser(s: Schema, n: nat, d: nat, src: RandomData.LetterSource)
    requires DeclaresTestData(s)
    ensures RunEpisode(s, TEST_DATA, Supply(n, d), src, 3)
            == Ok(Episode([Model(NewDescription(n, d, src)), Model(EpisodeProject(n, d, src)), Model(Obj(n + 3, User, [Null])), Null],
                          [NewDescription(n, d, src), EpisodeProject(n, d, src), Obj(n + 3, User, [Null])], Supply(n + 4, d + 2)))
  {
    EpisodeAfterProject(s, n, d, src);
    UserGenerated(s, [NewDescription(n, d, src), EpisodeProject(n, d, src)], n + 3, d + 2, src);
    EpisodeAdvance(s, TEST_DATA, Supply(n, d), src, 2,
      Episode([Model(NewDescription(n, d, src)), Model(EpisodeProject(n, d, src)), Null, Null],
              [NewDescription(n, d, src), EpisodeProject(n, d, src)], Supply(n + 3, d + 2)),
      Generated(Obj(n + 3, User, [Null]), Supply(n + 4, d + 2)));
    assert [Model(NewDescription(n, d, src)), Model(EpisodeProject(n, d, src)), Null, Null][2 := Model(Obj(n + 3, User, [Null]))]
        == [Model(NewDescription(n, d, src)), Model(EpisodeProject(n, d, src)), Model(Obj(n + 3, User, [Null])), Null];
    assert [NewDescription(n, d, src), EpisodeProject(n, d, src)] + [Obj(n + 3, User, [Null])]
        == [NewDescription(n, d, src), EpisodeProject(n, d, src), Obj(n + 3, User, [Null])];
  }

  /**
   * The whole of `generate()`: the description first, then a Project that
   * copies its id and name, then a User, then a BuildType that holds that
   * very Project.
   */
  lemma EpisodeGenerated(s: Schema, n: nat, d: nat, src: RandomData.LetterSource)
    requires DeclaresTestData(s)
    ensures RunEpisode(s, TEST_DATA, Supply(n, d), src, 4)
            == Ok(Episode([Model(NewDescription(n, d, src)), Model(EpisodeProject(n, d, src)), Model(Obj(n + 3, User, [Null])),
                           Model(EpisodeBuildType(n, d, src))],
                          [NewDescription(n, d, src), EpisodeProject(n, d, src), Obj(n + 3, User, [Null]), EpisodeBuildType(n, d, src)],
                          Supply(n + 5, d + 4)))
  {
    EpisodeAfterUser(s, n, d, src);
    assert FirstOfClass([NewDescription(n, d, src), EpisodeProject(n, d, src), Obj(n + 3, User, [Null])], Project) == Some(1);
    BuildTypeInContext(s, [NewDescription(n, d, src), EpisodeProject(n, d, src), Obj(n + 3, User, [Null])], n + 4, d + 2, src, 1);
    EpisodeAdvance(s, TEST_DATA, Supply(n, d), src, 3,
      Episode([Model(NewDescription(n, d, src)), Model(EpisodeProject(n, d, src)), Model(Obj(n + 3, User, [Null])), Null],
              [NewDescription(n, d, src), EpisodeProject(n, d, src), Obj(n + 3, User, [Null])], Supply(n + 4, d + 2)),
      Generated(EpisodeBuildType(n, d, src), Supply(n + 5, d + 4)));
    assert [Model(NewDescription(n, d, src)), Model(EpisodeProject(n, d, src)), Model(Obj(n + 3, User, [Null])), Null][3 := Model(EpisodeBuildType(n, d, src))]
        == [Model(NewDescription(n, d, src)), Model(EpisodeProject(n, d, src)), Model(Obj(n + 3, User, [Null])), Model(EpisodeBuildType(n, d, src))];
    assert [NewDescription(n, d, src), EpisodeProject(n, d, src), Obj(n + 3, User, [Null])] + [EpisodeBuildType(n, d, src)]
        == [NewDescription(n, d, src), EpisodeProject(n, d, src), Obj(n + 3, User, [Null]), EpisodeBuildType(n, d, src)];
  }

  /**
   * How the four generated models of TestData are linked: the Project takes
   * the description's id and name, the BuildType refers to that same
   * Project instance, Optional fields stay at their defaults, the ids are
   * test strings, and the four are distinct instances.
   */
  ghost predicate Linked(v: seq<Value>) {
    && |v| == 4 && v[0].Model? && v[1].Model? && v[2].Model? && v[3].Model?
    && |v[0].obj.fields| == 3 && |v[1].obj.fields| == 3 && |v[3].obj.fields| == 4
    && v[1].obj.fields[0] == v[0].obj.fields[0] && v[1].obj.fields[1] == v[0].obj.fields[1]
    && v[3].obj.fields[2] == v[1]
    && v[0].obj.fields[2].Model? && v[0].obj.fields[2].obj.fields == [Null, Null, Str("_Root")]
    && v[1].obj.fields[2] == Null && v[3].obj.fields[3] == Null
    && v[0].obj.fields[0].Str? && RandomData.IsTestString(v[0].obj.fields[0].text)
    && v[3].obj.fields[0].Str? && RandomData.IsTestString(v[3].obj.fields[0].text)
    && v[0].obj.oid < v[1].obj.oid < v[2].obj.oid < v[3].obj.oid
  }

  /** `generate()` on the TeamCity model succeeds and links its models as the API tests rely on. */
  lemma TestDataLinked(n: nat, d: nat, src: RandomData.LetterSource)
    ensures WellFormed(TEAMCITY)
    ensures RunEpisode(TEAMCITY, TEST_DATA, Supply(n, d), src, |TEST_DATA|).Ok?
    ensures Linked(RunEpisode(TEAMCITY, TEST_DATA, Supply(n, d), src, |TEST_DATA|).value.values)
  {
    TeamCityDeclares();
    EpisodeGenerated(TEAMCITY, n, d, src);
    RandomData.GetStringIsTestString(src, d);
    RandomData.GetStringIsTestString(src, d + 2);
  }
}

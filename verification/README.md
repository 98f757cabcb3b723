# TeamCity API test framework: test-data generation and cleanup, in Dafny

This project models the data-handling core of a TeamCity REST-API test suite:

- **Test-data generation** (`TestDataGenerator`). The generator builds model instances reflectively from their field annotations:
  - `@Optional` fields are skipped.
  - `@Parameterizable` fields take caller parameters, left to right.
  - `@Dependent` fields copy the same-named field of a model generated earlier.
  - `@Random` String fields get a fresh random string.
  - A nested model field reuses a model of the same class from the context, or generates a new one.
  - A list-of-model field gets a freshly generated one-element list.

  `generate()` fills the `TestData` holder field by field, so that later models are linked to earlier ones.
- **Random strings** (`RandomData`). These are `"test_"` plus random letters, with a random part of at least ten letters.
- **The cleanup ledger** (`TestDataStorage`). It maps each REST endpoint to the set of ids created through it. At the end of a test it deletes them endpoint by endpoint in the endpoints' declaration order, then clears itself.
- **Model comparison** (`ModelComparator`). It compares the request model and the response model field by field, through a field mapping. Values are compared by their `String.valueOf` forms.
- **Comparison configuration** (`ModelComparisonConfigLoader`). It parses `Request=Response:field,req=resp` property values into comparison rules, with Java's `String.split` semantics.

Modules:

| file | module | contents |
|---|---|---|
| `wrappers.dfy` | `Wrappers` | `Option`, `Result` |
| `java_string.dfy` | `JavaString` | `String.trim` and `String.split` for a one-character delimiter (trailing empty strings dropped) |
| `random_data.dfy` | `RandomData` | `getString()`, `getString(int)` with 32-bit `int` arithmetic, the random source as an oracle |
| `endpoint.dfy` | `Endpoints` | the `Endpoint` enumeration and its declaration order |
| `models.dfy` | `Models` | model values, the shape table replacing reflection and annotations, and the suite's own model classes (`TEAMCITY`) |
| `generator.dfy` | `Generator` | `generate(List, Class, Object...)`, `generate(Class, Object...)` and `generate()`: specification functions, and the loops that compute them |
| `generator_properties.dfy` | `GeneratorProperties` | what generation does to each field, by arm |
| `generation_steps.dfy` | `GenerationSteps` | one-field steps, used to compute concrete generations |
| `suite_generation.dfy` | `SuiteGeneration` | generation of the suite's model classes (Role, Roles, NewProjectDescription, Project, User, BuildType) |
| `test_data.dfy` | `SuiteTestData` | `generate()` on the `TestData` holder, and how its four models are linked |
| `storage.dfy` | `Storage` | the `TestDataStorage` class, with an abstract delete callback that records calls |
| `cleanup.dfy` | `SuiteCleanup` | the generated Project and BuildType, registered and then deleted |
| `comparator.dfy` | `Comparator` | `getFieldValue`, `compareFields`, `ComparisonResult` |
| `comparison_config.dfy` | `ComparisonConfig` | `ComparisonRule`, the loader loop, `getRuleFor` |

Modelling choices:

- A model instance is an immutable value `Obj(oid, cls, fields)`. The allocation identity `oid` makes "the very same instance" expressible. Identities and random draws are handed out by a `Supply` counter that is threaded through generation.
- Reflection is replaced by a shape table. It maps each class to its fields in declaration order, with their kinds, annotations and initialisers. The table's `rank` orders nested classes, which makes generation terminate.
- The random source is an oracle from a draw index to a string of letters.
- Exceptions are `Err` values:
  - `IllegalStateException("Cannot generate test data")` becomes `CannotConstruct` or `NoSuchField`.
  - The `IllegalArgumentException` that `Field.set` throws for a value of the wrong type becomes `IllegalArgument`. It is not caught by the generator's `catch`, so it is kept apart.
- Iteration over a `HashMap` or a `Properties` key set is in an unspecified order, so that order is an input sequence:
  - the mapping entries of `compareFields`
  - the property keys of the loader

## Model

| member | source | states |
|---|---|---|
| `Generator.FirstOfClass` | src/main/java/com/teamcity/api/generators/TestDataGenerator.java:108-109 | the index of the first context model whose class is exactly the requested one; `None` exactly when no context model has that class |
| `Generator.NewInstance` | src/main/java/com/teamcity/api/generators/TestDataGenerator.java:104 | the no-argument constructor gives an instance of the class with the next unused identity and one value per declared field; it draws no random string |
| `Generator.FieldStep` | src/main/java/com/teamcity/api/generators/TestDataGenerator.java:106-141 | handling one field changes no other field and not the instance's identity; the parameter list loses its head exactly when the Parameterizable arm is taken; identities and draws only move forward |
| `Generator.GenPrefix` | src/main/java/com/teamcity/api/generators/TestDataGenerator.java:104-142 | after the constructor and any number of fields, the instance keeps its class, its identity and its field count |
| `Generator.Generate` | src/main/java/com/teamcity/api/generators/TestDataGenerator.java:101-148 | a successful generation yields an instance of the requested class that conforms to its shape and has the next unused identity; every nested allocation and draw comes after the ones already handed out |
| `Generator.ErrorPersists` | src/main/java/com/teamcity/api/generators/TestDataGenerator.java:144-147 | an error at some field is the result of the whole call: no later field is processed |
| `Generator.FillField` | src/main/java/com/teamcity/api/generators/TestDataGenerator.java:106-141 | the field-handling body computes exactly the step specified by `FieldStep` |
| `Generator.GenerateModel` | src/main/java/com/teamcity/api/generators/TestDataGenerator.java:101-148 | the field loop, reassigning the remaining parameters, computes exactly `Generate` |
| `Generator.GenerateStandalone` | src/main/java/com/teamcity/api/generators/TestDataGenerator.java:163-165 | `generate(Class, params)` is `generate` with an empty context |
| `Generator.RunEpisode` | src/main/java/com/teamcity/api/generators/TestDataGenerator.java:182-192 | `generate()` fills one value per holder field; the context holds only models generated during this episode, none of them older than the episode |
| `Generator.EpisodeErrorPersists` | src/main/java/com/teamcity/api/generators/TestDataGenerator.java:196-199 | a failure at one holder field is the result of the whole `generate()` |
| `Generator.GenerateAll` | src/main/java/com/teamcity/api/generators/TestDataGenerator.java:182-200 | the loop over the holder fields, appending each result to the context, computes exactly `RunEpisode` |
| `GeneratorProperties.PrefixOk` | src/main/java/com/teamcity/api/generators/TestDataGenerator.java:105-142 | when generation gets past field n, it got past every earlier field |
| `GeneratorProperties.ParamCursor` | src/main/java/com/teamcity/api/generators/TestDataGenerator.java:110-112 | before field i, exactly min(Parameterizable fields reached, number of parameters) parameters have been consumed, from the left; nested generation does not move this cursor |
| `GeneratorProperties.Untouched` | src/main/java/com/teamcity/api/generators/TestDataGenerator.java:104-105 | fields not reached yet still hold the constructor's values |
| `GeneratorProperties.Settled` | src/main/java/com/teamcity/api/generators/TestDataGenerator.java:105-142 | once a field is decided, no later field changes it |
| `GeneratorProperties.FieldOutcome` | src/main/java/com/teamcity/api/generators/TestDataGenerator.java:107-138 | the final value of each field, by the arm that applies to it: the default for Optional fields and fields no arm applies to; the next unconsumed parameter; the related model's same-named field; a test string; the reused context model; a fresh one-element list |
| `SuiteGeneration.TeamCityDeclares` | src/main/java/com/teamcity/api/models/Project.java:50-73 | the suite's shape table is well formed and holds the declared shapes of Project, NewProjectDescription, BuildType, User, Role and Roles |
| `SuiteGeneration.NewDescriptionInstance` | src/main/java/com/teamcity/api/models/NewProjectDescription.java:70-72 | a new NewProjectDescription has null id and name, and a fresh `_Root` Project as parent |
| `SuiteGeneration.RoleGenerated` | src/main/java/com/teamcity/api/models/Role.java:53-71 | `generate(Role.class, params)` sets roleId and then scope from the parameters, in order, while they last; the others keep `SYSTEM_ADMIN` and `"g"` |
| `SuiteGeneration.RoleRejectsMistypedParameter` | src/main/java/com/teamcity/api/generators/TestDataGenerator.java:110-111 | a String parameter for the enum field roleId is rejected by `Field.set` |
| `SuiteGeneration.RolesGenerated` | src/main/java/com/teamcity/api/generators/TestDataGenerator.java:131-137 | `generate(Roles.class, params)` is a fresh one-element list whose Role takes the parameters |
| `SuiteGeneration.RolesFromTwoParameters` | src/main/java/com/teamcity/api/generators/TestDataGenerator.java:131-137 | `generate(Roles.class, PROJECT_ADMIN, "p:x")` gives one Role with roleId `PROJECT_ADMIN` and scope `"p:x"` |
| `SuiteGeneration.RolesFromOneParameter` | src/main/java/com/teamcity/api/generators/TestDataGenerator.java:110-112 | with a single parameter only roleId is set; scope keeps `"g"` |
| `SuiteGeneration.DescriptionGenerated` | src/main/java/com/teamcity/api/models/NewProjectDescription.java:49-72 | a generated NewProjectDescription has two random strings and keeps its Optional `_Root` parent |
| `SuiteGeneration.ProjectWithoutDescription` | src/main/java/com/teamcity/api/models/Project.java:50-73 | with no NewProjectDescription in the context, the Dependent arm is passed over: id and name are random, locator stays null |
| `SuiteGeneration.StandaloneProject` | src/main/java/com/teamcity/api/generators/TestDataGenerator.java:163-165 | `generate(Project.class)` gives random id and name |
| `SuiteGeneration.ProjectFromDescription` | src/main/java/com/teamcity/api/generators/TestDataGenerator.java:113-124 | after a NewProjectDescription, a Project copies the first description's id and name and draws nothing |
| `SuiteGeneration.UserGenerated` | src/main/java/com/teamcity/api/generators/TestDataGenerator.java:104-143 | a generated User's `id` carries no annotation, so no arm applies and it stays null |
| `SuiteGeneration.BuildTypeInContext` | src/main/java/com/teamcity/api/models/BuildType.java:50-84 | after a Project, a BuildType has random id and name, holds the very Project instance of the context, and leaves the Optional steps null |
| `SuiteTestData.EpisodeGenerated` | src/main/java/com/teamcity/api/models/TestData.java:41-68 | `generate()` produces the description, then a Project copying it, then a User, then a BuildType holding that Project, each appended to the context |
| `SuiteTestData.TestDataLinked` | src/main/java/com/teamcity/api/generators/TestDataGenerator.java:182-192 | on the suite's models `generate()` succeeds, with these links: project id and name equal the description's; `buildType.project` is the same Project instance; Optional fields keep their defaults; ids are test strings; the four models are distinct instances |
| `RandomData.RandomPartLength` | src/main/java/com/teamcity/api/generators/RandomData.java:77-81 | the random part is never shorter than 10, and is max(length − 5, 10) whenever `length − 5` does not overflow a Java `int` |
| `RandomData.GetString` | src/main/java/com/teamcity/api/generators/RandomData.java:62-64 | `getString()` is `"test_"` followed by 10 letters, 15 characters in all |
| `RandomData.GetStringIsTestString` | src/main/java/com/teamcity/api/generators/RandomData.java:42-64 | every `getString()` result starts with `"test_"` and continues with letters only |
| `RandomData.GetStringOfLength` | src/main/java/com/teamcity/api/generators/RandomData.java:77-81 | `getString(n)` fails exactly when 5 plus the random part length exceeds the longest Java `String`; otherwise it is `"test_"` followed by letters, of that length |
| `RandomData.GetStringOfLengthFails` | src/main/java/com/teamcity/api/generators/RandomData.java:80 | `getString(n)` fails exactly when `n - 5` wraps, that is for n below `Integer.MIN_VALUE + 5` |
| `RandomData.LengthIsAtLeastFifteen` | src/main/java/com/teamcity/api/generators/RandomData.java:77-81 | outside the wrap-around range `getString(n)` returns a string of length max(n, 15) |
| `RandomData.IdLimitLengths` | src/test/java/com/teamcity/api/BuildTypeTest.java:69-74 | `getString(226)` has length 226, `getString(225)` has length 225 and `getString(3)` has length 15 |
| `RandomData.MinValueWraps` | src/main/java/com/teamcity/api/generators/RandomData.java:80 | for `Integer.MIN_VALUE`, `length - 5` wraps round to 2147483643, and the call fails |
| `Endpoints.AllIsRankOrdered` | src/main/java/com/teamcity/api/enums/Endpoint.java:43-79 | the endpoints in declaration order are BUILD_QUEUE, BUILDS, BUILD_TYPES, USERS, PROJECTS; each one's rank is its position |
| `Models.TeamCityWellFormed` | src/main/java/com/teamcity/api/models/BuildType.java:41-84 | the suite's shape table is acyclic, its field names are unique, and every `id` field is a String |
| `Storage.Added` | src/main/java/com/teamcity/api/generators/TestDataStorage.java:103-107 | a null id leaves the ledger unchanged; otherwise the endpoint's set is the old set plus the id; every other endpoint is untouched; no endpoint ever maps to an empty set |
| `Storage.AddedIdempotent` | src/main/java/com/teamcity/api/generators/TestDataStorage.java:105 | adding the same (endpoint, id) twice equals adding it once |
| `Storage.EmptyDrain` | src/main/java/com/teamcity/api/generators/TestDataStorage.java:143 | the only drain of the cleared ledger is the empty one, so a second `deleteCreatedEntities` right after the first deletes nothing |
| `Storage.DrainOfTwo` | src/main/java/com/teamcity/api/generators/TestDataStorage.java:139-140 | a ledger holding one build type and one project is drained by exactly two deletes, the build type first |
| `Storage.DrainIgnoresRecordingOrder` | src/main/java/com/teamcity/api/generators/TestDataStorage.java:138-144 | a project recorded before its build type is still deleted after it: deletion follows endpoint order, not insertion order |
| `Storage.DeleteRecorder.Delete` | src/main/java/com/teamcity/api/generators/TestDataStorage.java:139-140 | each delete appends one (endpoint, id) call to the requester's trace |
| `Storage.EntityId` | src/main/java/com/teamcity/api/generators/TestDataStorage.java:159-169 | `getEntityId` fails exactly when the class declares no `id` field; otherwise it gives `None` for a null id and the id's text for a String id |
| `Storage.TestDataStorage.constructor` | src/main/java/com/teamcity/api/generators/TestDataStorage.java:73 | a new storage has an empty ledger |
| `Storage.TestDataStorage.AddCreatedEntity` | src/main/java/com/teamcity/api/generators/TestDataStorage.java:103-107 | the ledger becomes `Added(old ledger, endpoint, id)` and keeps its no-empty-set invariant |
| `Storage.TestDataStorage.AddCreatedModel` | src/main/java/com/teamcity/api/generators/TestDataStorage.java:119-121 | fails, leaving the ledger unchanged, exactly when `getEntityId` fails; otherwise it records the model's id as `AddCreatedEntity` does |
| `Storage.TestDataStorage.DeleteCreatedEntities` | src/main/java/com/teamcity/api/generators/TestDataStorage.java:138-144 | the requester receives a drain of the old ledger: one delete per stored (endpoint, id), none repeated, in endpoint declaration order; afterwards the ledger is empty |
| `Storage.DeleteAll` | src/main/java/com/teamcity/api/generators/TestDataStorage.java:139-140 | the nested loop over the endpoints and their id sets issues a drain of the ledger |
| `SuiteCleanup.EpisodeIds` | src/main/java/com/teamcity/api/generators/TestDataStorage.java:159-169 | the ids read from the generated Project and BuildType are their random ids |
| `SuiteCleanup.UserIds` | src/main/java/com/teamcity/api/requests/withS/RequesterWithS.java:55-63 | a generated User's null id registers nothing; the id of the User the server returns is the one recorded |
| `SuiteCleanup.CleanUpEpisode` | src/main/java/com/teamcity/api/requests/withS/RequesterWithS.java:55-63 | a test that creates the generated Project and then its BuildType, and then ends, sends exactly two deletes: the BuildType's id first, then the Project's |
| `Comparator.FirstDeclaredIsNearest` | src/main/java/com/teamcity/api/models/comparison/ModelComparator.java:84-98 | field lookup finds nothing exactly when no class in the superclass chain declares the field; otherwise it returns the value in the nearest declaring class |
| `Comparator.GetFieldValue` | src/main/java/com/teamcity/api/models/comparison/ModelComparator.java:84-98 | the loop up the superclass chain returns the specified value, or the `Field not found` error |
| `Comparator.Compare` | src/main/java/com/teamcity/api/models/comparison/ModelComparator.java:53-69 | at most one mismatch per mapping entry |
| `Comparator.CompareOkIffResolves` | src/main/java/com/teamcity/api/models/comparison/ModelComparator.java:60-61 | comparison fails exactly when some mapped field cannot be found on its side |
| `Comparator.MismatchesDiffer` | src/main/java/com/teamcity/api/models/comparison/ModelComparator.java:63-64 | every reported mismatch belongs to an entry whose `String.valueOf` forms differ; it is labelled `request -> response`, with the request value as expected and the response value as actual |
| `Comparator.DifferencesReported` | src/main/java/com/teamcity/api/models/comparison/ModelComparator.java:56-66 | every entry whose `String.valueOf` forms differ has its mismatch in the result |
| `Comparator.SuccessIffNoDifference` | src/main/java/com/teamcity/api/models/comparison/ModelComparator.java:130-132 | the result is successful exactly when no mapped entry differs |
| `Comparator.CompareWithItself` | src/main/java/com/teamcity/api/models/comparison/ModelComparator.java:63 | an instance compared with itself under an identity mapping either fails a lookup or has no mismatch |
| `Comparator.NullEqualsNullString` | src/main/java/com/teamcity/api/models/comparison/ModelComparator.java:63 | a null field and the string `"null"` compare equal |
| `Comparator.CompareFields` | src/main/java/com/teamcity/api/models/comparison/ModelComparator.java:53-69 | the loop succeeds exactly when `Compare` does, with the same mismatches in the same order, or the same error |
| `Comparator.ErrorPersists` | src/main/java/com/teamcity/api/models/comparison/ModelComparator.java:60-61 | a lookup failure at some entry is the result of the whole comparison |
| `Comparator.LinesAppend` | src/main/java/com/teamcity/api/models/comparison/ModelComparator.java:158-162 | the mismatch lines of two lists, one after the other, are the lines of the concatenated list |
| `Comparator.ComparisonResult.Report` | src/main/java/com/teamcity/api/models/comparison/ModelComparator.java:153-164 | the text is `All fields match.` exactly when successful; otherwise it is the header followed by one line per mismatch, in list order |
| `Comparator.ComparisonResult.ToString` | src/main/java/com/teamcity/api/models/comparison/ModelComparator.java:153-164 | the StringBuilder loop produces exactly `Report()` |
| `JavaString.TrimIdempotent` | src/main/java/com/teamcity/api/models/comparison/ModelComparisonConfigLoader.java:125 | trimming twice is trimming once |
| `JavaString.PiecesRoundTrip` | src/main/java/com/teamcity/api/models/comparison/ModelComparisonConfigLoader.java:123 | joining the pieces of a split with the delimiter gives back the original text |
| `JavaString.Split` | src/main/java/com/teamcity/api/models/comparison/ModelComparisonConfigLoader.java:59 | `split` gives `[s]` when the delimiter is absent; otherwise the pieces minus the trailing empty ones, none of them containing the delimiter |
| `JavaString.SplitOnce` | src/main/java/com/teamcity/api/models/comparison/ModelComparisonConfigLoader.java:123-125 | `a + d + b`, with no delimiter in a or b and b non-empty, splits into exactly `[a, b]` |
| `JavaString.SplitTrailingDelimiter` | src/main/java/com/teamcity/api/models/comparison/ModelComparisonConfigLoader.java:59-60 | a trailing delimiter leaves one part, or none for the delimiter alone |
| `JavaString.SplitExampleEmpty` | src/main/java/com/teamcity/api/models/comparison/ModelComparisonConfigLoader.java:65 | `",".split(",")` is empty, while `"".split(",")` is one empty string |
| `JavaString.SplitExampleThreeParts` | src/main/java/com/teamcity/api/models/comparison/ModelComparisonConfigLoader.java:123 | `"a=b=c".split("=")` has three parts |
| `ComparisonConfig.ExplicitPair` | src/main/java/com/teamcity/api/models/comparison/ModelComparisonConfigLoader.java:123-125 | `req=resp` maps the trimmed request field to the trimmed response field |
| `ComparisonConfig.BarePair` | src/main/java/com/teamcity/api/models/comparison/ModelComparisonConfigLoader.java:126-128 | a bare field name maps its trimmed text to itself |
| `ComparisonConfig.ThreePartPair` | src/main/java/com/teamcity/api/models/comparison/ModelComparisonConfigLoader.java:126-128 | `a=b=c` has three parts and maps to itself |
| `ComparisonConfig.TrailingEqualsPair` | src/main/java/com/teamcity/api/models/comparison/ModelComparisonConfigLoader.java:126-128 | `x=` splits into one part, so the whole `x=` maps to itself |
| `ComparisonConfig.PutAllDomain` | src/main/java/com/teamcity/api/models/comparison/ModelComparisonConfigLoader.java:58-68 | a key is in the map built by successive puts exactly when some accepted entry has that key |
| `ComparisonConfig.PutAllLastWins` | src/main/java/com/teamcity/api/models/comparison/ModelComparisonConfigLoader.java:67 | the value stored under a key is the one from the last accepted entry with that key |
| `ComparisonConfig.MappingsDomain` | src/main/java/com/teamcity/api/models/comparison/ModelComparisonConfigLoader.java:122-130 | the mapping's request fields are exactly the left-hand sides of the pairs |
| `ComparisonConfig.MappingsLastWins` | src/main/java/com/teamcity/api/models/comparison/ModelComparisonConfigLoader.java:122-130 | a pair whose request field no later pair repeats sets that field's response field |
| `ComparisonConfig.SecondPairWins` | src/main/java/com/teamcity/api/models/comparison/ModelComparisonConfigLoader.java:125-128 | of two pairs with the same request field, only the second survives |
| `ComparisonConfig.LaterPairOverwrites` | src/main/java/com/teamcity/api/models/comparison/ModelComparisonConfigLoader.java:125 | `r=a,r=b` maps `r` to `b` |
| `ComparisonConfig.NewComparisonRule` | src/main/java/com/teamcity/api/models/comparison/ModelComparisonConfigLoader.java:118-131 | the constructor's loop keeps the response class name and builds exactly `Mappings(fieldPairs)` |
| `ComparisonConfig.RuleOfWellFormedValue` | src/main/java/com/teamcity/api/models/comparison/ModelComparisonConfigLoader.java:59-67 | `Class:pairs` gives the trimmed class name and the mappings of the pairs split on `,` |
| `ComparisonConfig.RejectedValues` | src/main/java/com/teamcity/api/models/comparison/ModelComparisonConfigLoader.java:59-62 | a value with no `:`, or one ending in its only `:`, gives no rule |
| `ComparisonConfig.Load` | src/main/java/com/teamcity/api/models/comparison/ModelComparisonConfigLoader.java:58-68 | the loader loop stores exactly `RulesOf(props, keys)` |
| `ComparisonConfig.RuleForLoaded` | src/main/java/com/teamcity/api/models/comparison/ModelComparisonConfigLoader.java:84-86 | `getRuleFor(name)` finds a rule exactly when some key trims to `name` and its value splits into two parts |
| `ComparisonConfig.RuleForLoadedIsLast` | src/main/java/com/teamcity/api/models/comparison/ModelComparisonConfigLoader.java:84-86 | that rule is the one parsed from the last such key's value |

## Left out

- The HTTP layer is left out: the requesters, request and response specifications, and REST Assured. The one hand-off that matters is `RequesterWithS.create` registering the created model. `SuiteCleanup.CleanUpEpisode` models it by taking the server's response to be the submitted model.
- The UI page objects and browser listeners read live browser state and are not part of this model.
- Classpath resource loading and `Properties.load` are I/O through a foreign parser. The loader starts from a key-to-value map, plus the order in which `stringPropertyNames()` yields its keys. The "Config file not found" and `IOException` paths are not modelled.
- `ModelAssertions` only re-reads the configuration and throws on "no rule" or mismatches. It is not part of this model.
- The per-thread `ThreadLocal` instances of the storage and of the test data are left out. The model has one storage and one generation context.
- Java reflection and Lombok are replaced by the shape table. `getDeclaredFields` is assumed to list fields in declaration order.
- `User.java` is not part of this model. Of User's fields only the String `id` is modelled, which the tests read (`getId()`) and the storage registers; it is declared without annotations. User's other fields and their annotations are not modelled, so `UserGenerated` shows only that `id` stays null.
- `RandomData.GetStringOfLength`: it fails only where the result would exceed the longest Java `String` (length below `Integer.MIN_VALUE + 5`). Heap exhaustion for lengths a `String` can hold but memory cannot is not modelled.
- Secure randomness is an oracle. Uniqueness of random strings is probabilistic and is not stated.
- Model instances are immutable values. Mutation of a generated model after generation (a test's `setId`) and aliasing through such mutation are not modelled. Sharing is expressed by equal values with the same identity.
- `Storage.EntityId`: `Objects.toString` of a non-String `id` value is excluded by the `Typed` precondition, because every `id` field of the suite is a String.
- `Storage.TestDataStorage.DeleteCreatedEntities`: the order of ids within one endpoint follows `HashSet` iteration and is left open. A delete that throws mid-drain is not modelled, because the unchecked requester used for cleanup does not throw on HTTP failures.
- `Comparator.GetFieldValue`: the "Cannot access field" path (`IllegalAccessException`) cannot occur after `setAccessible(true)` and is not modelled. Field values are either null or an object given by its `String.valueOf` text.
- `ComparisonConfig.Loader.GetRuleFor` takes the simple class name as a string, since `Class.getSimpleName` is reflection.
- `String.split` is modelled only for a one-character delimiter that is not a regular-expression metacharacter (`:`, `,`, `=`), which are the only delimiters used.
- `String.trim` is modelled on characters. It removes every character up to and including U+0020 from both ends, as Java's does.

## Source behaviour followed

The comments of `TestDataGenerator` (TestDataGenerator.java:65-70 and 89-91) say that a model generated earlier is reused rather than generated anew. The list arm is written to reuse it too: `generatedClass.map(List::of)` at line 136. However, the reuse lookup at lines 108-109 compares each context model's class with `field.getType()`. For a list field that type is `List`, which no model class equals. So a list-of-model field always gets a freshly generated one-element list, even when a model of its element class was generated before. The model follows the code (`GeneratorProperties.FieldOutcome`, `SuiteGeneration.RolesGenerated`).

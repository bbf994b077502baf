# Video game builder model

A Dafny model of the domain core of the Hibernate Search / Elasticsearch demo:
the `VideoGame` entity, its private constructor and its fluent
`VideoGame.Builder`. The builder collects a title, description, rating,
publishing date, publisher, tags and characters; `build` copies them into a new
game that owns fresh copies of the tag and character lists, and then records
the new game in the `appearsIn` back-reference list of every character the game
lists. The three-game fixture that the integration test loads is modelled as a
client of the builder, with the back-references it ends up with.

Files:

- `collections.dfy` (module `Collections`): `ArrayList`, a heap object
  standing for `java.util.ArrayList`, and the sequence functions `Count` and
  `Repeat` with lemmas about them.
- `model.dfy` (module `Model`): `Date`, `Publisher`, `Character`, `VideoGame`
  and `Builder` as classes whose fields the methods update in place.
- `fixture.dfy` (module `Fixture`): the test's data set-up and two clients
  that reuse one builder.

Java `null` is modelled as `None` for the `String` fields and as a nullable
reference (`Date?`, `Publisher?`) for object fields. The rating is a Java
`int`, modelled by the newtype `int32`; nothing computes with it.

## Model

| member | source | states |
|---|---|---|
| `Collections.ArrayList.constructor` | src/main/java/org/hibernate/demos/hswithes/model/VideoGame.java:75-76 | a new list is empty |
| `Collections.ArrayList.AddAll` | src/main/java/org/hibernate/demos/hswithes/model/VideoGame.java:104 | `addAll` appends the given elements, in order, after the existing ones |
| `Model.Character.constructor` | src/test/java/org/hibernate/demos/HibernateSearchWithDbIT.java:58-65 | a new character keeps its name and skill and appears in no game yet |
| `Model.VideoGame.Create` | src/main/java/org/hibernate/demos/hswithes/model/VideoGame.java:49-57 | the game takes every scalar argument as given; its tag and character lists are newly allocated and hold exactly the given lists' contents |
| `Model.VideoGame.GetTitle` | src/main/java/org/hibernate/demos/hswithes/model/VideoGame.java:59-61 | returns the game's title, `None` when none was set |
| `Model.VideoGame.RecordAppearances` | src/main/java/org/hibernate/demos/hswithes/model/VideoGame.java:116-118 | each listed character's `appearsIn` becomes its old list followed by the game once per occurrence of the character; so the game is in it and every earlier entry stays; no other object changes |
| `Model.Builder.constructor` | src/main/java/org/hibernate/demos/hswithes/model/VideoGame.java:70-76 | a new builder holds `null` strings and references, rating 0 and two fresh empty lists |
| `Model.Builder.WithTitle` | src/main/java/org/hibernate/demos/hswithes/model/VideoGame.java:78-81 | sets the title, returns the same builder, leaves the other fields and both lists unchanged |
| `Model.Builder.WithDescription` | src/main/java/org/hibernate/demos/hswithes/model/VideoGame.java:83-86 | sets the description, returns the same builder, leaves the other fields and both lists unchanged |
| `Model.Builder.WithRating` | src/main/java/org/hibernate/demos/hswithes/model/VideoGame.java:88-91 | sets the rating, returns the same builder, leaves the other fields and both lists unchanged |
| `Model.Builder.WithPublishingDate` | src/main/java/org/hibernate/demos/hswithes/model/VideoGame.java:93-96 | sets the publishing date, returns the same builder, leaves the other fields and both lists unchanged |
| `Model.Builder.WithPublisher` | src/main/java/org/hibernate/demos/hswithes/model/VideoGame.java:98-101 | sets the publisher, returns the same builder, leaves the other fields and both lists unchanged |
| `Model.Builder.WithTags` | src/main/java/org/hibernate/demos/hswithes/model/VideoGame.java:103-106 | appends the tags after those given before (calls accumulate), returns the same builder, changes nothing but the builder's tag list |
| `Model.Builder.WithCharacters` | src/main/java/org/hibernate/demos/hswithes/model/VideoGame.java:108-111 | appends the characters after those given before, duplicates kept, returns the same builder, changes nothing but the builder's character list |
| `Model.Builder.Build` | src/main/java/org/hibernate/demos/hswithes/model/VideoGame.java:113-121 | never fails; returns a fresh game with the builder's current scalar values and fresh lists equal to the builder's lists; leaves the builder as it was; every listed character gains the game (once per occurrence) after its earlier entries; only listed characters may change |
| `Fixture.BuildGame` | src/test/java/org/hibernate/demos/HibernateSearchWithDbIT.java:68-76 | a fresh builder given every field once builds a game holding exactly those values; with each character listed once, each gains exactly that game |
| `Fixture.SetUpTestData` | src/test/java/org/hibernate/demos/HibernateSearchWithDbIT.java:52-119 | after the three builds, Luigi and Dash appear in games 1 and 2, Frank in games 2 and 3 (and not in game 1); the games carry the test's titles, ratings, shared publisher, character lists and tags (none for game 3) |
| `Fixture.BuildTwice` | src/main/java/org/hibernate/demos/hswithes/model/VideoGame.java:103-121 | tags and characters given after a build do not reach the game already built; the second build sees everything given so far; unset fields come out as `null`/0; a character listed before both builds appears in both games |
| `Fixture.BuildSameTwice` | src/main/java/org/hibernate/demos/hswithes/model/VideoGame.java:113-121 | building twice without changes gives two distinct games with distinct lists of equal contents, and the listed character appears in both |

## Left out

- The persistence and search plumbing of the integration test (entity manager, transactions, the Elasticsearch client at 127.0.0.1:9300, JSON serialisation) and its full-text query assertions: they depend on external services whose behaviour is not visible here.
- The generated `id`, the persistence annotations and the no-argument `VideoGame()` constructor, which only the persistence framework uses.
- `toString`, a plain string concatenation of the id and title.
- `Character.java` and `Publisher.java` are not part of this model. `Character` is modelled with the two constructor arguments the test passes and an `appearsIn` list that starts empty; `build` appends to it once per occurrence of the character. If the real collection is a set, duplicates collapse, and the membership and "earlier entries stay" statements still hold.
- `java.util.Date` is opaque: it is modelled by the calendar fields the test passes to `GregorianCalendar`, with no time-zone conversion.
- `Model.Builder.Build`: the frame "characters not passed to the builder are untouched" is stated by its `modifies` clause, not by a separate `ensures`.
- Null elements in the varargs of `withTags` and `withCharacters`, and a null varargs array: the model's lists hold non-null strings and non-null characters. With a null character the source would throw a `NullPointerException` part-way through `build`, after earlier characters were updated.
- `Fixture.BuildGame` requires the characters to be distinct, as in every game the test builds; `Model.Builder.Build` itself has no such requirement.

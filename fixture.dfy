/**
 Clients of the builder: the three games the integration test loads before it
 queries them, and a builder reused across two builds.
 */
module Fixture {
  import opened Collections
  import opened Model

  /**
   One chained use of a fresh builder, as the test writes it: every setter
   once, then `build`. The test lists each character of a game once, so each
   of them gains exactly one entry.
   */
  method BuildGame(title: string, description: string, rating: int32, date: Date,
                   publisher: Publisher, cs: seq<Character>, tags: seq<string>)
    returns (game: VideoGame)
    requires Distinct(cs)
    modifies set c | c in cs
    ensures fresh(game)
    ensures game.title == Some(title) && game.description == Some(description)
    ensures game.rating == rating && game.publishingDate == date && game.publisher == publisher
    ensures game.characters.elems == cs && game.tags.elems == tags
    ensures forall c :: c in cs ==> c.appearsIn == old(c.appearsIn) + [game]
  {
    var b := new Builder();
    b := b.WithTitle(Some(title));
    b := b.WithDescription(Some(description));
    b := b.WithRating(rating);
    b := b.WithPublishingDate(date);
    b := b.WithPublisher(publisher);
    b := b.WithCharacters(cs);
    b := b.WithTags(tags);
    game := b.Build();
    forall c | c in cs
      ensures c.appearsIn == old(c.appearsIn) + [game]
    {
      assert b.characters.elems == cs;
      assert c.appearsIn == old(c.appearsIn) + Repeat<VideoGame>(game, Count(cs, c));
      CountDistinct(cs, c);
      assert Repeat<VideoGame>(game, 1) == [game];
    }
  }

  /**
   The test data: three characters and three games built from one publisher.
   Each character's `appearsIn` ends up listing exactly the games built with it,
   in build order.
   */
  method SetUpTestData() returns (luigi: Character, frank: Character, dash: Character,
                                  game1: VideoGame, game2: VideoGame, game3: VideoGame)
    ensures game1.title == Some("Revenge of the Samurai") && game1.rating == 8
    ensures game2.title == Some("Tanaka's return") && game2.rating == 10
    ensures game3.title == Some("Ninja Castle") && game3.rating == 5
    ensures game1.publisher == game2.publisher == game3.publisher != null
    ensures game1.characters.elems == [luigi, dash]
    ensures game2.characters.elems == [frank, dash, luigi]
    ensures game3.characters.elems == [frank]
    ensures game1.tags.elems == ["action", "real-time", "anime"]
    ensures game2.tags.elems == ["action", "round-based"]
    ensures game3.tags.elems == []
    ensures luigi.appearsIn == [game1, game2]
    ensures dash.appearsIn == [game1, game2]
    ensures frank.appearsIn == [game2, game3]
    ensures game1 !in frank.appearsIn
  {
    var samuraiGames := new Publisher("Samurai Games, Inc.", "12 Main Road");

    luigi := new Character("Luigi", "Plumbing");
    frank := new Character("Frank", "Sleeping");
    dash := new Character("Dash", "Running");

    var date := new Date(2005, 11, 5);
    game1 := BuildGame("Revenge of the Samurai", "The Samurai is mad and takes revenge", 8,
                       date, samuraiGames, [luigi, dash], ["action", "real-time", "anime"]);

    date := new Date(2011, 2, 13);
    game2 := BuildGame("Tanaka's return", "The famous Samurai Tanaka returns", 10,
                       date, samuraiGames, [frank, dash, luigi], ["action", "round-based"]);

    // The test gives the third game no tags.
    date := new Date(2007, 3, 7);
    game3 := BuildGame("Ninja Castle", "7 Ninjas live in a castle", 5,
                       date, samuraiGames, [frank], []);
  }

  /**
   One builder, two builds, with more tags and characters given in between.
   The first game keeps the lists it was built with; the second sees
   everything given so far, since building does not reset the builder; and
   the first character, listed for both builds, appears in both games.
   */
  method BuildTwice(first: seq<string>, more: seq<string>)
    returns (early: Character, late: Character, game1: VideoGame, game2: VideoGame)
    ensures game1 != game2 && game1.tags != game2.tags && game1.characters != game2.characters
    ensures game1.tags.elems == first && game2.tags.elems == first + more
    ensures game1.characters.elems == [early] && game2.characters.elems == [early, late]
    ensures game1.title == game2.title == None && game1.description == game2.description == None
    ensures game1.rating == game2.rating == 0
    ensures game1.publishingDate == game2.publishingDate == null
    ensures game1.publisher == game2.publisher == null
    ensures early.appearsIn == [game1, game2] && late.appearsIn == [game2]
  {
    early := new Character("Early", "First");
    late := new Character("Late", "Second");
    var b := new Builder();
    b := b.WithTags(first);
    b := b.WithCharacters([early]);
    game1 := b.Build();
    assert Count([early], early) == 1;
    b := b.WithTags(more);
    b := b.WithCharacters([late]);
    game2 := b.Build();
    assert Count([early, late], early) == 1 && Count([early, late], late) == 1;
  }

  /**
   Building twice with nothing given in between: two distinct games with
   distinct lists of equal contents, and a character listed for both.
   */
  method BuildSameTwice(tags: seq<string>) returns (hero: Character, game1: VideoGame, game2: VideoGame)
    ensures game1 != game2 && game1.tags != game2.tags && game1.characters != game2.characters
    ensures game1.tags.elems == game2.tags.elems == tags
    ensures game1.characters.elems == game2.characters.elems == [hero]
    ensures hero.appearsIn == [game1, game2]
  {
    hero := new Character("Hero", "Brave");
    var b := new Builder();
    b := b.WithTags(tags);
    b := b.WithCharacters([hero]);
    game1 := b.Build();
    assert Count([hero], hero) == 1;
    game2 := b.Build();
  }
}

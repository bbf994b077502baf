/**
 The video game domain model: publishers, characters and video games, and the
 builder through which games are assembled. Building a game copies the
 builder's state into a new game and records the game in the back-reference
 list of every character it lists.
 */
module Model {
  import opened Collections

  /** A Java `String` field, which is `null` until something is assigned to it. */
  datatype Option<T> = None | Some(value: T)

  /** A Java `int`. */
  newtype int32 = x: int | -0x8000_0000 <= x < 0x8000_0000

  /**
   A `java.util.Date`, kept opaque: it is identified by the calendar fields it
   was created from (month counted from 0, as `GregorianCalendar` counts it).
   */
  class Date {
    const year: int
    const month: int
    const dayOfMonth: int

    constructor (year: int, month: int, dayOfMonth: int)
      ensures this.year == year && this.month == month && this.dayOfMonth == dayOfMonth
    {
      this.year := year;
      this.month := month;
      this.dayOfMonth := dayOfMonth;
    }
  }

  /** A publisher, referenced by games and otherwise left alone. */
  class Publisher {
    const name: string
    const address: string

    constructor (name: string, address: string)
      ensures this.name == name && this.address == address
    {
      this.name := name;
      this.address := address;
    }
  }

  /** A character; `appearsIn` lists the games built with it. */
  class Character {
    const name: string
    const skill: string
    var appearsIn: seq<VideoGame>

    constructor (name: string, skill: string)
      ensures this.name == name && this.skill == skill
      ensures appearsIn == []
    {
      this.name := name;
      this.skill := skill;
      appearsIn := [];
    }
  }

  class VideoGame {
    var title: Option<string>
    var description: Option<string>
    var rating: int32
    var publishingDate: Date?
    var publisher: Publisher?
    var tags: ArrayList<string>
    var characters: ArrayList<Character>

    /**
     The constructor the builder calls: scalar fields are taken as given, and
     the two lists are fresh lists filled with copies of the given lists'
     contents.
     */
    constructor Create(title: Option<string>, description: Option<string>, rating: int32,
                       publishingDate: Date?, publisher: Publisher?,
                       characters: ArrayList<Character>, tags: ArrayList<string>)
      ensures this.title == title && this.description == description && this.rating == rating
      ensures this.publishingDate == publishingDate && this.publisher == publisher
      ensures fresh(this.tags) && fresh(this.characters)
      ensures this.tags.elems == tags.elems && this.characters.elems == characters.elems
    {
      this.title := title;
      this.description := description;
      this.rating := rating;
      this.publishingDate := publishingDate;
      this.publisher := publisher;
      this.tags := new ArrayList();
      this.characters := new ArrayList();
      new;
      this.characters.AddAll(characters.elems);
      this.tags.AddAll(tags.elems);
    }

    /** The game's title, `None` when it was never set. */
    method GetTitle() returns (t: Option<string>)
      ensures t == title
    {
      t := title;
    }

    /**
     The loop at the end of `build`: appends this game to the `appearsIn` list
     of each listed character, once per occurrence in the list.
     */
    method RecordAppearances()
      modifies set c | c in characters.elems
      ensures forall c :: c in characters.elems ==>
                c.appearsIn == old(c.appearsIn) + Repeat<VideoGame>(this, Count(characters.elems, c))
      ensures forall c :: c in characters.elems ==>
                this in c.appearsIn && old(c.appearsIn) <= c.appearsIn
    {
      var cs := characters.elems;
      var i := 0;
      while i < |cs|
        invariant 0 <= i <= |cs|
        invariant characters.elems == cs
        invariant forall c :: c in cs ==>
                    c.appearsIn == old(c.appearsIn) + Repeat<VideoGame>(this, Count(cs[..i], c))
        modifies set c | c in cs
      {
        var character := cs[i];
        label Before:
        character.appearsIn := character.appearsIn + [this];
        forall c | c in cs
          ensures c.appearsIn == old(c.appearsIn) + Repeat<VideoGame>(this, Count(cs[..i + 1], c))
        {
          CountPrefixStep(cs, i, c);
          if c == character {
            assert c.appearsIn == old@Before(c.appearsIn) + [this];
          } else {
            assert c.appearsIn == old@Before(c.appearsIn);
          }
        }
        i := i + 1;
      }
      assert cs[..i] == cs;
      forall c | c in cs
        ensures this in c.appearsIn && old(c.appearsIn) <= c.appearsIn
      {
        var n := Count(cs, c);
        assert Repeat<VideoGame>(this, n)[n - 1] == this;
        assert c.appearsIn[|old(c.appearsIn)| + n - 1] == this;
      }
    }
  }

  /**
   `VideoGame.Builder`. The scalar setters overwrite one field each; the list
   setters append to the builder's own lists; `Build` never resets anything.
   */
  class Builder {
    var title: Option<string>
    var description: Option<string>
    var rating: int32
    var publishingDate: Date?
    var publisher: Publisher?
    const tags: ArrayList<string>
    const characters: ArrayList<Character>

    /** A new builder holds Java's field defaults: `null`, `0` and two empty lists. */
    constructor ()
      ensures title == None && description == None && rating == 0
      ensures publishingDate == null && publisher == null
      ensures fresh(tags) && fresh(characters) && tags.elems == [] && characters.elems == []
    {
      title, description, rating := None, None, 0;
      publishingDate, publisher := null, null;
      tags := new ArrayList();
      characters := new ArrayList();
    }

    method WithTitle(title: Option<string>) returns (b: Builder)
      modifies this
      ensures b == this
      ensures this.title == title
      ensures description == old(description) && rating == old(rating)
      ensures publishingDate == old(publishingDate) && publisher == old(publisher)
    {
      this.title := title;
      b := this;
    }

    method WithDescription(description: Option<string>) returns (b: Builder)
      modifies this
      ensures b == this
      ensures this.description == description
      ensures title == old(title) && rating == old(rating)
      ensures publishingDate == old(publishingDate) && publisher == old(publisher)
    {
      this.description := description;
      b := this;
    }

    method WithRating(rating: int32) returns (b: Builder)
      modifies this
      ensures b == this
      ensures this.rating == rating
      ensures title == old(title) && description == old(description)
      ensures publishingDate == old(publishingDate) && publisher == old(publisher)
    {
      this.rating := rating;
      b := this;
    }

    method WithPublishingDate(publishingDate: Date?) returns (b: Builder)
      modifies this
      ensures b == this
      ensures this.publishingDate == publishingDate
      ensures title == old(title) && description == old(description)
      ensures rating == old(rating) && publisher == old(publisher)
    {
      this.publishingDate := publishingDate;
      b := this;
    }

    method WithPublisher(publisher: Publisher?) returns (b: Builder)
      modifies this
      ensures b == this
      ensures this.publisher == publisher
      ensures title == old(title) && description == old(description)
      ensures rating == old(rating) && publishingDate == old(publishingDate)
    {
      this.publisher := publisher;
      b := this;
    }

    /** Appends `ts` to the tags given so far; earlier tags stay. */
    method WithTags(ts: seq<string>) returns (b: Builder)
      modifies tags
      ensures b == this
      ensures tags.elems == old(tags.elems) + ts
    {
      tags.AddAll(ts);
      b := this;
    }

    /** Appends `cs` to the characters given so far; earlier ones and duplicates stay. */
    method WithCharacters(cs: seq<Character>) returns (b: Builder)
      modifies characters
      ensures b == this
      ensures characters.elems == old(characters.elems) + cs
    {
      characters.AddAll(cs);
      b := this;
    }

    /**
     Builds a new game from the builder's current state, then appends the game
     to the `appearsIn` list of each of its characters, once per time the
     character occurs in the game's list. Only those characters change.
     */
    method Build() returns (game: VideoGame)
      modifies set c | c in characters.elems
      ensures tags.elems == old(tags.elems) && characters.elems == old(characters.elems)
      ensures fresh(game) && fresh(game.tags) && fresh(game.characters)
      ensures game.title == title && game.description == description && game.rating == rating
      ensures game.publishingDate == publishingDate && game.publisher == publisher
      ensures game.tags.elems == tags.elems && game.characters.elems == characters.elems
      ensures forall c :: c in characters.elems ==>
                c.appearsIn == old(c.appearsIn) + Repeat<VideoGame>(game, Count(characters.elems, c))
      ensures forall c :: c in characters.elems ==>
                game in c.appearsIn && old(c.appearsIn) <= c.appearsIn
    {
      game := new VideoGame.Create(title, description, rating, publishingDate, publisher, characters, tags);
      game.RecordAppearances();
    }
  }
}

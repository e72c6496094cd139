/** Concrete documents run through the tree semantics (and so, by
    `Documents.ElementEventsBuild`, through the parser): the artist and alias
    behaviours the library's tests pin down, and the edge cases of the
    construction rules. */
module Scenarios {

  import opened Wrappers
  import opened Values
  import opened Schema
  import opened Coercers
  import opened Records
  import opened StreamParser
  import opened Documents

  function Leaf(tag: string, text: string): Xml
  {
    Element(tag, map[], [Text(text)])
  }

  /** An artist with two attributes and a name: the attributes and the name
      are fields of the one record. */
  lemma ArtistWithName()
    ensures Build(Entity(Artist), Element("artist", map["id" := "X", "type" := "Person"], [Leaf("name", "Foo")]))
      == Ok(Rec(map["id" := Str("X"), "type" := Str("Person"), "name" := Str("Foo")]))
  {
    var attrs := map["id" := "X", "type" := "Person"];
    var childs := map["name" := [Str("Foo")]];
    ArtistNameGathered(attrs);
    assert EntityFields(attrs, childs) == map["id" := Str("X"), "type" := Str("Person"), "name" := Str("Foo")];
  }

  /** The content of an artist element holding a name gathers to that name. */
  lemma ArtistNameGathered(attrs: map<string, string>)
    ensures Gather(Entity(Artist), Element("artist", attrs, [Leaf("name", "Foo")]), 0, map[], None)
      == Ok((map["name" := [Str("Foo")]], None))
  {
    var x := Element("artist", attrs, [Leaf("name", "Foo")]);
    var childs := map["name" := [Str("Foo")]];
    assert Normalize("name") == "name";
    assert Lookup(Entity(Artist), "name") == Some(StrField) by {
      assert "name" in EntityMapping(Artist);
    }
    assert Build(StrField, Leaf("name", "Foo")) == Ok(Str("Foo")) by {
      assert Gather(StrField, Leaf("name", "Foo"), 1, map[], Some("Foo")) == Ok((map[], Some("Foo")));
    }
    assert Appended(map[], "name", Str("Foo")) == childs by {
      assert [] + [Str("Foo")] == [Str("Foo")];
    }
    assert Gather(Entity(Artist), x, 1, childs, None) == Ok((childs, None));
  }

  /** The aliases of an alias list keep their document order. */
  lemma AliasListOrder()
    ensures Build(AliasList, Element("alias-list", map[], [Leaf("alias", "A1"), Leaf("alias", "A2")]))
      == Ok(Rec(map["data" := List([Rec(map["data" := Str("A1")]), Rec(map["data" := Str("A2")])])]))
  {
    var x := Element("alias-list", map[], [Leaf("alias", "A1"), Leaf("alias", "A2")]);
    assert Normalize("alias") == "alias";
    assert Lookup(AliasList, "alias") == Some(Child(Alias));
    assert Gather(Child(Alias), Leaf("alias", "A1"), 0, map[], None) == Ok((map[], Some("A1")));
    assert Gather(Child(Alias), Leaf("alias", "A2"), 0, map[], None) == Ok((map[], Some("A2")));
    var a1 := Rec(map["data" := Str("A1")]);
    var a2 := Rec(map["data" := Str("A2")]);
    assert Build(Child(Alias), Leaf("alias", "A1")) == Ok(a1);
    assert Build(Child(Alias), Leaf("alias", "A2")) == Ok(a2);
    var c1 := map["alias" := [a1]];
    var c2 := map["alias" := [a1, a2]];
    assert [] + [a1] == [a1] && [a1] + [a2] == [a1, a2];
    assert Appended(map[], "alias", a1) == c1;
    assert Appended(c1, "alias", a2) == c2;
    assert Gather(AliasList, x, 2, c2, None) == Ok((c2, None));
    assert Gather(AliasList, x, 1, c1, None) == Ok((c2, None));
    assert Gather(AliasList, x, 0, map[], None) == Ok((c2, None));
  }

  /** An alias list with no alias still has a (empty) list. */
  lemma EmptyAliasList()
    ensures Build(AliasList, Element("alias-list", map["count" := "0"], []))
      == Ok(Rec(map["count" := Str("0"), "data" := List([])]))
  {
    assert AttrFields(map["count" := "0"]) == map["count" := Str("0")];
  }

  /** A tag the enclosing kind does not declare aborts the construction. */
  lemma UnknownTagUnderArtist()
    ensures Build(Entity(Artist), Element("artist", map[], [Leaf("bogus-field", "x")])).Failed?
  {
    assert Normalize("bogus-field") == "bogus-field";
    assert Lookup(Entity(Artist), "bogus-field") == None by {
      assert "bogus-field" !in EntityMapping(Artist);
    }
  }

  /** A relation's direction is one of the three members; other text aborts. */
  lemma RelationDirection()
    ensures Build(Record(Relation), Element("relation", map[], [Leaf("direction", "both")]))
      == Ok(Rec(map["direction" := Dir(Both)]))
    ensures Build(Record(Relation), Element("relation", map[], [Leaf("direction", "sideways")])).Failed?
  {
    RelationDirectionGathered("both");
    var childs := map["direction" := [Dir(Both)]];
    assert RecordFields(map[], childs) == map["direction" := Dir(Both)];
    RelationDirectionGathered("sideways");
  }

  /** The content of a relation holding one direction gathers to the coerced
      direction, or fails with the coercion. */
  lemma RelationDirectionGathered(text: string)
    ensures Gather(Record(Relation), Element("relation", map[], [Leaf("direction", text)]), 0, map[], None)
      == (match CoerceDirection(Some(text))
          case Ok(v) => Ok((map["direction" := [v]], None))
          case Failed => Failed)
  {
    var x := Element("relation", map[], [Leaf("direction", text)]);
    assert Normalize("direction") == "direction";
    assert Lookup(Record(Relation), "direction") == Some(DirectionField) by {
      assert "direction" in RecordMapping(Relation);
    }
    assert Build(DirectionField, Leaf("direction", text)) == CoerceDirection(Some(text)) by {
      assert Gather(DirectionField, Leaf("direction", text), 1, map[], Some(text)) == Ok((map[], Some(text)));
    }
    if CoerceDirection(Some(text)).Ok? {
      var v := CoerceDirection(Some(text)).value;
      assert Appended(map[], "direction", v) == map["direction" := [v]] by {
        assert [] + [v] == [v];
      }
      assert Gather(Record(Relation), x, 1, map["direction" := [v]], None) == Ok((map["direction" := [v]], None));
    }
  }

  /** An empty string leaf yields None, while an empty integer leaf aborts. */
  lemma EmptyLeaves()
    ensures Build(StrField, Element("name", map[], [])) == Ok(Null)
    ensures Build(IntField, Element("length", map[], [])).Failed?
  {
  }
}

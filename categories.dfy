/**
 * `serialize_categories`: the id-ordered category rows folded into the
 * dictionary that GET /categories returns under the key "categories".
 * The dictionary keys are `str(id)`; since `str` is injective on integers,
 * they are modelled by the ids themselves.
 */
module Categories {

  /** A Category row: its primary key and its `type` text label (here `kind`). */
  datatype Category = Category(id: int, kind: string)

  /**
   * The dictionary after `update({str(c.id): c.type})` for each category in
   * order: a later row with the same id overwrites an earlier one.
   */
  function CategoryMap(cats: seq<Category>): map<int, string>
  {
    if cats == [] then map[]
    else
      var last := cats[|cats| - 1];
      CategoryMap(cats[..|cats| - 1])[last.id := last.kind]
  }

  /** Rows with pairwise distinct ids, as primary keys are. */
  predicate DistinctIds(cats: seq<Category>)
  {
    forall i, j :: 0 <= i < j < |cats| ==> cats[i].id != cats[j].id
  }

  /** The ids that occur in the rows. */
  function Ids(cats: seq<Category>): set<int>
  {
    set i | 0 <= i < |cats| :: cats[i].id
  }

  /** The keys are exactly the ids that occur in the rows. */
  lemma {:induction false} CategoryMapKeys(cats: seq<Category>)
    ensures CategoryMap(cats).Keys == Ids(cats)
  {
    if cats != [] {
      var init := cats[..|cats| - 1];
      CategoryMapKeys(init);
      var last := |cats| - 1;
      assert Ids(cats) == Ids(init) + {cats[last].id} by {
        forall x | x in Ids(cats) ensures x in Ids(init) + {cats[last].id} {
          var i :| 0 <= i < |cats| && cats[i].id == x;
          if i < last { assert init[i] == cats[i]; }
        }
        forall x | x in Ids(init) ensures x in Ids(cats) {
          var i :| 0 <= i < |init| && init[i].id == x;
          assert cats[i] == init[i];
        }
      }
    }
  }

  /** Each id maps to the `kind` of the last row that carries it. */
  lemma {:induction false} CategoryMapLastWins(cats: seq<Category>, i: int)
    requires 0 <= i < |cats|
    requires forall j :: i < j < |cats| ==> cats[j].id != cats[i].id
    ensures cats[i].id in CategoryMap(cats)
    ensures CategoryMap(cats)[cats[i].id] == cats[i].kind
  {
    var init := cats[..|cats| - 1];
    if i < |cats| - 1 {
      forall j | i < j < |init| ensures init[j].id != init[i].id {
        assert init[j] == cats[j] && init[i] == cats[i];
      }
      CategoryMapLastWins(init, i);
      assert init[i] == cats[i];
    }
  }

  /** Every value in the dictionary is the `kind` of some row with that id. */
  lemma {:induction false} CategoryMapValuesFromRows(cats: seq<Category>, id: int)
    requires id in CategoryMap(cats)
    ensures exists i :: 0 <= i < |cats| && cats[i].id == id && cats[i].kind == CategoryMap(cats)[id]
  {
    var init := cats[..|cats| - 1];
    var last := |cats| - 1;
    if cats[last].id != id {
      CategoryMapValuesFromRows(init, id);
      var i :| 0 <= i < |init| && init[i].id == id && init[i].kind == CategoryMap(init)[id];
      assert cats[i] == init[i];
    }
  }

  /** With distinct ids there is one key per row. */
  lemma {:induction false} CategoryMapSize(cats: seq<Category>)
    requires DistinctIds(cats)
    ensures |CategoryMap(cats)| == |cats|
  {
    if cats != [] {
      var init := cats[..|cats| - 1];
      var last := cats[|cats| - 1];
      assert DistinctIds(init) by {
        forall i, j | 0 <= i < j < |init| ensures init[i].id != init[j].id {
          assert init[i] == cats[i] && init[j] == cats[j];
        }
      }
      CategoryMapSize(init);
      CategoryMapKeys(init);
      assert last.id !in CategoryMap(init);
    }
  }

  /** `serialize_categories(query)` on the rows the id-ordered query returns. */
  method SerializeCategories(cats: seq<Category>) returns (serialized: map<int, string>)
    ensures serialized == CategoryMap(cats)
  {
    serialized := map[];
    if |cats| > 0 {
      for i := 0 to |cats|
        invariant serialized == CategoryMap(cats[..i])
      {
        assert cats[..i + 1][..i] == cats[..i];
        serialized := serialized[cats[i].id := cats[i].kind];
      }
      assert cats[..|cats|] == cats;
    }
  }
}

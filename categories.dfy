/** `processCategories`: one request to `/categories`; the names are upserted
    in one statement, then each parent's children are pointed at it one
    `UPDATE` at a time. Errors are logged and swallowed. */
module Categories {
  import opened Wrappers
  import opened Upsert
  import opened Schema
  import opened Fetch

  const ProcessName := "processCategories"

  /** The parts of an Up `CategoryResource` the processor reads: its id,
      its name and the ids of its children. */
  datatype CategoryResource = CategoryResource(id: CategoryId, name: string, children: seq<CategoryId>)

  function CategoryKey(c: CategoryResource): string
  {
    c.id
  }

  /** Phase one, row by row: an existing category gets the new name and
      keeps its parent; a new one has no parent. */
  function WithNames(m: map<CategoryId, CategoryRow>, cats: seq<CategoryResource>): map<CategoryId, CategoryRow>
    decreases |cats|
  {
    if cats == [] then m
    else
      var p := WithNames(m, cats[..|cats| - 1]);
      var c := cats[|cats| - 1];
      p[c.id := if c.id in p then p[c.id].(name := c.name) else CategoryRow(c.name, None)]
  }

  /** The `INSERT … ON CONFLICT (category_id) DO UPDATE SET category_name`. */
  function UpsertCategoryNames(m: map<CategoryId, CategoryRow>, cats: seq<CategoryResource>): (r: Result<map<CategoryId, CategoryRow>>)
    ensures r.Ok? <==> cats != [] && DistinctKeys(cats, CategoryKey)
  {
    if cats == [] then Err(EmptyValues)
    else if !DistinctKeys(cats, CategoryKey) then Err(AffectsRowTwice)
    else Ok(WithNames(m, cats))
  }

  /** The parent phase two leaves on `c`: the last category of the listing
      whose children include `c`, if any. */
  function LastParentOf(cats: seq<CategoryResource>, c: CategoryId): (r: Option<CategoryId>)
    ensures r.Some? <==> exists i :: 0 <= i < |cats| && c in cats[i].children
    ensures r.Some? ==> exists i :: 0 <= i < |cats| && c in cats[i].children && cats[i].id == r.value &&
                                    forall j :: i < j < |cats| ==> c !in cats[j].children
    decreases |cats|
  {
    if cats == [] then None
    else
      var last := cats[|cats| - 1];
      var p := LastParentOf(cats[..|cats| - 1], c);
      assert forall i :: 0 <= i < |cats| - 1 ==> cats[..|cats| - 1][i] == cats[i];
      if c in last.children then Some(last.id) else p
  }

  /** Phase two as a whole: every category listed as somebody's child gets
      its last parent; the others keep theirs. */
  function WithParents(m: map<CategoryId, CategoryRow>, cats: seq<CategoryResource>): map<CategoryId, CategoryRow>
  {
    map c | c in m :: if LastParentOf(cats, c).Some? then m[c].(parentId := LastParentOf(cats, c)) else m[c]
  }

  /** The `UPDATE`s for one parent's children, as far as `children` goes. */
  function WithParent(m: map<CategoryId, CategoryRow>, parent: CategoryId, children: seq<CategoryId>): map<CategoryId, CategoryRow>
  {
    map c | c in m :: if c in children then m[c].(parentId := Some(parent)) else m[c]
  }

  /** `upsertCategories`: phase one, then the nested loop over the parents
      and their children. A child that is not in the table is updated
      nowhere; an update whose `WHERE` finds the parent already set writes
      nothing. */
  method UpsertCategories(m: map<CategoryId, CategoryRow>, cats: seq<CategoryResource>)
    returns (r: Result<map<CategoryId, CategoryRow>>)
    ensures r.Ok? <==> cats != [] && DistinctKeys(cats, CategoryKey)
    ensures r.Ok? ==> r.value == WithParents(WithNames(m, cats), cats)
  {
    var named := UpsertCategoryNames(m, cats);
    if named.Err? {
      return named;
    }
    var cur := named.value;
    var i := 0;
    while i < |cats|
      invariant 0 <= i <= |cats|
      invariant cur == WithParents(named.value, cats[..i])
    {
      cur := UpdateChildren(cur, cats[i].id, cats[i].children);
      WithParentsStep(named.value, cats[..i], cats[i]);
      assert cats[..i + 1] == cats[..i] + [cats[i]];
      i := i + 1;
    }
    assert cats[..i] == cats;
    r := Ok(cur);
  }

  /** The inner loop: one `UPDATE` per child of `parent`. */
  method UpdateChildren(m: map<CategoryId, CategoryRow>, parent: CategoryId, children: seq<CategoryId>)
    returns (r: map<CategoryId, CategoryRow>)
    ensures r == WithParent(m, parent, children)
  {
    r := m;
    var j := 0;
    while j < |children|
      invariant 0 <= j <= |children|
      invariant r == WithParent(m, parent, children[..j])
    {
      var child := children[j];
      assert children[..j + 1] == children[..j] + [child];
      if child in r && r[child].parentId != Some(parent) {
        r := r[child := r[child].(parentId := Some(parent))];
      }
      j := j + 1;
    }
    assert children[..j] == children;
  }

  lemma WithParentsStep(m: map<CategoryId, CategoryRow>, cats: seq<CategoryResource>, c: CategoryResource)
    ensures WithParents(m, cats + [c]) == WithParent(WithParents(m, cats), c.id, c.children)
  {
    assert (cats + [c])[..|cats|] == cats;
  }

  /** The table `upsertCategories` leaves, when it succeeds. */
  function Categorised(m: map<CategoryId, CategoryRow>, cats: seq<CategoryResource>): map<CategoryId, CategoryRow>
  {
    WithParents(WithNames(m, cats), cats)
  }

  /** `processCategories`: nothing happens when the request fails, the
      body has no `data`, or the statement is refused. */
  method ProcessCategories(s: Store, first: Option<Envelope<CategoryResource>>) returns (r: Store)
    ensures first.Some? && first.value.data.Some? && first.value.data.value != [] && DistinctKeys(first.value.data.value, CategoryKey)
      ==> r == s.(categories := Categorised(s.categories, first.value.data.value))
    ensures !(first.Some? && first.value.data.Some? && first.value.data.value != [] && DistinctKeys(first.value.data.value, CategoryKey))
      ==> r == s
  {
    r := s;
    if first.Some? && first.value.data.Some? {
      var u := UpsertCategories(s.categories, first.value.data.value);
      if u.Ok? {
        r := s.(categories := u.value);
      }
    }
  }

  // ---------------------------------------------------------------------
  // Properties

  function Ids(cats: seq<CategoryResource>): set<CategoryId>
  {
    set i | 0 <= i < |cats| :: cats[i].id
  }

  /** Phase one adds exactly the listed ids. */
  lemma {:induction false} WithNamesKeys(m: map<CategoryId, CategoryRow>, cats: seq<CategoryResource>)
    ensures WithNames(m, cats).Keys == m.Keys + Ids(cats)
    decreases |cats|
  {
    if cats != [] {
      var p := cats[..|cats| - 1];
      WithNamesKeys(m, p);
      assert forall i :: 0 <= i < |p| ==> p[i] == cats[i];
      assert Ids(cats) == Ids(p) + {cats[|cats| - 1].id};
    }
  }

  lemma {:induction false} WithNamesUnlisted(m: map<CategoryId, CategoryRow>, cats: seq<CategoryResource>, c: CategoryId)
    requires c in m && c !in Ids(cats)
    ensures c in WithNames(m, cats) && WithNames(m, cats)[c] == m[c]
    decreases |cats|
  {
    if cats != [] {
      var p := cats[..|cats| - 1];
      assert forall i :: 0 <= i < |p| ==> p[i] == cats[i];
      assert c != cats[|cats| - 1].id && c !in Ids(p);
      WithNamesUnlisted(m, p, c);
    }
  }

  lemma {:induction false} WithNamesParents(m: map<CategoryId, CategoryRow>, cats: seq<CategoryResource>, c: CategoryId)
    requires c in WithNames(m, cats)
    ensures WithNames(m, cats)[c].parentId == (if c in m then m[c].parentId else None)
    decreases |cats|
  {
    if cats != [] {
      var p := cats[..|cats| - 1];
      var x := cats[|cats| - 1];
      WithNamesKeys(m, p);
      if c in WithNames(m, p) {
        WithNamesParents(m, p, c);
      } else {
        assert c == x.id && c !in m;
      }
    }
  }

  lemma {:induction false} WithNamesNames(m: map<CategoryId, CategoryRow>, cats: seq<CategoryResource>, i: nat)
    requires DistinctKeys(cats, CategoryKey) && i < |cats|
    ensures cats[i].id in WithNames(m, cats) && WithNames(m, cats)[cats[i].id].name == cats[i].name
    decreases |cats|
  {
    var p := cats[..|cats| - 1];
    if i < |p| {
      assert forall k :: 0 <= k < |p| ==> p[k] == cats[k];
      assert DistinctKeys(p, CategoryKey);
      assert CategoryKey(cats[i]) != CategoryKey(cats[|cats| - 1]);
      WithNamesNames(m, p, i);
    }
  }

  /** Phase one: the listed ids are added; each listed category has its
      listed name; parents are kept, and a new row has none; a category
      the listing leaves out is untouched. */
  lemma WithNamesEffect(m: map<CategoryId, CategoryRow>, cats: seq<CategoryResource>)
    requires DistinctKeys(cats, CategoryKey)
    ensures var r := WithNames(m, cats);
      && r.Keys == m.Keys + Ids(cats)
      && (forall c :: c in m && c !in Ids(cats) ==> r[c] == m[c])
      && (forall c :: c in m ==> r[c].parentId == m[c].parentId)
      && (forall c :: c in r && c !in m ==> r[c].parentId.None?)
      && (forall i :: 0 <= i < |cats| ==> r[cats[i].id].name == cats[i].name)
  {
    var r := WithNames(m, cats);
    WithNamesKeys(m, cats);
    forall c | c in m && c !in Ids(cats) ensures r[c] == m[c] {
      WithNamesUnlisted(m, cats, c);
    }
    forall c | c in r ensures r[c].parentId == (if c in m then m[c].parentId else None) {
      WithNamesParents(m, cats, c);
    }
    forall i | 0 <= i < |cats| ensures r[cats[i].id].name == cats[i].name {
      WithNamesNames(m, cats, i);
    }
  }

  /** After `upsertCategories` succeeds: no category is lost; every listed
      category has its listed name; a category listed as a child has the
      last parent that lists it; any other keeps its parent (none, if it is
      new); and categories the listing does not mention are untouched. */
  lemma CategorisedEffect(m: map<CategoryId, CategoryRow>, cats: seq<CategoryResource>)
    requires DistinctKeys(cats, CategoryKey)
    ensures var r := Categorised(m, cats);
      && r.Keys == m.Keys + Ids(cats)
      && (forall i :: 0 <= i < |cats| ==> r[cats[i].id].name == cats[i].name)
      && (forall c :: c in r ==>
            r[c].parentId == (if LastParentOf(cats, c).Some? then LastParentOf(cats, c)
                              else if c in m then m[c].parentId else None))
      && (forall c :: c in m && c !in Ids(cats) && LastParentOf(cats, c).None? ==> r[c] == m[c])
  {
    WithNamesEffect(m, cats);
  }

  /** Every parent phase two writes is a listed category, so a valid
      category table stays valid. */
  lemma CategorisedValid(s: Store, cats: seq<CategoryResource>)
    requires Valid(s)
    requires DistinctKeys(cats, CategoryKey)
    ensures Valid(s.(categories := Categorised(s.categories, cats)))
  {
    var r := Categorised(s.categories, cats);
    CategorisedEffect(s.categories, cats);
    forall c | c in r && r[c].parentId.Some? ensures r[c].parentId.value in r {
      if LastParentOf(cats, c).Some? {
        var i :| 0 <= i < |cats| && c in cats[i].children && cats[i].id == LastParentOf(cats, c).value &&
                 forall j :: i < j < |cats| ==> c !in cats[j].children;
        assert cats[i].id in Ids(cats);
      }
    }
    var t := s.(categories := r);
    assert AccountIds(t) == AccountIds(s) && TransactionIds(t) == TransactionIds(s);
  }

  /** Running `upsertCategories` twice on the same listing leaves the same
      table as running it once. */
  lemma CategorisedIdempotent(m: map<CategoryId, CategoryRow>, cats: seq<CategoryResource>)
    requires DistinctKeys(cats, CategoryKey)
    ensures Categorised(Categorised(m, cats), cats) == Categorised(m, cats)
  {
    var once := Categorised(m, cats);
    var twice := Categorised(once, cats);
    CategorisedEffect(m, cats);
    CategorisedEffect(once, cats);
    assert twice.Keys == once.Keys;
    forall c | c in once ensures twice[c] == once[c] {
      if c in Ids(cats) {
        var i :| 0 <= i < |cats| && cats[i].id == c;
        assert twice[c].name == once[c].name;
      } else {
        WithNamesEffect(m, cats);
        WithNamesEffect(once, cats);
      }
    }
  }
}

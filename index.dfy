/**
 * The name-to-template indices the engine builds from its two catalogs. Entries are
 * inserted in catalog order into an initially empty map, so when two entries share
 * a name the later one wins.
 */
module TemplateIndex {
  import opened Chi

  /** Some entry of `catalog` is named `name`. */
  predicate Declares<S>(catalog: seq<Template<S>>, name: string)
  {
    exists i :: 0 <= i < |catalog| && catalog[i].name == name
  }

  /** Position of the last entry of `catalog` named `name`, or -1 when there is none. */
  function LastDeclared<S>(catalog: seq<Template<S>>, name: string): (k: int)
    ensures -1 <= k < |catalog|
    ensures k >= 0 ==> catalog[k].name == name
    ensures forall j :: k < j < |catalog| ==> catalog[j].name != name
  {
    if catalog == [] then -1
    else if catalog[|catalog| - 1].name == name then |catalog| - 1
    else LastDeclared(catalog[..|catalog| - 1], name)
  }

  /** The map left behind by inserting the entries of `catalog`, in order, into an empty map. */
  function Index<S>(catalog: seq<Template<S>>): (index: map<string, Template<S>>)
    ensures forall name :: name in index ==> index[name].name == name && index[name] in catalog
  {
    if catalog == [] then map[]
    else
      var last := catalog[|catalog| - 1];
      Index(catalog[..|catalog| - 1])[last.name := last]
  }

  /**
   * A name is in the index exactly when the catalog declares it, and then it maps to
   * the LAST catalog entry carrying that name.
   */
  lemma {:induction false} IndexLookup<S>(catalog: seq<Template<S>>, name: string)
    ensures name in Index(catalog) <==> Declares(catalog, name)
    ensures Declares(catalog, name) <==> LastDeclared(catalog, name) >= 0
    ensures name in Index(catalog) ==> Index(catalog)[name] == catalog[LastDeclared(catalog, name)]
  {
    if catalog != [] {
      var init := catalog[..|catalog| - 1];
      IndexLookup(init, name);
      if catalog[|catalog| - 1].name != name {
        if Declares(catalog, name) {
          var i :| 0 <= i < |catalog| && catalog[i].name == name;
          assert init[i].name == name;
        }
        if Declares(init, name) {
          var i :| 0 <= i < |init| && init[i].name == name;
          assert catalog[i].name == name;
        }
      }
    }
  }

  /** Inserting one more entry extends the index of the prefix: the step of the index-building loop. */
  lemma IndexStep<S>(catalog: seq<Template<S>>, i: int)
    requires 0 <= i < |catalog|
    ensures Index(catalog[..i + 1]) == Index(catalog[..i])[catalog[i].name := catalog[i]]
  {
    assert catalog[..i + 1][..i] == catalog[..i];
  }
}

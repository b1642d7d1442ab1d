/**
 * Config bundles: maps from file name to rendered content. Sections are added only
 * when their content is non-empty, and the operator's extra files are applied after
 * the generated ones, so a non-empty extra file replaces a generated file of the
 * same name.
 */
module ConfigSections {

  type Sections = map<string, string>

  /** Every file of the bundle has some content. */
  predicate AllNonEmpty(sections: Sections)
  {
    forall f :: f in sections ==> sections[f] != ""
  }

  /** Adds `filename` with `content` to the bundle, unless the content is empty. */
  function IncludeNonEmpty(sections: Sections, filename: string, content: string): (r: Sections)
    ensures AllNonEmpty(sections) ==> AllNonEmpty(r)
    ensures content == "" ==> r == sections
    ensures content != "" ==> filename in r && r[filename] == content
    ensures forall f :: f != filename ==> (f in r <==> f in sections) && (f in r ==> r[f] == sections[f])
  {
    if content == "" then sections else sections[filename := content]
  }

  /** The entries of `extras` whose content is non-empty. */
  function NonEmptyEntries(extras: Sections): (r: Sections)
    ensures AllNonEmpty(r)
    ensures forall f :: f in r <==> f in extras && extras[f] != ""
    ensures forall f :: f in r ==> r[f] == extras[f]
  {
    map f | f in extras && extras[f] != "" :: extras[f]
  }

  /**
   * The bundle after every extra file has gone through IncludeNonEmpty, in any order:
   * non-empty extra files replace or add entries, everything else is kept.
   */
  function WithExtras(sections: Sections, extras: Sections): (r: Sections)
    ensures AllNonEmpty(sections) ==> AllNonEmpty(r)
    ensures forall f :: f in extras && extras[f] != "" ==> f in r && r[f] == extras[f]
    ensures forall f :: f !in extras || extras[f] == "" ==>
      (f in r <==> f in sections) && (f in r ==> r[f] == sections[f])
  {
    sections + NonEmptyEntries(extras)
  }

  /** Including one more pending extra file extends the bundle built from the files already done. */
  lemma ExtrasStep(sections: Sections, extras: Sections, pending: set<string>, filename: string)
    requires filename in pending && pending <= extras.Keys
    ensures IncludeNonEmpty(sections + NonEmptyEntries(extras - pending), filename, extras[filename])
         == sections + NonEmptyEntries(extras - (pending - {filename}))
  {
    var before := sections + NonEmptyEntries(extras - pending);
    var after := sections + NonEmptyEntries(extras - (pending - {filename}));
    var r := IncludeNonEmpty(before, filename, extras[filename]);
    forall f | f != filename
      ensures (f in r <==> f in after) && (f in r ==> r[f] == after[f])
    {
      assert f in extras - pending <==> f in extras - (pending - {filename});
    }
    assert filename in r <==> filename in after;
    assert r.Keys == after.Keys;
  }

  /**
   * The loop over a map of extra files. The keys are taken in an arbitrary order, as
   * ranging over a map does; the result does not depend on that order.
   */
  method IncludeExtras(sections: Sections, extras: Sections) returns (r: Sections)
    ensures r == WithExtras(sections, extras)
  {
    r := sections;
    var pending := extras.Keys;
    while pending != {}
      invariant pending <= extras.Keys
      invariant r == sections + NonEmptyEntries(extras - pending)
      decreases pending
    {
      var filename :| filename in pending;
      ExtrasStep(sections, extras, pending, filename);
      r := IncludeNonEmpty(r, filename, extras[filename]);
      pending := pending - {filename};
    }
    assert extras - {} == extras;
  }
}

/** Capability catalogs of dccex/capabilities/catalog.go, with their slices and maps as heap
    objects that others may hold and change. A null array or map stands for a nil one. */
module Catalogs {
  import opened Results
  import opened Settings

  /** A map of descriptive metadata. */
  class Details {
    var entries: map<Text, Text>

    constructor (entries: map<Text, Text>)
      ensures this.entries == entries
    {
      this.entries := entries;
    }
  }

  datatype Feature = Feature(id: Text, versions: array?<nat>, description: Text, details: Details?)

  datatype Catalog = Catalog(schema: nat, features: array?<Feature>)

  const NO_CATALOG := Catalog(0, null)

  /** What a feature says: nil and empty are different. */
  datatype Advert = Advert(id: Text, versions: Option<seq<nat>>, description: Text, details: Option<map<Text, Text>>)

  datatype Listing = Listing(schema: nat, adverts: Option<seq<Advert>>)

  const NO_LISTING := Listing(0, None)

  function PartsOf(f: Feature): set<object> {
    (if f.versions == null then {} else {f.versions}) + (if f.details == null then {} else {f.details})
  }

  ghost function AllParts(fs: seq<Feature>): set<object> {
    set i, o | 0 <= i < |fs| && o in PartsOf(fs[i]) :: o
  }

  /** Every object through which a catalog can be changed. */
  ghost function Footprint(c: Catalog): set<object>
    reads c.features
  {
    if c.features == null then {} else {c.features} + AllParts(c.features[..])
  }

  ghost function AdvertOf(f: Feature): Advert
    reads PartsOf(f)
  {
    Advert(f.id,
           if f.versions == null then None else Some(f.versions[..]),
           f.description,
           if f.details == null then None else Some(f.details.entries))
  }

  ghost function AdvertsOf(fs: seq<Feature>): (adverts: seq<Advert>)
    reads AllParts(fs)
    ensures |adverts| == |fs| && forall i | 0 <= i < |fs| :: adverts[i] == AdvertOf(fs[i])
  {
    if fs == [] then []
    else
      var n := |fs| - 1;
      PartsOfPrefix(fs);
      AdvertsOf(fs[..n]) + [AdvertOf(fs[n])]
  }

  lemma PartsOfPrefix(fs: seq<Feature>)
    requires fs != []
    ensures AllParts(fs[..|fs| - 1]) <= AllParts(fs) && PartsOf(fs[|fs| - 1]) <= AllParts(fs)
  {
  }

  ghost function ListingOf(c: Catalog): Listing
    reads c.features, Footprint(c)
  {
    Listing(c.schema, if c.features == null then None else Some(AdvertsOf(c.features[..])))
  }

  /** Allocation alone changes nothing that a catalog says. */
  twostate lemma ListingUnchanged(c: Catalog)
    requires c.features != null ==> unchanged(c.features)
    requires forall o: object | o in old(Footprint(c)) :: unchanged(o)
    ensures ListingOf(c) == old(ListingOf(c))
  {
  }

  // ----------------------------------------------------------------- validation

  predicate Distinct(versions: seq<nat>) {
    forall i, j | 0 <= i < j < |versions| :: versions[i] != versions[j]
  }

  predicate IsVersions(versions: Option<seq<nat>>) {
    versions.Some? && versions.value != [] && 0 !in versions.value && Distinct(versions.value)
  }

  predicate IsAdvert(a: Advert) {
    a.id != [] && Trim(a.id) == a.id && IsVersions(a.versions)
  }

  predicate DistinctIds(adverts: seq<Advert>) {
    forall i, j | 0 <= i < j < |adverts| :: adverts[i].id != adverts[j].id
  }

  function Adverts(l: Listing): seq<Advert> {
    if l.adverts.Some? then l.adverts.value else []
  }

  predicate AreAdverts(adverts: seq<Advert>) {
    DistinctIds(adverts) && forall i | 0 <= i < |adverts| :: IsAdvert(adverts[i])
  }

  /** A schema, and features with distinct trimmed names that each advertise distinct positive
      versions. */
  predicate IsListing(l: Listing) {
    l.schema != 0 && AreAdverts(Adverts(l))
  }

  method ValidateVersions(versions: array?<nat>) returns (ok: bool)
    ensures ok <==> IsVersions(if versions == null then None else Some(versions[..]))
  {
    if versions == null || versions.Length == 0 {
      return false;
    }
    var seen: set<nat> := {};
    for i := 0 to versions.Length
      invariant forall v :: v in seen <==> v in versions[..i]
      invariant 0 !in versions[..i] && Distinct(versions[..i])
    {
      var version := versions[i];
      if version == 0 || version in seen {
        if version != 0 {
          var j :| 0 <= j < i && versions[j] == version;
          assert versions[..][j] == versions[..][i];
        }
        return false;
      }
      seen := seen + {version};
      assert versions[..i + 1] == versions[..i] + [version];
    }
    assert versions[..versions.Length] == versions[..];
    return true;
  }

  method ValidateFeature(f: Feature, ids: set<Text>) returns (ok: bool)
    ensures ok <==> IsAdvert(AdvertOf(f)) && f.id !in ids
  {
    if f.id == [] || Trim(f.id) != f.id || f.id in ids {
      return false;
    }
    ok := ValidateVersions(f.versions);
  }

  function IdsOf(adverts: seq<Advert>): set<Text> {
    set i | 0 <= i < |adverts| :: adverts[i].id
  }

  lemma NextAdvert(adverts: seq<Advert>, i: nat)
    requires i < |adverts|
    ensures AreAdverts(adverts[..i + 1]) <==>
            AreAdverts(adverts[..i]) && IsAdvert(adverts[i]) && adverts[i].id !in IdsOf(adverts[..i])
    ensures IdsOf(adverts[..i + 1]) == IdsOf(adverts[..i]) + {adverts[i].id}
    ensures AreAdverts(adverts) ==> AreAdverts(adverts[..i + 1])
  {
    var some, more := adverts[..i], adverts[..i + 1];
    assert more == some + [adverts[i]];
    forall id ensures id in IdsOf(more) <==> id in IdsOf(some) + {adverts[i].id} {
      if j :| 0 <= j < i && some[j].id == id {
        assert more[j].id == id;
      }
    }
    assert forall j | 0 <= j < i :: some[j] == more[j];
  }

  method ValidateFeatures(features: array<Feature>) returns (ok: bool)
    ensures ok <==> AreAdverts(AdvertsOf(features[..]))
  {
    ghost var adverts := AdvertsOf(features[..]);
    var ids: set<Text> := {};
    for i := 0 to features.Length
      invariant AreAdverts(adverts[..i])
      invariant ids == IdsOf(adverts[..i])
    {
      NextAdvert(adverts, i);
      var feature := features[i];
      assert adverts[i] == AdvertOf(feature);
      var valid := ValidateFeature(feature, ids);
      if !valid {
        return false;
      }
      ids := ids + {feature.id};
    }
    assert adverts[..features.Length] == adverts;
    return true;
  }

  method Validate(c: Catalog) returns (ok: bool)
    ensures ok <==> IsListing(ListingOf(c))
  {
    if c.schema == 0 {
      return false;
    }
    if c.features == null {
      return true;
    }
    ok := ValidateFeatures(c.features);
    assert Adverts(ListingOf(c)) == AdvertsOf(c.features[..]);
  }

  // -------------------------------------------------------------------- support

  predicate Offers(a: Advert, id: Text, version: nat) {
    a.id == id && a.versions.Some? && version in a.versions.value
  }

  predicate IsSupported(l: Listing, schema: nat, id: Text, version: nat) {
    && schema != 0 && schema == l.schema && version != 0
    && exists i | 0 <= i < |Adverts(l)| :: Offers(Adverts(l)[i], id, version)
  }

  method Supports(c: Catalog, schema: nat, id: Text, version: nat) returns (ok: bool)
    ensures ok <==> IsSupported(ListingOf(c), schema, id, version)
  {
    if schema == 0 || schema != c.schema || version == 0 || c.features == null {
      return false;
    }
    ghost var adverts := AdvertsOf(c.features[..]);
    assert Adverts(ListingOf(c)) == adverts;
    for i := 0 to c.features.Length
      invariant forall j | 0 <= j < i :: !Offers(adverts[j], id, version)
    {
      var feature := c.features[i];
      assert adverts[i] == AdvertOf(feature);
      if feature.id == id && feature.versions != null && version in feature.versions[..] {
        assert Offers(adverts[i], id, version);
        return true;
      }
    }
    return false;
  }

  /** A catalog that validates supports only what it lists, under one advert each. */
  lemma {:induction false} SupportIsListed(l: Listing, schema: nat, id: Text, version: nat)
    requires IsListing(l) && IsSupported(l, schema, id, version)
    ensures exists i | 0 <= i < |Adverts(l)| ::
              Offers(Adverts(l)[i], id, version) && forall j | 0 <= j < |Adverts(l)| && Adverts(l)[j].id == id :: j == i
  {
    var i :| 0 <= i < |Adverts(l)| && Offers(Adverts(l)[i], id, version);
    assert forall j | 0 <= j < |Adverts(l)| && Adverts(l)[j].id == id :: j == i;
  }

  // ---------------------------------------------------------------------- clone

  method CloneVersions(versions: array?<nat>) returns (copy: array?<nat>)
    ensures copy == null <==> versions == null
    ensures copy != null ==> fresh(copy) && copy[..] == versions[..]
  {
    if versions == null {
      return null;
    }
    copy := new nat[versions.Length](i requires 0 <= i < versions.Length reads versions => versions[i]);
  }

  /** Copies the entries one by one, in whatever order the map yields them. */
  method CloneDetails(details: Details?) returns (copy: Details?)
    ensures copy == null <==> details == null
    ensures copy != null ==> fresh(copy) && copy.entries == details.entries
  {
    if details == null {
      return null;
    }
    copy := new Details(map[]);
    var todo := details.entries.Keys;
    while todo != {}
      invariant fresh(copy) && todo <= details.entries.Keys
      invariant copy.entries == details.entries - todo
      decreases |todo|
    {
      var key :| key in todo;
      copy.entries := copy.entries[key := details.entries[key]];
      todo := todo - {key};
    }
  }

  method CloneFeature(f: Feature) returns (g: Feature)
    ensures fresh(PartsOf(g)) && AdvertOf(g) == AdvertOf(f)
  {
    var versions := CloneVersions(f.versions);
    var details := CloneDetails(f.details);
    g := Feature(f.id, versions, f.description, details);
  }

  /** A copy that shares nothing with the original and says the same, nil for nil and empty for
      empty. */
  method Clone(c: Catalog) returns (d: Catalog)
    ensures fresh(Footprint(d)) && ListingOf(d) == ListingOf(c)
  {
    if c.features == null {
      return c;
    }
    var features := CloneFeatures(c.features);
    d := c.(features := features);
  }

  method CloneFeatures(features: array<Feature>) returns (copy: array<Feature>)
    ensures fresh(copy) && fresh(AllParts(copy[..])) && AdvertsOf(copy[..]) == AdvertsOf(features[..])
  {
    copy := new Feature[features.Length](_ => Feature([], null, [], null));
    ghost var adverts := AdvertsOf(features[..]);
    for i := 0 to features.Length
      invariant fresh(copy) && copy.Length == features.Length
      invariant forall j | 0 <= j < features.Length :: fresh(PartsOf(copy[j]))
      invariant forall j | 0 <= j < i :: AdvertOf(copy[j]) == adverts[j]
    {
      var feature := CloneFeature(features[i]);
      assert AdvertOf(feature) == adverts[i];
      copy[i] := feature;
    }
    assert AdvertsOf(copy[..]) == adverts;
  }
}

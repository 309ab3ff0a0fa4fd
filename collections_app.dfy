/** The collections variant (src/main_backup.py): a model's JSON form
    splits its comma-separated `specialties`, and adds one
    `<collection_type>_photos` key per image collection of that model.
    Also the static-file fallback of the catch-all route. */
module CollectionsApp {
  import opened Values
  import CommaList
  import Sql

  datatype ImageCollection = ImageCollection(
    id: int, modelId: int, collectionType: string, imageUrls: Option<string>)

  datatype CatalogModel = CatalogModel(
    id: int, slug: string, name: string, tagline: Option<string>,
    nationality: Option<string>, ethnicity: Option<string>, gender: Option<string>,
    age: Option<int>, height: Option<string>, weight: Option<string>,
    bio: Option<string>, hobbies: Option<string>, specialties: Option<string>,
    thumbnailUrl: Option<string>, isNew: Option<bool>, isPopular: Option<bool>,
    isComingSoon: Option<bool>, priceUsd: Option<int>)

  /** `text.split(',') if text else []`: no list for NULL or "". */
  function SplitOrEmpty(text: Option<string>): (r: seq<string>)
    ensures r == [] <==> text.None? || text == Some("")
  {
    if text.None? || text.value == "" then [] else CommaList.Split(text.value)
  }

  /** The pieces are the untrimmed comma-separated parts, empty ones kept:
      joining them with "," gives back the stored text, "" included. */
  lemma SplitOrEmptyJoins(text: string)
    ensures CommaList.Join(SplitOrEmpty(Some(text))) == text
    ensures forall i :: 0 <= i < |SplitOrEmpty(Some(text))| ==> ',' !in SplitOrEmpty(Some(text))[i]
  {
    if text != "" {
      CommaList.JoinSplit(text);
      CommaList.SplitPiecesCommaFree(text);
    }
  }

  function PhotoKey(collectionType: string): string {
    collectionType + "_photos"
  }

  predicate IsPhotoKey(k: string) {
    |k| >= 7 && k[|k| - 7..] == "_photos"
  }

  /** `ModelImageCollection.query.filter_by(model_id=id)`, in the order the
      query returns the rows. */
  function CollectionsOf(all: seq<ImageCollection>, modelId: int): (r: seq<ImageCollection>)
    ensures forall c :: c in r <==> c in all && c.modelId == modelId
  {
    Sql.Where(all, (c: ImageCollection) => c.modelId == modelId)
  }

  /** The filter distributes over concatenation: it keeps the rows' order. */
  lemma CollectionsOfAppend(a: seq<ImageCollection>, b: seq<ImageCollection>, modelId: int)
    ensures CollectionsOf(a + b, modelId) == CollectionsOf(a, modelId) + CollectionsOf(b, modelId)
  {
    Sql.WhereAppend(a, b, (c: ImageCollection) => c.modelId == modelId);
  }

  /** The list one collection contributes: its comma-split URLs. */
  function PhotoList(c: ImageCollection): Json {
    Strings(SplitOrEmpty(c.imageUrls))
  }

  /** `collections_dict` after the loop has visited `cs`: each collection
      sets its key, so a later collection of the same type overwrites. */
  function PhotoCollections(cs: seq<ImageCollection>): map<string, Json> {
    if cs == [] then map[]
    else
      var c := cs[|cs| - 1];
      PhotoCollections(cs[..|cs| - 1])[PhotoKey(c.collectionType) := PhotoList(c)]
  }

  /** The collection type can be read back from its key. */
  lemma PhotoKeyInjective(a: string, b: string)
    requires PhotoKey(a) == PhotoKey(b)
    ensures a == b
  {
    assert a == PhotoKey(a)[..|a|];
    assert b == PhotoKey(b)[..|b|];
  }

  lemma PhotoKeyDistinct(a: string, b: string)
    requires a != b
    ensures PhotoKey(a) != PhotoKey(b)
  {
    if PhotoKey(a) == PhotoKey(b) {
      PhotoKeyInjective(a, b);
    }
  }

  /** Every key the loop writes ends with "_photos". */
  lemma {:induction false} PhotoKeysOnly(cs: seq<ImageCollection>)
    ensures forall k :: k in PhotoCollections(cs) ==> IsPhotoKey(k)
  {
    if cs != [] {
      PhotoKeysOnly(cs[..|cs| - 1]);
      var k := PhotoKey(cs[|cs| - 1].collectionType);
      assert k[|k| - 7..] == "_photos";
    }
  }

  /** Every collection's key is written. */
  lemma {:induction false} PhotoKeyWritten(cs: seq<ImageCollection>, i: nat)
    requires i < |cs|
    ensures PhotoKey(cs[i].collectionType) in PhotoCollections(cs)
  {
    var n := |cs| - 1;
    var prefix := cs[..n];
    assert PhotoCollections(cs) == PhotoCollections(prefix)[PhotoKey(cs[n].collectionType) := PhotoList(cs[n])];
    if i < n {
      assert prefix[i] == cs[i];
      PhotoKeyWritten(prefix, i);
    }
  }

  /** Only the keys of the collections' types are written. */
  lemma {:induction false} PhotoKeyFromSome(cs: seq<ImageCollection>, t: string)
    requires PhotoKey(t) in PhotoCollections(cs)
    ensures exists i :: 0 <= i < |cs| && cs[i].collectionType == t
  {
    var n := |cs| - 1;
    var prefix := cs[..n];
    assert PhotoCollections(cs) == PhotoCollections(prefix)[PhotoKey(cs[n].collectionType) := PhotoList(cs[n])];
    if cs[n].collectionType != t {
      PhotoKeyDistinct(t, cs[n].collectionType);
      PhotoKeyFromSome(prefix, t);
      var i :| 0 <= i < n && prefix[i].collectionType == t;
      assert cs[i] == prefix[i];
    }
  }

  /** The key of a type is present iff some collection has that type. */
  lemma PhotoKeyPresent(cs: seq<ImageCollection>, t: string)
    ensures PhotoKey(t) in PhotoCollections(cs) <==> exists i :: 0 <= i < |cs| && cs[i].collectionType == t
  {
    if PhotoKey(t) in PhotoCollections(cs) {
      PhotoKeyFromSome(cs, t);
    }
    if exists i :: 0 <= i < |cs| && cs[i].collectionType == t {
      var i :| 0 <= i < |cs| && cs[i].collectionType == t;
      PhotoKeyWritten(cs, i);
    }
  }

  /** A later collection of the same type overwrites an earlier one: the
      key holds the URLs of the LAST collection of that type. */
  lemma {:induction false} PhotoKeyLastWins(cs: seq<ImageCollection>, t: string, i: nat)
    requires i < |cs| && cs[i].collectionType == t
    requires forall j :: i < j < |cs| ==> cs[j].collectionType != t
    ensures PhotoKey(t) in PhotoCollections(cs)
    ensures PhotoCollections(cs)[PhotoKey(t)] == PhotoList(cs[i])
  {
    var n := |cs| - 1;
    var prefix := cs[..n];
    assert PhotoCollections(cs) == PhotoCollections(prefix)[PhotoKey(cs[n].collectionType) := PhotoList(cs[n])];
    if i < n {
      assert prefix[i] == cs[i];
      PhotoKeyLastWins(prefix, t, i);
      PhotoKeyDistinct(t, cs[n].collectionType);
    }
  }

  /** The fixed part of `to_dict`, before the collections are merged in. */
  function BaseFields(m: CatalogModel): map<string, Json> {
    map[
      "id" := JInt(m.id),
      "slug" := JStr(m.slug),
      "name" := JStr(m.name),
      "tagline" := StrOrNull(m.tagline),
      "nationality" := StrOrNull(m.nationality),
      "ethnicity" := StrOrNull(m.ethnicity),
      "gender" := StrOrNull(m.gender),
      "age" := IntOrNull(m.age),
      "height" := StrOrNull(m.height),
      "weight" := StrOrNull(m.weight),
      "bio" := StrOrNull(m.bio),
      "hobbies" := StrOrNull(m.hobbies),
      "specialties" := Strings(SplitOrEmpty(m.specialties)),
      "thumbnail_url" := StrOrNull(m.thumbnailUrl),
      "is_new" := BoolOrNull(m.isNew),
      "is_popular" := BoolOrNull(m.isPopular),
      "is_coming_soon" := BoolOrNull(m.isComingSoon),
      "price_usd" := IntOrNull(m.priceUsd)
    ]
  }

  /** What `Model.to_dict` returns: the base fields, updated with the photo
      keys of this model's collections. */
  function ModelDict(m: CatalogModel, all: seq<ImageCollection>): map<string, Json> {
    BaseFields(m) + PhotoCollections(CollectionsOf(all, m.id))
  }

  /** No base field name ends with "_photos". */
  lemma PhotoKeyNotBase(m: CatalogModel, k: string)
    requires IsPhotoKey(k)
    ensures k !in BaseFields(m)
  {
  }

  /** A key the base fields lack is looked up in the merged-in map. */
  lemma MergeOutside(base: map<string, Json>, photos: map<string, Json>, k: string)
    requires k !in base
    ensures k in base + photos <==> k in photos
    ensures k in photos ==> (base + photos)[k] == photos[k]
  {
  }

  /** No base field name ends with "_photos", so the merge never overwrites
      a base field: `id`, `slug`, `name`, ... come out as stored, `price_usd`
      with NULL kept as null, and `specialties` as its comma-split. */
  lemma BaseFieldsSurviveMerge(m: CatalogModel, all: seq<ImageCollection>)
    ensures forall k :: k in BaseFields(m) ==> k in ModelDict(m, all) && ModelDict(m, all)[k] == BaseFields(m)[k]
  {
    var photos := PhotoCollections(CollectionsOf(all, m.id));
    PhotoKeysOnly(CollectionsOf(all, m.id));
    forall k | k in photos
      ensures k !in BaseFields(m)
    {
      PhotoKeyNotBase(m, k);
    }
    MergeKeepsBase(BaseFields(m), photos);
  }

  /** Merging in a map with none of the base's keys keeps every base entry. */
  lemma MergeKeepsBase(base: map<string, Json>, photos: map<string, Json>)
    requires forall k :: k in photos ==> k !in base
    ensures forall k :: k in base ==> k in base + photos && (base + photos)[k] == base[k]
  {
  }

  /** The photo entries of `to_dict` are those of the collections loop. */
  lemma PhotoEntry(m: CatalogModel, all: seq<ImageCollection>, t: string)
    ensures PhotoKey(t) in ModelDict(m, all) <==> PhotoKey(t) in PhotoCollections(CollectionsOf(all, m.id))
    ensures PhotoKey(t) in ModelDict(m, all) ==>
              ModelDict(m, all)[PhotoKey(t)] == PhotoCollections(CollectionsOf(all, m.id))[PhotoKey(t)]
  {
    var k := PhotoKey(t);
    assert k[|k| - 7..] == "_photos";
    PhotoKeyNotBase(m, k);
    MergeOutside(BaseFields(m), PhotoCollections(CollectionsOf(all, m.id)), k);
  }

  /** A `<type>_photos` key is present iff a collection of THIS model has
      that type, and it holds the comma-split URLs of the last such
      collection in the order the query returns them. */
  lemma ModelDictPhotos(m: CatalogModel, all: seq<ImageCollection>, t: string)
    ensures PhotoKey(t) in ModelDict(m, all) <==>
              exists c :: c in all && c.modelId == m.id && c.collectionType == t
    ensures var mine := CollectionsOf(all, m.id);
            forall i :: 0 <= i < |mine| && mine[i].collectionType == t
                        && (forall j :: i < j < |mine| ==> mine[j].collectionType != t) ==>
              ModelDict(m, all)[PhotoKey(t)] == PhotoList(mine[i])
  {
    var mine := CollectionsOf(all, m.id);
    PhotoEntry(m, all, t);
    PhotoKeyPresent(mine, t);
    if exists c :: c in all && c.modelId == m.id && c.collectionType == t {
      var c :| c in all && c.modelId == m.id && c.collectionType == t;
      var i :| 0 <= i < |mine| && mine[i] == c;
    }
    ModelDictLastWins(m, all, t);
  }

  lemma ModelDictLastWins(m: CatalogModel, all: seq<ImageCollection>, t: string)
    ensures var mine := CollectionsOf(all, m.id);
            forall i :: 0 <= i < |mine| && mine[i].collectionType == t
                        && (forall j :: i < j < |mine| ==> mine[j].collectionType != t) ==>
              PhotoKey(t) in ModelDict(m, all) && ModelDict(m, all)[PhotoKey(t)] == PhotoList(mine[i])
  {
    var mine := CollectionsOf(all, m.id);
    forall i | 0 <= i < |mine| && mine[i].collectionType == t
               && (forall j :: i < j < |mine| ==> mine[j].collectionType != t)
      ensures PhotoKey(t) in ModelDict(m, all) && ModelDict(m, all)[PhotoKey(t)] == PhotoList(mine[i])
    {
      PhotoKeyLastWins(mine, t, i);
      PhotoEntry(m, all, t);
    }
  }

  /** The loop of `to_dict`: one `<type>_photos` entry per collection, in
      the order given, so a later collection of a type overwrites an earlier one. */
  method CollectPhotos(collections: seq<ImageCollection>) returns (collectionsDict: map<string, Json>)
    ensures collectionsDict == PhotoCollections(collections)
  {
    collectionsDict := map[];
    for i := 0 to |collections|
      invariant collectionsDict == PhotoCollections(collections[..i])
    {
      var c := collections[i];
      assert collections[..i + 1][..i] == collections[..i];
      collectionsDict := collectionsDict[PhotoKey(c.collectionType) := PhotoList(c)];
    }
    assert collections[..|collections|] == collections;
  }

  /** `Model.to_dict`: collects this model's photo lists, then merges them
      into the base fields. */
  method ToDict(m: CatalogModel, all: seq<ImageCollection>) returns (result: map<string, Json>)
    ensures result == ModelDict(m, all)
  {
    var collections := CollectionsOf(all, m.id);
    var collectionsDict := CollectPhotos(collections);
    result := BaseFields(m);
    result := result + collectionsDict;
  }

  /** GET /api/models (and /models): every model, unfiltered and in the
      order `Model.query.all()` returns them, through `to_dict`. */
  method GetModels(models: seq<CatalogModel>, all: seq<ImageCollection>) returns (r: seq<map<string, Json>>)
    ensures |r| == |models|
    ensures forall i :: 0 <= i < |models| ==> r[i] == ModelDict(models[i], all)
  {
    ghost var expected := seq(|models|, k requires 0 <= k < |models| => ModelDict(models[k], all));
    r := [];
    for i := 0 to |models|
      invariant r == expected[..i]
    {
      var d := ToDict(models[i], all);
      assert expected[..i + 1] == expected[..i] + [expected[i]];
      r := r + [d];
    }
    assert r == expected;
  }

  // ------------------------------------------------- static-file fallback

  datatype Response = SendFile(name: string) | NotFound(message: string)

  /** The catch-all route `serve(path)`. `present(p)` says whether `p`
      exists under the static folder. */
  function Serve(staticFolder: Option<string>, path: string, present: string -> bool): (r: Response)
    ensures r.SendFile? ==> present(r.name) && (r.name == path || r.name == "index.html")
    ensures staticFolder.Some? && path != "" && present(path) ==> r == SendFile(path)
    ensures r.SendFile? && r.name != path ==> !(path != "" && present(path))
    ensures r.NotFound? <==>
              staticFolder.None? || (!(path != "" && present(path)) && !present("index.html"))
    ensures staticFolder.Some? && !(path != "" && present(path)) && present("index.html") ==>
              r == SendFile("index.html")
    ensures r.NotFound? ==>
              r.message == if staticFolder.None? then "Static folder not configured" else "index.html not found"
  {
    if staticFolder.None? then NotFound("Static folder not configured")
    else if path != "" && present(path) then SendFile(path)
    else if present("index.html") then SendFile("index.html")
    else NotFound("index.html not found")
  }
}

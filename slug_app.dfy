/** The slug-based variant (src/main.py): flat projections of models and
    their images, the list of all models, the images of one model, and
    lookup of a model by slug with its images attached. */
module SlugApp {
  import opened Values
  import Sql

  datatype Model = Model(id: int, slug: string, name: string, thumbnailUrl: Option<string>)

  datatype ModelImage = ModelImage(id: int, modelId: int, collection: Option<string>, imageUrl: string)

  /** `Model.to_dict`: exactly the four columns, copied unchanged. */
  function ModelToDict(m: Model): (d: map<string, Json>)
    ensures d.Keys == {"id", "slug", "name", "thumbnail_url"}
  {
    map["id" := JInt(m.id), "slug" := JStr(m.slug), "name" := JStr(m.name),
        "thumbnail_url" := StrOrNull(m.thumbnailUrl)]
  }

  /** `ModelImage.to_dict`: exactly the four columns, copied unchanged. */
  function ImageToDict(im: ModelImage): (d: map<string, Json>)
    ensures d.Keys == {"id", "model_id", "collection", "image_url"}
  {
    map["id" := JInt(im.id), "model_id" := JInt(im.modelId),
        "collection" := StrOrNull(im.collection), "image_url" := JStr(im.imageUrl)]
  }

  /** How a client reads a model back from its JSON object. */
  function ModelFromDict(d: map<string, Json>): Option<Model> {
    if && "id" in d && d["id"].JInt?
       && "slug" in d && d["slug"].JStr?
       && "name" in d && d["name"].JStr?
       && "thumbnail_url" in d && (d["thumbnail_url"].JStr? || d["thumbnail_url"].JNull?)
    then
      var thumb := if d["thumbnail_url"].JStr? then Some(d["thumbnail_url"].s) else None;
      Some(Model(d["id"].i, d["slug"].s, d["name"].s, thumb))
    else None
  }

  /** How a client reads an image back from its JSON object. */
  function ImageFromDict(d: map<string, Json>): Option<ModelImage> {
    if && "id" in d && d["id"].JInt?
       && "model_id" in d && d["model_id"].JInt?
       && "collection" in d && (d["collection"].JStr? || d["collection"].JNull?)
       && "image_url" in d && d["image_url"].JStr?
    then
      var coll := if d["collection"].JStr? then Some(d["collection"].s) else None;
      Some(ModelImage(d["id"].i, d["model_id"].i, coll, d["image_url"].s))
    else None
  }

  /** The projection loses nothing a client needs: the model reads back. */
  lemma ModelDictRoundTrip(m: Model)
    ensures ModelFromDict(ModelToDict(m)) == Some(m)
  {
    var d := ModelToDict(m);
    assert d["id"] == JInt(m.id) && d["slug"] == JStr(m.slug) && d["name"] == JStr(m.name);
  }

  /** The projection loses nothing a client needs: the image reads back. */
  lemma ImageDictRoundTrip(im: ModelImage)
    ensures ImageFromDict(ImageToDict(im)) == Some(im)
  {
    var d := ImageToDict(im);
    assert d["id"] == JInt(im.id) && d["model_id"] == JInt(im.modelId) && d["image_url"] == JStr(im.imageUrl);
  }

  /** `ModelImage.query.filter_by(model_id=id)`, in the order the query
      returns the rows. */
  function ImagesOf(images: seq<ModelImage>, modelId: int): (r: seq<ModelImage>)
    ensures forall im :: im in r <==> im in images && im.modelId == modelId
  {
    Sql.Where(images, (im: ModelImage) => im.modelId == modelId)
  }

  /** The filter distributes over concatenation: it keeps the rows' order. */
  lemma ImagesOfAppend(a: seq<ModelImage>, b: seq<ModelImage>, modelId: int)
    ensures ImagesOf(a + b, modelId) == ImagesOf(a, modelId) + ImagesOf(b, modelId)
  {
    Sql.WhereAppend(a, b, (im: ModelImage) => im.modelId == modelId);
  }

  /** GET /api/models: every model, unfiltered, in the order
      `Model.query.all()` returns them. */
  function GetModels(models: seq<Model>): (r: seq<map<string, Json>>)
    ensures |r| == |models|
    ensures forall i :: 0 <= i < |r| ==> r[i].Keys == {"id", "slug", "name", "thumbnail_url"}
    ensures forall i :: 0 <= i < |r| ==> ModelFromDict(r[i]) == Some(models[i])
  {
    seq(|models|, i requires 0 <= i < |models| => ModelDictRoundTrip(models[i]); ModelToDict(models[i]))
  }

  /** GET /api/models/<id>/images: exactly the images of that model, in the
      order the query returns them. */
  function GetModelImages(images: seq<ModelImage>, modelId: int): (r: seq<map<string, Json>>)
    ensures |r| == |ImagesOf(images, modelId)|
    ensures forall i :: 0 <= i < |r| ==> r[i].Keys == {"id", "model_id", "collection", "image_url"}
    ensures forall i :: 0 <= i < |r| ==> ImageFromDict(r[i]) == Some(ImagesOf(images, modelId)[i])
  {
    var mine := ImagesOf(images, modelId);
    seq(|mine|, i requires 0 <= i < |mine| => ImageDictRoundTrip(mine[i]); ImageToDict(mine[i]))
  }

  /** `Model.query.filter_by(slug=slug).first()`, as the position of that
      model: the first model with the slug, or None when there is none. */
  function FirstWithSlug(models: seq<Model>, slug: string): (r: Option<nat>)
    ensures r.None? <==> forall i :: 0 <= i < |models| ==> models[i].slug != slug
    ensures r.Some? ==> && r.value < |models| && models[r.value].slug == slug
                        && forall j :: 0 <= j < r.value ==> models[j].slug != slug
  {
    if models == [] then None
    else if models[0].slug == slug then Some(0)
    else
      var r := FirstWithSlug(models[1..], slug);
      assert forall i :: 1 <= i < |models| ==> models[i] == models[1..][i - 1];
      if r.Some? then Some(r.value + 1) else None
  }

  /** The `images` list attached to a model: the same projections GET
      /api/models/<id>/images returns, as one JSON array. */
  function AttachedImages(images: seq<ModelImage>, modelId: int): (j: Json)
    ensures j.JArr? && |j.items| == |ImagesOf(images, modelId)|
    ensures forall k :: 0 <= k < |j.items| ==>
              j.items[k].JObj? && j.items[k].fields.Keys == {"id", "model_id", "collection", "image_url"}
    ensures forall k :: 0 <= k < |j.items| ==>
              j.items[k].JObj? && ImageFromDict(j.items[k].fields) == Some(ImagesOf(images, modelId)[k])
  {
    var listed := GetModelImages(images, modelId);
    JArr(seq(|listed|, k requires 0 <= k < |listed| => JObj(listed[k])))
  }

  datatype Lookup = Found(body: map<string, Json>) | NotFound

  /** GET /api/models/<slug>: 404 when no model has the slug; otherwise the
      first such model's projection with an `images` list of all its images. */
  function GetModelBySlug(models: seq<Model>, images: seq<ModelImage>, slug: string): (r: Lookup)
    ensures r.NotFound? <==> forall i :: 0 <= i < |models| ==> models[i].slug != slug
    ensures r.Found? ==>
              && r.body.Keys == {"id", "slug", "name", "thumbnail_url", "images"}
              && exists i :: 0 <= i < |models| && models[i].slug == slug
                             && (forall j :: 0 <= j < i ==> models[j].slug != slug)
                             && ModelFromDict(r.body - {"images"}) == Some(models[i])
                             && r.body["images"] == AttachedImages(images, models[i].id)
  {
    var found := FirstWithSlug(models, slug);
    if found.None? then NotFound
    else
      var m := models[found.value];
      var body := ModelToDict(m)["images" := AttachedImages(images, m.id)];
      assert body - {"images"} == ModelToDict(m);
      ModelDictRoundTrip(m);
      Found(body)
  }
}

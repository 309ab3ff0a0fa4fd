/** The full-schema API (main.py): how request bodies become rows, which
    rows the list queries select and in what order, how a row is shaped
    into the JSON record a client receives, and how an upload target is
    named. The tables themselves live in `FullSchemaDb`. */
module FullSchema {
  import opened Values
  import Sql

  const Active: string := "active"
  const DefaultBackground: string := "#667eea"
  const DefaultContentType: string := "image/jpeg"
  const Bucket: string := "cyberchicmodels-media"
  const PublicBase: string := "https://storage.googleapis.com/" + Bucket + "/"

  /** The two 500 replies: the connection could not be opened, or the
      handler's `except` branch caught an exception. */
  datatype ApiError = ConnectionFailed | HandlerFailed

  datatype Result<+T> = Ok(value: T) | Err(error: ApiError)

  /** What the database does for one request: no connection at all,
      a working connection, or a connection on which a statement raises. */
  datatype Connection = Unreachable | Reachable | StatementFails

  // ---------------------------------------------------------------- models

  datatype ModelPayload = ModelPayload(
    name: Field<string>, nationality: Field<string>, ethnicity: Field<string>,
    gender: Field<string>, age: Field<int>, height: Field<string>, weight: Field<string>,
    bio: Field<string>, hobbies: Field<string>, specialties: Field<string>,
    isFeatured: Field<bool>, isNew: Field<bool>, isComing: Field<bool>, isPopular: Field<bool>,
    priceUsd: Field<int>)

  datatype ModelRow = ModelRow(
    id: nat, name: Option<string>, nationality: Option<string>, ethnicity: Option<string>,
    gender: Option<string>, age: Option<int>, height: Option<string>, weight: Option<string>,
    bio: Option<string>, hobbies: Option<string>, specialties: Option<string>,
    isFeatured: Option<bool>, isNew: Option<bool>, isComing: Option<bool>, isPopular: Option<bool>,
    priceUsd: Option<int>, status: Option<string>, createdAt: Option<int>)

  /** One element of the `models` list of GET /api/models. */
  datatype ModelRecord = ModelRecord(
    id: nat, name: Option<string>, nationality: Option<string>, ethnicity: Option<string>,
    gender: Option<string>, age: Option<int>, height: Option<string>, weight: Option<string>,
    bio: Option<string>, hobbies: Option<string>, specialties: Option<string>,
    isFeatured: Option<bool>, isNew: Option<bool>, isComing: Option<bool>, isPopular: Option<bool>,
    priceUsd: int, status: Option<string>, createdAt: Option<int>)

  /** The row POST /api/models inserts; `createdAt` is what the database fills in. */
  function NewModelRow(id: nat, p: ModelPayload, createdAt: Option<int>): (r: ModelRow)
    ensures r.id == id && r.status == Some(Active) && r.createdAt == createdAt
    ensures p.isFeatured.Absent? ==> r.isFeatured == Some(false)
    ensures p.isNew.Absent? ==> r.isNew == Some(true)
    ensures p.isComing.Absent? ==> r.isComing == Some(false)
    ensures p.isPopular.Absent? ==> r.isPopular == Some(false)
    ensures p.priceUsd.Absent? ==> r.priceUsd == Some(0)
    ensures r.name.None? <==> !p.name.Given?
    ensures r.priceUsd.None? <==> p.priceUsd.Null?
    ensures && r.name == p.name.Get() && r.nationality == p.nationality.Get()
            && r.ethnicity == p.ethnicity.Get() && r.gender == p.gender.Get()
            && r.age == p.age.Get() && r.height == p.height.Get() && r.weight == p.weight.Get()
            && r.bio == p.bio.Get() && r.hobbies == p.hobbies.Get()
            && r.specialties == p.specialties.Get()
    ensures p.isFeatured.Given? ==> r.isFeatured == Some(p.isFeatured.value)
    ensures p.isNew.Given? ==> r.isNew == Some(p.isNew.value)
    ensures p.isComing.Given? ==> r.isComing == Some(p.isComing.value)
    ensures p.isPopular.Given? ==> r.isPopular == Some(p.isPopular.value)
    ensures p.priceUsd.Given? ==> r.priceUsd == Some(p.priceUsd.value)
    ensures && (p.isFeatured.Null? ==> r.isFeatured.None?) && (p.isNew.Null? ==> r.isNew.None?)
            && (p.isComing.Null? ==> r.isComing.None?) && (p.isPopular.Null? ==> r.isPopular.None?)
  {
    ModelRow(id, p.name.Get(), p.nationality.Get(), p.ethnicity.Get(), p.gender.Get(),
      p.age.Get(), p.height.Get(), p.weight.Get(), p.bio.Get(), p.hobbies.Get(),
      p.specialties.Get(), p.isFeatured.GetOr(false), p.isNew.GetOr(true),
      p.isComing.GetOr(false), p.isPopular.GetOr(false), p.priceUsd.GetOr(0),
      Some(Active), createdAt)
  }

  /** `float(v) if v else 0`: a stored price is listed as it is, NULL as 0. */
  function PriceOrZero(v: Option<int>): (r: int)
    ensures r == 0 <==> v.None? || v == Some(0)
    ensures v.Some? ==> r == v.value
  {
    if v.Some? && v.value != 0 then v.value else 0
  }

  /** The row a listed record reads back as, its price taken as stored. */
  function ModelRowOf(rec: ModelRecord): ModelRow {
    ModelRow(rec.id, rec.name, rec.nationality, rec.ethnicity, rec.gender, rec.age, rec.height,
      rec.weight, rec.bio, rec.hobbies, rec.specialties, rec.isFeatured, rec.isNew, rec.isComing,
      rec.isPopular, Some(rec.priceUsd), rec.status, rec.createdAt)
  }

  /** Shaping loses nothing but a NULL price, which is listed as 0. */
  function ModelRecordOf(r: ModelRow): (rec: ModelRecord)
    ensures r.priceUsd.Some? ==> ModelRowOf(rec) == r
    ensures r.priceUsd.None? ==> ModelRowOf(rec) == r.(priceUsd := Some(0))
  {
    ModelRecord(r.id, r.name, r.nationality, r.ethnicity, r.gender, r.age, r.height,
      r.weight, r.bio, r.hobbies, r.specialties, r.isFeatured, r.isNew, r.isComing,
      r.isPopular, PriceOrZero(r.priceUsd), r.status, r.createdAt)
  }

  predicate ModelIsActive(r: ModelRow) { r.status == Some(Active) }

  function ModelCreatedAt(r: ModelRow): Option<int> { r.createdAt }

  /** `WHERE status = 'active' ORDER BY created_at DESC` over the models table. */
  function ModelQuery(rows: seq<ModelRow>): (q: seq<ModelRow>)
    ensures forall r :: r in q <==> r in rows && r.status == Some(Active)
    ensures forall r :: multiset(q)[r] == if ModelIsActive(r) then multiset(rows)[r] else 0
    ensures forall i, j :: 0 <= i < j < |q| ==> Sql.KeyLeq(q[j].createdAt, q[i].createdAt)
  {
    Sql.Select(rows, ModelIsActive, ModelCreatedAt, true)
  }

  /** The fetched rows shaped one by one, in order. */
  function ModelRecords(q: seq<ModelRow>): seq<ModelRecord> {
    seq(|q|, i requires 0 <= i < |q| => ModelRecordOf(q[i]))
  }

  function ModelListing(rows: seq<ModelRow>): seq<ModelRecord> {
    ModelRecords(ModelQuery(rows))
  }

  // ---------------------------------------------------------------- styles

  /** What `json.dumps` stored for `colors` or `sizes`: a list, or `null`
      when the key was present with null. */
  datatype Encoded = EncodedList(items: seq<string>) | EncodedNull

  /** `json.dumps(data.get(key, []))`. */
  function EncodeList(f: Field<seq<string>>): (e: Encoded)
    ensures e.EncodedNull? <==> f.Null?
    ensures f.Absent? ==> e == EncodedList([])
    ensures f.Given? ==> e == EncodedList(f.value)
  {
    match f
    case Absent => EncodedList([])
    case Null => EncodedNull
    case Given(xs) => EncodedList(xs)
  }

  datatype StylePayload = StylePayload(
    name: Field<string>, category: Field<string>, description: Field<string>,
    colors: Field<seq<string>>, sizes: Field<seq<string>>,
    priceUsd: Field<int>, isFeatured: Field<bool>)

  datatype StyleRow = StyleRow(
    id: nat, name: Option<string>, category: Option<string>, description: Option<string>,
    colors: Encoded, sizes: Encoded, priceUsd: Option<int>, isFeatured: Option<bool>,
    status: Option<string>, createdAt: Option<int>)

  /** One element of the `styles` list of GET /api/styles. */
  datatype StyleRecord = StyleRecord(
    id: nat, name: Option<string>, category: Option<string>, description: Option<string>,
    colors: Encoded, sizes: Encoded, priceUsd: int, isFeatured: Option<bool>,
    status: Option<string>, createdAt: Option<int>)

  function NewStyleRow(id: nat, p: StylePayload, createdAt: Option<int>): (r: StyleRow)
    ensures r.id == id && r.status == Some(Active) && r.createdAt == createdAt
    ensures p.colors.Absent? ==> r.colors == EncodedList([])
    ensures p.sizes.Absent? ==> r.sizes == EncodedList([])
    ensures p.priceUsd.Absent? ==> r.priceUsd == Some(0)
    ensures p.isFeatured.Absent? ==> r.isFeatured == Some(false)
    ensures r.priceUsd.None? <==> p.priceUsd.Null?
    ensures r.name == p.name.Get() && r.category == p.category.Get() && r.description == p.description.Get()
    ensures r.colors == EncodeList(p.colors) && r.sizes == EncodeList(p.sizes)
    ensures p.priceUsd.Given? ==> r.priceUsd == Some(p.priceUsd.value)
    ensures p.isFeatured.Given? ==> r.isFeatured == Some(p.isFeatured.value)
    ensures p.isFeatured.Null? ==> r.isFeatured.None?
  {
    StyleRow(id, p.name.Get(), p.category.Get(), p.description.Get(),
      EncodeList(p.colors), EncodeList(p.sizes), p.priceUsd.GetOr(0),
      p.isFeatured.GetOr(false), Some(Active), createdAt)
  }

  /** The row a listed record reads back as, its price taken as stored. */
  function StyleRowOf(rec: StyleRecord): StyleRow {
    StyleRow(rec.id, rec.name, rec.category, rec.description, rec.colors, rec.sizes,
      Some(rec.priceUsd), rec.isFeatured, rec.status, rec.createdAt)
  }

  /** Shaping loses nothing but a NULL price, which is listed as 0. */
  function StyleRecordOf(r: StyleRow): (rec: StyleRecord)
    ensures r.priceUsd.Some? ==> StyleRowOf(rec) == r
    ensures r.priceUsd.None? ==> StyleRowOf(rec) == r.(priceUsd := Some(0))
  {
    StyleRecord(r.id, r.name, r.category, r.description, r.colors, r.sizes,
      PriceOrZero(r.priceUsd), r.isFeatured, r.status, r.createdAt)
  }

  predicate StyleIsActive(r: StyleRow) { r.status == Some(Active) }

  function StyleCreatedAt(r: StyleRow): Option<int> { r.createdAt }

  /** `WHERE status = 'active' ORDER BY created_at DESC` over the styles table. */
  function StyleQuery(rows: seq<StyleRow>): (q: seq<StyleRow>)
    ensures forall r :: r in q <==> r in rows && r.status == Some(Active)
    ensures forall r :: multiset(q)[r] == if StyleIsActive(r) then multiset(rows)[r] else 0
    ensures forall i, j :: 0 <= i < j < |q| ==> Sql.KeyLeq(q[j].createdAt, q[i].createdAt)
  {
    Sql.Select(rows, StyleIsActive, StyleCreatedAt, true)
  }

  /** The fetched rows shaped one by one, in order. */
  function StyleRecords(q: seq<StyleRow>): seq<StyleRecord> {
    seq(|q|, i requires 0 <= i < |q| => StyleRecordOf(q[i]))
  }

  function StyleListing(rows: seq<StyleRow>): seq<StyleRecord> {
    StyleRecords(StyleQuery(rows))
  }

  // ----------------------------------------------------------- hero slides

  datatype SlidePayload = SlidePayload(
    title: Field<string>, subtitle: Field<string>, buttonText: Field<string>,
    buttonLink: Field<string>, description: Field<string>, backgroundColor: Field<string>,
    displayOrder: Field<int>, isActive: Field<bool>, isFeatured: Field<bool>)

  datatype SlideRow = SlideRow(
    id: nat, title: Option<string>, subtitle: Option<string>, buttonText: Option<string>,
    buttonLink: Option<string>, description: Option<string>, backgroundColor: Option<string>,
    displayOrder: Option<int>, isActive: Option<bool>, isFeatured: Option<bool>,
    createdAt: Option<int>)

  /** One element of the `slides` list of GET /api/hero-slides. */
  datatype SlideRecord = SlideRecord(
    id: nat, title: Option<string>, subtitle: Option<string>, buttonText: Option<string>,
    buttonLink: Option<string>, description: Option<string>, backgroundColor: Option<string>,
    displayOrder: Option<int>, isActive: Option<bool>, isFeatured: Option<bool>,
    createdAt: Option<int>)

  function NewSlideRow(id: nat, p: SlidePayload, createdAt: Option<int>): (r: SlideRow)
    ensures r.id == id && r.createdAt == createdAt
    ensures p.backgroundColor.Absent? ==> r.backgroundColor == Some(DefaultBackground)
    ensures p.displayOrder.Absent? ==> r.displayOrder == Some(1)
    ensures p.isActive.Absent? ==> r.isActive == Some(true)
    ensures p.isFeatured.Absent? ==> r.isFeatured == Some(false)
    ensures r.isActive.None? <==> p.isActive.Null?
    ensures && r.title == p.title.Get() && r.subtitle == p.subtitle.Get()
            && r.buttonText == p.buttonText.Get() && r.buttonLink == p.buttonLink.Get()
            && r.description == p.description.Get()
    ensures p.backgroundColor.Given? ==> r.backgroundColor == Some(p.backgroundColor.value)
    ensures p.displayOrder.Given? ==> r.displayOrder == Some(p.displayOrder.value)
    ensures p.isActive.Given? ==> r.isActive == Some(p.isActive.value)
    ensures p.isFeatured.Given? ==> r.isFeatured == Some(p.isFeatured.value)
    ensures && (p.backgroundColor.Null? ==> r.backgroundColor.None?)
            && (p.displayOrder.Null? ==> r.displayOrder.None?) && (p.isFeatured.Null? ==> r.isFeatured.None?)
  {
    SlideRow(id, p.title.Get(), p.subtitle.Get(), p.buttonText.Get(), p.buttonLink.Get(),
      p.description.Get(), p.backgroundColor.GetOr(DefaultBackground),
      p.displayOrder.GetOr(1), p.isActive.GetOr(true), p.isFeatured.GetOr(false), createdAt)
  }

  /** The row a listed record reads back as. */
  function SlideRowOf(rec: SlideRecord): SlideRow {
    SlideRow(rec.id, rec.title, rec.subtitle, rec.buttonText, rec.buttonLink, rec.description,
      rec.backgroundColor, rec.displayOrder, rec.isActive, rec.isFeatured, rec.createdAt)
  }

  /** Shaping a hero slide loses nothing. */
  function SlideRecordOf(r: SlideRow): (rec: SlideRecord)
    ensures SlideRowOf(rec) == r
  {
    SlideRecord(r.id, r.title, r.subtitle, r.buttonText, r.buttonLink, r.description,
      r.backgroundColor, r.displayOrder, r.isActive, r.isFeatured, r.createdAt)
  }

  predicate SlideIsActive(r: SlideRow) { r.isActive == Some(true) }

  function SlideDisplayOrder(r: SlideRow): Option<int> { r.displayOrder }

  /** `WHERE is_active = true ORDER BY display_order ASC` over the hero_slides table. */
  function SlideQuery(rows: seq<SlideRow>): (q: seq<SlideRow>)
    ensures forall r :: r in q <==> r in rows && r.isActive == Some(true)
    ensures forall r :: multiset(q)[r] == if SlideIsActive(r) then multiset(rows)[r] else 0
    ensures forall i, j :: 0 <= i < j < |q| ==> Sql.KeyLeq(q[i].displayOrder, q[j].displayOrder)
  {
    Sql.Select(rows, SlideIsActive, SlideDisplayOrder, false)
  }

  /** The fetched rows shaped one by one, in order. */
  function SlideRecords(q: seq<SlideRow>): seq<SlideRecord> {
    seq(|q|, i requires 0 <= i < |q| => SlideRecordOf(q[i]))
  }

  function SlideListing(rows: seq<SlideRow>): seq<SlideRecord> {
    SlideRecords(SlideQuery(rows))
  }

  // ---------------------------------------------------------------- images

  datatype ImagePayload = ImagePayload(
    entityType: Field<string>, entityId: Field<int>, imageType: Field<string>,
    filePath: Field<string>, publicUrl: Field<string>, description: Field<string>,
    displayOrder: Field<int>)

  datatype ImageRow = ImageRow(
    id: nat, entityType: Option<string>, entityId: Option<int>, imageType: Option<string>,
    filePath: Option<string>, publicUrl: Option<string>, description: Option<string>,
    displayOrder: Option<int>)

  /** The row POST /api/images/confirm inserts. Nothing checks that the
      entity exists, that `entity_type` names a table, or that the file
      was uploaded. */
  function NewImageRow(id: nat, p: ImagePayload): (r: ImageRow)
    ensures r.id == id
    ensures p.displayOrder.Absent? ==> r.displayOrder == Some(1)
    ensures r.displayOrder.None? <==> p.displayOrder.Null?
    ensures r.entityType.None? <==> !p.entityType.Given?
    ensures r.entityId.None? <==> !p.entityId.Given?
    ensures && r.entityType == p.entityType.Get() && r.entityId == p.entityId.Get()
            && r.imageType == p.imageType.Get() && r.filePath == p.filePath.Get()
            && r.publicUrl == p.publicUrl.Get() && r.description == p.description.Get()
    ensures p.displayOrder.Given? ==> r.displayOrder == Some(p.displayOrder.value)
  {
    ImageRow(id, p.entityType.Get(), p.entityId.Get(), p.imageType.Get(),
      p.filePath.Get(), p.publicUrl.Get(), p.description.Get(), p.displayOrder.GetOr(1))
  }

  // ------------------------------------------------- create, then list

  /** A model created through POST /api/models is listed by GET /api/models
      with every supplied field echoed, the flag and price defaults applied
      to absent keys only, a null price listed as 0, and status "active". */
  lemma CreatedModelIsListed(rows: seq<ModelRow>, id: nat, p: ModelPayload, createdAt: Option<int>)
    ensures var rec := ModelRecordOf(NewModelRow(id, p, createdAt));
      && rec in ModelListing(rows + [NewModelRow(id, p, createdAt)])
      && rec.id == id && rec.createdAt == createdAt && rec.status == Some("active")
      && rec.name == p.name.Get() && rec.nationality == p.nationality.Get()
      && rec.ethnicity == p.ethnicity.Get() && rec.gender == p.gender.Get()
      && rec.age == p.age.Get() && rec.height == p.height.Get() && rec.weight == p.weight.Get()
      && rec.bio == p.bio.Get() && rec.hobbies == p.hobbies.Get()
      && rec.specialties == p.specialties.Get()
      && rec.isFeatured == (if p.isFeatured.Absent? then Some(false) else p.isFeatured.Get())
      && rec.isNew == (if p.isNew.Absent? then Some(true) else p.isNew.Get())
      && rec.isComing == (if p.isComing.Absent? then Some(false) else p.isComing.Get())
      && rec.isPopular == (if p.isPopular.Absent? then Some(false) else p.isPopular.Get())
      && rec.priceUsd == (if p.priceUsd.Given? then p.priceUsd.value else 0)
  {
    var row := NewModelRow(id, p, createdAt);
    var q := ModelQuery(rows + [row]);
    assert row in q;
    var k :| 0 <= k < |q| && q[k] == row;
    assert ModelListing(rows + [row])[k] == ModelRecordOf(row);
  }

  /** A style created through POST /api/styles is listed by GET /api/styles
      with its colours and sizes in the order given ([] when absent), a
      missing or null price listed as 0, and status "active". */
  lemma CreatedStyleIsListed(rows: seq<StyleRow>, id: nat, p: StylePayload, createdAt: Option<int>)
    ensures var rec := StyleRecordOf(NewStyleRow(id, p, createdAt));
      && rec in StyleListing(rows + [NewStyleRow(id, p, createdAt)])
      && rec.id == id && rec.createdAt == createdAt && rec.status == Some("active")
      && rec.name == p.name.Get() && rec.category == p.category.Get()
      && rec.description == p.description.Get()
      && rec.colors == (match p.colors case Absent => EncodedList([]) case Null => EncodedNull case Given(xs) => EncodedList(xs))
      && rec.sizes == (match p.sizes case Absent => EncodedList([]) case Null => EncodedNull case Given(xs) => EncodedList(xs))
      && rec.isFeatured == (if p.isFeatured.Absent? then Some(false) else p.isFeatured.Get())
      && rec.priceUsd == (if p.priceUsd.Given? then p.priceUsd.value else 0)
  {
    var row := NewStyleRow(id, p, createdAt);
    var q := StyleQuery(rows + [row]);
    assert row in q;
    var k :| 0 <= k < |q| && q[k] == row;
    assert StyleListing(rows + [row])[k] == StyleRecordOf(row);
  }

  /** A hero slide created through POST /api/hero-slides is listed by GET
      /api/hero-slides exactly when it is active, which it is unless the body
      says otherwise; absent keys take the defaults "#667eea", 1, true, false. */
  lemma CreatedSlideIsListed(rows: seq<SlideRow>, id: nat, p: SlidePayload, createdAt: Option<int>)
    ensures var rec := SlideRecordOf(NewSlideRow(id, p, createdAt));
      && (rec in SlideListing(rows + [NewSlideRow(id, p, createdAt)]) <==> p.isActive.Absent? || p.isActive == Given(true))
      && rec.id == id && rec.createdAt == createdAt
      && rec.title == p.title.Get() && rec.subtitle == p.subtitle.Get()
      && rec.buttonText == p.buttonText.Get() && rec.buttonLink == p.buttonLink.Get()
      && rec.description == p.description.Get()
      && rec.backgroundColor == (if p.backgroundColor.Absent? then Some("#667eea") else p.backgroundColor.Get())
      && rec.displayOrder == (if p.displayOrder.Absent? then Some(1) else p.displayOrder.Get())
      && rec.isActive == (if p.isActive.Absent? then Some(true) else p.isActive.Get())
      && rec.isFeatured == (if p.isFeatured.Absent? then Some(false) else p.isFeatured.Get())
  {
    var row := NewSlideRow(id, p, createdAt);
    var all := rows + [row];
    ListedSlidesActive(all);
    if SlideIsActive(row) {
      var q := SlideQuery(all);
      assert row in q;
      var k :| 0 <= k < |q| && q[k] == row;
      assert SlideListing(all)[k] == SlideRecordOf(row);
    }
  }

  /** GET /api/hero-slides lists active slides only. */
  lemma ListedSlidesActive(rows: seq<SlideRow>)
    ensures forall rec :: rec in SlideListing(rows) ==> rec.isActive == Some(true)
  {
    var q := SlideQuery(rows);
    forall rec | rec in SlideListing(rows)
      ensures rec.isActive == Some(true)
    {
      var k :| 0 <= k < |q| && SlideListing(rows)[k] == rec;
      assert q[k] in q;
    }
  }

  /** With distinct ids, each active model is listed exactly once. */
  lemma ActiveModelsListedOnce(rows: seq<ModelRow>)
    requires forall i, j :: 0 <= i < j < |rows| ==> rows[i].id != rows[j].id
    ensures forall r :: r in rows && r.status == Some(Active) ==> multiset(ModelQuery(rows))[r] == 1
  {
    Sql.DistinctOnce(rows);
  }

  /** With distinct ids, each active style is listed exactly once. */
  lemma ActiveStylesListedOnce(rows: seq<StyleRow>)
    requires forall i, j :: 0 <= i < j < |rows| ==> rows[i].id != rows[j].id
    ensures forall r :: r in rows && r.status == Some(Active) ==> multiset(StyleQuery(rows))[r] == 1
  {
    Sql.DistinctOnce(rows);
  }

  /** With distinct ids, each active hero slide is listed exactly once. */
  lemma ActiveSlidesListedOnce(rows: seq<SlideRow>)
    requires forall i, j :: 0 <= i < j < |rows| ==> rows[i].id != rows[j].id
    ensures forall r :: r in rows && r.isActive == Some(true) ==> multiset(SlideQuery(rows))[r] == 1
  {
    Sql.DistinctOnce(rows);
  }

  // ----------------------------------------------------------- upload URLs

  /** The text form of `uuid.uuid4()`: 36 characters. */
  type Uuid = s: string | |s| == 36 witness "00000000-0000-0000-0000-000000000000"

  datatype UploadPayload = UploadPayload(filename: Field<string>, contentType: Field<string>)

  datatype UploadTarget = UploadTarget(uploadUrl: string, filePath: string, publicUrl: string)

  /** How an f-string formats an optional text: None prints as "None". */
  function Formatted(o: Option<string>): (r: string)
    ensures o.Some? ==> r == o.value
    ensures r == "None" <==> o.None? || o == Some("None")
  {
    if o.Some? then o.value else "None"
  }

  /** `f"{uuid}_{filename}"`. */
  function StorageKey(id: Uuid, filename: string): (k: string)
    ensures |k| == 37 + |filename|
    ensures k[..36] == id && k[36] == '_' && k[37..] == filename
  {
    id + "_" + filename
  }

  function PublicUrl(key: string): (u: string)
    ensures |u| == |PublicBase| + |key|
    ensures u[..|PublicBase|] == PublicBase && u[|PublicBase|..] == key
  {
    PublicBase + key
  }

  /** POST /api/upload-url. `sign` stands for the blob store's signed-URL
      service: given the object key and the content type it returns a
      15-minute PUT URL, or None when it raises. */
  function IssueUploadTarget(body: Option<UploadPayload>, freshId: Uuid,
                             sign: (string, Option<string>) -> Option<string>): (r: Result<UploadTarget>)
    ensures body.None? ==> r == Err(HandlerFailed)
    ensures body.Some? ==>
      var key := StorageKey(freshId, Formatted(body.value.filename.Get()));
      var url := sign(key, body.value.contentType.GetOr(DefaultContentType));
      && (r.Ok? <==> url.Some?)
      && (r.Err? ==> r.error == HandlerFailed)
      && (r.Ok? ==> r.value.uploadUrl == url.value)
    ensures r.Ok? ==>
      && |r.value.filePath| > 36
      && r.value.filePath[..36] == freshId
      && r.value.filePath[36..] == "_" + Formatted(body.value.filename.Get())
      && r.value.publicUrl == PublicBase + r.value.filePath
  {
    if body.None? then Err(HandlerFailed)
    else
      var name := Formatted(body.value.filename.Get());
      var key := StorageKey(freshId, name);
      assert key[..36] == freshId && key[36..] == "_" + name;
      var url := sign(key, body.value.contentType.GetOr(DefaultContentType));
      if url.None? then Err(HandlerFailed)
      else Ok(UploadTarget(url.value, key, PublicUrl(key)))
  }

  /** The storage key determines both the fresh id and the filename. */
  lemma StorageKeyInjective(a: Uuid, f: string, b: Uuid, g: string)
    requires StorageKey(a, f) == StorageKey(b, g)
    ensures a == b && f == g
  {
    assert a == StorageKey(a, f)[..36] && f == StorageKey(a, f)[37..];
    assert b == StorageKey(b, g)[..36] && g == StorageKey(b, g)[37..];
  }

  /** Two upload targets issued under different fresh ids never share a
      storage key or a public URL, whatever the filenames. */
  lemma UploadPathsDistinct(b1: Option<UploadPayload>, id1: Uuid, b2: Option<UploadPayload>, id2: Uuid,
                            sign: (string, Option<string>) -> Option<string>)
    requires id1 != id2
    requires IssueUploadTarget(b1, id1, sign).Ok? && IssueUploadTarget(b2, id2, sign).Ok?
    ensures IssueUploadTarget(b1, id1, sign).value.filePath != IssueUploadTarget(b2, id2, sign).value.filePath
    ensures IssueUploadTarget(b1, id1, sign).value.publicUrl != IssueUploadTarget(b2, id2, sign).value.publicUrl
  {
    var t1, t2 := IssueUploadTarget(b1, id1, sign).value, IssueUploadTarget(b2, id2, sign).value;
    assert t1.filePath[..36] == id1 && t2.filePath[..36] == id2;
    assert t1.publicUrl[|PublicBase|..] == t1.filePath;
    assert t2.publicUrl[|PublicBase|..] == t2.filePath;
  }
}

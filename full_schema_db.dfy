/** The four tables of the full-schema API (main.py) and its request
    handlers: each POST inserts one row under a fresh id, each GET runs the
    entity's SELECT and shapes the fetched rows one by one. The tables stand
    in for PostgreSQL; `nextModelId` and its siblings for the SERIAL ids. */
module FullSchemaDb {
  import opened Values
  import opened FullSchema

  /** The body of a successful list reply: the records and their `count`. */
  datatype Listing<T> = Listing(items: seq<T>, count: nat)

  class Database {
    var models: seq<ModelRow>
    var styles: seq<StyleRow>
    var slides: seq<SlideRow>
    var images: seq<ImageRow>
    var nextModelId: nat
    var nextStyleId: nat
    var nextSlideId: nat
    var nextImageId: nat

    /** Ids within a table are distinct and below the table's next id. */
    ghost predicate Valid()
      reads this
    {
      && (forall i :: 0 <= i < |models| ==> models[i].id < nextModelId)
      && (forall i, j :: 0 <= i < j < |models| ==> models[i].id != models[j].id)
      && (forall i :: 0 <= i < |styles| ==> styles[i].id < nextStyleId)
      && (forall i, j :: 0 <= i < j < |styles| ==> styles[i].id != styles[j].id)
      && (forall i :: 0 <= i < |slides| ==> slides[i].id < nextSlideId)
      && (forall i, j :: 0 <= i < j < |slides| ==> slides[i].id != slides[j].id)
      && (forall i :: 0 <= i < |images| ==> images[i].id < nextImageId)
      && (forall i, j :: 0 <= i < j < |images| ==> images[i].id != images[j].id)
    }

    constructor ()
      ensures Valid()
      ensures models == [] && styles == [] && slides == [] && images == []
    {
      models, styles, slides, images := [], [], [], [];
      nextModelId, nextStyleId, nextSlideId, nextImageId := 1, 1, 1, 1;
    }

    /** POST /api/models. */
    method CreateModel(conn: Connection, body: Option<ModelPayload>, createdAt: Option<int>)
      returns (r: Result<nat>)
      requires Valid()
      modifies this
      ensures Valid()
      ensures r == if conn.Unreachable? then Err(ConnectionFailed)
                   else if conn.StatementFails? || body.None? then Err(HandlerFailed)
                   else Ok(old(nextModelId))
      ensures r.Ok? ==> forall i :: 0 <= i < |old(models)| ==> old(models)[i].id != r.value
      ensures r.Ok? ==> models == old(models) + [NewModelRow(r.value, body.value, createdAt)]
                        && nextModelId == old(nextModelId) + 1
      ensures r.Err? ==> models == old(models) && nextModelId == old(nextModelId)
      ensures styles == old(styles) && slides == old(slides) && images == old(images)
      ensures nextStyleId == old(nextStyleId) && nextSlideId == old(nextSlideId)
              && nextImageId == old(nextImageId)
    {
      if conn.Unreachable? {
        return Err(ConnectionFailed);
      }
      if conn.StatementFails? || body.None? {
        return Err(HandlerFailed);
      }
      var id := nextModelId;
      models := models + [NewModelRow(id, body.value, createdAt)];
      nextModelId := nextModelId + 1;
      r := Ok(id);
    }

    /** POST /api/styles. */
    method CreateStyle(conn: Connection, body: Option<StylePayload>, createdAt: Option<int>)
      returns (r: Result<nat>)
      requires Valid()
      modifies this
      ensures Valid()
      ensures r == if conn.Unreachable? then Err(ConnectionFailed)
                   else if conn.StatementFails? || body.None? then Err(HandlerFailed)
                   else Ok(old(nextStyleId))
      ensures r.Ok? ==> forall i :: 0 <= i < |old(styles)| ==> old(styles)[i].id != r.value
      ensures r.Ok? ==> styles == old(styles) + [NewStyleRow(r.value, body.value, createdAt)]
                        && nextStyleId == old(nextStyleId) + 1
      ensures r.Err? ==> styles == old(styles) && nextStyleId == old(nextStyleId)
      ensures models == old(models) && slides == old(slides) && images == old(images)
      ensures nextModelId == old(nextModelId) && nextSlideId == old(nextSlideId)
              && nextImageId == old(nextImageId)
    {
      if conn.Unreachable? {
        return Err(ConnectionFailed);
      }
      if conn.StatementFails? || body.None? {
        return Err(HandlerFailed);
      }
      var id := nextStyleId;
      styles := styles + [NewStyleRow(id, body.value, createdAt)];
      nextStyleId := nextStyleId + 1;
      r := Ok(id);
    }

    /** POST /api/hero-slides. */
    method CreateSlide(conn: Connection, body: Option<SlidePayload>, createdAt: Option<int>)
      returns (r: Result<nat>)
      requires Valid()
      modifies this
      ensures Valid()
      ensures r == if conn.Unreachable? then Err(ConnectionFailed)
                   else if conn.StatementFails? || body.None? then Err(HandlerFailed)
                   else Ok(old(nextSlideId))
      ensures r.Ok? ==> forall i :: 0 <= i < |old(slides)| ==> old(slides)[i].id != r.value
      ensures r.Ok? ==> slides == old(slides) + [NewSlideRow(r.value, body.value, createdAt)]
                        && nextSlideId == old(nextSlideId) + 1
      ensures r.Err? ==> slides == old(slides) && nextSlideId == old(nextSlideId)
      ensures models == old(models) && styles == old(styles) && images == old(images)
      ensures nextModelId == old(nextModelId) && nextStyleId == old(nextStyleId)
              && nextImageId == old(nextImageId)
    {
      if conn.Unreachable? {
        return Err(ConnectionFailed);
      }
      if conn.StatementFails? || body.None? {
        return Err(HandlerFailed);
      }
      var id := nextSlideId;
      slides := slides + [NewSlideRow(id, body.value, createdAt)];
      nextSlideId := nextSlideId + 1;
      r := Ok(id);
    }

    /** POST /api/images/confirm: records the image whatever it points at. */
    method ConfirmImage(conn: Connection, body: Option<ImagePayload>)
      returns (r: Result<nat>)
      requires Valid()
      modifies this
      ensures Valid()
      ensures r == if conn.Unreachable? then Err(ConnectionFailed)
                   else if conn.StatementFails? || body.None? then Err(HandlerFailed)
                   else Ok(old(nextImageId))
      ensures r.Ok? ==> forall i :: 0 <= i < |old(images)| ==> old(images)[i].id != r.value
      ensures r.Ok? ==> images == old(images) + [NewImageRow(r.value, body.value)]
                        && nextImageId == old(nextImageId) + 1
      ensures r.Err? ==> images == old(images) && nextImageId == old(nextImageId)
      ensures models == old(models) && styles == old(styles) && slides == old(slides)
      ensures nextModelId == old(nextModelId) && nextStyleId == old(nextStyleId)
              && nextSlideId == old(nextSlideId)
    {
      if conn.Unreachable? {
        return Err(ConnectionFailed);
      }
      if conn.StatementFails? || body.None? {
        return Err(HandlerFailed);
      }
      var id := nextImageId;
      images := images + [NewImageRow(id, body.value)];
      nextImageId := nextImageId + 1;
      r := Ok(id);
    }

    /** GET /api/models: the shaped active models, newest first, and their count. */
    method ListModels(conn: Connection) returns (r: Result<Listing<ModelRecord>>)
      ensures conn.Unreachable? ==> r == Err(ConnectionFailed)
      ensures conn.StatementFails? ==> r == Err(HandlerFailed)
      ensures conn.Reachable? ==> r.Ok? && r.value.items == ModelListing(models)
                                  && r.value.count == |r.value.items|
    {
      if conn.Unreachable? {
        return Err(ConnectionFailed);
      }
      if conn.StatementFails? {
        return Err(HandlerFailed);
      }
      var out := ShapeModels(ModelQuery(models));
      r := Ok(Listing(out, |out|));
    }

    /** GET /api/styles: the shaped active styles, newest first, and their count. */
    method ListStyles(conn: Connection) returns (r: Result<Listing<StyleRecord>>)
      ensures conn.Unreachable? ==> r == Err(ConnectionFailed)
      ensures conn.StatementFails? ==> r == Err(HandlerFailed)
      ensures conn.Reachable? ==> r.Ok? && r.value.items == StyleListing(styles)
                                  && r.value.count == |r.value.items|
    {
      if conn.Unreachable? {
        return Err(ConnectionFailed);
      }
      if conn.StatementFails? {
        return Err(HandlerFailed);
      }
      var out := ShapeStyles(StyleQuery(styles));
      r := Ok(Listing(out, |out|));
    }

    /** GET /api/hero-slides: the active slides by display order, and their count. */
    method ListSlides(conn: Connection) returns (r: Result<Listing<SlideRecord>>)
      ensures conn.Unreachable? ==> r == Err(ConnectionFailed)
      ensures conn.StatementFails? ==> r == Err(HandlerFailed)
      ensures conn.Reachable? ==> r.Ok? && r.value.items == SlideListing(slides)
                                  && r.value.count == |r.value.items|
    {
      if conn.Unreachable? {
        return Err(ConnectionFailed);
      }
      if conn.StatementFails? {
        return Err(HandlerFailed);
      }
      var out := ShapeSlides(SlideQuery(slides));
      r := Ok(Listing(out, |out|));
    }
  }

  /** The handler's loop over `cursor.fetchall()`: one record appended per fetched row. */
  method ShapeModels(fetched: seq<ModelRow>) returns (out: seq<ModelRecord>)
    ensures out == ModelRecords(fetched)
  {
    out := [];
    for i := 0 to |fetched|
      invariant |out| == i
      invariant forall k :: 0 <= k < i ==> out[k] == ModelRecordOf(fetched[k])
    {
      out := out + [ModelRecordOf(fetched[i])];
    }
  }

  /** The handler's loop over `cursor.fetchall()`: one record appended per fetched row. */
  method ShapeStyles(fetched: seq<StyleRow>) returns (out: seq<StyleRecord>)
    ensures out == StyleRecords(fetched)
  {
    out := [];
    for i := 0 to |fetched|
      invariant |out| == i
      invariant forall k :: 0 <= k < i ==> out[k] == StyleRecordOf(fetched[k])
    {
      out := out + [StyleRecordOf(fetched[i])];
    }
  }

  /** The handler's loop over `cursor.fetchall()`: one record appended per fetched row. */
  method ShapeSlides(fetched: seq<SlideRow>) returns (out: seq<SlideRecord>)
    ensures out == SlideRecords(fetched)
  {
    out := [];
    for i := 0 to |fetched|
      invariant |out| == i
      invariant forall k :: 0 <= k < i ==> out[k] == SlideRecordOf(fetched[k])
    {
      out := out + [SlideRecordOf(fetched[i])];
    }
  }
}

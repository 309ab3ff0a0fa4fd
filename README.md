# CyberChicModels backend, modelled in Dafny

This project models the request handlers of the CyberChicModels backend. The repository has three variants, and each one is modelled separately. Their schemas are not merged.

- **Full-schema API** (`main.py`, modules `FullSchema` and `FullSchemaDb`):
  - create and list models, styles and hero slides;
  - issue a signed upload target;
  - record a confirmed image.

  A `Database` class holds the four tables as sequences, with one id counter per table standing in for the SERIAL ids. Each POST handler is a method that appends one row with the handler's defaults. Each GET handler is a method that runs the entity's `WHERE … ORDER BY …` and shapes the fetched rows in a loop. The database itself is represented by a `Connection` parameter:
  - no connection gives the "Database connection failed" 500;
  - a statement that raises gives the handler's `except` 500.
- **Collections variant** (`src/main_backup.py`, module `CollectionsApp`). `Model.to_dict` does three things:
  - splits `specialties` on commas;
  - builds one `<collection_type>_photos` key per image collection of the model, in a loop where a later collection of the same type overwrites an earlier one;
  - merges those keys into the base fields.

  The module also covers the model list and the static-file fallback route.
- **Slug variant** (`src/main.py`, module `SlugApp`): the flat projections of models and images, the model list, the images of one model, and lookup by slug with the images attached.

Shared modules:
- `Values`: `Option`, a `Field` type for a JSON body key that is absent, null or given (`dict.get` semantics), and JSON values.
- `Sql`: a WHERE filter that keeps the order of its input, and ORDER BY on a nullable integer key with PostgreSQL's default NULL placement. NULLs sort last for ASC and first for DESC.
- `CommaList`: Python's `str.split(',')` and `",".join`, with the round trips between them.

## Model

| member | source | states |
|---|---|---|
| Values.Field.Get | main.py:121-130 | `data.get(key)`: a value exactly when the key is given, and that value |
| Values.Field.GetOr | main.py:131-135 | `data.get(key, default)`: null exactly when the key is given as null, the default when the key is absent, and otherwise the given value |
| Sql.Where | main.py:67 | `WHERE p` keeps exactly the rows satisfying `p` |
| Sql.WhereCount | main.py:67 | WHERE keeps each satisfying row as often as it is stored, and drops the others |
| Sql.WhereAppend | main.py:62-69 | the filter distributes over concatenation, so it keeps the order of its input |
| Sql.OrderBy | main.py:68 | `ORDER BY key [DESC]` returns a permutation of its input (same multiset), sorted with NULLs last for ASC and first for DESC |
| Sql.Select | main.py:62-69 | `SELECT … WHERE p ORDER BY key`: exactly the satisfying rows, each as often as stored, in sorted order |
| CommaList.Split | src/main_backup.py:78 | `str.split(',')` always yields at least one piece |
| CommaList.Join | src/main_backup.py:78 | `",".join`; its round trips with Split are stated by JoinSplit and SplitJoin |
| CommaList.SplitPiecesCommaFree | src/main_backup.py:78 | no piece produced by `split(',')` contains a comma |
| CommaList.JoinSplit | src/main_backup.py:78 | joining the pieces of `split(',')` with "," gives back the original text |
| CommaList.SplitJoin | src/main_backup.py:78 | splitting a join of one or more comma-free pieces gives back those pieces |
| FullSchema.NewModelRow | main.py:118-137 | the inserted model row: the new id and timestamp, and status 'active'. Every given value is stored as given, and a text or number key that is absent or null is stored as NULL. `is_featured` false, `is_new` true, `is_coming` false, `is_popular` false and `price_usd` 0 apply only when the key is absent; an explicit null stays NULL |
| FullSchema.ModelRecordOf | main.py:73-92 | a fetched row shapes to a record that carries every column back; a NULL price is listed as 0 |
| FullSchema.EncodeList | main.py:214-215 | `json.dumps(data.get(key, []))`: null when the key is null, `[]` when it is absent, the list otherwise |
| FullSchema.NewStyleRow | main.py:208-219 | the inserted style row, with status 'active'. Name, category and description are stored as given, or NULL. Colours and sizes are stored as `json.dumps` of the given list, `[]` when absent. Price and `is_featured` are stored as given, 0 and false when absent, and NULL when null |
| FullSchema.StyleRecordOf | main.py:171-183 | the same as ModelRecordOf, for styles |
| FullSchema.NewSlideRow | main.py:292-304 | the inserted slide row. The text fields are stored as given, or NULL. Background "#667eea", display order 1, active and not featured apply only when the key is absent. A given value is stored as given, and an explicit null stays NULL |
| FullSchema.SlideRecordOf | main.py:253-266 | a fetched slide row shapes to a record that carries every column back |
| FullSchema.NewImageRow | main.py:366-374 | the inserted image row stores `entity_type`, `entity_id`, `image_type`, `file_path`, `public_url` and `description` exactly as given, without any check, and NULL when they are not given. The display order is the given one, 1 when absent and NULL when null |
| FullSchema.PriceOrZero | main.py:89 | `float(v) if v else 0`: the listed price is 0 exactly when the stored price is NULL or 0, and otherwise it is the stored price |
| FullSchema.ModelQuery | main.py:62-69 | the models query returns exactly the rows with status 'active', once per stored occurrence, ordered by `created_at` newest first with NULL timestamps first |
| FullSchema.StyleQuery | main.py:161-167 | the styles query returns exactly the active rows, once per stored occurrence, ordered by `created_at` DESC |
| FullSchema.SlideQuery | main.py:243-249 | the hero-slides query returns exactly the rows with `is_active = true`, once per stored occurrence, ordered by `display_order` ASC with NULL last |
| FullSchema.CreatedModelIsListed | main.py:113-140 | a created model appears in the next listing. Supplied fields are echoed, `is_featured`/`is_new`/`is_coming`/`is_popular`/`price_usd` defaults apply only to absent keys, an explicit null price is listed as 0, and status is "active" |
| FullSchema.CreatedStyleIsListed | main.py:204-221 | a created style appears in the next listing. Colours and sizes are kept as given, with `[]` when absent and null when null. The price is 0 unless given, and status is "active" |
| FullSchema.CreatedSlideIsListed | main.py:287-306 | a created hero slide is listed iff `is_active` is absent or true. Absent keys take the defaults "#667eea", display order 1, active and not featured |
| FullSchema.ListedSlidesActive | main.py:243-249 | every hero slide GET /api/hero-slides lists has `is_active` true |
| FullSchema.ActiveModelsListedOnce | main.py:62-69 | with distinct ids, every active model appears exactly once in the query result |
| FullSchema.ActiveStylesListedOnce | main.py:161-167 | with distinct ids, every active style appears exactly once in the query result |
| FullSchema.ActiveSlidesListedOnce | main.py:243-249 | with distinct ids, every active hero slide appears exactly once in the query result |
| FullSchema.IssueUploadTarget | main.py:319-348 | a null body gives a 500. The key is `<uuid>_<filename>`, with a missing or null filename formatted as "None". The signer receives the content type, which is "image/jpeg" only when the key is absent. The call succeeds iff signing succeeds. The public URL is the bucket base followed by the key |
| FullSchema.Formatted | main.py:328 | an f-string field: the text itself, or "None" for a missing value |
| FullSchema.StorageKey | main.py:328 | `<uuid>_<filename>`: the 36-character uuid, one underscore, then the filename |
| FullSchema.PublicUrl | main.py:344 | the bucket's public base followed by exactly the key |
| FullSchema.StorageKeyInjective | main.py:328 | the key `<uuid>_<filename>` determines both the uuid and the filename |
| FullSchema.UploadPathsDistinct | main.py:328-345 | targets issued under different uuids never share a storage key or a public URL |
| FullSchemaDb.Database.CreateModel | main.py:105-150 | an unreachable database gives "connection failed". A failing statement or a null body gives a 500 and changes nothing. Otherwise the method appends exactly the defaulted row with status "active", under a fresh id not among the old ids, and returns that id. The other tables are unchanged, and ids stay distinct |
| FullSchemaDb.Database.CreateStyle | main.py:196-232 | the same as CreateModel, for the styles table and its defaults |
| FullSchemaDb.Database.CreateSlide | main.py:279-317 | the same as CreateModel, for the hero-slides table and its defaults |
| FullSchemaDb.Database.ConfirmImage | main.py:350-387 | the same as CreateModel, for the images table. The appended row is NewImageRow's, so the confirmed metadata is stored as given and the display order defaults to 1 |
| FullSchemaDb.Database.ListModels | main.py:53-103 | errors follow the connection. Otherwise the items are the shaped query result (active models, newest first) and `count` is their number |
| FullSchemaDb.Database.ListStyles | main.py:155-194 | the same as ListModels, for styles |
| FullSchemaDb.Database.ListSlides | main.py:237-277 | the same as ListModels, for hero slides |
| FullSchemaDb.ShapeModels | main.py:71-92 | the `fetchall` loop yields one record per fetched row, in fetched order, each shaped by the row-to-record mapping |
| FullSchemaDb.ShapeStyles | main.py:169-183 | the same for styles |
| FullSchemaDb.ShapeSlides | main.py:251-266 | the same for hero slides |
| CollectionsApp.SplitOrEmpty | src/main_backup.py:78 | `text.split(',') if text else []`: the result is empty exactly when the text is NULL or "" |
| CollectionsApp.SplitOrEmptyJoins | src/main_backup.py:63 | the pieces are comma-free and join back to the stored text |
| CollectionsApp.CollectionsOf | src/main_backup.py:60 | `filter_by(model_id=…).all()` returns exactly the collections of that model |
| CollectionsApp.CollectionsOfAppend | src/main_backup.py:60 | `filter_by(model_id=…)` distributes over concatenation, so the collections come in the order the query returns the rows |
| CollectionsApp.PhotoCollections | src/main_backup.py:61-63 | `collections_dict` after the loop has visited a prefix of the collections; its promises are stated by the PhotoKey lemmas below |
| CollectionsApp.PhotoKeyInjective | src/main_backup.py:63 | distinct collection types give distinct `<type>_photos` keys |
| CollectionsApp.PhotoKeysOnly | src/main_backup.py:61-63 | the loop writes only keys ending in "_photos" |
| CollectionsApp.PhotoKeyWritten | src/main_backup.py:62-63 | the loop writes the key of every collection it visits |
| CollectionsApp.PhotoKeyFromSome | src/main_backup.py:62-63 | every written key is the key of some visited collection's type |
| CollectionsApp.PhotoKeyPresent | src/main_backup.py:61-63 | after the loop, a type's key is present iff some collection has that type |
| CollectionsApp.PhotoKeyLastWins | src/main_backup.py:61-63 | the key holds the split URLs of the last collection of that type, in the order the loop visits them |
| CollectionsApp.BaseFields | src/main_backup.py:65-84 | the fixed part of `to_dict`; that the merge keeps it is stated by BaseFieldsSurviveMerge |
| CollectionsApp.ModelDict | src/main_backup.py:58-88 | what `to_dict` returns; its promises are stated by BaseFieldsSurviveMerge, PhotoEntry, ModelDictLastWins and ModelDictPhotos |
| CollectionsApp.BaseFieldsSurviveMerge | src/main_backup.py:65-87 | `result.update(collections_dict)` never overwrites a base field, because no base field name ends in "_photos" |
| CollectionsApp.PhotoEntry | src/main_backup.py:87 | after `result.update(collections_dict)`, a `<type>_photos` key is present and valued exactly as in `collections_dict` |
| CollectionsApp.ModelDictLastWins | src/main_backup.py:58-88 | in `to_dict`, a type's key holds the split URLs of the model's last collection of that type |
| CollectionsApp.ModelDictPhotos | src/main_backup.py:58-88 | a `<type>_photos` key is in `to_dict` iff a collection of this model has that type, and it holds the split URLs of the last such collection in the order the query returns them |
| CollectionsApp.CollectPhotos | src/main_backup.py:61-63 | the `for collection in collections` loop builds exactly `PhotoCollections` of the collections it visits |
| CollectionsApp.ToDict | src/main_backup.py:58-88 | filtering, the collections loop, and `result.update` together compute the dictionary `ModelDict` defines |
| CollectionsApp.GetModels | src/main_backup.py:96-102 | one `to_dict` per model, unfiltered, in the order `Model.query.all()` returns them |
| CollectionsApp.Serve | src/main_backup.py:121-135 | with no static folder, 404 "Static folder not configured". Otherwise a non-empty existing path is served; any other path, including "" for GET /, serves `index.html` when it exists, and otherwise gives 404 "index.html not found" |
| SlugApp.ModelToDict | src/main.py:30-36 | the projection has exactly the keys id, slug, name and thumbnail_url |
| SlugApp.ImageToDict | src/main.py:45-51 | the projection has exactly the keys id, model_id, collection and image_url |
| SlugApp.ModelDictRoundTrip | src/main.py:30-36 | a model is read back unchanged from its projection |
| SlugApp.ImageDictRoundTrip | src/main.py:45-51 | an image is read back unchanged from its projection |
| SlugApp.ImagesOf | src/main.py:72 | `filter_by(model_id=…)` keeps exactly the images of that model |
| SlugApp.ImagesOfAppend | src/main.py:72 | the filter distributes over concatenation, so the images come in the order the query returns the rows |
| SlugApp.GetModels | src/main.py:61-67 | one projection per model, in the order `Model.query.all()` returns them. Each has exactly the keys id, slug, name and thumbnail_url, and reads back as that model |
| SlugApp.GetModelImages | src/main.py:69-75 | one projection per image of that model, in the order the query returns them. Each has exactly the keys id, model_id, collection and image_url, and reads back as that image |
| SlugApp.FirstWithSlug | src/main.py:80 | `filter_by(slug=…).first()`: None iff no model has the slug; otherwise the index of the first one in the order the query returns the models |
| SlugApp.GetModelBySlug | src/main.py:77-91 | 404 iff no model has the slug. Otherwise the body has exactly the projection's keys plus `images`, reads back as the first model with the slug, and `images` lists that model's image projections in the order the query returns them |
| SlugApp.AttachedImages | src/main.py:84-87 | `images` is a list with one object per image of the model. Each object has exactly the keys id, model_id, collection and image_url, and reads back as that image |

## Left out

- HTTP routing, CORS, status codes as numbers, and the health endpoints. Replies are results. The error messages of the full-schema handlers are reduced to the two error kinds.
- The database server and drivers (psycopg2, SQLAlchemy sessions, `init_db`, credentials). Tables are sequences in the model.
  - The value the database assigns to `created_at` is a parameter.
  - Database type coercion and constraint checks are not modelled.
  - In the model, a failed statement does not consume a SERIAL value.
- JSON body values of the wrong type, for example a string where a number is expected. The payloads are typed per key.
- `request.get_json()` raising on a malformed body, which happens before the connection attempt. A null body is modelled as failing inside the handler's `try`, after the connection check.
- Prices are floats in the source and integers in the model. The 0/non-zero distinction of `float(v) if v else 0` is kept.
- Timestamps are integers; `isoformat()` is not modelled.
- `json.dumps` text for the style colours and sizes. The stored value is the list itself, or null.
- The blob store's URL signing (v4, PUT, 15-minute expiry) is a function parameter. `uuid.uuid4()` is a parameter of 36 characters. Distinct uuids are the premise of `FullSchema.UploadPathsDistinct`.
- The file system of the static route. File existence is a parameter, and `os.path.join` and `send_from_directory` path checks are not modelled.
- The ORDER BY order of rows with equal keys. PostgreSQL leaves it open; the model fixes one.
- The row order of queries without ORDER BY: `filter_by(...).all()` and `Model.query.all()` in `src/main_backup.py:60,99` and `src/main.py:64,72,84`, and `.first()` in `src/main.py:80`. PostgreSQL leaves that order open. The model takes a table's sequence of rows as the order these queries return, so "the last collection of a type wins" and "the first model with the slug" are relative to that order.
- Exceptions raised by the SQLAlchemy queries in the two `src/` variants (their 500 replies). The collections and slug functions model the successful path only.
- `get_models_alt` in `src/main_backup.py:105-107`. It only delegates to `get_models`, which is modelled as `CollectionsApp.GetModels`.

# gis_grabber: the JSON-to-shapefile conversion

The grabber fetches geospatial events as GeoJSON-like JSON and turns each
response into a point shapefile. This project models the conversion step:
`ShapeCreator` and `Grabber.create_shape` in `grabber.py`. It also models
how `Grabber.__init__` picks its logger's level.

- `shapefile.dfy` (module `Shapefile`): the pyshp writer as an abstract
  object. Class `Writer` holds three append-only sequences: fields
  (name, type, width), points (opaque coordinate sequences) and records
  (opaque value sequences). It also holds the list of targets it was saved
  to. A ghost `trace` logs every call in order, and `Valid()` ties each
  sequence to its projection of the trace (`FieldsOf`, `PointsOf`,
  `RecordsOf`, `SavesOf`).
- `grabber.dfy` (module `Grabber`): `Feature`, `Page` and `Task` as
  datatypes. A feature's properties are an ordered sequence of
  (key, value) pairs, since decoded JSON objects keep insertion order.
  Class `ShapeCreator` has methods `SetFields`, `AddFeature` and
  `MakeShape`. Method `CreateShape` is proved against `ConversionTrace`,
  the full sequence of writer calls that a conversion makes. The lemmas
  then state what that trace writes.
- `log_level.dfy` (module `LogLevel`): the level lookup with its fallback
  to DEBUG, as a pure function.

Two behaviours of the code are worth knowing:
- On an empty feature list, the code raises `IndexError` from
  `page['features'][0]`; it has no dedicated error for this case. The
  creator has already been constructed by then, but nothing has been
  written or saved.
- The code does not check that later features use the first feature's
  keys. Records are written positionally (`SwappedKeysMisalignColumns`
  shows the effect).

## Model

| member | source | states |
|---|---|---|
| Shapefile.Writer.constructor | grabber.py:17 | a new point writer has no fields, points or records and has never been saved |
| Shapefile.Writer.AddField | grabber.py:21 | `field` appends exactly one field (name, type, width) and changes nothing else |
| Shapefile.Writer.Point | grabber.py:26 | `point` appends the given coordinates unchanged as one point and changes nothing else |
| Shapefile.Writer.Record | grabber.py:27 | `record` appends the given values, in order, as one record and changes nothing else |
| Shapefile.Writer.Save | grabber.py:30 | `save` records one save to the target and leaves fields, points and records as they were |
| Grabber.ShapeCreator.constructor | grabber.py:15-17 | the creator keeps the filename and owns a fresh, empty writer |
| Grabber.ShapeCreator.SetFields | grabber.py:19-21 | one text field ('C', width 50) per name, in the names' order, appended after the existing fields; points, records and saves unchanged |
| Grabber.ShapeCreator.AddFeature | grabber.py:23-27 | exactly one point (the geometry's coordinates verbatim) and exactly one record (the properties' values in their own order) are appended; fields and saves unchanged |
| Grabber.ShapeCreator.MakeShape | grabber.py:29-30 | the dataset is saved once more, to the creator's filename; its contents are unchanged |
| Grabber.CreateShape | grabber.py:63-72 | empty feature list: `IndexError`, nothing written and nothing saved; otherwise the writer's calls are exactly `ConversionTrace`, the schema is the first feature's keys, point i and record i come from feature i, and there is exactly one save, to the task's file |
| Grabber.FieldOpsWrite | grabber.py:19-21 | the calls of `set_fields` register exactly the schema of their names and write no point, record or save |
| Grabber.FeatureOpsWrite | grabber.py:66-68 | adding features writes one point and one record per feature, in input order, and no field or save |
| Grabber.ConversionWritesEveryFeature | grabber.py:63-72 | for a non-empty list: fields = schema of the first feature's keys (as many as it has keys); #points = #records = #features; point i and record i come from feature i; saves = [file] |
| Grabber.SavedOnceAtTheEnd | grabber.py:63-72 | the save is the last writer call of a conversion and no earlier call is a save, so nothing is written after it |
| Grabber.RecordIsPositional | grabber.py:27 | column j of record i holds feature i's j-th value, while column j is named after the first feature's j-th key (no re-keying) |
| Grabber.SwappedKeysMisalignColumns | grabber.py:65-68 | with keys in opposite orders, the second record's "mag" column receives the second feature's "place" value |
| Grabber.OneQuakeExample | grabber.py:63-72 | `{"mag": "4.5", "place": "Crimea"}` at (34.1, 44.9) gives fields mag and place ('C', 50), one point (34.1, 44.9), one record ["4.5", "Crimea"] and one save |
| LogLevel.ResolveLevel | grabber.py:46-51 | a known level name with a nonzero value is used unchanged with no error; an unknown name or NOTSET (value 0, falsy) yields DEBUG with exactly one error; the result is always a nonzero standard level |
| LogLevel.NotsetFallsBackToDebug | grabber.py:46-48 | "NOTSET" names a level but still falls back to DEBUG with an error, unlike "DEBUG", which gives DEBUG with no error |

## Left out

- `Grabber.get`, `process_url` and `run` are not modelled. They cover the HTTP fetch, JSON decoding, the `asyncio.Semaphore(5)` bound, `asyncio.wait` and event-loop handling. This is I/O and concurrency.
- The doubled call of `create_shape` in `process_url` is not modelled. The conversion runs once through `run_in_executor` and once inline. This is a concurrency artefact, so the model runs the conversion once per task.
- The binary shapefile encoding done by the pyshp library is not modelled. The writer's `field`, `point`, `record` and `save` calls become appends and a save log on an abstract writer.
- pyshp's own argument checks are not modelled: `point(*coords)` with fewer than two or more than four coordinates, and a record whose length differs from the number of fields. Coordinates and values are opaque type parameters, and no numeric reasoning is done on them.
- The error paths of `create_shape` other than the empty feature list are not modelled, because the `Page` and `Feature` datatypes cannot express their inputs. These are a page without a `"features"` key (`KeyError` at grabber.py:65), a feature without a `geometry`, `coordinates` or `properties` key (`KeyError`), a `null` `"properties"` (`AttributeError` on `.keys()` or `.values()` at grabber.py:65 and 27), and a `null` `"geometry"` (`TypeError` at grabber.py:25).
- Property keys are not required to be distinct. A decoded JSON object has distinct keys, but the conversion does not rely on this.
- Logging setup and format, the debug line after each conversion, `os.getpid` and the `__main__` task list are not modelled.
- LogLevel.ResolveLevel: only the eight level constants of `logging` are modelled as lookup results. `getattr(logging, name)` on any other attribute of the module (a function such as `debug`, a string such as `BASIC_FORMAT`, a flag such as `raiseExceptions`) returns a truthy non-level value that `setLevel` then rejects or misreads. The model treats such a name as unknown.

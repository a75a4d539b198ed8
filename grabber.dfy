/** The JSON-to-shapefile conversion of the grabber: `ShapeCreator` and
    `Grabber.create_shape`. A decoded response is a sequence of features;
    coordinates (`C`) and property values (`V`) are opaque. */
module Grabber {
  import opened Shapefile

  /** `feature['geometry']`; only its coordinates are read. */
  datatype Geometry<C> = Geometry(coordinates: seq<C>)

  /** One decoded feature. The properties keep the insertion order of the
      decoded JSON object. */
  datatype Feature<C, V> = Feature(geometry: Geometry<C>, properties: seq<(string, V)>)

  /** The decoded response body, `{"features": [...]}`. */
  datatype Page<C, V> = Page(features: seq<Feature<C, V>>)

  /** One fetch-and-convert job; only `file` is used by the conversion. */
  datatype Task<P> = Task(url: string, params: P, file: string)

  /** How `create_shape` ends on the pages these datatypes can express:
      normally, or with the `IndexError` raised by `page['features'][0]` on an
      empty feature list. */
  datatype Outcome = Completed | IndexError

  /** Every field is a character field (`'C'`) of width 50. */
  const TextKind: char := 'C'
  const TextWidth: nat := 50

  /** `properties.keys()`, in iteration order. */
  function Keys<V>(properties: seq<(string, V)>): (ks: seq<string>)
    ensures |ks| == |properties|
  {
    seq(|properties|, i requires 0 <= i < |properties| => properties[i].0)
  }

  /** `properties.values()`, in iteration order. */
  function Values<V>(properties: seq<(string, V)>): (vs: seq<V>)
    ensures |vs| == |properties|
  {
    seq(|properties|, i requires 0 <= i < |properties| => properties[i].1)
  }

  /** The schema for a list of field names: one text field of width 50 per name. */
  function SchemaFields(names: seq<string>): (fs: seq<Field>)
    ensures |fs| == |names|
  {
    seq(|names|, i requires 0 <= i < |names| => Field(names[i], TextKind, TextWidth))
  }

  /** The writer calls made by `set_fields(names)`. */
  function FieldOps<C, V>(names: seq<string>): seq<Op<C, V>>
  {
    if names == [] then []
    else FieldOps(names[..|names| - 1]) + [FieldCall(Field(names[|names| - 1], TextKind, TextWidth))]
  }

  /** The writer calls made by `add_feature` for one feature. */
  function FeatureStep<C, V>(f: Feature<C, V>): seq<Op<C, V>>
  {
    [PointCall(f.geometry.coordinates), RecordCall(Values(f.properties))]
  }

  /** The writer calls made by adding each of `fs` in turn. */
  function FeatureOps<C, V>(fs: seq<Feature<C, V>>): seq<Op<C, V>>
  {
    if fs == [] then [] else FeatureOps(fs[..|fs| - 1]) + FeatureStep(fs[|fs| - 1])
  }

  /** All writer calls of a conversion of a non-empty feature list. */
  function ConversionTrace<C, V>(fs: seq<Feature<C, V>>, file: string): seq<Op<C, V>>
    requires |fs| > 0
  {
    FieldOps(Keys(fs[0].properties)) + FeatureOps(fs) + [SaveCall(file)]
  }

  /** `ShapeCreator`: a target filename and the writer it fills. */
  class ShapeCreator<C, V> {
    const filename: string
    const w: Writer<C, V>

    ghost predicate Valid()
      reads w
    {
      w.Valid()
    }

    /** `ShapeCreator(filename)`: a fresh, empty point writer. */
    constructor (filename: string)
      ensures this.filename == filename && fresh(w)
      ensures Valid() && w.trace == []
      ensures w.fields == [] && w.points == [] && w.records == [] && w.saves == []
    {
      this.filename := filename;
      w := new Writer();
    }

    /** `set_fields(field_list)`: one text field of width 50 per name, in order,
        after the fields already registered. */
    method SetFields(fieldList: seq<string>)
      requires Valid()
      modifies w
      ensures Valid() && w.trace == old(w.trace) + FieldOps(fieldList)
      ensures w.fields == old(w.fields) + SchemaFields(fieldList)
      ensures w.points == old(w.points) && w.records == old(w.records) && w.saves == old(w.saves)
    {
      var i := 0;
      while i < |fieldList|
        invariant 0 <= i <= |fieldList|
        invariant Valid() && w.trace == old(w.trace) + FieldOps<C, V>(fieldList[..i])
        invariant w.fields == old(w.fields) + SchemaFields(fieldList[..i])
        invariant w.points == old(w.points) && w.records == old(w.records) && w.saves == old(w.saves)
      {
        w.AddField(fieldList[i], TextKind, TextWidth);
        assert fieldList[..i + 1][..i] == fieldList[..i];
        assert SchemaFields(fieldList[..i + 1]) == SchemaFields(fieldList[..i]) + [Field(fieldList[i], TextKind, TextWidth)];
        i := i + 1;
      }
      assert fieldList[..i] == fieldList;
    }

    /** `add_feature(geometry, properties)`: one point holding the coordinates
        as given and one record holding the property values in their own order. */
    method AddFeature(geometry: Geometry<C>, properties: seq<(string, V)>)
      requires Valid()
      modifies w
      ensures Valid() && w.trace == old(w.trace) + FeatureStep(Feature(geometry, properties))
      ensures w.points == old(w.points) + [geometry.coordinates]
      ensures w.records == old(w.records) + [Values(properties)]
      ensures w.fields == old(w.fields) && w.saves == old(w.saves)
    {
      var points := geometry.coordinates;
      w.Point(points);
      w.Record(Values(properties));
    }

    /** `make_shape()`: save the dataset under this creator's filename. */
    method MakeShape()
      requires Valid()
      modifies w
      ensures Valid() && w.trace == old(w.trace) + [SaveCall(filename)]
      ensures w.saves == old(w.saves) + [filename]
      ensures w.fields == old(w.fields) && w.points == old(w.points) && w.records == old(w.records)
    {
      w.Save(filename);
    }
  }

  /** `Grabber.create_shape(page, task)`: build the schema from the first
      feature's keys, add every feature in order, then save once. On an empty
      feature list the creator exists but nothing is written or saved. */
  method CreateShape<C, V, P>(page: Page<C, V>, task: Task<P>)
    returns (creator: ShapeCreator<C, V>, outcome: Outcome)
    ensures fresh(creator) && fresh(creator.w) && creator.filename == task.file && creator.Valid()
    ensures outcome == (if page.features == [] then IndexError else Completed)
    ensures page.features == [] ==> creator.w.trace == []
    ensures page.features == [] ==>
      creator.w.fields == [] && creator.w.points == [] && creator.w.records == [] && creator.w.saves == []
    ensures page.features != [] ==> creator.w.trace == ConversionTrace(page.features, task.file)
    ensures page.features != [] ==>
      creator.w.fields == SchemaFields(Keys(page.features[0].properties)) &&
      |creator.w.points| == |page.features| && |creator.w.records| == |page.features| &&
      (forall i :: 0 <= i < |page.features| ==>
         creator.w.points[i] == page.features[i].geometry.coordinates &&
         creator.w.records[i] == Values(page.features[i].properties)) &&
      creator.w.saves == [task.file]
  {
    creator := new ShapeCreator(task.file);
    if page.features == [] {
      return creator, IndexError;
    }
    var fs := page.features;
    creator.SetFields(Keys(fs[0].properties));
    var i := 0;
    while i < |fs|
      invariant 0 <= i <= |fs|
      invariant creator.Valid()
      invariant creator.w.trace == FieldOps(Keys(fs[0].properties)) + FeatureOps(fs[..i])
    {
      creator.AddFeature(fs[i].geometry, fs[i].properties);
      assert fs[..i + 1][..i] == fs[..i];
      i := i + 1;
    }
    assert fs[..i] == fs;
    creator.MakeShape();
    ConversionWritesEveryFeature(fs, task.file);
    outcome := Completed;
  }

  /** `set_fields` registers exactly the schema of its names and nothing else. */
  lemma {:induction false} FieldOpsWrite<C, V>(names: seq<string>)
    ensures FieldsOf(FieldOps<C, V>(names)) == SchemaFields(names)
    ensures PointsOf(FieldOps<C, V>(names)) == [] && RecordsOf(FieldOps<C, V>(names)) == []
    ensures SavesOf(FieldOps<C, V>(names)) == []
  {
    if names != [] {
      var init := names[..|names| - 1];
      FieldOpsWrite<C, V>(init);
      ProjectionsAppend(FieldOps<C, V>(init), [FieldCall(Field(names[|names| - 1], TextKind, TextWidth))]);
      assert [Op<C, V>.FieldCall(Field(names[|names| - 1], TextKind, TextWidth))][..0] == [];
      assert SchemaFields(names) == SchemaFields(init) + [Field(names[|names| - 1], TextKind, TextWidth)];
    }
  }

  /** Adding features writes one point and one record per feature, in order,
      and neither fields nor saves. */
  lemma {:induction false} FeatureOpsWrite<C, V>(fs: seq<Feature<C, V>>)
    ensures FieldsOf(FeatureOps(fs)) == [] && SavesOf(FeatureOps(fs)) == []
    ensures |PointsOf(FeatureOps(fs))| == |fs| && |RecordsOf(FeatureOps(fs))| == |fs|
    ensures forall i :: 0 <= i < |fs| ==>
      PointsOf(FeatureOps(fs))[i] == fs[i].geometry.coordinates &&
      RecordsOf(FeatureOps(fs))[i] == Values(fs[i].properties)
  {
    if fs != [] {
      var init := fs[..|fs| - 1];
      var f := fs[|fs| - 1];
      FeatureOpsWrite(init);
      ProjectionsAppend(FeatureOps(init), FeatureStep(f));
      ProjectionsAppend([PointCall(f.geometry.coordinates)], [RecordCall(Values(f.properties))]);
      assert FeatureStep(f) == [PointCall(f.geometry.coordinates)] + [RecordCall(Values(f.properties))];
      assert [Op<C, V>.PointCall(f.geometry.coordinates)][..0] == [];
      assert [Op<C, V>.RecordCall(Values(f.properties))][..0] == [];
      assert forall i :: 0 <= i < |fs| - 1 ==> init[i] == fs[i];
    }
  }

  /** A conversion of a non-empty list: the schema comes from the first
      feature's keys alone, point i and record i come from feature i, and the
      dataset is saved once, to `file`. */
  lemma ConversionWritesEveryFeature<C, V>(fs: seq<Feature<C, V>>, file: string)
    requires |fs| > 0
    ensures FieldsOf(ConversionTrace(fs, file)) == SchemaFields(Keys(fs[0].properties))
    ensures |FieldsOf(ConversionTrace(fs, file))| == |fs[0].properties|
    ensures |PointsOf(ConversionTrace(fs, file))| == |fs| && |RecordsOf(ConversionTrace(fs, file))| == |fs|
    ensures forall i :: 0 <= i < |fs| ==>
      PointsOf(ConversionTrace(fs, file))[i] == fs[i].geometry.coordinates &&
      RecordsOf(ConversionTrace(fs, file))[i] == Values(fs[i].properties)
    ensures SavesOf(ConversionTrace(fs, file)) == [file]
  {
    var fieldOps := FieldOps<C, V>(Keys(fs[0].properties));
    FieldOpsWrite<C, V>(Keys(fs[0].properties));
    FeatureOpsWrite(fs);
    ProjectionsAppend(fieldOps, FeatureOps(fs));
    ProjectionsAppend(fieldOps + FeatureOps(fs), [SaveCall(file)]);
    assert [Op<C, V>.SaveCall(file)][..0] == [];
  }

  /** The save is the last writer call of a conversion and the only one:
      nothing is written to the dataset after it is saved. */
  lemma SavedOnceAtTheEnd<C, V>(fs: seq<Feature<C, V>>, file: string)
    requires |fs| > 0
    ensures var t := ConversionTrace(fs, file);
      t[|t| - 1] == SaveCall(file) && forall i :: 0 <= i < |t| - 1 ==> !t[i].SaveCall?
  {
    var body := FieldOps<C, V>(Keys(fs[0].properties)) + FeatureOps(fs);
    FieldOpsWrite<C, V>(Keys(fs[0].properties));
    FeatureOpsWrite(fs);
    ProjectionsAppend(FieldOps<C, V>(Keys(fs[0].properties)), FeatureOps(fs));
    NoSaveCall(body);
    assert ConversionTrace(fs, file) == body + [SaveCall(file)];
  }

  /** Records are written positionally, never re-keyed against the schema:
      column j of record i holds feature i's j-th value, while column j is
      named after the first feature's j-th key. */
  lemma RecordIsPositional<C, V>(fs: seq<Feature<C, V>>, file: string, i: nat, j: nat)
    requires i < |fs| && j < |fs[i].properties| && j < |fs[0].properties|
    ensures var t := ConversionTrace(fs, file);
      j < |FieldsOf(t)| && FieldsOf(t)[j].name == fs[0].properties[j].0
    ensures var t := ConversionTrace(fs, file);
      i < |RecordsOf(t)| && j < |RecordsOf(t)[i]| && RecordsOf(t)[i][j] == fs[i].properties[j].1
  {
    ConversionWritesEveryFeature(fs, file);
  }

  /** Two features with the same keys in opposite orders: the second record's
      "mag" column receives the second feature's "place" value. */
  lemma SwappedKeysMisalignColumns()
    ensures var fs := [Feature(Geometry([34.1, 44.9]), [("mag", "4.5"), ("place", "Crimea")]),
                       Feature(Geometry([33.5, 44.6]), [("place", "Yalta"), ("mag", "3.1")])];
      var t := ConversionTrace(fs, "shape1");
      |FieldsOf(t)| == 2 && FieldsOf(t)[0].name == "mag" &&
      |RecordsOf(t)| == 2 && |RecordsOf(t)[1]| == 2 && RecordsOf(t)[1][0] == "Yalta"
  {
    var fs := [Feature(Geometry([34.1, 44.9]), [("mag", "4.5"), ("place", "Crimea")]),
               Feature(Geometry([33.5, 44.6]), [("place", "Yalta"), ("mag", "3.1")])];
    ConversionWritesEveryFeature(fs, "shape1");
    RecordIsPositional(fs, "shape1", 1, 0);
    assert fs[1].properties[0].1 == "Yalta";
  }

  /** A single feature `{"mag": "4.5", "place": "Crimea"}` at (34.1, 44.9)
      yields two text fields, one point at (34.1, 44.9), one record and one save. */
  lemma OneQuakeExample()
    ensures var t := ConversionTrace([Feature(Geometry([34.1, 44.9]), [("mag", "4.5"), ("place", "Crimea")])], "shape1");
      FieldsOf(t) == [Field("mag", 'C', 50), Field("place", 'C', 50)] &&
      PointsOf(t) == [[34.1, 44.9]] && RecordsOf(t) == [["4.5", "Crimea"]] &&
      SavesOf(t) == ["shape1"]
  {
    var fs := [Feature(Geometry([34.1, 44.9]), [("mag", "4.5"), ("place", "Crimea")])];
    ConversionWritesEveryFeature(fs, "shape1");
    assert Keys(fs[0].properties) == ["mag", "place"];
    assert Values(fs[0].properties) == ["4.5", "Crimea"];
  }
}

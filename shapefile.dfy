/** An abstract point-shapefile writer: the four calls the conversion makes on
    a pyshp `shapefile.Writer(shapefile.POINT)`, with the binary encoding left
    out. Each call appends to the writer's state; `trace` records the calls in
    the order they were made so that the order of writes and saves can be
    stated. */
module Shapefile {

  /** One column of the attribute table: name, dBASE field type, width. */
  datatype Field = Field(name: string, kind: char, size: nat)

  /** One call made on the writer. */
  datatype Op<C, V> =
    | FieldCall(field: Field)
    | PointCall(coordinates: seq<C>)
    | RecordCall(values: seq<V>)
    | SaveCall(target: string)

  function FieldPart<C, V>(op: Op<C, V>): seq<Field>
  {
    if op.FieldCall? then [op.field] else []
  }

  function PointPart<C, V>(op: Op<C, V>): seq<seq<C>>
  {
    if op.PointCall? then [op.coordinates] else []
  }

  function RecordPart<C, V>(op: Op<C, V>): seq<seq<V>>
  {
    if op.RecordCall? then [op.values] else []
  }

  function SavePart<C, V>(op: Op<C, V>): seq<string>
  {
    if op.SaveCall? then [op.target] else []
  }

  /** What a sequence of calls contributed to one part of the writer's state,
      in call order; `part` picks that contribution out of a single call. */
  function Collect<C, V, T>(t: seq<Op<C, V>>, part: Op<C, V> -> seq<T>): seq<T>
  {
    if t == [] then [] else Collect(t[..|t| - 1], part) + part(t[|t| - 1])
  }

  /** The fields registered by a sequence of calls, in call order. */
  function FieldsOf<C, V>(t: seq<Op<C, V>>): seq<Field>
  {
    Collect(t, FieldPart)
  }

  /** The points written by a sequence of calls, in call order. */
  function PointsOf<C, V>(t: seq<Op<C, V>>): seq<seq<C>>
  {
    Collect(t, PointPart)
  }

  /** The attribute records written by a sequence of calls, in call order. */
  function RecordsOf<C, V>(t: seq<Op<C, V>>): seq<seq<V>>
  {
    Collect(t, RecordPart)
  }

  /** The targets the dataset was saved to, in call order. */
  function SavesOf<C, V>(t: seq<Op<C, V>>): seq<string>
  {
    Collect(t, SavePart)
  }

  /** Collecting distributes over concatenation of call sequences. */
  lemma {:induction false} CollectAppend<C, V, T>(a: seq<Op<C, V>>, b: seq<Op<C, V>>, part: Op<C, V> -> seq<T>)
    ensures Collect(a + b, part) == Collect(a, part) + Collect(b, part)
  {
    if b == [] {
      assert a + b == a;
    } else {
      var b' := b[..|b| - 1];
      assert (a + b)[..|a + b| - 1] == a + b';
      assert (a + b)[|a + b| - 1] == b[|b| - 1];
      CollectAppend(a, b', part);
    }
  }

  /** Every projection of the writer's state distributes over concatenation. */
  lemma ProjectionsAppend<C, V>(a: seq<Op<C, V>>, b: seq<Op<C, V>>)
    ensures FieldsOf(a + b) == FieldsOf(a) + FieldsOf(b)
    ensures PointsOf(a + b) == PointsOf(a) + PointsOf(b)
    ensures RecordsOf(a + b) == RecordsOf(a) + RecordsOf(b)
    ensures SavesOf(a + b) == SavesOf(a) + SavesOf(b)
  {
    CollectAppend(a, b, FieldPart);
    CollectAppend(a, b, PointPart);
    CollectAppend(a, b, RecordPart);
    CollectAppend(a, b, SavePart);
  }

  /** No save call occurs in `t` exactly when nothing was saved by `t`. */
  lemma {:induction false} NoSaveCall<C, V>(t: seq<Op<C, V>>)
    ensures SavesOf(t) == [] <==> forall i :: 0 <= i < |t| ==> !t[i].SaveCall?
  {
    if t != [] {
      NoSaveCall(t[..|t| - 1]);
      assert forall i :: 0 <= i < |t| - 1 ==> t[..|t| - 1][i] == t[i];
    }
  }

  /** The writer: three append-only sequences and the list of save targets. */
  class Writer<C, V> {
    var fields: seq<Field>
    var points: seq<seq<C>>
    var records: seq<seq<V>>
    var saves: seq<string>
    /** Every call made on this writer, oldest first. */
    ghost var trace: seq<Op<C, V>>

    ghost predicate Valid()
      reads this
    {
      fields == FieldsOf(trace) && points == PointsOf(trace) &&
      records == RecordsOf(trace) && saves == SavesOf(trace)
    }

    constructor ()
      ensures Valid() && trace == []
      ensures fields == [] && points == [] && records == [] && saves == []
    {
      fields, points, records, saves := [], [], [], [];
      trace := [];
    }

    /** `w.field(name, kind, size)`. */
    method AddField(name: string, kind: char, size: nat)
      requires Valid()
      modifies this
      ensures Valid() && trace == old(trace) + [FieldCall(Field(name, kind, size))]
      ensures fields == old(fields) + [Field(name, kind, size)]
      ensures points == old(points) && records == old(records) && saves == old(saves)
    {
      ProjectionsAppend(trace, [FieldCall(Field(name, kind, size))]);
      fields := fields + [Field(name, kind, size)];
      trace := trace + [FieldCall(Field(name, kind, size))];
    }

    /** `w.point(*coordinates)`: the coordinates are stored as given. */
    method Point(coordinates: seq<C>)
      requires Valid()
      modifies this
      ensures Valid() && trace == old(trace) + [PointCall(coordinates)]
      ensures points == old(points) + [coordinates]
      ensures fields == old(fields) && records == old(records) && saves == old(saves)
    {
      ProjectionsAppend(trace, [PointCall(coordinates)]);
      points := points + [coordinates];
      trace := trace + [PointCall(coordinates)];
    }

    /** `w.record(*values)`: the values are stored positionally as given. */
    method Record(values: seq<V>)
      requires Valid()
      modifies this
      ensures Valid() && trace == old(trace) + [RecordCall(values)]
      ensures records == old(records) + [values]
      ensures fields == old(fields) && points == old(points) && saves == old(saves)
    {
      ProjectionsAppend(trace, [RecordCall(values)]);
      records := records + [values];
      trace := trace + [RecordCall(values)];
    }

    /** `w.save(target)`: persists the dataset; the content is unchanged. */
    method Save(target: string)
      requires Valid()
      modifies this
      ensures Valid() && trace == old(trace) + [SaveCall(target)]
      ensures saves == old(saves) + [target]
      ensures fields == old(fields) && points == old(points) && records == old(records)
    {
      ProjectionsAppend(trace, [SaveCall(target)]);
      saves := saves + [target];
      trace := trace + [SaveCall(target)];
    }
  }
}

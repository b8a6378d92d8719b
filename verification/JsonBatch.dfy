/** Reading a batch from JSON: a tree converted leaf by leaf, or refused at the first bad integer. */
module JsonBatch {
  import opened Common
  import opened Text

  const I64_MAX: int := 0x7FFF_FFFF_FFFF_FFFF

  /** A JSON number as the reader tells them apart: an integer an `i64` or a `u64` holds, or a float. */
  datatype Number = Integer(i: int) | Floating(f: real)

  datatype Field = Field(key: string, json: Json)

  /** Object fields are in key order with one field a key, as the reader leaves them. */
  datatype Json =
    | Null
    | Bool(b: bool)
    | String(s: string)
    | Number(n: Number)
    | Array(items: seq<Json>)
    | Object(fields: seq<Field>)

  datatype Entry = Entry(key: string, value: Value)

  /** The batch's own value space: integers are 64-bit and signed. */
  datatype Value =
    | VNull
    | VBool(b: bool)
    | VInt(i: int)
    | VFloat(f: real)
    | VStr(s: string)
    | VArray(values: seq<Value>)
    | VMap(entries: seq<Entry>)

  datatype Segment = Index(i: nat) | Key(k: string)

  datatype Problem = NotAnArray | NotAnObject | OutsideI64

  datatype JsonError = JsonError(path: seq<Segment>, problem: Problem)

  /** One step of a path as it is written: `[2]`, `.temp`. */
  function SegmentText(segment: Segment): (text: string)
    ensures text != ""
  {
    match segment
    case Index(i) => "[" + Decimal(i) + "]"
    case Key(k) => "." + k
  }

  /** A path as it is reported. */
  function PathText(path: seq<Segment>): string {
    if path == [] then "" else SegmentText(path[0]) + PathText(path[1..])
  }

  /** The reader writes it a step at a time, from the top. */
  lemma {:induction false} PathTextGrows(path: seq<Segment>, more: seq<Segment>)
    ensures PathText(path + more) == PathText(path) + PathText(more)
  {
    if path == [] {
      assert path + more == more;
    } else {
      PathTextGrows(path[1..], more);
      assert (path + more)[0] == path[0] && (path + more)[1..] == path[1..] + more;
      Regroup(SegmentText(path[0]), PathText(path[1..]), PathText(more));
    }
  }

  datatype Report = Report(path: string, problem: Problem)

  function Reported(error: JsonError): Report {
    Report(PathText(error.path), error.problem)
  }

  function ConvertNumber(n: Number, path: seq<Segment>): Result<Value, JsonError> {
    match n
    case Integer(i) => if i <= I64_MAX then Ok(VInt(i)) else Err(JsonError(path, OutsideI64))
    case Floating(f) => Ok(VFloat(f))
  }

  function Convert(json: Json, path: seq<Segment>): Result<Value, JsonError>
    decreases json, 1
  {
    match json
    case Null => Ok(VNull)
    case Bool(b) => Ok(VBool(b))
    case String(s) => Ok(VStr(s))
    case Number(n) => ConvertNumber(n, path)
    case Array(items) =>
      (match ConvertItems(items, 0, path)
       case Ok(values) => Ok(VArray(values))
       case Err(error) => Err(error))
    case Object(fields) =>
      (match ConvertFields(fields, path)
       case Ok(entries) => Ok(VMap(entries))
       case Err(error) => Err(error))
  }

  /** Items from position `at` on, stopping at the first that is refused. */
  function ConvertItems(items: seq<Json>, at: nat, path: seq<Segment>): Result<seq<Value>, JsonError>
    decreases items, 0
  {
    if items == [] then Ok([])
    else match Convert(items[0], path + [Index(at)])
      case Err(error) => Err(error)
      case Ok(first) =>
        match ConvertItems(items[1..], at + 1, path)
        case Err(error) => Err(error)
        case Ok(rest) => Ok([first] + rest)
  }

  function ConvertFields(fields: seq<Field>, path: seq<Segment>): Result<seq<Entry>, JsonError>
    decreases fields, 0
  {
    if fields == [] then Ok([])
    else match Convert(fields[0].json, path + [Key(fields[0].key)])
      case Err(error) => Err(error)
      case Ok(first) =>
        match ConvertFields(fields[1..], path)
        case Err(error) => Err(error)
        case Ok(rest) => Ok([Entry(fields[0].key, first)] + rest)
  }

  // Places in a document, said without converting it. A place is the position taken at each level.

  function Children(json: Json): nat {
    match json
    case Array(items) => |items|
    case Object(fields) => |fields|
    case _ => 0
  }

  function Child(json: Json, i: nat): (c: Json)
    requires i < Children(json)
    ensures c < json
  {
    match json
    case Array(items) => items[i]
    case Object(fields) => assert fields[i] < json; fields[i].json
  }

  function SegmentAt(json: Json, i: nat): Segment
    requires i < Children(json)
  {
    match json case Array(_) => Index(i) case Object(fields) => Key(fields[i].key)
  }

  function At(json: Json, place: seq<nat>): Option<Json>
    decreases place
  {
    if place == [] then Some(json)
    else if place[0] < Children(json) then At(Child(json, place[0]), place[1..])
    else None
  }

  /** The path a reader would follow to a place. */
  function Named(json: Json, place: seq<nat>): seq<Segment>
    requires At(json, place).Some?
    decreases place
  {
    if place == [] then [] else [SegmentAt(json, place[0])] + Named(Child(json, place[0]), place[1..])
  }

  /** An integer leaf no `i64` holds. */
  predicate BadLeaf(json: Json) {
    json.Number? && json.n.Integer? && json.n.i > I64_MAX
  }

  predicate BadAt(json: Json, place: seq<nat>) {
    At(json, place).Some? && BadLeaf(At(json, place).value)
  }

  /** Traversal order: positions compared level by level, from the top. */
  predicate NotAfter(a: seq<nat>, b: seq<nat>) {
    a == [] || (b != [] && (a[0] < b[0] || (a[0] == b[0] && NotAfter(a[1..], b[1..]))))
  }

  /** The first bad leaf of a document, by place. */
  ghost predicate FirstBad(json: Json, place: seq<nat>) {
    BadAt(json, place) && forall other :: BadAt(json, other) ==> NotAfter(place, other)
  }

  /** The document a value came from: the kinds, keys, order and nesting it still shows. */
  function Shown(value: Value): Json {
    match value
    case VNull => Null
    case VBool(b) => Bool(b)
    case VInt(i) => Number(Integer(i))
    case VFloat(f) => Number(Floating(f))
    case VStr(s) => String(s)
    case VArray(values) => Array(seq(|values|, i requires 0 <= i < |values| => Shown(values[i])))
    case VMap(entries) => Object(seq(|entries|, i requires 0 <= i < |entries| => assert entries[i] < value; ShownEntry(entries[i])))
  }

  function ShownEntry(entry: Entry): Field {
    Field(entry.key, Shown(entry.value))
  }

  /** A conversion that succeeds keeps the document whole: nothing reordered, renamed or coerced. */
  lemma {:induction false} ConversionKeepsTheDocument(json: Json, path: seq<Segment>)
    ensures match Convert(json, path) case Ok(value) => Shown(value) == json case Err(_) => true
    decreases json, 1
  {
    match json
    case Array(items) => ItemsAreKept(items, 0, path);
    case Object(fields) => FieldsAreKept(fields, path);
    case _ =>
  }

  lemma {:induction false} ItemsAreKept(items: seq<Json>, at: nat, path: seq<Segment>)
    ensures match ConvertItems(items, at, path)
      case Ok(values) => |values| == |items| && forall i :: 0 <= i < |items| ==> Shown(values[i]) == items[i]
      case Err(_) => true
    decreases items, 0
  {
    if items != [] {
      ConversionKeepsTheDocument(items[0], path + [Index(at)]);
      ItemsAreKept(items[1..], at + 1, path);
    }
  }

  lemma {:induction false} FieldsAreKept(fields: seq<Field>, path: seq<Segment>)
    ensures match ConvertFields(fields, path)
      case Ok(entries) => |entries| == |fields| && forall i :: 0 <= i < |fields| ==> ShownEntry(entries[i]) == fields[i]
      case Err(_) => true
    decreases fields, 0
  {
    if fields != [] {
      ConversionKeepsTheDocument(fields[0].json, path + [Key(fields[0].key)]);
      FieldsAreKept(fields[1..], path);
    }
  }

  /**
   * A conversion fails exactly when some integer leaf is out of range, at any depth, and the path it
   * reports leads to the first of them in traversal order.
   */
  lemma {:induction false} FailureIsTheFirstBadLeaf(json: Json, path: seq<Segment>)
    ensures match Convert(json, path)
      case Ok(_) => forall place :: !BadAt(json, place)
      case Err(error) =>
        && error.problem == OutsideI64
        && exists place :: FirstBad(json, place) && error.path == path + Named(json, place)
    decreases json, 1
  {
    match json
    case Number(n) =>
      if BadLeaf(json) {
        assert FirstBad(json, []);
        assert path + Named(json, []) == path;
      }
      NoPlaceBelow(json);
    case Array(items) =>
      ItemsFailFirst(json, 0, path);
      assert items[0..] == items;
    case Object(fields) =>
      FieldsFailFirst(json, 0, path);
      assert fields[0..] == fields;
    case _ =>
      NoPlaceBelow(json);
  }

  lemma NoPlaceBelow(json: Json)
    requires Children(json) == 0
    ensures forall place :: At(json, place).Some? ==> place == []
  {
  }

  /** A bad leaf below child `i` is a bad leaf of the child, one level down. */
  lemma BelowChild(json: Json, place: seq<nat>)
    requires place != [] && BadAt(json, place)
    ensures place[0] < Children(json) && BadAt(Child(json, place[0]), place[1..])
  {
  }

  lemma FirstBelowChild(json: Json, i: nat, below: seq<nat>)
    requires i < Children(json) && FirstBad(Child(json, i), below)
    requires forall place :: BadAt(json, place) && place != [] ==> place[0] >= i
    ensures FirstBad(json, [i] + below)
    ensures Named(json, [i] + below) == [SegmentAt(json, i)] + Named(Child(json, i), below)
  {
    var place := [i] + below;
    assert place[1..] == below;
    forall other | BadAt(json, other)
      ensures NotAfter(place, other)
    {
      if other != [] && other[0] == i {
        BelowChild(json, other);
      }
    }
  }

  lemma {:induction false} ItemsFailFirst(json: Json, at: nat, path: seq<Segment>)
    requires json.Array? && at <= |json.items|
    requires forall place :: BadAt(json, place) && place != [] ==> place[0] >= at
    ensures match ConvertItems(json.items[at..], at, path)
      case Ok(_) => forall place :: !BadAt(json, place)
      case Err(error) =>
        && error.problem == OutsideI64
        && exists place :: FirstBad(json, place) && error.path == path + Named(json, place)
    decreases json, 0, |json.items| - at
  {
    var rest := json.items[at..];
    if rest == [] {
      forall place
        ensures !BadAt(json, place)
      {
        if place != [] && BadAt(json, place) {
          BelowChild(json, place);
        }
      }
    } else {
      FailureIsTheFirstBadLeaf(rest[0], path + [Index(at)]);
      match Convert(rest[0], path + [Index(at)])
      case Err(error) =>
        var below :| FirstBad(Child(json, at), below) && error.path == (path + [Index(at)]) + Named(Child(json, at), below);
        FirstBelowChild(json, at, below);
        assert error.path == path + Named(json, [at] + below);
      case Ok(_) =>
        forall place | BadAt(json, place) && place != []
          ensures place[0] >= at + 1
        {
          BelowChild(json, place);
        }
        assert rest[1..] == json.items[at + 1..];
        ItemsFailFirst(json, at + 1, path);
    }
  }

  lemma {:induction false} FieldsFailFirst(json: Json, at: nat, path: seq<Segment>)
    requires json.Object? && at <= |json.fields|
    requires forall place :: BadAt(json, place) && place != [] ==> place[0] >= at
    ensures match ConvertFields(json.fields[at..], path)
      case Ok(_) => forall place :: !BadAt(json, place)
      case Err(error) =>
        && error.problem == OutsideI64
        && exists place :: FirstBad(json, place) && error.path == path + Named(json, place)
    decreases json, 0, |json.fields| - at
  {
    var rest := json.fields[at..];
    if rest == [] {
      forall place
        ensures !BadAt(json, place)
      {
        if place != [] && BadAt(json, place) {
          BelowChild(json, place);
        }
      }
    } else {
      var segment := Key(rest[0].key);
      assert Child(json, at) < json;
      FailureIsTheFirstBadLeaf(rest[0].json, path + [segment]);
      match Convert(rest[0].json, path + [segment])
      case Err(error) =>
        var below :| FirstBad(Child(json, at), below) && error.path == (path + [segment]) + Named(Child(json, at), below);
        FirstBelowChild(json, at, below);
        assert error.path == path + Named(json, [at] + below);
      case Ok(_) =>
        forall place | BadAt(json, place) && place != []
          ensures place[0] >= at + 1
        {
          BelowChild(json, place);
        }
        assert rest[1..] == json.fields[at + 1..];
        FieldsFailFirst(json, at + 1, path);
    }
  }

  /** A batch is an array of objects with no integer anywhere that is out of range. */
  ghost predicate IsBatch(parsed: Json) {
    && parsed.Array?
    && (forall i :: 0 <= i < |parsed.items| ==> parsed.items[i].Object?)
    && forall place :: !BadAt(parsed, place)
  }

  predicate FirstNonObject(items: seq<Json>, i: nat) {
    i < |items| && !items[i].Object? && forall j :: 0 <= j < i ==> items[j].Object?
  }

  /** No bad leaf lies in the elements before `i`. */
  ghost predicate CleanBefore(parsed: Json, i: nat) {
    forall place :: BadAt(parsed, place) && place != [] ==> place[0] >= i
  }

  /** What an error says is wrong with a document, whichever comes first of the two ways to be wrong. */
  ghost predicate Explains(parsed: Json, error: JsonError) {
    match error.problem
    case NotAnArray => error.path == [] && !parsed.Array?
    case NotAnObject =>
      && parsed.Array?
      && exists i :: FirstNonObject(parsed.items, i) && error.path == [Index(i)] && CleanBefore(parsed, i)
    case OutsideI64 =>
      && parsed.Array?
      && exists place :: FirstBad(parsed, place) && error.path == Named(parsed, place) && ObjectsUpTo(parsed, place)
  }

  predicate ObjectsUpTo(parsed: Json, place: seq<nat>)
    requires parsed.Array?
  {
    place != [] && place[0] < |parsed.items| && forall i :: 0 <= i <= place[0] ==> parsed.items[i].Object?
  }

  function Maps(signals: seq<seq<Entry>>): (m: seq<Value>)
    ensures |m| == |signals| && forall i :: 0 <= i < |m| ==> m[i] == VMap(signals[i])
  {
    seq(|signals|, i requires 0 <= i < |signals| => VMap(signals[i]))
  }

  lemma ExplainedIsNoBatch(parsed: Json, error: JsonError)
    requires Explains(parsed, error)
    ensures !IsBatch(parsed)
  {
  }

  /** One element of the array, read or refused. */
  lemma OneSignal(parsed: Json, index: nat)
    requires parsed.Array? && index < |parsed.items| && CleanBefore(parsed, index)
    requires forall i :: 0 <= i <= index ==> parsed.items[i].Object?
    ensures match ConvertFields(parsed.items[index].fields, [Index(index)])
      case Ok(fields) => Shown(VMap(fields)) == parsed.items[index] && CleanBefore(parsed, index + 1)
      case Err(error) => Explains(parsed, error)
  {
    var item, path := parsed.items[index], [Index(index)];
    ConversionKeepsTheDocument(item, path);
    FailureIsTheFirstBadLeaf(item, path);
    match ConvertFields(item.fields, path)
    case Err(error) =>
      var below :| FirstBad(Child(parsed, index), below) && error.path == path + Named(Child(parsed, index), below);
      FirstBelowChild(parsed, index, below);
      assert ObjectsUpTo(parsed, [index] + below);
    case Ok(fields) =>
      assert Convert(item, path) == Ok(VMap(fields));
      forall place | BadAt(parsed, place) && place != []
        ensures place[0] >= index + 1
      {
        BelowChild(parsed, place);
      }
  }

  lemma CleanToTheEnd(parsed: Json)
    requires parsed.Array? && CleanBefore(parsed, |parsed.items|)
    requires forall i :: 0 <= i < |parsed.items| ==> parsed.items[i].Object?
    ensures IsBatch(parsed)
  {
    forall place
      ensures !BadAt(parsed, place)
    {
      if place != [] && BadAt(parsed, place) {
        BelowChild(parsed, place);
      }
    }
  }

  /**
   * A batch is read exactly when the document is one, and then it shows the document back.
   * Otherwise the first element that is not an object, or the first bad leaf, whichever comes
   * first, is the one reported.
   */
  method BatchFromJson(parsed: Json) returns (result: Result<seq<seq<Entry>>, Report>)
    ensures result.Ok? <==> IsBatch(parsed)
    ensures result.Ok? ==> Shown(VArray(Maps(result.value))) == parsed
    ensures result.Err? ==> exists error :: Explains(parsed, error) && result.error == Reported(error)
  {
    if !parsed.Array? {
      assert Explains(parsed, JsonError([], NotAnArray));
      return Err(Reported(JsonError([], NotAnArray)));
    }
    var items := parsed.items;
    var batch: seq<seq<Entry>> := [];
    for index := 0 to |items|
      invariant |batch| == index
      invariant forall i :: 0 <= i < index ==> items[i].Object? && Shown(VMap(batch[i])) == items[i]
      invariant CleanBefore(parsed, index)
    {
      var path := [Index(index)];
      if !items[index].Object? {
        assert FirstNonObject(items, index) && Explains(parsed, JsonError(path, NotAnObject));
        return Err(Reported(JsonError(path, NotAnObject)));
      }
      OneSignal(parsed, index);
      match ConvertFields(items[index].fields, path) {
        case Err(error) =>
          ExplainedIsNoBatch(parsed, error);
          return Err(Reported(error));
        case Ok(fields) =>
          batch := batch + [fields];
      }
    }
    CleanToTheEnd(parsed);
    assert Shown(VArray(Maps(batch))).items == items;
    result := Ok(batch);
  }
}

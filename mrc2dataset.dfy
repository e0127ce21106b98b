/** Flattening MRC predictions into a table (oneqa/boolqa/processors/dataset/mrc2dataset.py):
    an ordered map from example id to a ranked list of prediction records becomes
    one row per record stamped with `order` and `rank`, optionally with nested
    fields unpacked, of which the `rank == 0` rows are kept. */
module Mrc2Dataset {
  import opened Wrappers
  import MrcTypes

  /** A JSON value as `json.load` produces it; floats are opaque payload. */
  datatype Json =
    | JNull
    | JBool(b: bool)
    | JInt(i: int)
    | JFloat(payload: real)
    | JStr(s: string)
    | JArr(items: seq<Json>)
    | JObj(members: map<string, Json>)

  /** The Python exceptions the conversion can raise. */
  datatype ConvertError =
    | KeyError        // a missing dictionary key
    | IndexError      // a list or string index out of range
    | TypeError       // subscripting a value that does not support it
    | NoRankColumn    // `query('rank==0')` on a frame built from no records

  /** A prediction record: a Python dict that the conversion updates in place. */
  class Row {
    var fields: map<string, Json>

    constructor (fields: map<string, Json>)
      ensures this.fields == fields
    {
      this.fields := fields;
    }
  }

  const TtKey := "target_type_logits"
  const SpanKey := "span_answer"
  const SpanStartKey := "span_answer_start_position"
  const SpanEndKey := "span_answer_end_position"

  /** The members of TargetType in iteration (definition) order. */
  const AllTargetTypes: seq<MrcTypes.TargetType> :=
    [MrcTypes.NoAnswer, MrcTypes.SpanAnswer, MrcTypes.PassageAnswer, MrcTypes.Yes, MrcTypes.No]

  /** `int(t)`. */
  function IntValue(t: MrcTypes.TargetType): nat {
    match t
    case NoAnswer => 0
    case SpanAnswer => 1
    case PassageAnswer => 2
    case Yes => 3
    case No => 4
  }

  /** `str(t)`, taken to be the member's name. */
  function Name(t: MrcTypes.TargetType): string {
    match t
    case NoAnswer => "NO_ANSWER"
    case SpanAnswer => "SPAN_ANSWER"
    case PassageAnswer => "PASSAGE_ANSWER"
    case Yes => "YES"
    case No => "NO"
  }

  /** `f'{ttkey}_{str(t)}'`. */
  function LogitKey(t: MrcTypes.TargetType): string {
    TtKey + "_" + Name(t)
  }

  /** The keys differ in length, so distinct members get distinct columns. */
  lemma LogitKeyInjective(t: MrcTypes.TargetType, t': MrcTypes.TargetType)
    ensures |LogitKey(t)| == |TtKey| + 1 + |Name(t)| > |TtKey|
    ensures LogitKey(t) == LogitKey(t') ==> t == t'
  {
    if LogitKey(t) == LogitKey(t') {
      assert |Name(t)| == |Name(t')|;
    }
  }

  /** The columns `unpack_target_type` adds. */
  function LogitKeys(): set<string> {
    LogitKeysFrom(0)
  }

  /** `v[k]` for a non-negative integer index `k`: element `k` of a list, the
      one-character string at `k` of a string; a dictionary never has an
      integer key; nothing else can be subscripted. */
  function ElementAt(v: Json, k: nat): (r: Result<Json, ConvertError>)
  {
    match v
    case JArr(items) => if k < |items| then Ok(items[k]) else Err(IndexError)
    case JStr(s) => if k < |s| then Ok(JStr([s[k]])) else Err(IndexError)
    case JObj(_) => Err(KeyError)
    case _ => Err(TypeError)
  }

  /** `v[key]` for a string key. */
  function MemberOf(v: Json, key: string): (r: Result<Json, ConvertError>)
  {
    match v
    case JObj(members) => if key in members then Ok(members[key]) else Err(KeyError)
    case JArr(_) => Err(TypeError)
    case JStr(_) => Err(TypeError)
    case _ => Err(TypeError)
  }

  /** The loop of `unpack_target_type` from member `i` on. */
  function AddLogitColumns(m: map<string, Json>, logits: Json, i: nat): Result<map<string, Json>, ConvertError>
    requires i <= |AllTargetTypes|
    decreases |AllTargetTypes| - i
  {
    if i == |AllTargetTypes| then Ok(m)
    else
      var t := AllTargetTypes[i];
      var v :- ElementAt(logits, IntValue(t));
      AddLogitColumns(m[LogitKey(t) := v], logits, i + 1)
  }

  /** What `unpack_target_type` makes of a row. */
  function UnpackedTargetType(m: map<string, Json>): Result<map<string, Json>, ConvertError> {
    if TtKey !in m then Err(KeyError) else AddLogitColumns(m, m[TtKey], 0)
  }

  /** The logits value has an element for every member. */
  predicate LogitsReadable(logits: Json) {
    || (logits.JArr? && |logits.items| >= |AllTargetTypes|)
    || (logits.JStr? && |logits.s| >= |AllTargetTypes|)
  }

  lemma {:induction false} LogitKeyNotLater(i: nat, j: nat)
    requires j < i <= |AllTargetTypes|
    ensures LogitKey(AllTargetTypes[j]) !in LogitKeysFrom(i)
    decreases |AllTargetTypes| - i
  {
    if i < |AllTargetTypes| {
      LogitKeyInjective(AllTargetTypes[i], AllTargetTypes[j]);
      LogitKeyNotLater(i + 1, j);
    }
  }

  lemma {:induction false} TtKeyNotLogitKey(i: nat)
    requires i <= |AllTargetTypes|
    ensures TtKey !in LogitKeysFrom(i)
    decreases |AllTargetTypes| - i
  {
    if i < |AllTargetTypes| {
      LogitKeyInjective(AllTargetTypes[i], AllTargetTypes[i]);
      TtKeyNotLogitKey(i + 1);
    }
  }

  lemma {:induction false} AddLogitColumnsOk(m: map<string, Json>, logits: Json, i: nat)
    requires i <= |AllTargetTypes|
    ensures AddLogitColumns(m, logits, i).Ok? <==> i == |AllTargetTypes| || LogitsReadable(logits)
    decreases |AllTargetTypes| - i
  {
    if i < |AllTargetTypes| {
      var t := AllTargetTypes[i];
      if ElementAt(logits, IntValue(t)).Ok? {
        AddLogitColumnsOk(m[LogitKey(t) := ElementAt(logits, IntValue(t)).value], logits, i + 1);
      }
    }
  }

  /** The columns for the members from position `i` on. */
  function LogitKeysFrom(i: nat): (r: set<string>)
    requires i <= |AllTargetTypes|
    ensures forall j :: i <= j < |AllTargetTypes| ==> LogitKey(AllTargetTypes[j]) in r
    decreases |AllTargetTypes| - i
  {
    if i == |AllTargetTypes| then {} else {LogitKey(AllTargetTypes[i])} + LogitKeysFrom(i + 1)
  }

  lemma {:induction false} AddLogitColumnsKeys(m: map<string, Json>, logits: Json, i: nat)
    requires i <= |AllTargetTypes| && AddLogitColumns(m, logits, i).Ok?
    ensures AddLogitColumns(m, logits, i).value.Keys == m.Keys + LogitKeysFrom(i)
    ensures forall k :: k in m && k !in LogitKeysFrom(i) ==> AddLogitColumns(m, logits, i).value[k] == m[k]
    decreases |AllTargetTypes| - i
  {
    if i < |AllTargetTypes| {
      var t := AllTargetTypes[i];
      var v := ElementAt(logits, IntValue(t)).value;
      AddLogitColumnsKeys(m[LogitKey(t) := v], logits, i + 1);
    }
  }

  lemma {:induction false} AddLogitColumnsValues(m: map<string, Json>, logits: Json, i: nat, j: nat)
    requires i <= j < |AllTargetTypes| && AddLogitColumns(m, logits, i).Ok?
    ensures LogitKey(AllTargetTypes[j]) in AddLogitColumns(m, logits, i).value
    ensures ElementAt(logits, IntValue(AllTargetTypes[j])).Ok?
    ensures AddLogitColumns(m, logits, i).value[LogitKey(AllTargetTypes[j])] == ElementAt(logits, IntValue(AllTargetTypes[j])).value
    decreases |AllTargetTypes| - i
  {
    var t := AllTargetTypes[i];
    var v := ElementAt(logits, IntValue(t)).value;
    var m' := m[LogitKey(t) := v];
    if j > i {
      AddLogitColumnsValues(m', logits, i + 1, j);
    } else {
      AddLogitColumnsKeys(m', logits, i + 1);
      LogitKeyNotLater(i + 1, i);
    }
  }

  /** `unpack_target_type` succeeds exactly when the row has `target_type_logits`
      with an element per member; it then adds `target_type_logits_<t>` holding
      `ttlogits[int(t)]` for every member t, keeps `target_type_logits`, and
      leaves every other field as it was. */
  lemma UnpackedTargetTypeMeaning(m: map<string, Json>)
    ensures var r := UnpackedTargetType(m);
      && (r.Ok? <==> TtKey in m && LogitsReadable(m[TtKey]))
      && (r.Ok? ==> r.value.Keys == m.Keys + LogitKeys())
      && (r.Ok? ==> forall t :: t in AllTargetTypes ==>
            r.value[LogitKey(t)] == ElementAt(m[TtKey], IntValue(t)).value)
      && (r.Ok? ==> r.value[TtKey] == m[TtKey])
      && (r.Ok? ==> forall k :: k in m && k !in LogitKeys() ==> r.value[k] == m[k])
  {
    if TtKey in m {
      AddLogitColumnsOk(m, m[TtKey], 0);
      if UnpackedTargetType(m).Ok? {
        AddLogitColumnsKeys(m, m[TtKey], 0);
        forall t | t in AllTargetTypes
          ensures UnpackedTargetType(m).value[LogitKey(t)] == ElementAt(m[TtKey], IntValue(t)).value
        {
          var j :| 0 <= j < |AllTargetTypes| && AllTargetTypes[j] == t;
          AddLogitColumnsValues(m, m[TtKey], 0, j);
        }
        TtKeyNotLogitKey(0);
      }
    }
  }

  lemma UpdateOutside<V>(m: map<string, V>, key: string, v: V, keys: set<string>)
    requires key in keys
    ensures m[key := v] - keys == m - keys
  {
  }

  /** `unpack_target_type(row)`, updating the row in place. A failure part-way
      leaves the columns already added in the row; no other field changes. */
  method UnpackTargetType(row: Row) returns (r: Result<(), ConvertError>)
    modifies row
    ensures r.Ok? <==> UnpackedTargetType(old(row.fields)).Ok?
    ensures r.Ok? ==> row.fields == UnpackedTargetType(old(row.fields)).value
    ensures r.Err? ==> r.error == UnpackedTargetType(old(row.fields)).error
    ensures row.fields - LogitKeys() == old(row.fields) - LogitKeys()
  {
    if TtKey !in row.fields {
      return Err(KeyError);
    }
    var ttlogits := row.fields[TtKey];
    var i := 0;
    while i < |AllTargetTypes|
      invariant 0 <= i <= |AllTargetTypes|
      invariant AddLogitColumns(row.fields, ttlogits, i) == UnpackedTargetType(old(row.fields))
      invariant row.fields - LogitKeys() == old(row.fields) - LogitKeys()
    {
      var t := AllTargetTypes[i];
      var v := ElementAt(ttlogits, IntValue(t));
      if v.Err? {
        return Err(v.error);
      }
      UpdateOutside(row.fields, LogitKey(t), v.value, LogitKeys());
      row.fields := row.fields[LogitKey(t) := v.value];
      i := i + 1;
    }
    r := Ok(());
  }

  /** What `unpack_span_answer` makes of a row. */
  function UnpackedSpanAnswer(m: map<string, Json>): Result<map<string, Json>, ConvertError> {
    if SpanKey !in m then Err(KeyError)
    else
      var start :- MemberOf(m[SpanKey], "start_position");
      var end :- MemberOf(m[SpanKey], "end_position");
      Ok(m[SpanStartKey := start][SpanEndKey := end] - {SpanKey})
  }

  /** `unpack_span_answer` succeeds exactly when `span_answer` is an object with
      `start_position` and `end_position`; it then removes `span_answer`, adds
      `span_answer_start_position` and `span_answer_end_position` holding those
      two values, and leaves every other field as it was. */
  lemma UnpackedSpanAnswerMeaning(m: map<string, Json>)
    ensures var r := UnpackedSpanAnswer(m);
      && (r.Ok? <==> SpanKey in m && m[SpanKey].JObj?
                     && "start_position" in m[SpanKey].members && "end_position" in m[SpanKey].members)
      && (r.Ok? ==> r.value.Keys == m.Keys - {SpanKey} + {SpanStartKey, SpanEndKey})
      && (r.Ok? ==> r.value[SpanStartKey] == m[SpanKey].members["start_position"])
      && (r.Ok? ==> r.value[SpanEndKey] == m[SpanKey].members["end_position"])
      && (r.Ok? ==> forall k :: k in m && k !in {SpanKey, SpanStartKey, SpanEndKey} ==> r.value[k] == m[k])
  {
  }

  /** `unpack_span_answer(row)`, updating the row in place. When
      `end_position` is missing the start column has already been added;
      no other field changes on failure. */
  method UnpackSpanAnswer(row: Row) returns (r: Result<(), ConvertError>)
    modifies row
    ensures r.Ok? <==> UnpackedSpanAnswer(old(row.fields)).Ok?
    ensures r.Ok? ==> row.fields == UnpackedSpanAnswer(old(row.fields)).value
    ensures r.Err? ==> r.error == UnpackedSpanAnswer(old(row.fields)).error
    ensures r.Err? ==> row.fields - {SpanStartKey} == old(row.fields) - {SpanStartKey}
  {
    if SpanKey !in row.fields {
      return Err(KeyError);
    }
    var spanAnswer := row.fields[SpanKey];
    var start := MemberOf(spanAnswer, "start_position");
    if start.Err? {
      return Err(start.error);
    }
    row.fields := row.fields[SpanStartKey := start.value];
    var end := MemberOf(spanAnswer, "end_position");
    if end.Err? {
      return Err(end.error);
    }
    row.fields := row.fields[SpanEndKey := end.value];
    row.fields := row.fields - {SpanKey};
    r := Ok(());
  }

  /** One record as `read_mrc_inner` yields it: unpacked if asked, then
      stamped with its key's position and its own position in the list. */
  function StampRecord(m: map<string, Json>, order: nat, rank: nat, unpack: bool): Result<map<string, Json>, ConvertError> {
    var u :- if unpack then (var m1 :- UnpackedTargetType(m); UnpackedSpanAnswer(m1)) else Ok(m);
    Ok(u["order" := JInt(order)]["rank" := JInt(rank)])
  }

  /** Every stamped record carries its `order` and `rank`; without unpacking it
      is the input record with just those two fields set. */
  lemma StampRecordMeaning(m: map<string, Json>, order: nat, rank: nat, unpack: bool)
    ensures var r := StampRecord(m, order, rank, unpack);
      && (r.Ok? ==> r.value["order"] == JInt(order) && r.value["rank"] == JInt(rank))
      && (!unpack ==> r == Ok(m["order" := JInt(order)]["rank" := JInt(rank)]))
      && (r.Ok? ==> r.value.Keys == (if unpack then (var m1 := UnpackedTargetType(m).value;
                                       UnpackedSpanAnswer(m1).value.Keys) else m.Keys) + {"order", "rank"})
  {
  }

  /** The records of one key's list from position `k` on, stamped. */
  function StampList(ms: seq<map<string, Json>>, order: nat, k: nat, unpack: bool): Result<seq<map<string, Json>>, ConvertError>
    requires k <= |ms|
    decreases |ms| - k
  {
    if k == |ms| then Ok([])
    else
      var x :- StampRecord(ms[k], order, k, unpack);
      var rest :- StampList(ms, order, k + 1, unpack);
      Ok([x] + rest)
  }

  /** The records yielded by `read_mrc_inner` for the keys from position `o` on. */
  function ReadFrom(vals: seq<seq<map<string, Json>>>, o: nat, unpack: bool): Result<seq<map<string, Json>>, ConvertError>
    requires o <= |vals|
    decreases |vals| - o
  {
    if o == |vals| then Ok([])
    else
      var xs :- StampList(vals[o], o, 0, unpack);
      var rest :- ReadFrom(vals, o + 1, unpack);
      Ok(xs + rest)
  }

  /** `prefix` followed by the records of `r`, or the error of `r`. */
  function Prepend(prefix: seq<map<string, Json>>, r: Result<seq<map<string, Json>>, ConvertError>): Result<seq<map<string, Json>>, ConvertError> {
    match r
    case Ok(rest) => Ok(prefix + rest)
    case Err(e) => Err(e)
  }

  /** The number of records of the keys in positions `o` to `o' - 1`. */
  function Count(vals: seq<seq<map<string, Json>>>, o: nat, o': nat): nat
    requires o <= o' <= |vals|
    decreases o' - o
  {
    if o == o' then 0 else |vals[o]| + Count(vals, o + 1, o')
  }

  lemma {:induction false} StampListAt(ms: seq<map<string, Json>>, order: nat, k: nat, unpack: bool, j: nat)
    requires k <= j < |ms| && StampList(ms, order, k, unpack).Ok?
    ensures |StampList(ms, order, k, unpack).value| == |ms| - k
    ensures StampRecord(ms[j], order, j, unpack).Ok?
    ensures StampList(ms, order, k, unpack).value[j - k] == StampRecord(ms[j], order, j, unpack).value
    decreases |ms| - k
  {
    StampListLength(ms, order, k, unpack);
    StampListCons(ms, order, k, unpack);
    if j > k {
      StampListAt(ms, order, k + 1, unpack, j);
      ConsIndex(StampRecord(ms[k], order, k, unpack).value, StampList(ms, order, k + 1, unpack).value, j - k);
    }
  }

  lemma ConsIndex<T>(x: T, rest: seq<T>, i: nat)
    requires 0 < i <= |rest|
    ensures ([x] + rest)[i] == rest[i - 1]
  {
  }

  /** A successful stamping of the records from `k` on is record `k` stamped,
      followed by the stamping of the rest. */
  lemma StampListCons(ms: seq<map<string, Json>>, order: nat, k: nat, unpack: bool)
    requires k < |ms| && StampList(ms, order, k, unpack).Ok?
    ensures StampRecord(ms[k], order, k, unpack).Ok? && StampList(ms, order, k + 1, unpack).Ok?
    ensures StampList(ms, order, k, unpack).value
      == [StampRecord(ms[k], order, k, unpack).value] + StampList(ms, order, k + 1, unpack).value
  {
  }

  lemma {:induction false} StampListLength(ms: seq<map<string, Json>>, order: nat, k: nat, unpack: bool)
    requires k <= |ms| && StampList(ms, order, k, unpack).Ok?
    ensures |StampList(ms, order, k, unpack).value| == |ms| - k
    decreases |ms| - k
  {
    if k < |ms| {
      StampListLength(ms, order, k + 1, unpack);
    }
  }

  /** Every record `read_mrc_inner` yields has `order` equal to its key's
      position in the input and `rank` equal to its position in that key's
      list, and the records come key by key, each list in order: record `k` of
      key `o'` is at position `Count(vals, o, o') + k`. */
  lemma ReadFromAt(vals: seq<seq<map<string, Json>>>, o: nat, unpack: bool, o': nat, k: nat)
    requires o <= o' < |vals| && k < |vals[o']|
    requires ReadFrom(vals, o, unpack).Ok?
    ensures |ReadFrom(vals, o, unpack).value| == Count(vals, o, |vals|)
    ensures Count(vals, o, o') + k < Count(vals, o, |vals|)
    ensures StampRecord(vals[o'][k], o', k, unpack).Ok?
    ensures ReadFrom(vals, o, unpack).value[Count(vals, o, o') + k] == StampRecord(vals[o'][k], o', k, unpack).value
    ensures ReadFrom(vals, o, unpack).value[Count(vals, o, o') + k]["order"] == JInt(o')
    ensures ReadFrom(vals, o, unpack).value[Count(vals, o, o') + k]["rank"] == JInt(k)
  {
    ReadFromAtValue(vals, o, unpack, o', k);
    StampRecordMeaning(vals[o'][k], o', k, unpack);
  }

  /** The record-level part of `ReadFromAt`, by induction on the keys. */
  lemma {:induction false} ReadFromAtValue(vals: seq<seq<map<string, Json>>>, o: nat, unpack: bool, o': nat, k: nat)
    requires o <= o' < |vals| && k < |vals[o']|
    requires ReadFrom(vals, o, unpack).Ok?
    ensures |ReadFrom(vals, o, unpack).value| == Count(vals, o, |vals|)
    ensures Count(vals, o, o') + k < Count(vals, o, |vals|)
    ensures StampRecord(vals[o'][k], o', k, unpack).Ok?
    ensures ReadFrom(vals, o, unpack).value[Count(vals, o, o') + k] == StampRecord(vals[o'][k], o', k, unpack).value
    decreases |vals| - o
  {
    ReadFromLength(vals, o, unpack);
    ReadFromCons(vals, o, unpack);
    StampListLength(vals[o], o, 0, unpack);
    var xs := StampList(vals[o], o, 0, unpack).value;
    var rest := ReadFrom(vals, o + 1, unpack).value;
    if o' > o {
      ReadFromAtValue(vals, o + 1, unpack, o', k);
      AppendIndexRight(xs, rest, Count(vals, o, o') + k);
    } else {
      StampListAt(vals[o], o, 0, unpack, k);
      AppendIndexLeft(xs, rest, k);
    }
  }

  /** A successful read from key `o` on is key `o`'s stamped records followed
      by the read from the next key on. */
  lemma ReadFromCons(vals: seq<seq<map<string, Json>>>, o: nat, unpack: bool)
    requires o < |vals| && ReadFrom(vals, o, unpack).Ok?
    ensures StampList(vals[o], o, 0, unpack).Ok? && ReadFrom(vals, o + 1, unpack).Ok?
    ensures ReadFrom(vals, o, unpack).value == StampList(vals[o], o, 0, unpack).value + ReadFrom(vals, o + 1, unpack).value
  {
  }

  lemma AppendIndexLeft<T>(a: seq<T>, b: seq<T>, i: nat)
    requires i < |a|
    ensures (a + b)[i] == a[i]
  {
  }

  lemma AppendIndexRight<T>(a: seq<T>, b: seq<T>, i: nat)
    requires |a| <= i < |a| + |b|
    ensures (a + b)[i] == b[i - |a|]
  {
  }

  lemma {:induction false} ReadFromLength(vals: seq<seq<map<string, Json>>>, o: nat, unpack: bool)
    requires o <= |vals| && ReadFrom(vals, o, unpack).Ok?
    ensures |ReadFrom(vals, o, unpack).value| == Count(vals, o, |vals|)
    decreases |vals| - o
  {
    if o < |vals| {
      StampListLength(vals[o], o, 0, unpack);
      ReadFromLength(vals, o + 1, unpack);
    }
  }

  /** `df.query('rank==0')`: the records whose rank is 0, in order. */
  function TopRanked(rs: seq<map<string, Json>>): seq<map<string, Json>> {
    if |rs| == 0 then []
    else (if "rank" in rs[0] && rs[0]["rank"] == JInt(0) then [rs[0]] else []) + TopRanked(rs[1..])
  }

  lemma {:induction false} TopRankedAppend(a: seq<map<string, Json>>, b: seq<map<string, Json>>)
    ensures TopRanked(a + b) == TopRanked(a) + TopRanked(b)
  {
    if |a| > 0 {
      assert (a + b)[0] == a[0];
      assert (a + b)[1..] == a[1..] + b;
      TopRankedAppend(a[1..], b);
    } else {
      assert a + b == b;
    }
  }

  /** The positions `o'` at or after `o` whose list is not empty, in increasing order. */
  function NonEmptyKeys(vals: seq<seq<map<string, Json>>>, o: nat): (r: seq<nat>)
    requires o <= |vals|
    ensures forall j :: 0 <= j < |r| ==> o <= r[j] < |vals| && |vals[r[j]]| > 0
    ensures forall j, j' :: 0 <= j < j' < |r| ==> r[j] < r[j']
    ensures forall p :: o <= p < |vals| && |vals[p]| > 0 ==> p in r
    decreases |vals| - o
  {
    if o == |vals| then []
    else (if |vals[o]| > 0 then [o] else []) + NonEmptyKeys(vals, o + 1)
  }

  lemma {:induction false} TopRankedStampList(ms: seq<map<string, Json>>, order: nat, k: nat, unpack: bool)
    requires k <= |ms| && StampList(ms, order, k, unpack).Ok?
    ensures TopRanked(StampList(ms, order, k, unpack).value) ==
      if k == 0 && |ms| > 0 then [StampRecord(ms[0], order, 0, unpack).value] else []
    decreases |ms| - k
  {
    if k < |ms| {
      var x := StampRecord(ms[k], order, k, unpack).value;
      var rest := StampList(ms, order, k + 1, unpack).value;
      TopRankedStampList(ms, order, k + 1, unpack);
      StampRecordMeaning(ms[k], order, k, unpack);
      assert ([x] + rest)[1..] == rest;
    }
  }

  /** The first record of every key whose list is not empty, stamped. */
  function Firsts(vals: seq<seq<map<string, Json>>>, o: nat, unpack: bool): Result<seq<map<string, Json>>, ConvertError>
    requires o <= |vals|
    decreases |vals| - o
  {
    if o == |vals| then Ok([])
    else
      var rest :- Firsts(vals, o + 1, unpack);
      if |vals[o]| == 0 then Ok(rest)
      else
        var x :- StampRecord(vals[o][0], o, 0, unpack);
        Ok([x] + rest)
  }

  /** After the `rank == 0` filter exactly the first record of every key whose
      list is not empty is left, in the keys' order. */
  lemma {:induction false} TopRankedReadFrom(vals: seq<seq<map<string, Json>>>, o: nat, unpack: bool)
    requires o <= |vals| && ReadFrom(vals, o, unpack).Ok?
    ensures Firsts(vals, o, unpack).Ok?
    ensures TopRanked(ReadFrom(vals, o, unpack).value) == Firsts(vals, o, unpack).value
    decreases |vals| - o
  {
    if o < |vals| {
      var xs := StampList(vals[o], o, 0, unpack).value;
      var rest := ReadFrom(vals, o + 1, unpack).value;
      TopRankedAppend(xs, rest);
      TopRankedStampList(vals[o], o, 0, unpack);
      TopRankedReadFrom(vals, o + 1, unpack);
      if |vals[o]| > 0 {
        StampListAt(vals[o], o, 0, unpack, 0);
      }
    }
  }

  /** The first stamped record of the key at position `p`. */
  function FirstStamp(vals: seq<seq<map<string, Json>>>, p: nat, unpack: bool): Result<map<string, Json>, ConvertError>
    requires p < |vals| && |vals[p]| > 0
  {
    StampRecord(vals[p][0], p, 0, unpack)
  }

  lemma FirstsHead(vals: seq<seq<map<string, Json>>>, o: nat, unpack: bool)
    requires o < |vals| && |vals[o]| > 0 && Firsts(vals, o, unpack).Ok?
    ensures FirstStamp(vals, o, unpack).Ok? && Firsts(vals, o + 1, unpack).Ok?
    ensures Firsts(vals, o, unpack).value == [FirstStamp(vals, o, unpack).value] + Firsts(vals, o + 1, unpack).value
  {
  }

  lemma FirstsShift(vals: seq<seq<map<string, Json>>>, o: nat, unpack: bool, j: nat)
    requires o < |vals| && |vals[o]| > 0 && Firsts(vals, o, unpack).Ok?
    requires 0 < j <= |Firsts(vals, o + 1, unpack).value|
    ensures j < |Firsts(vals, o, unpack).value|
    ensures Firsts(vals, o, unpack).value[j] == Firsts(vals, o + 1, unpack).value[j - 1]
  {
    FirstsHead(vals, o, unpack);
  }

  lemma FirstsSkip(vals: seq<seq<map<string, Json>>>, o: nat, unpack: bool)
    requires o < |vals| && |vals[o]| == 0 && Firsts(vals, o, unpack).Ok?
    ensures Firsts(vals, o, unpack) == Firsts(vals, o + 1, unpack)
  {
  }

  /** Row `j` of `Firsts` is the first record of the `j`-th key with a non-empty
      list, stamped. */
  lemma {:induction false} FirstsAt(vals: seq<seq<map<string, Json>>>, o: nat, unpack: bool, j: nat)
    requires o <= |vals| && Firsts(vals, o, unpack).Ok? && j < |NonEmptyKeys(vals, o)|
    ensures |Firsts(vals, o, unpack).value| == |NonEmptyKeys(vals, o)|
    ensures FirstStamp(vals, NonEmptyKeys(vals, o)[j], unpack).Ok?
    ensures Firsts(vals, o, unpack).value[j] == FirstStamp(vals, NonEmptyKeys(vals, o)[j], unpack).value
    decreases |vals| - o
  {
    FirstsLength(vals, o, unpack);
    var keys := NonEmptyKeys(vals, o);
    var keysRest := NonEmptyKeys(vals, o + 1);
    if |vals[o]| > 0 {
      assert keys == [o] + keysRest;
      if j > 0 {
        FirstsHead(vals, o, unpack);
        FirstsAt(vals, o + 1, unpack, j - 1);
        FirstsShift(vals, o, unpack, j);
        assert keys[j] == keysRest[j - 1];
      } else {
        FirstsHead(vals, o, unpack);
      }
    } else {
      FirstsSkip(vals, o, unpack);
      assert keys == keysRest;
      FirstsAt(vals, o + 1, unpack, j);
    }
  }

  lemma {:induction false} FirstsLength(vals: seq<seq<map<string, Json>>>, o: nat, unpack: bool)
    requires o <= |vals| && Firsts(vals, o, unpack).Ok?
    ensures |Firsts(vals, o, unpack).value| == |NonEmptyKeys(vals, o)|
    decreases |vals| - o
  {
    if o < |vals| {
      FirstsLength(vals, o + 1, unpack);
    }
  }

  /** The rows `create_dataset_from_json_str` keeps: one per key whose list is
      not empty, in increasing key order, each the first record of its list with
      `order` set to the key's position and `rank` to 0; a key with an empty list
      contributes no row. */
  lemma TopRankedRows(vals: seq<seq<map<string, Json>>>, unpack: bool, j: nat)
    requires ReadFrom(vals, 0, unpack).Ok? && j < |NonEmptyKeys(vals, 0)|
    ensures |TopRanked(ReadFrom(vals, 0, unpack).value)| == |NonEmptyKeys(vals, 0)|
    ensures StampRecord(vals[NonEmptyKeys(vals, 0)[j]][0], NonEmptyKeys(vals, 0)[j], 0, unpack).Ok?
    ensures TopRanked(ReadFrom(vals, 0, unpack).value)[j] ==
      StampRecord(vals[NonEmptyKeys(vals, 0)[j]][0], NonEmptyKeys(vals, 0)[j], 0, unpack).value
    ensures "order" in TopRanked(ReadFrom(vals, 0, unpack).value)[j]
    ensures TopRanked(ReadFrom(vals, 0, unpack).value)[j]["order"] == JInt(NonEmptyKeys(vals, 0)[j])
    ensures "rank" in TopRanked(ReadFrom(vals, 0, unpack).value)[j]
    ensures TopRanked(ReadFrom(vals, 0, unpack).value)[j]["rank"] == JInt(0)
  {
    TopRankedReadFrom(vals, 0, unpack);
    FirstsAt(vals, 0, unpack, j);
    FirstsLength(vals, 0, unpack);
    var p := NonEmptyKeys(vals, 0)[j];
    StampRecordMeaning(vals[p][0], p, 0, unpack);
  }

  /** The loop body of `read_mrc_inner` for one record, updating it in place. */
  method StampRow(row: Row, order: nat, rank: nat, unpack: bool) returns (r: Result<(), ConvertError>)
    modifies row
    ensures r.Ok? <==> StampRecord(old(row.fields), order, rank, unpack).Ok?
    ensures r.Ok? ==> row.fields == StampRecord(old(row.fields), order, rank, unpack).value
    ensures r.Err? ==> r.error == StampRecord(old(row.fields), order, rank, unpack).error
  {
    if unpack {
      var u := UnpackTargetType(row);
      if u.Err? {
        return Err(u.error);
      }
      var v := UnpackSpanAnswer(row);
      if v.Err? {
        return Err(v.error);
      }
    }
    row.fields := row.fields["order" := JInt(order)]["rank" := JInt(rank)];
    r := Ok(());
  }

  /** The decoded prediction file: the example ids in file order and, for
      each, its list of ranked records. `read_mrc_inner` updates the records
      in place and never touches the ids. */
  class Predictions {
    const exampleIds: seq<string>
    var records: seq<seq<map<string, Json>>>

    constructor (exampleIds: seq<string>, records: seq<seq<map<string, Json>>>)
      requires |exampleIds| == |records|
      ensures this.exampleIds == exampleIds && this.records == records
    {
      this.exampleIds := exampleIds;
      this.records := records;
    }
  }

  lemma PrependAssoc(a: seq<map<string, Json>>, b: seq<map<string, Json>>, r: Result<seq<map<string, Json>>, ConvertError>)
    ensures Prepend(a, Prepend(b, r)) == Prepend(a + b, r)
  {
    if r.Ok? {
      assert a + (b + r.value) == (a + b) + r.value;
    }
  }

  lemma PrependEmpty(r: Result<seq<map<string, Json>>, ConvertError>)
    ensures Prepend([], r) == r
  {
    if r.Ok? {
      assert [] + r.value == r.value;
    }
  }

  lemma StampListStep(vals: seq<map<string, Json>>, order: nat, k: nat, unpack: bool, inner: seq<map<string, Json>>)
    requires k < |vals| && StampRecord(vals[k], order, k, unpack).Ok?
    ensures Prepend(inner + [StampRecord(vals[k], order, k, unpack).value], StampList(vals, order, k + 1, unpack))
      == Prepend(inner, StampList(vals, order, k, unpack))
  {
    var x := StampRecord(vals[k], order, k, unpack).value;
    assert StampList(vals, order, k, unpack) == Prepend([x], StampList(vals, order, k + 1, unpack));
    PrependAssoc(inner, [x], StampList(vals, order, k + 1, unpack));
  }

  lemma UpdateStep<T>(inner: seq<T>, vals: seq<T>, k: nat, x: T)
    requires |inner| == k < |vals|
    ensures (inner + vals[k..])[k := x] == (inner + [x]) + vals[k + 1..]
  {
  }

  lemma ReadFromStep(vals: seq<seq<map<string, Json>>>, o: nat, unpack: bool, out: seq<map<string, Json>>, xs: seq<map<string, Json>>)
    requires o < |vals| && StampList(vals[o], o, 0, unpack) == Ok(xs)
    ensures Prepend(out + xs, ReadFrom(vals, o + 1, unpack)) == Prepend(out, ReadFrom(vals, o, unpack))
  {
    assert ReadFrom(vals, o, unpack) == Prepend(xs, ReadFrom(vals, o + 1, unpack));
    PrependAssoc(out, xs, ReadFrom(vals, o + 1, unpack));
  }

  /** The inner loop of `read_mrc_inner` over the records of the example at
      position `o`, each stamped in place by `StampRow` and written back: the
      records yielded, or the first exception raised. No other example's
      records change. */
  method StampExample(p: Predictions, o: nat, unpack: bool) returns (r: Result<seq<map<string, Json>>, ConvertError>)
    requires o < |p.records|
    modifies p
    ensures r == StampList(old(p.records)[o], o, 0, unpack)
    ensures |p.records| == |old(p.records)|
    ensures forall o' :: 0 <= o' < |p.records| && o' != o ==> p.records[o'] == old(p.records)[o']
    ensures r.Ok? ==> p.records[o] == r.value
  {
    var vals := p.records[o];
    ghost var before := p.records;
    var yielded: seq<map<string, Json>> := [];
    PrependEmpty(StampList(vals, o, 0, unpack));
    assert yielded + vals[0..] == vals;
    assert before[o := vals] == before;
    var k := 0;
    while k < |vals|
      invariant 0 <= k <= |vals| && |yielded| == k
      invariant p.records == before[o := yielded + vals[k..]]
      invariant Prepend(yielded, StampList(vals, o, k, unpack)) == StampList(vals, o, 0, unpack)
    {
      var row := new Row(vals[k]);
      var stamped := StampRow(row, o, k, unpack);
      if stamped.Err? {
        return Err(stamped.error);
      }
      var x := row.fields;
      StampListStep(vals, o, k, unpack, yielded);
      UpdateStep(yielded, vals, k, x);
      p.records := p.records[o := p.records[o][k := x]];
      yielded := yielded + [x];
      k := k + 1;
    }
    assert vals[k..] == [] && yielded + [] == yielded;
    r := Ok(yielded);
  }

  /** `read_mrc_inner()`, drained: the records yielded, or the first exception
      raised. When every record is stamped, each example's list holds its
      records as yielded. */
  method ReadMrcInner(p: Predictions, unpack: bool) returns (r: Result<seq<map<string, Json>>, ConvertError>)
    modifies p
    ensures r == ReadFrom(old(p.records), 0, unpack)
    ensures |p.records| == |old(p.records)|
    ensures r.Ok? ==> forall o :: 0 <= o < |p.records| ==>
      Ok(p.records[o]) == StampList(old(p.records)[o], o, 0, unpack)
  {
    ghost var S := p.records;
    var out: seq<map<string, Json>> := [];
    PrependEmpty(ReadFrom(S, 0, unpack));
    var o := 0;
    while o < |p.records|
      invariant 0 <= o <= |p.records| == |S|
      invariant Prepend(out, ReadFrom(S, o, unpack)) == ReadFrom(S, 0, unpack)
      invariant forall o' :: 0 <= o' < o ==> Ok(p.records[o']) == StampList(S[o'], o', 0, unpack)
      invariant forall o' :: o <= o' < |S| ==> p.records[o'] == S[o']
    {
      var res := StampExample(p, o, unpack);
      if res.Err? {
        return Err(res.error);
      }
      ReadFromStep(S, o, unpack, out, res.value);
      out := out + res.value;
      o := o + 1;
    }
    r := Ok(out);
    assert out + [] == out;
  }

  /** `create_dataset_from_json_str(json_str, unpack)`: the rows of the frame
      built from every record, restricted to rank 0. A frame built from no
      records has no `rank` column to query. */
  method CreateDatasetFromJsonStr(p: Predictions, unpack: bool) returns (r: Result<seq<map<string, Json>>, ConvertError>)
    modifies p
    ensures var all := ReadFrom(old(p.records), 0, unpack);
      r == if all.Err? then Err(all.error) else if all.value == [] then Err(NoRankColumn) else Ok(TopRanked(all.value))
  {
    var records := ReadMrcInner(p, unpack);
    if records.Err? {
      return Err(records.error);
    }
    if records.value == [] {
      return Err(NoRankColumn);
    }
    r := Ok(TopRanked(records.value));
  }
}

/** Batching of nested dictionaries of tensors: `makeBatch` and `unBatch` of the
    sub-batch batcher in `cpid/batcher.cpp`, without padding. */
module Batch {

  datatype Result<+T> = Ok(value: T) | Err

  /** A tensor is a scalar or a list of rows, each a tensor of shape `inner`. */
  datatype Tensor = Scalar(x: int) | Rows(inner: seq<nat>, rows: seq<Tensor>)

  datatype Variant =
    | TensorV(t: Tensor)
    | Dict(d: map<string, Variant>)
    | TensorList(ts: seq<Tensor>)
    | List(vs: seq<Variant>)
    | Other

  const BATCH_INFO := "batch_info"

  function Dim(t: Tensor): nat {
    if t.Scalar? then 0 else 1 + |t.inner|
  }

  /** A scalar takes part in a batch as one row. */
  function AsRows(t: Tensor): (r: Tensor)
    ensures r.Rows?
  {
    if t.Scalar? then Rows([], [t]) else t
  }

  function Concat(ts: seq<Tensor>): seq<Tensor> {
    if ts == [] then [] else AsRows(ts[0]).rows + Concat(ts[1..])
  }

  predicate SameInner(ts: seq<Tensor>) {
    forall i :: 0 <= i < |ts| ==> AsRows(ts[i]).inner == AsRows(ts[0]).inner
  }

  /** makeBatchTensors: concatenation along the first dimension. */
  function BatchTensors(ts: seq<Tensor>): Result<Tensor> {
    if ts == [] || !SameInner(ts) then Err else Ok(Rows(AsRows(ts[0]).inner, Concat(ts)))
  }

  function Sizes(ts: seq<Tensor>): (r: seq<nat>)
    ensures |r| == |ts|
  {
    seq(|ts|, i requires 0 <= i < |ts| => |AsRows(ts[i]).rows|)
  }

  /** The sizes as the tensor that is stored in the batch info. */
  function SizesTensor(sizes: seq<nat>): Tensor {
    Rows([], seq(|sizes|, i requires 0 <= i < |sizes| => Scalar(sizes[i])))
  }

  /** tensorToVec: the sizes read back; entries must be non-negative scalars. */
  function ReadSizes(t: Tensor): Result<seq<nat>> {
    if t.Rows? && forall i :: 0 <= i < |t.rows| ==> t.rows[i].Scalar? && t.rows[i].x >= 0
    then Ok(seq(|t.rows|, i requires 0 <= i < |t.rows| => t.rows[i].x)) else Err
  }

  function FindBatchInfo(info: Variant, name: string): Result<seq<nat>> {
    if !info.Dict? then Err
    else if name !in info.d then Ok([])
    else if !info.d[name].TensorV? then Err
    else ReadSizes(info.d[name].t)
  }

  function Sum(sizes: seq<nat>): nat {
    if sizes == [] then 0 else sizes[0] + Sum(sizes[1..])
  }

  function Split(inner: seq<nat>, rows: seq<Tensor>, sizes: seq<nat>): (r: seq<Tensor>)
    requires Sum(sizes) == |rows|
    ensures |r| == |sizes|
  {
    if sizes == [] then []
    else [Rows(inner, rows[..sizes[0]])] + Split(inner, rows[sizes[0]..], sizes[1..])
  }

  /** unBatchTensor: by the given sizes, or row by row if there are none. */
  function UnBatchTensor(t: Tensor, sizes: seq<nat>): Result<seq<Tensor>> {
    if sizes == [] then
      if t.Scalar? then Err
      else if t.inner == [] then Ok(seq(|t.rows|, i requires 0 <= i < |t.rows| => Rows([], [t.rows[i]])))
      else Ok(t.rows)
    else if t.Scalar? || Sum(sizes) != |t.rows| then Err
    else Ok(Split(t.inner, t.rows, sizes))
  }

  function Tensors(ts: seq<Tensor>): (r: seq<Variant>)
    ensures |r| == |ts|
  {
    seq(|ts|, i requires 0 <= i < |ts| => TensorV(ts[i]))
  }

  /** All queries are dictionaries with the same keys. */
  predicate SameKeys(qs: seq<Variant>) {
    forall i :: 0 <= i < |qs| ==> qs[0].Dict? && qs[i].Dict? && qs[i].d.Keys == qs[0].d.Keys
  }

  predicate AllTensors(qs: seq<Variant>) {
    forall i :: 0 <= i < |qs| ==> qs[i].TensorV?
  }

  predicate AllDicts(qs: seq<Variant>) {
    forall i :: 0 <= i < |qs| ==> qs[i].Dict?
  }

  function Unwrap(qs: seq<Variant>): (r: seq<Tensor>)
    requires AllTensors(qs)
    ensures |r| == |qs|
  {
    seq(|qs|, i requires 0 <= i < |qs| => qs[i].t)
  }

  function Column(qs: seq<Variant>, k: string): (r: seq<Variant>)
    requires SameKeys(qs) && (qs != [] ==> k in qs[0].d)
    ensures |r| == |qs|
  {
    seq(|qs|, i requires 0 <= i < |qs| => qs[i].d[k])
  }

  /** The values of one key, batched. */
  function BatchColumn(column: seq<Variant>): Result<Variant>
    requires column != []
    decreases column[0], 2
  {
    if AllTensors(column) then
      var ts := Unwrap(column);
      if forall i :: 0 <= i < |ts| ==> Dim(ts[i]) == Dim(ts[0])
      then match BatchTensors(ts) case Ok(t) => Ok(TensorV(t)) case Err => Err
      else Err
    else if AllDicts(column) then MakeBatch(column)
    else Err
  }

  predicate Batchable(qs: seq<Variant>)
    requires qs != [] && SameKeys(qs)
    decreases qs[0], 0
  {
    BATCH_INFO !in qs[0].d && forall k :: k in qs[0].d ==> BatchColumn(Column(qs, k)).Ok?
  }

  /** What the batch info says about one key: the row counts of its tensors. */
  function Info(qs: seq<Variant>): map<string, Variant>
    requires qs != [] && SameKeys(qs)
  {
    map k | k in qs[0].d && AllTensors(Column(qs, k)) :: TensorV(SizesTensor(Sizes(Unwrap(Column(qs, k)))))
  }

  /** makeBatch; Err stands for an exception. */
  function MakeBatch(qs: seq<Variant>): Result<Variant>
    decreases if qs == [] then Other else qs[0], 1
  {
    if qs == [] then Ok(Dict(map[BATCH_INFO := Dict(map[])]))
    else if AllTensors(qs) then
      match BatchTensors(Unwrap(qs)) case Ok(t) => Ok(TensorV(t)) case Err => Err
    else if !SameKeys(qs) || !Batchable(qs) then Err
    else Ok(Dict((map k | k in qs[0].d :: BatchColumn(Column(qs, k)).value)[BATCH_INFO := Dict(Info(qs))]))
  }

  /** The keys that are unbatched. */
  predicate IsData(d: map<string, Variant>, k: string) {
    k in d && !(k == BATCH_INFO && d[k].Dict?)
  }

  /** One key of a batched dictionary, unbatched. */
  ghost function UnBatchKey(out: Variant, k: string): Result<seq<Variant>>
    requires out.Dict? && k in out.d
    decreases out, 0
  {
    match out.d[k]
    case Dict(_) => UnBatch(out.d[k])
    case TensorList(ts) => Ok(Tensors(ts))
    case List(vs) => Ok(vs)
    case TensorV(t) =>
      (match if BATCH_INFO in out.d then FindBatchInfo(out.d[BATCH_INFO], k) else Ok([])
       case Err => Err
       case Ok(sizes) =>
         match UnBatchTensor(t, sizes)
         case Err => Err
         case Ok(ts) => Ok(Tensors(ts)))
    case Other => Err
  }

  /** All keys unbatch, to lists of length `n`. */
  ghost predicate UnBatchesTo(out: Variant, n: nat)
    requires out.Dict?
    decreases out, 1
  {
    forall k :: IsData(out.d, k) ==> UnBatchKey(out, k).Ok? && |UnBatchKey(out, k).value| == n
  }

  /** The `i`-th element of every key. */
  ghost function Element(out: Variant, n: nat, i: nat): Variant
    requires out.Dict? && UnBatchesTo(out, n) && i < n
    decreases out, 2
  {
    Dict(map k | k in out.d && IsData(out.d, k) :: UnBatchKey(out, k).value[i])
  }

  /** unBatch; Err stands for an exception. Keys that unbatch to different
      lengths are an error. */
  ghost function UnBatch(out: Variant): Result<seq<Variant>>
    decreases out, 3
  {
    if !out.Dict? then Err
    else if forall k :: !IsData(out.d, k) then Ok([])
    else if n: nat :| UnBatchesTo(out, n) then Ok(seq(n, i requires 0 <= i < n => Element(out, n, i)))
    else Err
  }

  /** The tensors with every scalar turned into a one-row tensor. */
  function RowForms(ts: seq<Tensor>): (r: seq<Tensor>)
    ensures |r| == |ts|
  {
    seq(|ts|, i requires 0 <= i < |ts| => AsRows(ts[i]))
  }

  lemma Slices(a: seq<Tensor>, b: seq<Tensor>)
    ensures (a + b)[..|a|] == a && (a + b)[|a|..] == b
  {
  }

  /** Splitting a concatenation by the row counts gives the tensors back. */
  lemma {:induction false} SplitConcat(ts: seq<Tensor>, inner: seq<nat>)
    requires forall i :: 0 <= i < |ts| ==> AsRows(ts[i]).inner == inner
    ensures Sum(Sizes(ts)) == |Concat(ts)|
    ensures Split(inner, Concat(ts), Sizes(ts)) == RowForms(ts)
    decreases |ts|
  {
    if ts != [] {
      var rest := ts[1..];
      SplitConcat(rest, inner);
      var first := AsRows(ts[0]).rows;
      var sizes := Sizes(ts);
      assert sizes[0] == |first| && sizes[1..] == Sizes(rest);
      Slices(first, Concat(rest));
      assert Split(inner, Concat(ts), sizes) == [Rows(inner, first)] + Split(inner, Concat(rest), Sizes(rest));
      assert RowForms(ts) == [AsRows(ts[0])] + RowForms(rest);
    }
  }

  lemma SizesSurvive(sizes: seq<nat>)
    ensures ReadSizes(SizesTensor(sizes)) == Ok(sizes)
  {
    var t := SizesTensor(sizes);
    assert forall i :: 0 <= i < |t.rows| ==> t.rows[i] == Scalar(sizes[i]);
    assert ReadSizes(t).value == sizes;
  }

  /** The length is determined by any one key. */
  lemma UnBatchIs(out: Variant, n: nat, k: string)
    requires out.Dict? && IsData(out.d, k) && UnBatchesTo(out, n)
    ensures UnBatch(out) == Ok(seq(n, i requires 0 <= i < n => Element(out, n, i)))
  {
    assert forall m: nat :: UnBatchesTo(out, m) ==> m == |UnBatchKey(out, k).value|;
  }

  /** A key of a batch of dictionaries is data exactly if it came from them. */
  lemma DataKeys(qs: seq<Variant>, k: string)
    requires qs != [] && SameKeys(qs) && MakeBatch(qs).Ok?
    ensures MakeBatch(qs).value.Dict?
    ensures IsData(MakeBatch(qs).value.d, k) <==> k in qs[0].d
  {
    assert qs[0].Dict?;
  }

  /** The queries batch, and have the key. */
  predicate Keyed(qs: seq<Variant>, k: string)
    requires qs != [] && SameKeys(qs)
  {
    MakeBatch(qs).Ok? && k in qs[0].d
  }

  /** What a key unbatches to: the row forms of its tensors, or whatever the
      nested batch unbatches to. */
  lemma KeyUnBatches(qs: seq<Variant>, k: string)
    requires qs != [] && SameKeys(qs)
    ensures Keyed(qs, k) ==> MakeBatch(qs).value.Dict? && k in MakeBatch(qs).value.d
    ensures Keyed(qs, k) ==>
            var out, column := MakeBatch(qs).value, Column(qs, k);
            if AllTensors(column) then UnBatchKey(out, k) == Ok(Tensors(RowForms(Unwrap(column))))
            else AllDicts(column) && MakeBatch(column).Ok? && UnBatchKey(out, k) == UnBatch(MakeBatch(column).value)
  {
    if Keyed(qs, k) {
      var out, column := MakeBatch(qs).value, Column(qs, k);
      BatchShape(qs);
      if AllTensors(column) {
        hide MakeBatch, BatchColumn, UnBatch, UnBatchKey, Column, Unwrap, Tensors, RowForms, SizesTensor, Sizes;
        KeySizes(qs, out, k);
        TensorKeyUnBatches(out, k, column);
      } else {
        DictBatchIsDict(column);
        hide MakeBatch, UnBatch, Info;
      }
    }
  }

  /** What the batch info says about a key with tensors. */
  lemma KeySizes(qs: seq<Variant>, out: Variant, k: string)
    requires qs != [] && SameKeys(qs) && k in qs[0].d && AllTensors(Column(qs, k))
    requires out.Dict? && BATCH_INFO in out.d && out.d[BATCH_INFO] == Dict(Info(qs))
    ensures FindBatchInfo(out.d[BATCH_INFO], k) == Ok(Sizes(Unwrap(Column(qs, k))))
  {
    SizesSurvive(Sizes(Unwrap(Column(qs, k))));
    hide Sizes, SizesTensor;
  }

  lemma TensorKeyUnBatches(out: Variant, k: string, column: seq<Variant>)
    requires column != [] && AllTensors(column) && BatchColumn(column).Ok?
    requires out.Dict? && k in out.d && k != BATCH_INFO && out.d[k] == BatchColumn(column).value
    requires BATCH_INFO in out.d && FindBatchInfo(out.d[BATCH_INFO], k) == Ok(Sizes(Unwrap(column)))
    ensures UnBatchKey(out, k) == Ok(Tensors(RowForms(Unwrap(column))))
  {
    var ts := Unwrap(column);
    assert BatchTensors(ts).Ok?;
    SplitConcat(ts, AsRows(ts[0]).inner);
    hide MakeBatch, UnBatch, FindBatchInfo, Sizes, RowForms, SizesTensor;
  }

  lemma DictBatchIsDict(qs: seq<Variant>)
    requires qs != [] && AllDicts(qs) && MakeBatch(qs).Ok?
    ensures SameKeys(qs) && MakeBatch(qs).value.Dict?
  {
    assert qs[0].Dict? && !AllTensors(qs);
  }

  /** No dictionary anywhere in the queries is empty, and no tensor is a scalar. */
  ghost predicate Clean(qs: seq<Variant>)
    requires qs != [] && SameKeys(qs)
    decreases qs[0]
  {
    && qs[0].d.Keys != {}
    && forall k :: k in qs[0].d ==>
         var column := Column(qs, k);
         if AllTensors(column) then forall i :: 0 <= i < |column| ==> column[i].t.Rows?
         else SameKeys(column) && Clean(column)
  }

  lemma ColumnsUnBatch(out: Variant, qs: seq<Variant>, k0: string)
    requires out.Dict? && qs != [] && SameKeys(qs) && k0 in qs[0].d
    requires forall k :: IsData(out.d, k) <==> k in qs[0].d
    requires forall k :: k in qs[0].d ==> k in out.d && UnBatchKey(out, k) == Ok(Column(qs, k))
    ensures UnBatch(out) == Ok(qs)
  {
    hide UnBatchKey;
    var n := |qs|;
    assert UnBatchesTo(out, n);
    UnBatchIs(out, n, k0);
    hide UnBatch, Element, UnBatchesTo;
    forall i | 0 <= i < n ensures Element(out, n, i) == qs[i] {
      ElementIs(out, qs, i);
    }
    assert UnBatch(out).value == qs;
  }

  lemma ElementIs(out: Variant, qs: seq<Variant>, i: nat)
    requires out.Dict? && i < |qs| && SameKeys(qs) && UnBatchesTo(out, |qs|)
    requires forall k :: IsData(out.d, k) <==> k in qs[0].d
    requires forall k :: k in qs[0].d ==> k in out.d && UnBatchKey(out, k) == Ok(Column(qs, k))
    ensures Element(out, |qs|, i) == qs[i]
  {
    hide UnBatchKey;
    var e := Element(out, |qs|, i);
    assert e.d.Keys == qs[i].d.Keys;
    assert forall k :: k in e.d ==> e.d[k] == Column(qs, k)[i];
    assert e.d == qs[i].d;
  }

  lemma UnBatchColumns(out: Variant, qs: seq<Variant>, k: string)
    requires out.Dict? && qs != [] && SameKeys(qs) && k in qs[0].d
    requires forall k :: IsData(out.d, k) <==> k in qs[0].d
    requires UnBatch(out) == Ok(qs)
    ensures UnBatchKey(out, k) == Ok(Column(qs, k))
  {
    hide UnBatchKey;
    assert IsData(out.d, k);
    var n: nat :| UnBatchesTo(out, n) && qs == seq(n, i requires 0 <= i < n => Element(out, n, i));
    forall i | 0 <= i < n ensures UnBatchKey(out, k).value[i] == Column(qs, k)[i] {
      assert qs[i] == Element(out, n, i);
      assert qs[i].d[k] == UnBatchKey(out, k).value[i];
    }
    assert UnBatchKey(out, k).value == Column(qs, k);
  }

  /** What can be batched: tensors of one inner shape, or dictionaries with the same keys,
      none of them reserved, and under each key tensors of as many dimensions that can be
      batched or dictionaries that can. */
  lemma MakeBatchExactly(qs: seq<Variant>)
    requires qs != []
    ensures AllTensors(qs) ==>
            (MakeBatch(qs).Ok? <==> forall i :: 0 <= i < |qs| ==> AsRows(qs[i].t).inner == AsRows(qs[0].t).inner)
    ensures !AllTensors(qs) ==>
            (MakeBatch(qs).Ok? <==>
               SameKeys(qs) && BATCH_INFO !in qs[0].d && forall k :: k in qs[0].d ==> CanBatch(qs, k))
  {
    if AllTensors(qs) {
      assert forall i :: 0 <= i < |qs| ==> Unwrap(qs)[i] == qs[i].t;
    } else if SameKeys(qs) {
      forall k | k in qs[0].d ensures CanBatch(qs, k) <==> BatchColumn(Column(qs, k)).Ok? {
        ColumnExactly(Column(qs, k));
      }
      hide BatchColumn;
    }
  }

  ghost predicate CanBatch(qs: seq<Variant>, k: string)
    requires qs != [] && SameKeys(qs) && k in qs[0].d
  {
    var column := Column(qs, k);
    && (AllTensors(column) || AllDicts(column)) && MakeBatch(column).Ok?
    && (AllTensors(column) ==> forall i :: 0 <= i < |column| ==> Dim(column[i].t) == Dim(column[0].t))
  }

  lemma ColumnExactly(column: seq<Variant>)
    requires column != []
    ensures BatchColumn(column).Ok? <==>
            && (AllTensors(column) || AllDicts(column)) && MakeBatch(column).Ok?
            && (AllTensors(column) ==> forall i :: 0 <= i < |column| ==> Dim(column[i].t) == Dim(column[0].t))
  {
    if AllTensors(column) {
      assert forall i :: 0 <= i < |column| ==> Unwrap(column)[i] == column[i].t;
    }
  }

  /** What can be unbatched: a dictionary all keys of which come to as many elements. */
  lemma UnBatchExactly(out: Variant)
    ensures UnBatch(out).Ok? <==>
            out.Dict? && forall j, k :: IsData(out.d, j) && IsData(out.d, k) ==>
              && UnBatchKey(out, j).Ok? && UnBatchKey(out, k).Ok?
              && |UnBatchKey(out, j).value| == |UnBatchKey(out, k).value|
  {
    hide UnBatchKey;
    if out.Dict? && forall j, k :: IsData(out.d, j) && IsData(out.d, k) ==>
         && UnBatchKey(out, j).Ok? && UnBatchKey(out, k).Ok?
         && |UnBatchKey(out, j).value| == |UnBatchKey(out, k).value| {
      if k :| IsData(out.d, k) {
        assert UnBatchesTo(out, |UnBatchKey(out, k).value|);
      }
    }
  }

  /** Unbatching a batch gives the queries back exactly when no dictionary in
      them is empty and no tensor is a scalar. */
  lemma {:induction false} RoundTrip(qs: seq<Variant>)
    requires qs != [] && SameKeys(qs) && MakeBatch(qs).Ok?
    ensures UnBatch(MakeBatch(qs).value) == Ok(qs) <==> Clean(qs)
    decreases qs[0]
  {
    var out := MakeBatch(qs).value;
    forall k ensures IsData(out.d, k) <==> k in qs[0].d {
      DataKeys(qs, k);
    }
    forall k | k in qs[0].d
      ensures UnBatchKey(out, k) == Ok(Column(qs, k)) <==>
              var column := Column(qs, k);
              if AllTensors(column) then forall i :: 0 <= i < |column| ==> column[i].t.Rows?
              else SameKeys(column) && Clean(column)
    {
      ColumnRoundTrip(qs, k);
    }
    DataKeys(qs, "");
    hide MakeBatch, UnBatchKey;
    if Clean(qs) {
      assert exists k :: k in qs[0].d.Keys;
      var k0 :| k0 in qs[0].d;
      ColumnsUnBatch(out, qs, k0);
    }
    if UnBatch(out) == Ok(qs) {
      forall k | k in qs[0].d ensures UnBatchKey(out, k) == Ok(Column(qs, k)) {
        UnBatchColumns(out, qs, k);
      }
      if qs[0].d.Keys == {} {
        assert forall k :: !IsData(out.d, k);
      }
    }
  }

  lemma ColumnRoundTrip(qs: seq<Variant>, k: string)
    requires qs != [] && SameKeys(qs)
    ensures Keyed(qs, k) ==> MakeBatch(qs).value.Dict? && k in MakeBatch(qs).value.d
    ensures Keyed(qs, k) ==>
            (UnBatchKey(MakeBatch(qs).value, k) == Ok(Column(qs, k)) <==>
             var column := Column(qs, k);
             if AllTensors(column) then forall i :: 0 <= i < |column| ==> column[i].t.Rows?
             else SameKeys(column) && Clean(column))
    decreases qs[0], 0
  {
    if Keyed(qs, k) {
      var column := Column(qs, k);
      KeyUnBatches(qs, k);
      if AllTensors(column) {
        var r := Tensors(RowForms(Unwrap(column)));
        forall i | 0 <= i < |column| ensures r[i] == column[i] <==> column[i].t.Rows? {
          assert r[i] == TensorV(AsRows(column[i].t));
        }
        assert r == column <==> forall i :: 0 <= i < |column| ==> r[i] == column[i];
      } else {
        DictBatchIsDict(column);
        RoundTrip(column);
      }
    }
  }

  /** A row-wise model: what it makes of a row of the tensor under a key, given the
      same row of the tensors beside it that it reads, and of the shapes of their
      rows. It leaves the batch info alone. */
  datatype Model = Model(
    beside: string -> set<string>,
    row: (string, Tensor, map<string, Tensor>) -> Tensor,
    shape: (string, seq<nat>, map<string, seq<nat>>) -> seq<nat>)

  /** The tensors in a dictionary that the model reads for one key. */
  function Beside(m: Model, k: string, d: map<string, Variant>): map<string, Tensor> {
    map j | j in d && j in m.beside(k) && d[j].TensorV? && d[j].t.Rows? :: d[j].t
  }

  function RowsAt(beside: map<string, Tensor>, i: nat): map<string, Tensor> {
    map j | j in beside && beside[j].Rows? && i < |beside[j].rows| :: beside[j].rows[i]
  }

  function Inners(beside: map<string, Tensor>): map<string, seq<nat>> {
    map j | j in beside && beside[j].Rows? :: beside[j].inner
  }

  function ForwardRows(m: Model, k: string, rows: seq<Tensor>, beside: map<string, Tensor>): (r: seq<Tensor>)
    ensures |r| == |rows|
  {
    seq(|rows|, i requires 0 <= i < |rows| => m.row(k, rows[i], RowsAt(beside, i)))
  }

  function ForwardTensor(m: Model, k: string, t: Tensor, beside: map<string, Tensor>): (r: Tensor)
    ensures r.Rows? <==> t.Rows?
  {
    if t.Scalar? then t else Rows(m.shape(k, t.inner, Inners(beside)), ForwardRows(m, k, t.rows, beside))
  }

  function Forward(m: Model, k: string, v: Variant): Variant
    decreases v
  {
    match v
    case TensorV(t) => TensorV(ForwardTensor(m, k, t, map[]))
    case Dict(d) => Dict(map j | j in d ::
      if j == BATCH_INFO then d[j]
      else if d[j].TensorV? then TensorV(ForwardTensor(m, j, d[j].t, Beside(m, j, d)))
      else Forward(m, j, d[j]))
    case _ => v
  }

  /** What the model makes of one key of a dictionary. */
  function ForwardKey(m: Model, k: string, d: map<string, Variant>): Variant
    requires k in d
  {
    if d[k].TensorV? then TensorV(ForwardTensor(m, k, d[k].t, Beside(m, k, d))) else Forward(m, k, d[k])
  }

  function ForwardAll(m: Model, k: string, qs: seq<Variant>): (r: seq<Variant>)
    ensures |r| == |qs|
  {
    seq(|qs|, i requires 0 <= i < |qs| => Forward(m, k, qs[i]))
  }

  /** The tensors that the model reads for a key have as many rows as the key's own,
      in every dictionary of the query. */
  ghost predicate Aligned(m: Model, v: Variant) {
    v.Dict? ==> forall k :: k in v.d ==> AlignedKey(m, k, v.d) && Aligned(m, v.d[k])
  }

  predicate AlignedKey(m: Model, k: string, d: map<string, Variant>) {
    k in d && d[k].TensorV? && d[k].t.Rows? ==>
      forall j :: j in Beside(m, k, d) ==> |Beside(m, k, d)[j].rows| == |d[k].t.rows|
  }

  ghost predicate AllAligned(m: Model, qs: seq<Variant>) {
    forall i :: 0 <= i < |qs| ==> Aligned(m, qs[i])
  }

  /** A model that acts on each key alone asks nothing of the queries. */
  lemma {:induction false} KeywiseIsAligned(m: Model, v: Variant)
    requires forall k :: m.beside(k) == {}
    ensures Aligned(m, v)
  {
    if v.Dict? {
      forall k | k in v.d ensures Aligned(m, v.d[k]) {
        KeywiseIsAligned(m, v.d[k]);
      }
    }
  }

  /** What the model reads for a key in each of the queries. */
  function BesideAll(m: Model, k: string, qs: seq<Variant>): (r: seq<map<string, Tensor>>)
    requires AllDicts(qs)
    ensures |r| == |qs|
  {
    seq(|qs|, i requires 0 <= i < |qs| => Beside(m, k, qs[i].d))
  }

  function Under(besides: seq<map<string, Tensor>>, j: string): (r: seq<Tensor>)
    ensures |r| == |besides|
  {
    seq(|besides|, i requires 0 <= i < |besides| => if j in besides[i] then besides[i][j] else Scalar(0))
  }

  /** The same, gathered into one dictionary. */
  function Gathered(besides: seq<map<string, Tensor>>): map<string, Tensor> {
    if besides == [] then map[]
    else map j | j in besides[0] && besides[0][j].Rows? :: Rows(besides[0][j].inner, Concat(Under(besides, j)))
  }

  /** Each query reads the same keys, with as many rows as its own tensor. */
  ghost predicate Alike(ts: seq<Tensor>, besides: seq<map<string, Tensor>>) {
    && |ts| == |besides|
    && (forall i :: 0 <= i < |ts| ==> ts[i].Rows? && besides[i].Keys == besides[0].Keys && Fitting(ts[i], besides[i]))
  }

  predicate Fitting(t: Tensor, beside: map<string, Tensor>)
    requires t.Rows?
  {
    forall j :: j in beside ==> beside[j].Rows? && |beside[j].rows| == |t.rows|
  }

  function ForwardTensors(m: Model, k: string, ts: seq<Tensor>, besides: seq<map<string, Tensor>>): (r: seq<Tensor>)
    requires |ts| == |besides|
    ensures |r| == |ts|
  {
    seq(|ts|, i requires 0 <= i < |ts| => ForwardTensor(m, k, ts[i], besides[i]))
  }

  lemma GatheredKey(besides: seq<map<string, Tensor>>, j: string)
    requires besides != [] && j in besides[0] && besides[0][j].Rows?
    ensures j in Gathered(besides)
    ensures Gathered(besides)[j] ==
            Rows(besides[0][j].inner, besides[0][j].rows + Concat(Under(besides[1..], j)))
  {
    assert Under(besides, j)[0] == besides[0][j] && Under(besides, j)[1..] == Under(besides[1..], j);
  }

  /** A gathered row is a row of the first query, ... */
  lemma FirstRow(t: Tensor, besides: seq<map<string, Tensor>>, i: nat)
    requires t.Rows? && besides != [] && Fitting(t, besides[0]) && i < |t.rows|
    ensures RowsAt(Gathered(besides), i) == RowsAt(besides[0], i)
  {
    assert Gathered(besides).Keys == besides[0].Keys;
    var g := Gathered(besides);
    hide Gathered;
    forall j | j in besides[0] ensures g[j].Rows? && i < |g[j].rows| && g[j].rows[i] == besides[0][j].rows[i] {
      GatheredKey(besides, j);
    }
  }

  /** ... or a gathered row of the others. */
  lemma LaterRow(t: Tensor, besides: seq<map<string, Tensor>>, i: nat)
    requires t.Rows? && |besides| > 1 && Fitting(t, besides[0]) && besides[1].Keys == besides[0].Keys
    requires forall j :: j in besides[1] ==> besides[1][j].Rows?
    ensures RowsAt(Gathered(besides), |t.rows| + i) == RowsAt(Gathered(besides[1..]), i)
  {
    var g, rest := Gathered(besides), Gathered(besides[1..]);
    assert g.Keys == besides[0].Keys == rest.Keys;
    forall j | j in g ensures g[j].Rows? && rest[j].Rows? && g[j].rows == besides[0][j].rows + rest[j].rows {
      GatheredKey(besides, j);
    }
    hide Gathered;
  }

  lemma ForwardAppend(m: Model, k: string, ts: seq<Tensor>, besides: seq<map<string, Tensor>>)
    requires ts != [] && Alike(ts, besides)
    ensures ForwardRows(m, k, ts[0].rows + Concat(ts[1..]), Gathered(besides))
         == ForwardRows(m, k, ts[0].rows, besides[0]) + ForwardRows(m, k, Concat(ts[1..]), Gathered(besides[1..]))
  {
    var n, rest := |ts[0].rows|, Concat(ts[1..]);
    var all := ForwardRows(m, k, ts[0].rows + rest, Gathered(besides));
    var one, others := ForwardRows(m, k, ts[0].rows, besides[0]), ForwardRows(m, k, rest, Gathered(besides[1..]));
    assert Fitting(ts[0], besides[0]) && (|ts| == 1 ==> rest == []);
    assert |ts| > 1 ==> Fitting(ts[1], besides[1]) && besides[1].Keys == besides[0].Keys;
    hide Alike, Gathered, RowsAt, Concat;
    forall i | 0 <= i < |all| ensures all[i] == (one + others)[i] {
      if i < n {
        FirstRow(ts[0], besides, i);
      } else {
        LaterRow(ts[0], besides, i - n);
      }
    }
  }

  lemma {:induction false} ConcatForward(m: Model, k: string, ts: seq<Tensor>, besides: seq<map<string, Tensor>>)
    requires Alike(ts, besides)
    ensures Concat(ForwardTensors(m, k, ts, besides)) == ForwardRows(m, k, Concat(ts), Gathered(besides))
    decreases |ts|
  {
    if ts != [] {
      ConcatForward(m, k, ts[1..], besides[1..]);
      var all := ForwardTensors(m, k, ts, besides);
      assert all[1..] == ForwardTensors(m, k, ts[1..], besides[1..]);
      assert all[0].rows == ForwardRows(m, k, ts[0].rows, besides[0]);
      ForwardAppend(m, k, ts, besides);
    }
  }

  /** Batching tensors and then running the model is running it on each first. */
  lemma TensorsForward(m: Model, k: string, ts: seq<Tensor>, besides: seq<map<string, Tensor>>)
    requires ts != [] && SameInner(ts) && Alike(ts, besides)
    requires forall i :: 0 <= i < |besides| ==> Inners(besides[i]) == Inners(Gathered(besides))
    ensures var ts' := ForwardTensors(m, k, ts, besides);
            && SameInner(ts') && Sizes(ts') == Sizes(ts)
            && (forall i :: 0 <= i < |ts'| ==> Dim(ts'[i]) == Dim(ts'[0]))
            && BatchTensors(ts).Ok?
            && BatchTensors(ts') == Ok(ForwardTensor(m, k, BatchTensors(ts).value, Gathered(besides)))
  {
    ConcatForward(m, k, ts, besides);
    hide Gathered, Inners, ForwardRows;
    var ts' := ForwardTensors(m, k, ts, besides);
    forall i | 0 <= i < |ts|
      ensures AsRows(ts'[i]).inner == m.shape(k, AsRows(ts[0]).inner, Inners(Gathered(besides)))
    {
      assert ts[i].Rows?;
    }
    assert Sizes(ts') == Sizes(ts);
  }

  /** Running the model keeps the keys and acts on every column. */
  lemma ForwardKeys(m: Model, k0: string, qs: seq<Variant>)
    requires qs != [] && SameKeys(qs)
    ensures SameKeys(ForwardAll(m, k0, qs)) && ForwardAll(m, k0, qs)[0].d.Keys == qs[0].d.Keys
    ensures forall k, i :: k in qs[0].d && k != BATCH_INFO && 0 <= i < |qs| ==>
              Column(ForwardAll(m, k0, qs), k)[i] == ForwardKey(m, k, qs[i].d)
  {
    var qs' := ForwardAll(m, k0, qs);
    forall i | 0 <= i < |qs'| ensures qs'[i].Dict? && qs'[i].d.Keys == qs[0].d.Keys {
      assert qs'[i] == Forward(m, k0, qs[i]) && qs[i].Dict?;
      assert qs'[i].d.Keys == qs[i].d.Keys;
    }
    forall k, i | k in qs[0].d && k != BATCH_INFO && 0 <= i < |qs|
      ensures Column(qs', k)[i] == ForwardKey(m, k, qs[i].d)
    {
      assert qs'[i] == Forward(m, k0, qs[i]);
    }
  }

  lemma CleanColumn(qs: seq<Variant>, k: string)
    requires qs != [] && SameKeys(qs) && Clean(qs) && k in qs[0].d
    ensures AllTensors(Column(qs, k)) ==> forall i :: 0 <= i < |qs| ==> Column(qs, k)[i].t.Rows?
  {
  }

  lemma BesideKeys(m: Model, k: string, qs: seq<Variant>)
    requires qs != [] && SameKeys(qs) && MakeBatch(qs).Ok?
    ensures MakeBatch(qs).value.Dict? && Beside(m, k, MakeBatch(qs).value.d).Keys <= qs[0].d.Keys
    ensures Gathered(BesideAll(m, k, qs)).Keys <= qs[0].d.Keys
  {
    hide MakeBatch, BatchColumn, Info;
    BatchShape(qs);
    hide Batchable;
    assert BesideAll(m, k, qs)[0] == Beside(m, k, qs[0].d);
  }

  /** What the model reads beside a key in the batch is what it reads in the queries,
      gathered. */
  lemma BatchBeside(m: Model, k: string, qs: seq<Variant>)
    requires qs != [] && SameKeys(qs) && MakeBatch(qs).Ok? && Clean(qs)
    ensures MakeBatch(qs).value.Dict?
    ensures Beside(m, k, MakeBatch(qs).value.d) == Gathered(BesideAll(m, k, qs))
  {
    hide MakeBatch, BatchColumn, Clean, Beside, Gathered, BesideAll;
    BesideKeys(m, k, qs);
    var batched, gathered := Beside(m, k, MakeBatch(qs).value.d), Gathered(BesideAll(m, k, qs));
    forall j | j in qs[0].d
      ensures (j in batched <==> j in gathered) && (j in batched ==> batched[j] == gathered[j])
    {
      KeyBeside(m, k, qs, j);
    }
    assert batched == gathered;
  }

  lemma KeyBeside(m: Model, k: string, qs: seq<Variant>, j: string)
    requires qs != [] && SameKeys(qs) && MakeBatch(qs).Ok? && Clean(qs) && j in qs[0].d
    ensures MakeBatch(qs).value.Dict? && j in MakeBatch(qs).value.d
    ensures var batched, gathered := Beside(m, k, MakeBatch(qs).value.d), Gathered(BesideAll(m, k, qs));
            (j in batched <==> j in gathered) && (j in batched ==> batched[j] == gathered[j])
  {
    BatchShape(qs);
    var column, all := Column(qs, j), BesideAll(m, k, qs);
    assert all[0] == Beside(m, k, qs[0].d) && column[0] == qs[0].d[j];
    if AllTensors(column) {
      TensorBatch(column);
      hide MakeBatch, BatchColumn;
      if j in m.beside(k) {
        forall i | 0 <= i < |qs| ensures Under(all, j)[i] == Unwrap(column)[i] {
          assert column[i] == qs[i].d[j] && column[i].t.Rows?;
        }
        assert Under(all, j) == Unwrap(column);
      }
    } else {
      DictColumnBatches(column);
      DictBatchIsDict(column);
      hide MakeBatch;
    }
  }

  lemma ColumnInner(column: seq<Variant>, i: nat)
    requires column != [] && BatchColumn(column).Ok? && i < |column|
    ensures column[i].Dict? == column[0].Dict? && column[i].TensorV? == column[0].TensorV?
    ensures column[i].TensorV? ==> AsRows(column[i].t).inner == AsRows(column[0].t).inner
  {
    if AllTensors(column) {
      assert Unwrap(column)[i] == column[i].t && Unwrap(column)[0] == column[0].t;
      assert SameInner(Unwrap(column));
    }
  }

  lemma AllTensorsOrNone(column: seq<Variant>)
    requires column != [] && BatchColumn(column).Ok? && column[0].TensorV?
    ensures AllTensors(column)
  {
  }

  lemma KeyInner(m: Model, k: string, qs: seq<Variant>, i: nat, j: string)
    requires qs != [] && SameKeys(qs) && Batchable(qs) && Clean(qs) && i < |qs| && j in qs[0].d
    ensures var mine, first := Beside(m, k, qs[i].d), Beside(m, k, qs[0].d);
            (j in mine <==> j in first) && (j in mine ==> mine[j].inner == first[j].inner)
  {
    hide MakeBatch, BatchColumn, Clean;
    var column := Column(qs, j);
    CleanColumn(qs, j);
    ColumnInner(column, i);
    hide Batchable;
    assert column[i] == qs[i].d[j] && column[0] == qs[0].d[j];
    if column[0].TensorV? {
      AllTensorsOrNone(column);
    }
  }

  /** The keys and the shapes that the model reads are those of every query. */
  lemma InnersBeside(m: Model, k: string, qs: seq<Variant>, i: nat)
    requires qs != [] && SameKeys(qs) && Batchable(qs) && Clean(qs) && i < |qs|
    ensures Beside(m, k, qs[i].d).Keys == Beside(m, k, qs[0].d).Keys
    ensures Inners(Beside(m, k, qs[i].d)) == Inners(Beside(m, k, qs[0].d))
  {
    hide MakeBatch, Batchable, BatchColumn, Clean;
    var mine, first := Beside(m, k, qs[i].d), Beside(m, k, qs[0].d);
    assert mine.Keys <= qs[0].d.Keys && first.Keys <= qs[0].d.Keys;
    forall j | j in qs[0].d
      ensures (j in mine <==> j in first) && (j in mine ==> mine[j].inner == first[j].inner)
    {
      KeyInner(m, k, qs, i, j);
    }
    assert mine.Keys == first.Keys;
  }

  /** The two sides agree on one key, where `d` is the batch. */
  ghost predicate KeyCommutes(m: Model, k: string, column: seq<Variant>, column': seq<Variant>, d: map<string, Variant>)
  {
    && column != [] && |column'| == |column| && k in d
    && BatchColumn(column).Ok? && BatchColumn(column') == Ok(ForwardKey(m, k, d))
    && (AllTensors(column') <==> AllTensors(column))
    && (AllTensors(column) ==>
          && (forall i :: 0 <= i < |column'| ==> column'[i].t.Rows?)
          && Sizes(Unwrap(column')) == Sizes(Unwrap(column)))
    && (!AllTensors(column) ==> SameKeys(column') && Clean(column'))
  }

  /** Batching and then running the model is running the model and then batching, for
      queries that batch. */
  lemma {:induction false} Commutes(m: Model, k0: string, qs: seq<Variant>)
    requires qs != [] && SameKeys(qs) && AllAligned(m, qs)
    ensures MakeBatch(qs).Ok? && Clean(qs) ==> BatchCommutes(m, k0, qs)
    decreases qs[0], 1
  {
    if MakeBatch(qs).Ok? && Clean(qs) {
      var qs' := ForwardAll(m, k0, qs);
      BatchShape(qs);
      var d := MakeBatch(qs).value.d;
      hide MakeBatch, BatchColumn, KeyCommutes, Forward, BatchCommutes, ForwardKey, Beside, AlignedKey;
      ForwardKeys(m, k0, qs);
      forall k | k in qs[0].d ensures KeyCommutes(m, k, Column(qs, k), Column(qs', k), d) {
        var column := Column(qs, k);
        if AllTensors(column) {
          TensorColumn(m, k, qs, Column(qs', k));
        } else {
          DictColumnBatches(column);
          forall i | 0 <= i < |column| ensures Aligned(m, column[i]) {
            assert Aligned(m, qs[i]) && column[i] == qs[i].d[k];
          }
          Commutes(m, k, column);
          DictKey(m, k, qs, Column(qs', k));
          DictColumn(m, k, column, d);
        }
      }
      BatchForward(m, k0, qs);
    }
  }

  /** The queries batch, and the model makes `column'` of their key. */
  ghost predicate KeyOf(m: Model, k: string, qs: seq<Variant>, column': seq<Variant>) {
    && qs != [] && SameKeys(qs) && MakeBatch(qs).Ok? && Clean(qs) && k in qs[0].d
    && |column'| == |qs| && forall i :: 0 <= i < |qs| ==> column'[i] == ForwardKey(m, k, qs[i].d)
  }

  lemma AlikeColumn(m: Model, k: string, qs: seq<Variant>)
    requires qs != [] && SameKeys(qs) && Batchable(qs) && Clean(qs) && AllAligned(m, qs)
    requires k in qs[0].d && AllTensors(Column(qs, k))
    ensures Alike(Unwrap(Column(qs, k)), BesideAll(m, k, qs))
    ensures forall i :: 0 <= i < |qs| ==> Inners(BesideAll(m, k, qs)[i]) == Inners(Gathered(BesideAll(m, k, qs)))
  {
    hide MakeBatch, BatchColumn, Batchable, Clean;
    var ts, all := Unwrap(Column(qs, k)), BesideAll(m, k, qs);
    CleanColumn(qs, k);
    assert Inners(Gathered(all)) == Inners(all[0]) by {
      assert forall j :: j in all[0] ==> all[0][j].Rows?;
    }
    hide Inners, Gathered, Concat;
    forall i | 0 <= i < |qs|
      ensures ts[i].Rows? && all[i].Keys == all[0].Keys && Fitting(ts[i], all[i]) && Inners(all[i]) == Inners(all[0])
    {
      InnersBeside(m, k, qs, i);
      assert Aligned(m, qs[i]) && AlignedKey(m, k, qs[i].d);
      assert Column(qs, k)[i].t.Rows?;
    }
  }

  lemma TensorKey(m: Model, k: string, qs: seq<Variant>, column': seq<Variant>)
    requires KeyOf(m, k, qs, column') && AllTensors(Column(qs, k))
    ensures AllTensors(column') && Unwrap(column') == ForwardTensors(m, k, Unwrap(Column(qs, k)), BesideAll(m, k, qs))
    ensures forall i :: 0 <= i < |column'| ==> column'[i].t.Rows?
  {
    CleanColumn(qs, k);
    hide MakeBatch, Clean, Beside;
    forall i | 0 <= i < |column'|
      ensures column'[i].TensorV? && column'[i].t == ForwardTensor(m, k, Column(qs, k)[i].t, Beside(m, k, qs[i].d))
    {
      assert Column(qs, k)[i] == qs[i].d[k] && column'[i] == ForwardKey(m, k, qs[i].d);
    }
  }

  /** Tensors that batch to what the model makes of the batch. */
  lemma TensorsCommute(m: Model, k: string, column: seq<Variant>, column': seq<Variant>, d: map<string, Variant>)
    requires column != [] && |column'| == |column| && AllTensors(column) && AllTensors(column') && k in d
    requires BatchColumn(column).Ok? && d[k] == BatchColumn(column).value
    requires forall i :: 0 <= i < |column'| ==> column'[i].t.Rows?
    requires var ts, ts' := Unwrap(column), Unwrap(column');
             && Sizes(ts') == Sizes(ts) && (forall i :: 0 <= i < |ts'| ==> Dim(ts'[i]) == Dim(ts'[0]))
             && BatchTensors(ts).Ok?
             && BatchTensors(ts') == Ok(ForwardTensor(m, k, BatchTensors(ts).value, Beside(m, k, d)))
    ensures KeyCommutes(m, k, column, column', d)
  {
    hide MakeBatch, Beside, Clean, ForwardTensor, Sizes, BatchTensors;
  }

  lemma TensorColumn(m: Model, k: string, qs: seq<Variant>, column': seq<Variant>)
    requires KeyOf(m, k, qs, column') && AllAligned(m, qs) && AllTensors(Column(qs, k))
    ensures MakeBatch(qs).value.Dict? && KeyCommutes(m, k, Column(qs, k), column', MakeBatch(qs).value.d)
  {
    hide MakeBatch, BatchColumn, Beside, Gathered, Clean, Alike, ForwardTensor, Sizes, AllAligned, Info,
      KeyCommutes, Column, Unwrap, ForwardTensors;
    BatchShape(qs);
    AlikeColumn(m, k, qs);
    BatchBeside(m, k, qs);
    TensorKey(m, k, qs, column');
    SameInnerColumn(Column(qs, k));
    TensorsForward(m, k, Unwrap(Column(qs, k)), BesideAll(m, k, qs));
    TensorsCommute(m, k, Column(qs, k), column', MakeBatch(qs).value.d);
  }

  lemma SameInnerColumn(column: seq<Variant>)
    requires column != [] && AllTensors(column) && BatchColumn(column).Ok?
    ensures SameInner(Unwrap(column))
  {
  }

  lemma DictColumnBatches(column: seq<Variant>)
    requires column != [] && !AllTensors(column)
    ensures BatchColumn(column).Ok? ==> AllDicts(column) && MakeBatch(column).Ok?
  {
  }

  /** On dictionaries the model looks at nothing beside them. */
  lemma DictKey(m: Model, k: string, qs: seq<Variant>, column': seq<Variant>)
    requires KeyOf(m, k, qs, column') && AllDicts(Column(qs, k))
    ensures column' == ForwardAll(m, k, Column(qs, k))
  {
    hide MakeBatch, Clean, Forward;
    forall i | 0 <= i < |qs| ensures column'[i] == Forward(m, k, qs[i].d[k]) {
      assert Column(qs, k)[i] == qs[i].d[k];
    }
  }

  ghost predicate BatchCommutes(m: Model, k0: string, qs: seq<Variant>)
    requires qs != [] && SameKeys(qs) && MakeBatch(qs).Ok?
  {
    var qs' := ForwardAll(m, k0, qs);
    SameKeys(qs') && Clean(qs') && MakeBatch(qs') == Ok(Forward(m, k0, MakeBatch(qs).value))
  }

  lemma DictColumn(m: Model, k: string, column: seq<Variant>, d: map<string, Variant>)
    requires column != [] && !AllTensors(column) && SameKeys(column)
    requires k in d && BatchColumn(column).Ok? && d[k] == BatchColumn(column).value
    ensures MakeBatch(column).Ok? && BatchCommutes(m, k, column) ==>
            KeyCommutes(m, k, column, ForwardAll(m, k, column), d)
  {
    if MakeBatch(column).Ok? && BatchCommutes(m, k, column) {
      DictBatchIsDict(column);
      hide MakeBatch, Clean, Forward;
      var column' := ForwardAll(m, k, column);
      assert column'[0].Dict? && !AllTensors(column') && AllDicts(column') && AllDicts(column);
    }
  }

  /** `qs'` is what the model makes of `qs`, and all keys agree. */
  ghost predicate AllCommute(m: Model, qs: seq<Variant>, qs': seq<Variant>, d: map<string, Variant>) {
    && qs != [] && qs' != [] && SameKeys(qs) && SameKeys(qs')
    && qs[0].d.Keys == qs'[0].d.Keys != {} && BATCH_INFO !in qs[0].d
    && forall k :: k in qs[0].d ==> KeyCommutes(m, k, Column(qs, k), Column(qs', k), d)
  }

  lemma CleanForward(m: Model, qs: seq<Variant>, qs': seq<Variant>, d: map<string, Variant>)
    ensures AllCommute(m, qs, qs', d) ==> Clean(qs') && Info(qs') == Info(qs)
  {
    if AllCommute(m, qs, qs', d) {
      hide MakeBatch, BatchColumn, ForwardKey, Column, SizesTensor;
    }
  }

  lemma ColumnsForward(m: Model, qs: seq<Variant>, qs': seq<Variant>, d: map<string, Variant>)
    ensures AllCommute(m, qs, qs', d) ==>
            && Batchable(qs')
            && forall k :: k in qs[0].d ==> k in d && BatchColumn(Column(qs', k)) == Ok(ForwardKey(m, k, d))
  {
    hide MakeBatch, BatchColumn, ForwardKey, Column, Clean, Sizes, Unwrap, AllTensors;
    if AllCommute(m, qs, qs', d) {
      forall k | k in qs[0].d
        ensures k in d && BatchColumn(Column(qs', k)) == Ok(ForwardKey(m, k, d))
      {
        assert KeyCommutes(m, k, Column(qs, k), Column(qs', k), d);
      }
    }
  }

  lemma DictForward(m: Model, k0: string, qs: seq<Variant>, qs': seq<Variant>)
    requires qs != [] && SameKeys(qs) && MakeBatch(qs).Ok? && MakeBatch(qs).value.Dict?
    ensures AllCommute(m, qs, qs', MakeBatch(qs).value.d) && Info(qs') == Info(qs) ==>
            MakeBatch(qs') == Ok(Forward(m, k0, MakeBatch(qs).value))
  {
    hide KeyCommutes, Clean, Info, BatchColumn, ForwardKey, Column, AllTensors, MakeBatch, Forward, Batchable;
    if AllCommute(m, qs, qs', MakeBatch(qs).value.d) && Info(qs') == Info(qs) {
      ColumnsForward(m, qs, qs', MakeBatch(qs).value.d);
      BatchShape(qs);
      BatchedShape(qs');
      ForwardShape(m, k0, MakeBatch(qs).value, MakeBatch(qs').value);
    }
  }

  lemma BatchShape(qs: seq<Variant>)
    requires qs != [] && SameKeys(qs) && MakeBatch(qs).Ok?
    ensures Batchable(qs) && MakeBatch(qs).value.Dict?
    ensures var d := MakeBatch(qs).value.d;
            && d.Keys == qs[0].d.Keys + {BATCH_INFO} && d[BATCH_INFO] == Dict(Info(qs))
            && forall k :: k in qs[0].d ==> d[k] == BatchColumn(Column(qs, k)).value
  {
    assert qs[0].Dict? && !AllTensors(qs);
  }

  lemma BatchedShape(qs: seq<Variant>)
    requires qs != [] && SameKeys(qs) && Batchable(qs)
    ensures MakeBatch(qs).Ok? && MakeBatch(qs).value.Dict?
    ensures var d := MakeBatch(qs).value.d;
            && d.Keys == qs[0].d.Keys + {BATCH_INFO} && d[BATCH_INFO] == Dict(Info(qs))
            && forall k :: k in qs[0].d ==> d[k] == BatchColumn(Column(qs, k)).value
  {
    assert qs[0].Dict? && !AllTensors(qs);
  }

  lemma ForwardShape(m: Model, k0: string, out: Variant, out': Variant)
    requires out.Dict? && out'.Dict? && out'.d.Keys == out.d.Keys
    requires forall k :: k in out.d ==> out'.d[k] == if k == BATCH_INFO then out.d[k] else ForwardKey(m, k, out.d)
    ensures out' == Forward(m, k0, out)
  {
    assert Forward(m, k0, out).d == out'.d;
  }

  ghost predicate KeysCommute(m: Model, qs: seq<Variant>, qs': seq<Variant>, d: map<string, Variant>)
    requires qs != [] && SameKeys(qs)
  {
    && qs' != [] && SameKeys(qs') && qs'[0].d.Keys == qs[0].d.Keys != {}
    && forall k :: k in qs[0].d ==> KeyCommutes(m, k, Column(qs, k), Column(qs', k), d)
  }

  lemma BatchForward(m: Model, k0: string, qs: seq<Variant>)
    requires qs != [] && SameKeys(qs) && MakeBatch(qs).Ok? && MakeBatch(qs).value.Dict?
    ensures KeysCommute(m, qs, ForwardAll(m, k0, qs), MakeBatch(qs).value.d) ==> BatchCommutes(m, k0, qs)
  {
    var qs', d := ForwardAll(m, k0, qs), MakeBatch(qs).value.d;
    if KeysCommute(m, qs, qs', d) {
      BatchShape(qs);
      hide MakeBatch, KeyCommutes, Column, Clean, Forward, Info, ForwardAll, BatchColumn;
      assert AllCommute(m, qs, qs', d);
      hide AllCommute;
      CleanForward(m, qs, qs', d);
      DictForward(m, k0, qs, qs');
    }
  }

  /** Batching is transparent: running the model on the batch and unbatching its
      output is running the model on every query. */
  lemma Transparent(m: Model, qs: seq<Variant>)
    requires qs != [] && SameKeys(qs) && AllAligned(m, qs)
    ensures MakeBatch(qs).Ok? && Clean(qs) ==>
            UnBatch(Forward(m, "", MakeBatch(qs).value)) == Ok(ForwardAll(m, "", qs))
  {
    if MakeBatch(qs).Ok? && Clean(qs) {
      Commutes(m, "", qs);
      RoundTrip(ForwardAll(m, "", qs));
    }
  }

  /** No dictionary in the query is empty, and no tensor is a scalar. */
  ghost predicate Proper(v: Variant) {
    match v
    case TensorV(t) => t.Rows?
    case Dict(d) => d.Keys != {} && forall k :: k in d ==> Proper(d[k])
    case _ => true
  }

  /** Such queries are clean, as soon as they can be batched. */
  lemma {:induction false} ProperIsClean(qs: seq<Variant>)
    requires qs != [] && SameKeys(qs) && forall i :: 0 <= i < |qs| ==> Proper(qs[i])
    ensures MakeBatch(qs).Ok? ==> Clean(qs)
    decreases qs[0]
  {
    if MakeBatch(qs).Ok? {
      BatchShape(qs);
      hide MakeBatch;
      forall k | k in qs[0].d
        ensures var column := Column(qs, k);
                if AllTensors(column) then forall i :: 0 <= i < |column| ==> column[i].t.Rows?
                else SameKeys(column) && Clean(column)
      {
        var column := Column(qs, k);
        forall i | 0 <= i < |column| ensures Proper(column[i]) {
          assert Proper(qs[i]);
        }
        if AllTensors(column) {
          assert forall i :: 0 <= i < |column| ==> Proper(column[i]);
        } else {
          DictColumnBatches(column);
          DictBatchIsDict(column);
          ProperIsClean(column);
        }
      }
      assert Proper(qs[0]);
    }
  }

  /** The shape of a query: nested non-empty dictionaries, with the shape of the
      rows of its tensors at the leaves. Row counts are free. */
  datatype Shape = Leaf(inner: seq<nat>) | Node(fields: map<string, Shape>)

  ghost predicate HasShape(v: Variant, sh: Shape)
    decreases sh
  {
    match sh
    case Leaf(inner) => v.TensorV? && v.t.Rows? && v.t.inner == inner
    case Node(fields) =>
      && v.Dict? && v.d.Keys == fields.Keys != {} && BATCH_INFO !in fields
      && forall k :: k in fields ==> HasShape(v.d[k], fields[k])
  }

  /** Queries of one shape can be batched, whatever their row counts. */
  lemma {:induction false} SameShapeBatches(qs: seq<Variant>, sh: Shape)
    requires qs != [] && sh.Node? && forall i :: 0 <= i < |qs| ==> HasShape(qs[i], sh)
    ensures SameKeys(qs) && MakeBatch(qs).Ok? && Clean(qs)
    decreases sh
  {
    assert forall i :: 0 <= i < |qs| ==> HasShape(qs[i], sh) && qs[i].d.Keys == sh.fields.Keys;
    forall k | k in sh.fields
      ensures BatchColumn(Column(qs, k)).Ok?
      ensures var column := Column(qs, k);
              if AllTensors(column) then forall i :: 0 <= i < |column| ==> column[i].t.Rows?
              else SameKeys(column) && Clean(column)
    {
      var column := Column(qs, k);
      forall i | 0 <= i < |column| ensures HasShape(column[i], sh.fields[k]) {
        assert HasShape(qs[i], sh);
      }
      if sh.fields[k].Node? {
        SameShapeBatches(column, sh.fields[k]);
        assert column[0].Dict? && !AllTensors(column);
      } else {
        TensorShape(column, sh.fields[k].inner);
      }
    }
    assert Batchable(qs);
    BatchedShape(qs);
  }

  lemma TensorShape(column: seq<Variant>, inner: seq<nat>)
    requires column != [] && forall i :: 0 <= i < |column| ==> HasShape(column[i], Leaf(inner))
    ensures AllTensors(column) && BatchColumn(column).Ok? && forall i :: 0 <= i < |column| ==> column[i].t.Rows?
  {
    forall i | 0 <= i < |column| ensures column[i].TensorV? && column[i].t.Rows? && column[i].t.inner == inner {
      assert HasShape(column[i], Leaf(inner));
    }
    hide HasShape, MakeBatch;
    var ts := Unwrap(column);
    assert forall i :: 0 <= i < |ts| ==> ts[i].Rows? && ts[i].inner == inner && Dim(ts[i]) == 1 + |inner|;
    assert SameInner(ts) && BatchTensors(ts).Ok?;
  }

  /** Queries of one shape survive batching and unbatching. */
  lemma SameShapeRoundTrip(qs: seq<Variant>, sh: Shape)
    requires qs != [] && sh.Node? && forall i :: 0 <= i < |qs| ==> HasShape(qs[i], sh)
    ensures MakeBatch(qs).Ok? && UnBatch(MakeBatch(qs).value) == Ok(qs)
  {
    SameShapeBatches(qs, sh);
    RoundTrip(qs);
  }

  /** No tensor anywhere in the queries. */
  ghost predicate Leafless(qs: seq<Variant>)
    requires qs != [] && SameKeys(qs)
    decreases qs[0]
  {
    forall k :: k in qs[0].d ==>
      var column := Column(qs, k); !AllTensors(column) && SameKeys(column) && Leafless(column)
  }

  lemma TensorBatch(column: seq<Variant>)
    requires column != [] && AllTensors(column) && BatchColumn(column).Ok?
    ensures var ts := Unwrap(column);
            && BatchColumn(column).value == TensorV(Rows(AsRows(ts[0]).inner, Concat(ts)))
            && Sum(Sizes(ts)) == |Concat(ts)|
  {
    var ts := Unwrap(column);
    assert BatchTensors(ts).Ok?;
    SplitConcat(ts, AsRows(ts[0]).inner);
  }

  lemma SplitCount(out: Variant, k: string, t: Tensor, sizes: seq<nat>)
    requires out.Dict? && k in out.d && out.d[k] == TensorV(t) && t.Rows?
    requires BATCH_INFO in out.d && FindBatchInfo(out.d[BATCH_INFO], k) == Ok(sizes)
    requires sizes != [] && Sum(sizes) == |t.rows|
    ensures UnBatchKey(out, k).Ok? && |UnBatchKey(out, k).value| == |sizes|
  {
  }

  /** What the model's output on a batch looks like. */
  lemma OutShape(m: Model, k0: string, qs: seq<Variant>)
    requires qs != [] && SameKeys(qs) && MakeBatch(qs).Ok?
    ensures BATCH_INFO !in qs[0].d && Forward(m, k0, MakeBatch(qs).value).Dict?
    ensures var out := Forward(m, k0, MakeBatch(qs).value);
            && out.d.Keys == qs[0].d.Keys + {BATCH_INFO} && out.d[BATCH_INFO] == Dict(Info(qs))
            && (forall k :: IsData(out.d, k) <==> k in qs[0].d)
            && (forall k :: k in qs[0].d ==>
                  BatchColumn(Column(qs, k)).Ok? && k in MakeBatch(qs).value.d
                  && out.d[k] == ForwardKey(m, k, MakeBatch(qs).value.d))
  {
    BatchShape(qs);
    hide MakeBatch, BatchColumn, Column, Info;
  }

  /** How many elements a model's output unbatches to, under one key. */
  lemma KeyCount(m: Model, k0: string, qs: seq<Variant>, k: string)
    requires qs != [] && SameKeys(qs)
    ensures Keyed(qs, k) && AllTensors(Column(qs, k)) ==>
            var out := Forward(m, k0, MakeBatch(qs).value);
            out.Dict? && k in out.d && UnBatchKey(out, k).Ok? && |UnBatchKey(out, k).value| == |qs|
  {
    if Keyed(qs, k) && AllTensors(Column(qs, k)) {
      OutShape(m, k0, qs);
      hide MakeBatch, BatchColumn, UnBatchKey;
      var column, out := Column(qs, k), Forward(m, k0, MakeBatch(qs).value);
      var ts := Unwrap(column);
      TensorBatch(column);
      SizesSurvive(Sizes(ts));
      assert FindBatchInfo(out.d[BATCH_INFO], k) == Ok(Sizes(ts));
      var batched := Rows(AsRows(ts[0]).inner, Concat(ts));
      SplitCount(out, k, ForwardTensor(m, k, batched, Beside(m, k, MakeBatch(qs).value.d)), Sizes(ts));
    }
  }

  /** A model's output has one element for each query, unless the queries hold
      no tensor at all: then it has none. */
  lemma {:induction false} ReplyCount(m: Model, k0: string, qs: seq<Variant>)
    requires qs != [] && SameKeys(qs) && MakeBatch(qs).Ok?
    ensures var r := UnBatch(Forward(m, k0, MakeBatch(qs).value));
            if Leafless(qs) then r == Ok([]) else r.Ok? ==> |r.value| == |qs|
    decreases qs[0], 1
  {
    hide MakeBatch, Forward, BatchColumn, UnBatchKey, Info;
    OutShape(m, k0, qs);
    var out := Forward(m, k0, MakeBatch(qs).value);
    forall k | k in qs[0].d ensures KeyReplies(m, k0, qs, k) {
      var column := Column(qs, k);
      if AllTensors(column) {
        KeyCount(m, k0, qs, k);
      } else {
        DictColumnBatches(column);
        DictBatchIsDict(column);
        ReplyCount(m, k, column);
        NestedReplies(m, k0, qs, k);
      }
    }
    hide KeyReplies, UnBatch, Leafless, Column;
    if Leafless(qs) {
      NoReplies(m, k0, qs);
    } else {
      SomeReplies(m, k0, qs);
    }
  }

  ghost predicate AllReply(m: Model, k0: string, qs: seq<Variant>)
    requires qs != [] && SameKeys(qs)
  {
    MakeBatch(qs).Ok? && forall k :: k in qs[0].d ==> KeyReplies(m, k0, qs, k)
  }

  lemma NothingUnBatches(out: Variant)
    requires out.Dict? && UnBatchesTo(out, 0)
    ensures UnBatch(out) == Ok([])
  {
    hide UnBatchKey;
    if k :| IsData(out.d, k) {
      UnBatchIs(out, 0, k);
      hide UnBatch;
      assert |UnBatch(out).value| == 0;
    }
  }

  lemma LeaflessKey(m: Model, k0: string, qs: seq<Variant>, k: string)
    requires qs != [] && SameKeys(qs)
    ensures KeyReplies(m, k0, qs, k) && Leafless(qs) ==>
            var out := Forward(m, k0, MakeBatch(qs).value); out.Dict? && k in out.d && UnBatchKey(out, k) == Ok([])
  {
    hide MakeBatch, Forward, UnBatchKey;
  }

  lemma NoReplies(m: Model, k0: string, qs: seq<Variant>)
    requires qs != [] && SameKeys(qs)
    ensures AllReply(m, k0, qs) && Leafless(qs) ==> UnBatch(Forward(m, k0, MakeBatch(qs).value)) == Ok([])
  {
    hide MakeBatch, Forward, BatchColumn, UnBatchKey, Info, KeyReplies, Leafless, UnBatch, Column;
    if AllReply(m, k0, qs) && Leafless(qs) {
      OutShape(m, k0, qs);
      var out := Forward(m, k0, MakeBatch(qs).value);
      forall k | IsData(out.d, k) ensures UnBatchKey(out, k) == Ok([]) {
        LeaflessKey(m, k0, qs, k);
      }
      NothingUnBatches(out);
    }
  }

  lemma SomeReplies(m: Model, k0: string, qs: seq<Variant>)
    requires qs != [] && SameKeys(qs)
    ensures AllReply(m, k0, qs) && !Leafless(qs) ==>
            var r := UnBatch(Forward(m, k0, MakeBatch(qs).value)); r.Ok? ==> |r.value| == |qs|
  {
    hide MakeBatch, Forward, BatchColumn, UnBatchKey, Info, Column, AllTensors;
    if AllReply(m, k0, qs) && !Leafless(qs) {
      OutShape(m, k0, qs);
      var out := Forward(m, k0, MakeBatch(qs).value);
      var k :| k in qs[0].d && !(!AllTensors(Column(qs, k)) && SameKeys(Column(qs, k)) && Leafless(Column(qs, k)));
      hide SameKeys;
      assert KeyReplies(m, k0, qs, k) && IsData(out.d, k);
      if n: nat :| UnBatchesTo(out, n) {
        UnBatchIs(out, n, k);
      }
    }
  }

  ghost predicate KeyReplies(m: Model, k0: string, qs: seq<Variant>, k: string)
    requires qs != [] && SameKeys(qs)
  {
    Keyed(qs, k) &&
    var out, column := Forward(m, k0, MakeBatch(qs).value), Column(qs, k);
    && out.Dict? && k in out.d
    && var r := UnBatchKey(out, k);
       if !AllTensors(column) && SameKeys(column) && Leafless(column) then r == Ok([])
       else r.Ok? ==> |r.value| == |qs|
  }

  lemma NestedReplies(m: Model, k0: string, qs: seq<Variant>, k: string)
    requires qs != [] && SameKeys(qs)
    ensures Keyed(qs, k) && !AllTensors(Column(qs, k)) ==>
            var out := Forward(m, k0, MakeBatch(qs).value);
            && out.Dict? && k in out.d && MakeBatch(Column(qs, k)).Ok? && MakeBatch(Column(qs, k)).value.Dict?
            && UnBatchKey(out, k) == UnBatch(Forward(m, k, MakeBatch(Column(qs, k)).value))
  {
    if Keyed(qs, k) && !AllTensors(Column(qs, k)) {
      OutShape(m, k0, qs);
      DictColumnBatches(Column(qs, k));
      DictBatchIsDict(Column(qs, k));
      hide MakeBatch, UnBatch;
    }
  }
}

/** Keys that a model adds to a batch (cpid/batcher.cpp): the batch info has no sizes for
    them, and they are unbatched row by row. */
module AddedKey {
  import opened Batch

  /** Where the rows of a query are in the batch: after those of the queries before it. */
  lemma {:induction false} BatchRows(ts: seq<Tensor>, q: nat, i: nat)
    requires q < |ts| && i < |AsRows(ts[q]).rows|
    ensures Sum(Sizes(ts[..q])) + i < |Concat(ts)| && Concat(ts)[Sum(Sizes(ts[..q])) + i] == AsRows(ts[q]).rows[i]
    decreases |ts|
  {
    if q > 0 {
      BatchRows(ts[1..], q - 1, i);
      assert ts[1..][..q - 1] == ts[..q][1..];
      var sizes := Sizes(ts[..q]);
      assert sizes[0] == |AsRows(ts[0]).rows| && sizes[1..] == Sizes(ts[..q][1..]);
    } else {
      assert ts[..q] == [];
    }
  }

  /** Without sizes there is an element for each row: the row itself, or a tensor of one row
      if the rows are numbers. */
  lemma RowByRow(t: Tensor)
    ensures UnBatchTensor(t, []).Ok? <==> t.Rows?
    ensures t.Rows? ==>
            var r := UnBatchTensor(t, []).value;
            && |r| == |t.rows|
            && forall i :: 0 <= i < |r| ==> r[i] == if t.inner == [] then Rows([], [t.rows[i]]) else t.rows[i]
  {
  }

  function RowOf(t: Tensor, i: nat): Variant
    requires t.Rows? && i < |t.rows|
  {
    TensorV(if t.inner == [] then Rows([], [t.rows[i]]) else t.rows[i])
  }

  /** The queries with one more key, under which query `i` has row `i`. */
  function With(qs: seq<Variant>, k: string, t: Tensor): (r: seq<Variant>)
    requires AllDicts(qs) && t.Rows? && |t.rows| == |qs|
    ensures |r| == |qs|
  {
    seq(|qs|, i requires 0 <= i < |qs| => Dict(qs[i].d[k := RowOf(t, i)]))
  }

  lemma OldKey(qs: seq<Variant>, k: string, t: Tensor, j: string)
    requires qs != [] && SameKeys(qs) && MakeBatch(qs).Ok? && Clean(qs)
    requires k !in qs[0].d && k != BATCH_INFO && j in qs[0].d
    ensures MakeBatch(qs).value.Dict?
    ensures var out := Dict(MakeBatch(qs).value.d[k := TensorV(t)]);
            j in out.d && UnBatchKey(out, j) == Ok(Column(qs, j))
  {
    hide MakeBatch, BatchColumn, UnBatch, UnBatchKey, Clean, Info;
    BatchShape(qs);
    ColumnRoundTrip(qs, j);
    CleanKey(qs, j);
    SameUnBatch(MakeBatch(qs).value, Dict(MakeBatch(qs).value.d[k := TensorV(t)]), j);
  }

  lemma CleanKey(qs: seq<Variant>, j: string)
    requires qs != [] && SameKeys(qs) && Clean(qs) && j in qs[0].d
    ensures var column := Column(qs, j);
            if AllTensors(column) then forall i :: 0 <= i < |column| ==> column[i].t.Rows?
            else SameKeys(column) && Clean(column)
  {
  }

  lemma SameUnBatch(out: Variant, out': Variant, j: string)
    requires out.Dict? && out'.Dict? && j in out.d && j in out'.d && out.d[j] == out'.d[j]
    requires BATCH_INFO in out.d && BATCH_INFO in out'.d && out.d[BATCH_INFO] == out'.d[BATCH_INFO]
    ensures UnBatchKey(out', j) == UnBatchKey(out, j)
  {
    hide UnBatch;
  }

  /** All keys of what unbatches come to as many elements. */
  lemma LengthsAgree(out: Variant, j: string, k: string)
    requires out.Dict? && IsData(out.d, j) && IsData(out.d, k) && UnBatch(out).Ok?
    ensures UnBatchKey(out, j).Ok? && UnBatchKey(out, k).Ok?
    ensures |UnBatchKey(out, j).value| == |UnBatchKey(out, k).value|
  {
    hide UnBatchKey;
  }

  lemma NewKey(qs: seq<Variant>, k: string, t: Tensor)
    requires qs != [] && SameKeys(qs) && MakeBatch(qs).Ok? && k !in qs[0].d && k != BATCH_INFO && t.Rows?
    ensures MakeBatch(qs).value.Dict?
    ensures var out := Dict(MakeBatch(qs).value.d[k := TensorV(t)]);
            && UnBatchKey(out, k).Ok? && |UnBatchKey(out, k).value| == |t.rows|
            && forall i :: 0 <= i < |t.rows| ==> UnBatchKey(out, k).value[i] == RowOf(t, i)
  {
    BatchShape(qs);
    RowByRow(t);
    hide MakeBatch, BatchColumn, UnBatch;
  }

  lemma DataOf(qs: seq<Variant>, k: string, t: Tensor, j: string)
    requires qs != [] && SameKeys(qs) && MakeBatch(qs).Ok? && k !in qs[0].d && k != BATCH_INFO
    ensures MakeBatch(qs).value.Dict?
    ensures IsData(MakeBatch(qs).value.d[k := TensorV(t)], j) <==> j in qs[0].d || j == k
  {
    BatchShape(qs);
    hide MakeBatch, BatchColumn;
    assert qs[0].Dict?;
  }

  /** A batch to which a key was added unbatches exactly if the key has one row for each
      query, and then each query gets its row. */
  lemma AddedKeyExactly(qs: seq<Variant>, k: string, t: Tensor)
    requires qs != [] && SameKeys(qs) && MakeBatch(qs).Ok? && Clean(qs)
    requires k !in qs[0].d && k != BATCH_INFO && t.Rows?
    ensures MakeBatch(qs).value.Dict?
    ensures var r := UnBatch(Dict(MakeBatch(qs).value.d[k := TensorV(t)]));
            && (r.Ok? <==> |t.rows| == |qs|)
            && (r.Ok? ==>
                  && |r.value| == |qs|
                  && forall i :: 0 <= i < |qs| ==>
                       r.value[i] == Dict(qs[i].d[
                         k := TensorV(if t.inner == [] then Rows([], [t.rows[i]]) else t.rows[i])]))
  {
    NewKey(qs, k, t);
    SomeKey(qs);
    hide MakeBatch, UnBatchKey, Clean, UnBatch, IsData;
    var out := Dict(MakeBatch(qs).value.d[k := TensorV(t)]);
    forall j ensures IsData(out.d, j) <==> j in qs[0].d || j == k {
      DataOf(qs, k, t, j);
    }
    forall j | j in qs[0].d ensures j in out.d && UnBatchKey(out, j) == Ok(Column(qs, j)) {
      OldKey(qs, k, t, j);
    }
    var k0 :| k0 in qs[0].d;
    if |t.rows| == |qs| {
      AllKeys(out, qs, k, t, k0);
    } else if UnBatch(out).Ok? {
      LengthsAgree(out, k0, k);
    }
  }

  lemma SomeKey(qs: seq<Variant>)
    requires qs != [] && SameKeys(qs) && Clean(qs)
    ensures exists k :: k in qs[0].d
  {
    assert qs[0].d.Keys != {};
  }

  lemma AllKeys(out: Variant, qs: seq<Variant>, k: string, t: Tensor, k0: string)
    requires out.Dict? && qs != [] && SameKeys(qs) && k0 in qs[0].d && k !in qs[0].d && t.Rows? && |t.rows| == |qs|
    requires forall j :: IsData(out.d, j) <==> j in qs[0].d || j == k
    requires forall j :: j in qs[0].d ==> j in out.d && UnBatchKey(out, j) == Ok(Column(qs, j))
    requires k in out.d && UnBatchKey(out, k).Ok? && |UnBatchKey(out, k).value| == |t.rows|
    requires forall i :: 0 <= i < |t.rows| ==> UnBatchKey(out, k).value[i] == RowOf(t, i)
    ensures UnBatch(out) == Ok(With(qs, k, t))
  {
    hide UnBatchKey, UnBatch;
    var qs' := With(qs, k, t);
    assert SameKeys(qs') && qs'[0].d.Keys == qs[0].d.Keys + {k};
    assert Column(qs', k) == UnBatchKey(out, k).value;
    forall j | j in qs'[0].d ensures j in out.d && UnBatchKey(out, j) == Ok(Column(qs', j)) {
      if j != k {
        assert Column(qs', j) == Column(qs, j);
      }
    }
    ColumnsUnBatch(out, qs', k0);
  }

  /** A row-wise model that adds a key: callers get their answers, with their row of the
      added key, exactly if that key has one row for each query. */
  lemma AddedKeyAnswers(m: Model, qs: seq<Variant>, k: string, t: Tensor)
    requires qs != [] && SameKeys(qs) && AllAligned(m, qs) && MakeBatch(qs).Ok? && Clean(qs)
    requires k !in qs[0].d && k != BATCH_INFO && t.Rows?
    ensures Forward(m, "", MakeBatch(qs).value).Dict? && AllDicts(ForwardAll(m, "", qs))
    ensures var r := UnBatch(Dict(Forward(m, "", MakeBatch(qs).value).d[k := TensorV(t)]));
            && (r.Ok? <==> |t.rows| == |qs|)
            && (r.Ok? ==>
                  && |r.value| == |qs|
                  && forall i :: 0 <= i < |qs| ==>
                       r.value[i] == Dict(ForwardAll(m, "", qs)[i].d[
                         k := TensorV(if t.inner == [] then Rows([], [t.rows[i]]) else t.rows[i])]))
  {
    Commutes(m, "", qs);
    ForwardKeys(m, "", qs);
    hide MakeBatch, UnBatch, Forward, Clean;
    AddedKeyExactly(ForwardAll(m, "", qs), k, t);
  }
}

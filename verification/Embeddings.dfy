/** Batch embedding: putting a response back in input order, and the backfill
    that stores one vector per row (`src/embeddings.rs`, `src/tools/search.rs`). */
module Embeddings {
  import opened Prelude
  import opened Utf8

  type Vector = seq<real>

  /** One vector of a response, labelled with the position of its input. */
  datatype Datum = Datum(index: nat, embedding: Vector)

  predicate DistinctIndices(data: seq<Datum>) {
    forall i, j :: 0 <= i < j < |data| ==> data[i].index != data[j].index
  }

  /** The indices are a permutation of 0 to n - 1: each input is answered once. */
  predicate Answers(data: seq<Datum>, n: nat) {
    |data| == n && (forall d :: d in data ==> d.index < n) && DistinctIndices(data)
  }

  // ---------- sorting by index ----------

  predicate Ascending(data: seq<Datum>) {
    forall i, j :: 0 <= i < j < |data| ==> data[i].index <= data[j].index
  }

  /** The standard library's stable sort by key. */
  function SortByIndex(data: seq<Datum>): seq<Datum> {
    if data == [] then [] else InsertByIndex(data[0], SortByIndex(data[1..]))
  }

  function InsertByIndex(d: Datum, sorted: seq<Datum>): seq<Datum> {
    if sorted == [] || d.index <= sorted[0].index then [d] + sorted
    else [sorted[0]] + InsertByIndex(d, sorted[1..])
  }

  lemma {:induction false} InsertMembers(d: Datum, sorted: seq<Datum>)
    ensures |InsertByIndex(d, sorted)| == |sorted| + 1
    ensures forall x :: x in InsertByIndex(d, sorted) <==> x == d || x in sorted
  {
    if sorted != [] && d.index > sorted[0].index {
      InsertMembers(d, sorted[1..]);
      assert sorted == [sorted[0]] + sorted[1..];
    }
  }

  lemma {:induction false} InsertAscends(d: Datum, sorted: seq<Datum>)
    requires Ascending(sorted)
    ensures Ascending(InsertByIndex(d, sorted))
  {
    if sorted != [] && d.index > sorted[0].index {
      InsertAscends(d, sorted[1..]);
      InsertMembers(d, sorted[1..]);
      var rest := InsertByIndex(d, sorted[1..]);
      forall i | 0 <= i < |rest|
        ensures sorted[0].index <= rest[i].index
      {
        assert rest[i] == d || rest[i] in sorted[1..];
      }
    }
  }

  lemma {:induction false} DistinctCons(first: Datum, rest: seq<Datum>)
    ensures DistinctIndices([first] + rest) <==>
            DistinctIndices(rest) && forall x :: x in rest ==> x.index != first.index
  {
    var all := [first] + rest;
    if DistinctIndices(all) {
      forall x | x in rest ensures x.index != first.index {
        var i :| 0 <= i < |rest| && rest[i] == x;
        assert all[0] == first && all[i + 1] == x;
      }
      forall i, j | 0 <= i < j < |rest| ensures rest[i].index != rest[j].index {
        assert all[i + 1] == rest[i] && all[j + 1] == rest[j];
      }
    }
  }

  lemma {:induction false} InsertDistinct(d: Datum, sorted: seq<Datum>)
    ensures DistinctIndices(InsertByIndex(d, sorted)) <==>
            DistinctIndices(sorted) && forall x :: x in sorted ==> x.index != d.index
  {
    DistinctCons(d, sorted);
    if sorted != [] && d.index > sorted[0].index {
      InsertDistinct(d, sorted[1..]);
      InsertMembers(d, sorted[1..]);
      DistinctCons(sorted[0], InsertByIndex(d, sorted[1..]));
      DistinctCons(sorted[0], sorted[1..]);
      assert sorted == [sorted[0]] + sorted[1..];
    }
  }

  lemma {:induction false} SortFacts(data: seq<Datum>)
    ensures |SortByIndex(data)| == |data| && Ascending(SortByIndex(data))
    ensures forall x :: x in SortByIndex(data) <==> x in data
    ensures DistinctIndices(SortByIndex(data)) <==> DistinctIndices(data)
  {
    if data != [] {
      var rest := SortByIndex(data[1..]);
      SortFacts(data[1..]);
      InsertMembers(data[0], rest);
      InsertAscends(data[0], rest);
      InsertDistinct(data[0], rest);
      DistinctCons(data[0], data[1..]);
      assert data == [data[0]] + data[1..];
    }
  }

  lemma {:induction false} AtLeastPosition(sorted: seq<Datum>, i: nat)
    requires Ascending(sorted) && DistinctIndices(sorted) && i < |sorted|
    ensures sorted[i].index >= i
  {
    if i > 0 {
      AtLeastPosition(sorted, i - 1);
      assert sorted[i - 1].index < sorted[i].index;
    }
  }

  lemma {:induction false} AtMostPosition(sorted: seq<Datum>, i: nat)
    requires Ascending(sorted) && DistinctIndices(sorted) && i < |sorted|
    requires forall x :: x in sorted ==> x.index < |sorted|
    ensures sorted[i].index <= i
    decreases |sorted| - i
  {
    if i + 1 < |sorted| {
      AtMostPosition(sorted, i + 1);
      assert sorted[i].index < sorted[i + 1].index;
    }
  }

  /** After sorting, "index equals position" throughout means exactly that the
      indices were a permutation. */
  lemma {:induction false} InPlaceMeansPermutation(data: seq<Datum>)
    ensures |SortByIndex(data)| == |data|
    ensures (forall i :: 0 <= i < |data| ==> SortByIndex(data)[i].index == i) <==> Answers(data, |data|)
  {
    var sorted := SortByIndex(data);
    SortFacts(data);
    if Answers(data, |data|) {
      forall i | 0 <= i < |data|
        ensures sorted[i].index == i
      {
        AtLeastPosition(sorted, i);
        AtMostPosition(sorted, i);
      }
    }
    if forall i :: 0 <= i < |data| ==> sorted[i].index == i {
      forall d | d in data
        ensures d.index < |data|
      {
        assert d in sorted;
      }
    }
  }

  /** `embed_texts` on the decoded response: accepted exactly when its indices
      are a permutation of the input positions, and then output `i` is the
      vector labelled `i`. */
  method EmbedTexts(n: nat, data: seq<Datum>) returns (r: Option<seq<Vector>>)
    ensures r.Some? <==> Answers(data, n)
    ensures r.Some? ==> |r.value| == n && forall d :: d in data ==> d.index < n && r.value[d.index] == d.embedding
  {
    if |data| != n {
      return None;
    }
    InPlaceMeansPermutation(data);
    var sorted := SortByIndex(data);
    var out: seq<Vector> := [];
    for i := 0 to n
      invariant |out| == i
      invariant forall k :: 0 <= k < i ==> sorted[k].index == k && out[k] == sorted[k].embedding
    {
      if sorted[i].index != i {
        return None;
      }
      out := out + [sorted[i].embedding];
    }
    SortFacts(data);
    forall d | d in data
      ensures d.index < n && out[d.index] == d.embedding
    {
      var k :| 0 <= k < n && sorted[k] == d;
    }
    return Some(out);
  }

  // ---------- the backfill ----------

  type Text = s: Bytes | ValidUtf8(s)

  /** A row to embed. */
  datatype Source = Source(id: Uuid, title: Text, body: Text)

  /** The embedding column of a table. */
  class VectorTable {
    var vectors: map<Uuid, Option<Vector>>

    constructor (vectors: map<Uuid, Option<Vector>>)
      ensures this.vectors == vectors
    {
      this.vectors := vectors;
    }

    /** `UPDATE .. SET embedding = $1 WHERE id = $2`. */
    method Store(id: Uuid, vector: Vector)
      modifies this
      ensures vectors == if id in old(vectors) then old(vectors)[id := Some(vector)] else old(vectors)
    {
      if id in vectors {
        vectors := vectors[id := Some(vector)];
      }
    }
  }

  ghost predicate Prepared(text: Bytes, row: Source) {
    IsEmbedded(text, PairText(row.title, row.body))
  }

  ghost predicate AllPrepared(texts: seq<Bytes>, rows: seq<Source>) {
    |texts| == |rows| && forall i :: 0 <= i < |rows| ==> Prepared(texts[i], rows[i])
  }

  method PrepareAll(rows: seq<Source>) returns (texts: seq<Bytes>)
    ensures AllPrepared(texts, rows)
  {
    texts := [];
    for i := 0 to |rows|
      invariant AllPrepared(texts, rows[..i])
    {
      var text := PrepareRow(rows[i]);
      PreparedSnoc(texts, rows[..i], text, rows[i]);
      assert rows[..i + 1] == rows[..i] + [rows[i]];
      texts := texts + [text];
    }
    assert rows[..|rows|] == rows;
  }

  method PrepareRow(row: Source) returns (text: Bytes)
    ensures Prepared(text, row)
  {
    text := PrepareText(row.title, row.body);
  }

  lemma {:induction false} PreparedSnoc(texts: seq<Bytes>, rows: seq<Source>, text: Bytes, row: Source)
    requires AllPrepared(texts, rows) && Prepared(text, row)
    ensures AllPrepared(texts + [text], rows + [row])
  {
  }

  /** The service labels each vector with the input it embeds, in any order. */
  ghost predicate LabelsHonestly(data: seq<Datum>, texts: seq<Bytes>, embed: Bytes -> Vector) {
    forall d :: d in data && d.index < |texts| ==> d.embedding == embed(texts[d.index])
  }

  lemma {:induction false} EachInputIsAnswered(data: seq<Datum>, i: nat) returns (d: Datum)
    requires Answers(data, |data|) && i < |data|
    ensures d in data && d.index == i
  {
    InPlaceMeansPermutation(data);
    SortFacts(data);
    d := SortByIndex(data)[i];
  }

  /** Stores one vector per row, in row order. */
  method StoreAll(table: VectorTable, rows: seq<Source>, embeddings: seq<Vector>)
    requires |embeddings| == |rows|
    requires forall i, j :: 0 <= i < j < |rows| ==> rows[i].id != rows[j].id
    modifies table
    ensures table.vectors.Keys == old(table.vectors).Keys
    ensures forall i :: 0 <= i < |rows| && rows[i].id in table.vectors ==>
              table.vectors[rows[i].id] == Some(embeddings[i])
    ensures forall id :: id in table.vectors && (forall i :: 0 <= i < |rows| ==> rows[i].id != id) ==>
              table.vectors[id] == old(table.vectors)[id]
  {
    for n := 0 to |rows|
      invariant table.vectors.Keys == old(table.vectors).Keys
      invariant forall i :: 0 <= i < n && rows[i].id in table.vectors ==>
                  table.vectors[rows[i].id] == Some(embeddings[i])
      invariant forall id :: id in table.vectors && (forall i :: 0 <= i < |rows| ==> rows[i].id != id) ==>
                  table.vectors[id] == old(table.vectors)[id]
    {
      table.Store(rows[n].id, embeddings[n]);
    }
  }

  /** One batch of the backfill. A response that does not answer every input once
      changes nothing; otherwise each row still present gets the vector of its
      own text, and no other row changes. */
  method Backfill(table: VectorTable, rows: seq<Source>, data: seq<Datum>, ghost embed: Bytes -> Vector)
    returns (processed: Option<nat>, ghost texts: seq<Bytes>)
    requires forall i, j :: 0 <= i < j < |rows| ==> rows[i].id != rows[j].id
    modifies table
    ensures AllPrepared(texts, rows)
    ensures processed == if rows == [] then Some(0) else if Answers(data, |rows|) then Some(|rows|) else None
    ensures processed.None? ==> table.vectors == old(table.vectors)
    ensures table.vectors.Keys == old(table.vectors).Keys
    ensures processed.Some? && LabelsHonestly(data, texts, embed) ==>
              forall i :: 0 <= i < |rows| && rows[i].id in table.vectors ==>
                table.vectors[rows[i].id] == Some(embed(texts[i]))
    ensures forall id :: id in table.vectors && (forall i :: 0 <= i < |rows| ==> rows[i].id != id) ==>
              table.vectors[id] == old(table.vectors)[id]
  {
    texts := [];
    if rows == [] {
      return Some(0), texts;
    }
    var prepared := PrepareAll(rows);
    texts := prepared;
    var embeddings := EmbedTexts(|prepared|, data);
    if embeddings.None? {
      return None, texts;
    }
    StoreAll(table, rows, embeddings.value);
    if LabelsHonestly(data, texts, embed) {
      forall i | 0 <= i < |rows|
        ensures embeddings.value[i] == embed(texts[i])
      {
        var d := EachInputIsAnswered(data, i);
      }
    }
    return Some(|rows|), texts;
  }
}

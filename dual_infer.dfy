/**
 * Dual-encoder inference (backend/dual_infer.py): the Korean reference
 * names are tokenised and embedded once, at load time, into two lists kept
 * in lockstep; a query scores its English-name embedding against every
 * cached Korean embedding and returns the payloads of the k best rows.
 *
 * The TFLite interpreter is an opaque, deterministic function of its two
 * input tensors; similarity scores are exact reals.
 */
module DualInfer {
  import opened Text
  import opened Tokenizer

  type Embedding = seq<real>

  /**
   * One `set_tensor(en) / set_tensor(ko) / invoke / get_tensor` round of
   * the interpreter: the output for an English input tensor and a Korean
   * input tensor.
   */
  type Interpreter = (seq<int>, seq<int>) -> Embedding

  /** The fields of a `name_trends` row that inference reads. */
  datatype NameTrend = NameTrend(koreanName: string, meaning: string, gender: string, trendScore: real)

  /** One element of the list `recommend` returns. */
  datatype Recommendation = Recommendation(koreanName: string, meaning: string, eraScore: real, gender: string)

  /** `np.zeros((1, n), np.int32)`: the input fed to the encoder that is not in use. */
  function ZeroTensor(n: nat): seq<int> {
    seq(n, _ => 0)
  }

  /** The dot product of two vectors, summed from the front. */
  function Dot(a: Embedding, b: Embedding): real {
    if a == [] || b == [] then 0.0 else a[0] * b[0] + Dot(a[1..], b[1..])
  }

  /** Summed from the back instead: the dot product adds a[i] * b[i] for every common index i. */
  lemma {:induction false} DotSnoc(a: Embedding, b: Embedding, x: real, y: real)
    requires |a| == |b|
    ensures Dot(a + [x], b + [y]) == Dot(a, b) + x * y
  {
    if a != [] {
      assert (a + [x])[1..] == a[1..] + [x];
      assert (b + [y])[1..] == b[1..] + [y];
      DotSnoc(a[1..], b[1..], x, y);
    }
  }

  /** The score does not depend on which side the query is on. */
  lemma {:induction false} DotSymmetric(a: Embedding, b: Embedding)
    ensures Dot(a, b) == Dot(b, a)
  {
    if a != [] && b != [] {
      DotSymmetric(a[1..], b[1..]);
    }
  }

  /** `embeddings_ko @ emb_en`: one score per cached row, row i scoring `embs[i]` against the query. */
  function Similarities(embs: seq<Embedding>, query: Embedding): (sims: seq<real>)
    ensures |sims| == |embs|
    ensures forall i :: 0 <= i < |embs| ==> sims[i] == Dot(embs[i], query)
  {
    seq(|embs|, i requires 0 <= i < |embs| => Dot(embs[i], query))
  }

  // ---------------------------------------------------------------------
  // Stable top-k selection: heapq.nlargest(k, range(N), sims.take)
  // ---------------------------------------------------------------------

  /**
   * Index i is listed before index j by `sorted(range(N), key=sims.take,
   * reverse=True)`: a higher score first, equal scores in index order
   * (Python's sort is stable, also in reverse).
   */
  predicate Precedes(sims: seq<real>, i: nat, j: nat)
    requires i < |sims| && j < |sims|
  {
    sims[i] > sims[j] || (sims[i] == sims[j] && i < j)
  }

  /** `order` lists indices of `sims` in the order `Precedes` fixes. */
  predicate RankedBy(sims: seq<real>, order: seq<nat>) {
    && (forall k :: 0 <= k < |order| ==> order[k] < |sims|)
    && (forall a, b :: 0 <= a < b < |order| ==> Precedes(sims, order[a], order[b]))
  }

  /** Inserts index x, larger than every index in `order`, after every index scoring at least as high. */
  function InsertByScore(sims: seq<real>, x: nat, order: seq<nat>): (r: seq<nat>)
    requires x < |sims| && RankedBy(sims, order)
    requires forall k :: 0 <= k < |order| ==> order[k] < x
    ensures |r| == |order| + 1
    ensures forall y :: y in r <==> y == x || y in order
    ensures RankedBy(sims, r)
  {
    if order == [] then [x]
    else if sims[order[0]] < sims[x] then [x] + order
    else
      var rest := InsertByScore(sims, x, order[1..]);
      assert forall t :: 0 <= t < |rest| ==> Precedes(sims, order[0], rest[t]) by {
        forall t | 0 <= t < |rest| ensures Precedes(sims, order[0], rest[t]) {
          assert rest[t] in rest;
          if rest[t] != x {
            var q :| 0 <= q < |order[1..]| && order[1..][q] == rest[t];
            assert Precedes(sims, order[0], order[q + 1]);
          }
        }
      }
      [order[0]] + rest
  }

  /** `sorted(range(n), key=sims.take, reverse=True)`, built by inserting 0, 1, ..., n - 1 in turn. */
  function RankOrder(sims: seq<real>, n: nat): (order: seq<nat>)
    requires n <= |sims|
    ensures |order| == n
    ensures forall y: nat :: y in order <==> y < n
    ensures RankedBy(sims, order)
  {
    if n == 0 then []
    else
      var prev := RankOrder(sims, n - 1);
      assert forall k :: 0 <= k < |prev| ==> prev[k] in prev;
      InsertByScore(sims, n - 1, prev)
  }

  /**
   * `heapq.nlargest(k, range(len(sims)), sims.take)`, which Python
   * documents as `sorted(range(len(sims)), key=sims.take, reverse=True)[:k]`;
   * a k of 0 or less selects nothing.
   */
  function NLargest(k: int, sims: seq<real>): (top: seq<nat>)
    ensures |top| == if k <= 0 then 0 else Min(k, |sims|)
    ensures forall j :: 0 <= j < |top| ==> top[j] < |sims|
    ensures forall a, b :: 0 <= a < b < |top| ==> top[a] != top[b]
    ensures forall a, b :: 0 <= a < b < |top| ==> sims[top[a]] >= sims[top[b]]
    ensures forall a, b :: 0 <= a < b < |top| && sims[top[a]] == sims[top[b]] ==> top[a] < top[b]
  {
    if k <= 0 then [] else RankOrder(sims, |sims|)[..Min(k, |sims|)]
  }

  /**
   * No index left out of the selection beats a selected one: it scores at
   * most as high, and on a tie it comes later in the table.
   */
  lemma NLargestUnselected(k: int, sims: seq<real>, j: nat, i: nat)
    requires j < |NLargest(k, sims)| && i < |sims| && i !in NLargest(k, sims)
    ensures sims[i] <= sims[NLargest(k, sims)[j]]
    ensures sims[i] == sims[NLargest(k, sims)[j]] ==> NLargest(k, sims)[j] < i
  {
    var order := RankOrder(sims, |sims|);
    var top := NLargest(k, sims);
    assert top == order[..|top|];
    assert i in order;
    var p :| 0 <= p < |order| && order[p] == i;
    assert Precedes(sims, order[j], order[p]);
  }

  /** Every index is selected when k reaches the table size. */
  lemma NLargestAll(k: int, sims: seq<real>, i: nat)
    requires k >= |sims| && i < |sims|
    ensures i in NLargest(k, sims)
  {
    if k > 0 {
      var order := RankOrder(sims, |sims|);
      assert order[..|sims|] == order;
    }
  }

  // ---------------------------------------------------------------------
  // Reference cache (load time) and recommend
  // ---------------------------------------------------------------------

  /**
   * The first load-time loop: one padded Korean token vector per reference
   * row, and the row itself, appended together.
   */
  method CacheReferenceVectors(rows: seq<NameTrend>, koCharset: Charset)
    returns (koVecs: seq<seq<int>>, koEntries: seq<NameTrend>)
    ensures |koVecs| == |koEntries| == |rows|
    ensures forall i :: 0 <= i < |rows| ==> koEntries[i] == rows[i]
    ensures forall i :: 0 <= i < |rows| ==>
      koVecs[i] == Vectorize(rows[i].koreanName, koCharset, MAX_LEN_KO) && |koVecs[i]| == MAX_LEN_KO
  {
    koVecs, koEntries := [], [];
    for r := 0 to |rows|
      invariant |koVecs| == |koEntries| == r
      invariant forall i :: 0 <= i < r ==> koEntries[i] == rows[i]
      invariant forall i :: 0 <= i < r ==> koVecs[i] == Vectorize(rows[i].koreanName, koCharset, MAX_LEN_KO)
    {
      var vec := Vectorize(rows[r].koreanName, koCharset, MAX_LEN_KO);
      koVecs := koVecs + [vec];
      koEntries := koEntries + [rows[r]];
    }
  }

  /**
   * The second load-time loop: the Korean encoder's output for every token
   * vector, the English input held at zero.
   */
  method EmbedReferences(interpreter: Interpreter, koVecs: seq<seq<int>>) returns (embeddingsKo: seq<Embedding>)
    ensures |embeddingsKo| == |koVecs|
    ensures forall i :: 0 <= i < |koVecs| ==> embeddingsKo[i] == interpreter(ZeroTensor(MAX_LEN_EN), koVecs[i])
  {
    embeddingsKo := [];
    for r := 0 to |koVecs|
      invariant |embeddingsKo| == r
      invariant forall i :: 0 <= i < r ==> embeddingsKo[i] == interpreter(ZeroTensor(MAX_LEN_EN), koVecs[i])
    {
      embeddingsKo := embeddingsKo + [interpreter(ZeroTensor(MAX_LEN_EN), koVecs[r])];
    }
  }

  /** The payload `recommend` reports for a reference row. */
  function Payload(row: NameTrend): (r: Recommendation)
    ensures r.koreanName == row.koreanName && r.meaning == row.meaning && r.gender == row.gender
  {
    Recommendation(row.koreanName, row.meaning, row.trendScore, row.gender)
  }

  /**
   * The module-level state of backend/dual_infer.py: the interpreter, the
   * two charsets imported from the training module, and the reference
   * cache, filled once when the module is loaded and only read afterwards.
   */
  class NameRecommender {
    const interpreter: Interpreter
    const enCharset: Charset
    const koCharset: Charset
    var koVecs: seq<seq<int>>
    var koEntries: seq<NameTrend>
    var embeddingsKo: seq<Embedding>

    /** Row i of each cached list belongs to reference row i. */
    ghost predicate Valid()
      reads this
    {
      && |koVecs| == |koEntries| == |embeddingsKo|
      && (forall i :: 0 <= i < |koEntries| ==>
            koVecs[i] == Vectorize(koEntries[i].koreanName, koCharset, MAX_LEN_KO))
      && (forall i :: 0 <= i < |koVecs| ==>
            embeddingsKo[i] == interpreter(ZeroTensor(MAX_LEN_EN), koVecs[i]))
    }

    /**
     * Module load: the charsets come from the training names (English ones
     * lower-cased), `allKos` is the result of the `name_trends` query.  With
     * no reference row, stacking the embeddings fails and loading stops.
     */
    constructor (interp: Interpreter, trainingEnglish: seq<string>, trainingKorean: seq<string>, allKos: seq<NameTrend>)
      requires allKos != []
      ensures Valid()
      ensures interpreter == interp
      ensures enCharset == CharsetOf(LowerAll(trainingEnglish))
      ensures koCharset == CharsetOf(trainingKorean)
      ensures koEntries == allKos
    {
      var en := BuildCharset(LowerAll(trainingEnglish));
      var ko := BuildCharset(trainingKorean);
      var vecs, entries := CacheReferenceVectors(allKos, ko);
      var embs := EmbedReferences(interp, vecs);
      interpreter, enCharset, koCharset := interp, en, ko;
      koVecs, koEntries, embeddingsKo := vecs, entries, embs;
    }

    /** The query's input tensor: the lower-cased name, encoded and padded to MAX_LEN_EN. */
    function QueryVector(englishName: string): (v: seq<int>)
      ensures |v| == MAX_LEN_EN
    {
      Vectorize(Lower(englishName), enCharset, MAX_LEN_EN)
    }

    /** The indices `recommend(englishName, k)` selects. */
    function TopIndices(englishName: string, k: int): (top: seq<nat>)
      reads this
      ensures |top| == if k <= 0 then 0 else Min(k, |embeddingsKo|)
      ensures forall j :: 0 <= j < |top| ==> top[j] < |embeddingsKo|
      ensures forall a, b :: 0 <= a < b < |top| ==> top[a] != top[b]
    {
      NLargest(k, Similarities(embeddingsKo, interpreter(QueryVector(englishName), ZeroTensor(MAX_LEN_KO))))
    }

    /**
     * recommend: score every cached row against the query and return the
     * payloads of the k best, best first; the cache is only read.
     */
    method Recommend(englishName: string, k: int) returns (results: seq<Recommendation>)
      requires Valid()
      ensures |results| == if k <= 0 then 0 else Min(k, |koEntries|)
      ensures |TopIndices(englishName, k)| == |results|
      ensures forall j :: 0 <= j < |results| ==>
        TopIndices(englishName, k)[j] < |koEntries| &&
        results[j] == Payload(koEntries[TopIndices(englishName, k)[j]])
    {
      var enVec := QueryVector(englishName);
      var embEn := interpreter(enVec, ZeroTensor(MAX_LEN_KO));
      var sims := Similarities(embeddingsKo, embEn);
      var topIdx := NLargest(k, sims);
      results := [];
      for j := 0 to |topIdx|
        invariant |results| == j
        invariant forall t :: 0 <= t < j ==> results[t] == Payload(koEntries[topIdx[t]])
      {
        var row := koEntries[topIdx[j]];
        results := results + [Payload(row)];
      }
    }

    /** Two names that differ only in letter case get the same selection. */
    lemma SelectionIgnoresCase(a: string, b: string, k: int)
      requires |a| == |b| && forall i :: 0 <= i < |a| ==> LowerChar(a[i]) == LowerChar(b[i])
      ensures TopIndices(a, k) == TopIndices(b, k)
    {
      assert Lower(a) == Lower(b);
    }
  }

  /**
   * Three reference embeddings [1, 0], [0, 1], [0.7071, 0.7071] against
   * the query [1, 0]: the two best are the first (score 1) and the third
   * (score 0.7071), in that order.
   */
  lemma ThreeRowScenario()
    ensures NLargest(2, Similarities([[1.0, 0.0], [0.0, 1.0], [0.7071, 0.7071]], [1.0, 0.0])) == [0, 2]
  {
    var sims := Similarities([[1.0, 0.0], [0.0, 1.0], [0.7071, 0.7071]], [1.0, 0.0]);
    assert sims == [1.0, 0.0, 0.7071];
    assert RankOrder(sims, 2) == [0, 1];
    assert RankOrder(sims, 3) == [0, 2, 1];
  }

  /** Two rows with equal scores are returned in table order. */
  lemma TieKeepsTableOrder()
    ensures NLargest(3, [0.5, 0.9, 0.5]) == [1, 0, 2]
  {
  }
}

/** Content features: tag and industry embeddings looked up with a zero-vector
    fallback, and the element-wise mean of a question's tag embeddings.
    Arithmetic is over `real`; floating-point rounding is not modelled. */
module Content {

  type Vec = seq<real>

  /** Length of the zero vector used for a missing tag or industry. */
  const EmbDim: nat := 10

  /** The all-zero vector of length `dim`. */
  function Zeros(dim: nat): (z: Vec)
    ensures |z| == dim
    ensures forall j :: 0 <= j < dim ==> z[j] == 0.0
  {
    seq(dim, _ => 0.0)
  }

  /** Every vector of the table has length `dim`. */
  ghost predicate TableOfDim(emb: map<string, Vec>, dim: nat)
  {
    forall k :: k in emb ==> |emb[k]| == dim
  }

  /** Every vector of the list has length `dim`. */
  ghost predicate AllOfDim(vs: seq<Vec>, dim: nat)
  {
    forall i :: 0 <= i < |vs| ==> |vs[i]| == dim
  }

  /** `emb.get(key, zeros(dim))`: the lookup of a tag embedding, and of the
      industry embedding of a professional. */
  function EmbeddingOrZero(emb: map<string, Vec>, key: string, dim: nat): (v: Vec)
    requires TableOfDim(emb, dim)
    ensures |v| == dim
    ensures key in emb ==> v == emb[key]
    ensures key !in emb ==> v == Zeros(dim)
  {
    if key in emb then emb[key] else Zeros(dim)
  }

  /** Sum of column `j` over the rows of `vs`. */
  function ColumnSum(vs: seq<Vec>, j: nat): real
    requires forall i :: 0 <= i < |vs| ==> j < |vs[i]|
  {
    if vs == [] then 0.0 else ColumnSum(vs[..|vs| - 1], j) + vs[|vs| - 1][j]
  }

  /** `vstack(vs).mean(axis = 0)`: the element-wise mean of the rows. */
  function Mean(vs: seq<Vec>, dim: nat): (m: Vec)
    requires |vs| > 0 && AllOfDim(vs, dim)
    ensures |m| == dim
  {
    seq(dim, j requires 0 <= j < dim => ColumnSum(vs, j) / (|vs| as real))
  }

  /** The rows averaged for one question: one per tag, a zero row for a tag
      with no embedding, and a single zero row when there are no tags. */
  function TagRows(tags: seq<string>, emb: map<string, Vec>, dim: nat): (rows: seq<Vec>)
    requires TableOfDim(emb, dim)
    ensures |rows| > 0 && AllOfDim(rows, dim)
  {
    if tags == [] then [Zeros(dim)]
    else seq(|tags|, i requires 0 <= i < |tags| => EmbeddingOrZero(emb, tags[i], dim))
  }

  /** The tag content feature of a question with the given tags. */
  function TagContent(tags: seq<string>, emb: map<string, Vec>, dim: nat): (v: Vec)
    requires TableOfDim(emb, dim)
    ensures |v| == dim
  {
    Mean(TagRows(tags, emb, dim), dim)
  }

  lemma {:induction false} ColumnSumBounds(vs: seq<Vec>, j: nat, lo: real, hi: real)
    requires forall i :: 0 <= i < |vs| ==> j < |vs[i]| && lo <= vs[i][j] <= hi
    ensures (|vs| as real) * lo <= ColumnSum(vs, j) <= (|vs| as real) * hi
  {
    if vs != [] {
      ColumnSumBounds(vs[..|vs| - 1], j, lo, hi);
    }
  }

  /** Each coordinate of the mean lies between the smallest and the largest
      value of that coordinate over the rows. */
  lemma MeanBounds(vs: seq<Vec>, dim: nat, j: nat, lo: real, hi: real)
    requires |vs| > 0 && AllOfDim(vs, dim) && j < dim
    requires forall i :: 0 <= i < |vs| ==> lo <= vs[i][j] <= hi
    ensures lo <= Mean(vs, dim)[j] <= hi
  {
    ColumnSumBounds(vs, j, lo, hi);
    var n := |vs| as real;
    var s := ColumnSum(vs, j);
    assert Mean(vs, dim)[j] == s / n;
    assert n * lo <= s <= n * hi;
  }

  lemma {:induction false} ColumnSumOfCopies(vs: seq<Vec>, v: Vec, j: nat)
    requires j < |v|
    requires forall i :: 0 <= i < |vs| ==> vs[i] == v
    ensures ColumnSum(vs, j) == (|vs| as real) * v[j]
  {
    if vs != [] {
      ColumnSumOfCopies(vs[..|vs| - 1], v, j);
    }
  }

  /** Averaging rows that are all the same vector gives that vector. */
  lemma MeanOfCopies(vs: seq<Vec>, v: Vec, dim: nat)
    requires |vs| > 0 && |v| == dim
    requires forall i :: 0 <= i < |vs| ==> vs[i] == v
    ensures Mean(vs, dim) == v
  {
    forall j | 0 <= j < dim
      ensures Mean(vs, dim)[j] == v[j]
    {
      ColumnSumOfCopies(vs, v, j);
    }
  }

  /** Averaging rows that are all zero gives zeros. */
  lemma MeanOfZeros(vs: seq<Vec>, dim: nat)
    requires |vs| > 0 && AllOfDim(vs, dim)
    requires forall i :: 0 <= i < |vs| ==> vs[i] == Zeros(dim)
    ensures Mean(vs, dim) == Zeros(dim)
  {
    MeanOfCopies(vs, Zeros(dim), dim);
  }

  /** A question without tags gets the zero vector. */
  lemma TagContentNoTags(emb: map<string, Vec>, dim: nat)
    requires TableOfDim(emb, dim)
    ensures TagContent([], emb, dim) == Zeros(dim)
  {
    MeanOfZeros([Zeros(dim)], dim);
  }

  /** A question none of whose tags has an embedding gets the zero vector. */
  lemma TagContentAllMissing(tags: seq<string>, emb: map<string, Vec>, dim: nat)
    requires TableOfDim(emb, dim)
    requires forall i :: 0 <= i < |tags| ==> tags[i] !in emb
    ensures TagContent(tags, emb, dim) == Zeros(dim)
  {
    MeanOfZeros(TagRows(tags, emb, dim), dim);
  }

  /** A question whose tags all have the same embedding gets that embedding. */
  lemma TagContentSameEmbedding(tags: seq<string>, emb: map<string, Vec>, dim: nat, v: Vec)
    requires TableOfDim(emb, dim) && |tags| > 0
    requires forall i :: 0 <= i < |tags| ==> tags[i] in emb && emb[tags[i]] == v
    ensures TagContent(tags, emb, dim) == v
  {
    assert |v| == dim by { assert tags[0] in emb; }
    MeanOfCopies(TagRows(tags, emb, dim), v, dim);
  }

  /** Each coordinate of the tag content lies between the smallest and the
      largest value of that coordinate over the question's tag embeddings,
      a missing tag counting as zero. */
  lemma TagContentBounds(tags: seq<string>, emb: map<string, Vec>, dim: nat, j: nat, lo: real, hi: real)
    requires TableOfDim(emb, dim) && j < dim
    requires (tags == [] || exists i :: 0 <= i < |tags| && tags[i] !in emb) ==> lo <= 0.0 <= hi
    requires forall i :: 0 <= i < |tags| && tags[i] in emb ==> lo <= emb[tags[i]][j] <= hi
    ensures lo <= TagContent(tags, emb, dim)[j] <= hi
  {
    var rows := TagRows(tags, emb, dim);
    forall i | 0 <= i < |rows|
      ensures lo <= rows[i][j] <= hi
    {
      if tags != [] && tags[i] in emb {
      }
    }
    MeanBounds(rows, dim, j, lo, hi);
  }

  /** Tags "a" and "b" with embeddings [1, 0] and [3, 0] average to [2, 0]; a
      tag without an embedding still counts in the mean, so "a" next to a
      missing tag averages to [0.5, 0]. */
  lemma TagContentExamples()
    ensures TagContent(["a", "b"], map["a" := [1.0, 0.0], "b" := [3.0, 0.0]], 2) == [2.0, 0.0]
    ensures TagContent(["a", "z"], map["a" := [1.0, 0.0]], 2) == [0.5, 0.0]
  {
    var emb := map["a" := [1.0, 0.0], "b" := [3.0, 0.0]];
    var rows := TagRows(["a", "b"], emb, 2);
    assert rows == [[1.0, 0.0], [3.0, 0.0]];
    assert rows[..1] == [[1.0, 0.0]] && rows[..1][..0] == [];
    assert ColumnSum(rows[..1], 0) == 1.0;
    assert ColumnSum(rows, 0) == 4.0;
    assert ColumnSum(rows[..1], 1) == 0.0;
    assert ColumnSum(rows, 1) == 0.0;
    var emb2 := map["a" := [1.0, 0.0]];
    var rows2 := TagRows(["a", "z"], emb2, 2);
    assert Zeros(2) == [0.0, 0.0];
    assert rows2 == [[1.0, 0.0], [0.0, 0.0]];
    assert rows2[..1] == [[1.0, 0.0]] && rows2[..1][..0] == [];
    assert ColumnSum(rows2[..1], 0) == 1.0;
    assert ColumnSum(rows2, 0) == 1.0;
    assert ColumnSum(rows2[..1], 1) == 0.0;
    assert ColumnSum(rows2, 1) == 0.0;
  }
}

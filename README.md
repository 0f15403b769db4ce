# Batch generator for question–professional matching

This project is a Dafny model of `BatchGenerator` in `kostya/batch_generator.py`. The class feeds a ranking model with training batches. Each batch contains:

- a slice of the known (question, professional) pairs, the positives;
- `neg_size` random pairs, the negatives. A negative is drawn again until it is not a known pair and the professional answered something strictly before the question's answer date;
- two input matrices, one question-side and one professional-side, with a row per pair;
- a label column: ones for the positives, then zeros for the negatives.

At the end of every epoch the pair list is reshuffled.

The model has four modules:

- `Recency` (`recency.dfy`): the `searchsorted` lookup of a professional's sorted answer timestamps, and the (last date, valid) result built from it.
- `Content` (`content.dfy`): the tag and industry embedding lookups with their zero-vector fallback, and the element-wise mean of a question's tag embeddings.
- `Batching` (`batching.dfy`): the batch count, Python's slicing of the pair list, and the label column.
- `Generator` (`batch_generator.dfy`): the class `BatchGenerator`. Its dictionaries are immutable fields. Its pair list is a mutable field that `OnEpochEnd` reassigns. Its methods follow the loops of `__getitem__` and `__convert`.

Hard dictionary lookups (`d[key]`) return `Err(KeyError(table))` when the key is missing, instead of raising. `random.choice` on an empty list gives `Err(IndexError)`. `np.vstack` of an empty list gives `Err(ValueError)`. `__convert` runs into that last case when `neg_size` is 0 or when the batch slice is empty. So a successful `GetItem` always has at least one positive row and at least one negative row.

Two behaviours of the code that are easy to miss:

- `searchsorted` with side "left" puts every earlier entry strictly below the answer date. So the recency lookup finds the latest answer strictly before the date.
- An out-of-range batch index is not rejected, because Python slicing clamps it. At `index == __len__()` the slice holds the leftover pairs, fewer than `pos_size`. When there are any, the label column still has `pos_size` ones. An empty slice (no leftovers, or a larger index) makes `__convert` of the positives fail with `ValueError`.

## Model

| member | source | states |
|---|---|---|
| `Recency.SearchWindow` | kostya/batch_generator.py:86 | Binary search on a window whose outside is already classified. It returns an index in the window that is the leftmost insertion point: everything before is `<` x, everything after is `>=` x. |
| `Recency.SearchSortedLeft` | kostya/batch_generator.py:86 | `searchsorted(pro_dates, ans_date)` on a sorted list returns the leftmost insertion point. |
| `Recency.LastAnswerBefore` | kostya/batch_generator.py:86-90 | The result is invalid exactly when no timestamp is `<` the answer date, and then the date is the answer date itself. When valid, the date is an element of the list, `<` the answer date, and the largest such element. |
| `Recency.LastAnswerBeforeExamples` | kostya/batch_generator.py:82-90 | On `[10, 20, 30]`, answer date 25 gives `(20, valid)` and answer date 5 gives `(5, invalid)`. |
| `Content.Zeros` | kostya/batch_generator.py:72-74 | `np.zeros(dim)`: length `dim`, every entry 0. |
| `Content.EmbeddingOrZero` | kostya/batch_generator.py:72-77 | `emb.get(key, zeros)`, used for tag embeddings (line 72) and industry embeddings (line 77): the table's vector when the key is present, else the zero vector, either way of the table's dimension. |
| `Content.Mean` | kostya/batch_generator.py:76 | The element-wise mean of `k > 0` rows of dimension `dim` has dimension `dim`. |
| `Content.MeanBounds` | kostya/batch_generator.py:76 | Each coordinate of the mean lies between the smallest and the largest value of that coordinate over the rows. |
| `Content.MeanOfCopies` | kostya/batch_generator.py:76 | The mean of rows that are all the same vector is that vector. |
| `Content.MeanOfZeros` | kostya/batch_generator.py:73-76 | The mean of all-zero rows is the zero vector. |
| `Content.TagRows` | kostya/batch_generator.py:70-74 | The rows averaged for a question: at least one row, each of the embedding dimension. |
| `Content.TagContent` | kostya/batch_generator.py:70-76 | A question's tag content has the embedding dimension. |
| `Content.TagContentNoTags` | kostya/batch_generator.py:71-76 | A question with no tags gets the zero vector. |
| `Content.TagContentAllMissing` | kostya/batch_generator.py:71-76 | A question none of whose tags has an embedding gets the zero vector. |
| `Content.TagContentSameEmbedding` | kostya/batch_generator.py:71-76 | A question whose tags all have the same embedding gets that embedding. |
| `Content.TagContentBounds` | kostya/batch_generator.py:71-76 | Each coordinate of the tag content lies between bounds that hold for every tag embedding. The bounds must also enclose 0 only when a zero row enters the mean, that is when the question has no tags or some tag has no embedding. |
| `Content.TagContentExamples` | kostya/batch_generator.py:71-76 | Tags `a = [1, 0]` and `b = [3, 0]` give `[2, 0]`. Tag `a = [1, 0]` next to a tag with no embedding gives `[0.5, 0]`: the missing tag counts in the mean. |
| `Batching.EnumerationHasNoDuplicates` | kostya/batch_generator.py:40-41 | A list with the multiset of a set's elements has no duplicates, has the set's size, and has exactly the set's elements. |
| `Batching.BatchCount` | kostya/batch_generator.py:63-64 | Floor division: `n * size <= total < n * size + size`, so fewer than `size` pairs are left over. |
| `Batching.PySlice` | kostya/batch_generator.py:94 | Python slicing with non-negative bounds. In range it is `s[lo..hi]`. Otherwise both bounds are clamped to the length: the result has length `min(hi, |s|) - lo` when `lo < hi` and `lo < |s|`, else 0, and it is element-wise `s[lo + k]`. |
| `Batching.BatchSlice` | kostya/batch_generator.py:94 | The batch `[size*index : size*(index+1)]` has at most `size` pairs: exactly `size` while the list is long enough, the remaining tail when the list ends inside the window, none past it. Its `k`-th pair is `s[size*index + k]`. |
| `Batching.BatchSliceInRange` | kostya/batch_generator.py:94 | For `index` below the batch count, the batch is exactly `s[size*index .. size*(index+1)]` and has `size` pairs. |
| `Batching.BatchSliceOutOfRange` | kostya/batch_generator.py:63-64 | For `index` at or beyond the batch count, the batch has fewer than `size` pairs. |
| `Batching.LeftoverNeverServed` | kostya/batch_generator.py:63-64 | Given no duplicates, a pair at a position from `size * count` on is in no batch below the count. |
| `Batching.BatchSlicesDisjoint` | kostya/batch_generator.py:94 | Given no duplicates, two different batch indices below the count give disjoint batches. |
| `Batching.Labels` | kostya/batch_generator.py:134 | Length `pos + neg`: ones at positions below `pos`, zeros from `pos` on. |
| `Generator.BatchGenerator.constructor` | kostya/batch_generator.py:12-60 | Stores the loaded dictionaries and candidate lists. Builds `que_pro_list` from `que_pro_set` so that the list holds each pair exactly once. |
| `Generator.BatchGenerator.Len` | kostya/batch_generator.py:63-64 | `__len__` is the floor of the list length divided by `pos_size`. |
| `Generator.BatchGenerator.QueContent` | kostya/batch_generator.py:71-76 | The question-side content feature has dimension 10. |
| `Generator.BatchGenerator.ProContent` | kostya/batch_generator.py:77 | The professional-side content feature has dimension 10. |
| `Generator.BatchGenerator.NegativeQueLastAnswerDate` | kostya/batch_generator.py:82-90 | A missing question gives `KeyError` on `ans_date_added_dict`, checked first. A missing professional gives `KeyError` on `pro_last_answer_dates_dict`. Otherwise the result is the lookup: invalid with the answer date itself when no earlier answer exists, else the latest answer strictly before the answer date. |
| `Generator.BatchGenerator.CollectPositives` | kostya/batch_generator.py:103-106 | Succeeds exactly when every pair's three lookups succeed. The date, question-feature and professional-feature lists are index-aligned with the pairs, one entry each. The date is `que_last_answer_date_dict[que]`, not the searched recency. A failure is the `KeyError` of the first failing lookup of the first failing pair. |
| `Generator.BatchGenerator.DrawNegative` | kostya/batch_generator.py:109-116 | An accepted pair has its question drawn from `ques` and its professional from `pros`. It is not in `que_pro_set`, its recency is valid, and its last date is strictly before the question's answer date. The only errors are `IndexError`, which happens exactly for an empty candidate list, a `KeyError` on `ans_date_added_dict` or `pro_last_answer_dates_dict` for a candidate missing from it, and an exhausted draw budget. With non-empty lists whose entries are all in both tables, the draw either succeeds or exhausts the budget. `RetriesExhausted` comes only after exactly `budget` draws, each turned down: its lookup succeeded, but the pair is known or its recency is invalid. So when every candidate pair passes the test of line 116 and the budget is positive, the first draw is accepted. |
| `Generator.BatchGenerator.SampleNegatives` | kostya/batch_generator.py:108-121 | On success there are exactly `neg_size` accepted pairs, with index-aligned last dates and features. `neg_size == 0` gives empty lists. An empty candidate list gives `IndexError`. Each `KeyError` names a table that misses some candidate: `ans_date_added_dict` or `que_feature_dict` for a question, `pro_last_answer_dates_dict` or `pro_feature_dict` for a professional. With non-empty lists whose entries are all in those tables, the only possible failure is an exhausted draw budget. That failure comes only after `maxDraws` turned-down draws for one negative. When every candidate pair is acceptable as well, sampling succeeds. |
| `Generator.BatchGenerator.Convert` | kostya/batch_generator.py:67-79 | Succeeds exactly when the pair list is non-empty and every professional has an industry. Otherwise the error is `KeyError` on `pro_ind`, or `ValueError` for no pairs. On success, each pair gets its mean tag content and its industry content, one row per pair. |
| `Generator.BatchGenerator.Assemble` | kostya/batch_generator.py:126-134 | Builds positive rows first, then negative rows, each row from its pair's features, last date and content. The labels are `pos_size` ones followed by `neg_size` zeros. |
| `Generator.BatchGenerator.GetItem` | kostya/batch_generator.py:93-134 | The positives are the Python slice `[pos_size*index : pos_size*(index+1)]`. A missing positive lookup fails with the first `KeyError`. On success, positive rows come first, then `neg_size` accepted negative rows, and the labels are ones then zeros. For `index < __len__()`, both matrices and the labels have `pos_size + neg_size` rows. No negative equals a positive of the batch. Each error is tied to its cause. `IndexError` means an empty candidate list. `RetriesExhausted` needs `neg_size > 0`. A `KeyError` on `que_last_answer_date_dict` needs an unknown positive. A `KeyError` on `ans_date_added_dict` or `pro_last_answer_dates_dict` needs `neg_size > 0` and a candidate missing from that table. A `KeyError` on a feature table needs an unknown positive or a missing candidate. A `KeyError` on `pro_ind` needs a positive or drawn professional without an industry. `ValueError` means an empty slice or `neg_size == 0`. With `neg_size == 0` and all positives known with industries, the result is `ValueError`. The only remaining failure is an exhausted draw budget when all of these hold: the slice is non-empty, `neg_size > 0`, the draw budget is positive, both candidate lists are non-empty, and every lookup can succeed. That failure comes only after `maxDraws` turned-down draws for one negative. When every candidate pair is also acceptable, the batch is returned. |
| `Generator.BatchGenerator.OnEpochEnd` | kostya/batch_generator.py:137-138 | The new list is a permutation of the old one: same multiset, same length. So it still enumerates `que_pro_set` and `__len__` is unchanged. |

## Left out

- Loading in `__init__` (CSV reading, pandas merges and group-bys, `TextProcessor` normalisation, pickle loading) is I/O and library code. The resulting dictionaries and lists are constructor parameters.
- `BatchGenerator.constructor`: requires `pos_size > 0`. With `pos_size == 0` the source fails with `ZeroDivisionError` in `__len__`.
- `BatchGenerator.constructor`: requires each professional's answer timestamps to be sorted, and every tag and industry embedding to have length 10. The source relies on both: `searchsorted` needs sorted input and `np.vstack` needs rows of equal length.
- `BatchGenerator.DrawNegative`: the source's `while True` loop has no bound. The model allows at most `maxDraws` draws per negative. It returns `RetriesExhausted` when that many draws have all been turned down. The source has no such error.
- `BatchGenerator.GetItem`: takes a non-negative index. Python's negative indices are not modelled.
- `BatchGenerator.constructor`: `pos_size` and `neg_size` are natural numbers. Negative sizes, for which Python slicing and `range` behave differently, are not modelled.
- `random.choice` and `random.sample` are arbitrary choices (`:|`), not uniform distributions. `OnEpochEnd` takes elements from a shrinking pool in an arbitrary order, so it can produce any permutation.
- The `keras.utils.Sequence` base class is not modelled.
- numpy shapes are not modelled. `hstack` is represented by row records whose fields are in column order. `vstack` is represented by lists of rows.
- Labels are integers 1 and 0 rather than floats.
- Floating-point arithmetic in `np.mean` is modelled with exact `real` arithmetic.
- proj/main.py, proj/doc2vec.py and nikita/evaluating.py are not part of this model. They are experiment scripts around Keras, gensim, sklearn and matplotlib, and the permutation-importance loop depends on a foreign model's float loss.

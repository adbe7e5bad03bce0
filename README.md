# Scoped BM25 retrievers for clinical-trial statements

This project models the per-query ranking and result assembly of the two
retrievers used for clinical-trial natural-language inference. Both work over a
corpus table of records. Each record carries an `id`, an `evidence` text, a
`statement`, a `section`, a `type` and a label.

- `CTRBM25Okapi` is the lexical retriever. At construction it builds one token
  sequence per record: the evidence tokens followed by the statement tokens.
  A query keeps only the rows whose `section` and `type` are the query's, scores
  them with BM25, and sorts them by score, highest first. Python's
  `sorted(..., reverse=True)` is stable, so ties keep table order.
  The query then walks that ranking. It skips the querying statement itself and
  routes each row by its lower-cased label into a contradiction bucket or an
  entailment bucket. Each bucket holds at most `top_k` examples, and the walk
  stops once both are full.
- `CTRBM25OkapiDenseReranker` embeds every statement once at construction, in
  batches of 128. A query ranks lexically as above. It then takes the first
  `10 * top_k` results, re-orders them by the cosine similarity of each
  document's embedding to the query's, highest first, and assembles the buckets
  from that order.

Modules, one per file:

- `Records` (records.dfy): the record table, label routing, the query scope and
  the construction of the token index.
- `Ranking` (ranking.dfy): the stable descending sort, and the lexical ranking
  that both retrievers share.
- `Assembly` (assembly.dfy): the bucket-filling walk and its specification.
- `Bm25Okapi` (bm25_okapi.dfy): the lexical retriever class.
- `DenseReranker` (dense_reranker.dfy): the batch embedding loop, the rerank
  step and the dense retriever class.

The collaborators are parameters of the classes:

- the stemming tokenizer, a function from text to tokens;
- the BM25 scoring primitive, a function of the index, the query tokens and a
  row, giving a `real`;
- the encoder with its pooling, from text to a vector;
- cosine similarity, from two vectors to a `real`.

Each walk over the ranking is proved equal to a specification. For each label,
the bucket is the first `top_k` entries of the ranking that are not the querying
statement and carry that label (`Assembly.Assembled`). The early `break`
therefore changes nothing.

The dense query's result can fail; `Outcome` models the exceptions the Python
code raises. A dense query whose shortlist is empty (empty scope, or `top_k` =
0) fails, because scikit-learn's `cosine_similarity` rejects a document matrix
with no rows. The lexical retriever returns empty buckets in the same case.

## Model

| member | source | states |
|---|---|---|
| Records.BuildCorpus | src/retrievers/bm25_okapi.py:32-36 | the token index has one entry per record, in table order; entry i is the tokens of evidence i followed by the tokens of statement i |
| Records.ScopedIds | src/retrievers/bm25_okapi.py:44-48 | the scoped rows are exactly the positions of the records whose section and type equal the query's: all of them, nothing else, each in range, strictly ascending |
| Records.ScopedIdsEmpty | src/retrievers/bm25_okapi.py:44-48 | when no record has the query's section and type, the scope is empty |
| Records.LabelOf | src/retrievers/bm25_okapi.py:71-81 | a label routes to contradictions exactly when its lower case is "contradiction", to entailments exactly when it is "entailment", and otherwise to neither |
| Records.LabelOfIgnoresCase | src/retrievers/bm25_okapi.py:71-81 | label routing is case-insensitive: a label and its lower-case form go to the same bucket |
| Records.LabelOfExamples | src/retrievers/bm25_okapi.py:71-81 | "Contradiction" and "CONTRADICTION" route to contradictions, "Entailment" and "ENTAILMENT" to entailments, "neutral" to neither |
| Ranking.Insert | src/retrievers/bm25_okapi.py:57-59 | inserting one entry adds exactly that entry to the multiset of entries |
| Ranking.SortByScore | src/retrievers/bm25_okapi.py:57-59 | the sorted list is a permutation of its input |
| Ranking.InsertNonIncreasing | src/retrievers/bm25_okapi.py:57-59 | inserting into a list ordered by score, highest first, keeps it ordered |
| Ranking.SortNonIncreasing | src/retrievers/bm25_okapi.py:57-59 | the sorted list is ordered by score, highest first |
| Ranking.InsertRanked | src/retrievers/bm25_okapi.py:57-59 | inserting an entry from an earlier row keeps the (score descending, row ascending) order |
| Ranking.SortRanked | src/retrievers/bm25_okapi.py:57-59 | stability: when the input lists rows in ascending order, equal scores come out in ascending row order |
| Ranking.InsertDocs | src/retrievers/bm25_okapi.py:57-59 | inserting an entry adds its row to the multiset of rows and changes no other |
| Ranking.SortKeepsDocs | src/retrievers/bm25_okapi.py:57-59 | sorting keeps the multiset of rows |
| Ranking.ScoreHits | src/retrievers/bm25_okapi.py:54-58 | zip(doc_ids, scores): the scoped rows in their order, each paired with its own BM25 score |
| Ranking.LexicalRanking | src/retrievers/bm25_okapi.py:44-59 | the lexical ranking has one entry per scoped row and is a permutation of the scored scoped rows; its order is stated by LexicalRankingSpec |
| Ranking.LexicalRankingSpec | src/retrievers/bm25_okapi.py:44-59 | the lexical ranking is a permutation of the scoped (row, score) pairs, ordered by score with ties in row order; every entry is a scoped row carrying its own score, and every scoped row appears |
| Assembly.Candidates | src/retrievers/bm25_okapi.py:65-90 | the qualifying entries of a ranking refer only to rows of the table |
| Assembly.Take | src/retrievers/bm25_okapi.py:73-84 | a quota keeps min(k, n) entries, the first ones, in order |
| Assembly.CandidatesSound | src/retrievers/bm25_okapi.py:65-90 | every qualifying entry is in the ranking, is not the querying statement and carries the bucket's label |
| Assembly.CandidatesComplete | src/retrievers/bm25_okapi.py:65-90 | every qualifying entry of the ranking is kept |
| Assembly.CandidatesPairwise | src/retrievers/bm25_okapi.py:65-90 | keeping the qualifying entries preserves any pairwise order of the ranking |
| Assembly.BucketSpec | src/retrievers/bm25_okapi.py:65-97 | a bucket has at most top_k entries, each a qualifying entry of the ranking; if it has fewer, no qualifying entry was missed; it keeps the ranking's score order and its tie order |
| Assembly.AssembledSpec | src/retrievers/bm25_okapi.py:63-102 | both buckets have at most top_k examples, none is the querying statement, each comes from a ranked row with the bucket's label and carries that row's score, and scores do not increase within a bucket |
| Assembly.BucketExamples | src/retrievers/bm25_okapi.py:63-102 | the same facts for one bucket, stated on its examples |
| Assembly.BucketStep | src/retrievers/bm25_okapi.py:65-90 | one step of the walk appends the next entry exactly when it qualifies and the bucket is not full |
| Assembly.BucketSettled | src/retrievers/bm25_okapi.py:92-97 | once a bucket is full, the rest of the ranking cannot change it, so the early break loses nothing |
| Assembly.WalkStep | src/retrievers/bm25_okapi.py:65-90 | one step of the walk for both buckets, in the walk's own tests: self-exclusion, then "contradiction", then "entailment" |
| Assembly.ToExamplesSnoc | src/retrievers/bm25_okapi.py:75-90 | appending an entry appends its example (id and score) |
| Assembly.AssembleBuckets | src/retrievers/bm25_okapi.py:63-102 | the walk, with its continue and early break, returns exactly the first top_k qualifying entries per label; the dense retriever's walk (bm25_okapi_dense_reranker.py:129-172) is the same |
| Bm25Okapi.LexicalRankingInCorpus | src/retrievers/bm25_okapi.py:44-59 | every entry of the lexical ranking is a row of the table |
| Bm25Okapi.LexicalResultSpec | src/retrievers/bm25_okapi.py:40-102 | a lexical query returns at most top_k examples per bucket; none is the querying statement; each is a row of the query's section and type, carries the bucket's label and that row's BM25 score; scores do not increase within a bucket |
| Bm25Okapi.LexicalBucket | src/retrievers/bm25_okapi.py:65-90 | an example drawn from the lexical ranking comes from a row of the query's section and type with the bucket's label and carries that row's BM25 score |
| Bm25Okapi.LexicalEmptyScope | src/retrievers/bm25_okapi.py:44-102 | with no row in the query's section and type, the query's ranking is empty and the buckets assembled from it are both empty |
| Bm25Okapi.CtrBm25Okapi.constructor | src/retrievers/bm25_okapi.py:18-38 | the retriever keeps its table, quota and collaborators, and its index has one token sequence per record, evidence tokens then statement tokens |
| Bm25Okapi.CtrBm25Okapi.GetDocumentScores | src/retrievers/bm25_okapi.py:40-102 | a query returns the buckets assembled from the lexical ranking of the query's tokens |
| DenseReranker.SpansFromTile | src/retrievers/bm25_okapi_dense_reranker.py:67-71 | the batches from row i on tile [i, n): contiguous, in order, each of batch_size rows except the last, the last ending at n |
| DenseReranker.BatchSpansTile | src/retrievers/bm25_okapi_dense_reranker.py:67-71 | the batches tile [0, n); there are none exactly when there are no texts |
| DenseReranker.EmbedAllSplit | src/retrievers/bm25_okapi_dense_reranker.py:67-79 | embedding a prefix is embedding its two parts and joining them |
| DenseReranker.FlattenLength | src/retrievers/bm25_okapi_dense_reranker.py:79 | the joined batch outputs have as many rows as all batches together |
| DenseReranker.FlattenAt | src/retrievers/bm25_okapi_dense_reranker.py:79 | row j of batch i is the joined output's row at the number of rows of the batches before i, plus j |
| DenseReranker.FlattenSpec | src/retrievers/bm25_okapi_dense_reranker.py:79 | joining keeps every row of every batch, adds none, and keeps batch order and row order within each batch |
| DenseReranker.Concatenate | src/retrievers/bm25_okapi_dense_reranker.py:79 | joining the batch outputs fails exactly when there is no batch, and then with the concatenation error; otherwise it has as many rows as all batches together |
| DenseReranker.DenseForward | src/retrievers/bm25_okapi_dense_reranker.py:59-81 | the batch loop visits the spans that tile the input; with a positive batch size and at least one text it returns one row per text in input order; a zero batch size or no text at all is an error |
| DenseReranker.Shortlist | src/retrievers/bm25_okapi_dense_reranker.py:84-87 | the shortlist is exactly the first min(10 * top_k, n) ids of the lexical ranking, in lexical order |
| DenseReranker.Rerank | src/retrievers/bm25_okapi_dense_reranker.py:99-102 | the reranked pairs are a permutation of the (id, similarity) pairs, ordered by similarity, highest first |
| DenseReranker.Reverse | src/retrievers/bm25_okapi_dense_reranker.py:99 | the `[::-1]` reversal: same length, same entries, entry k is the input's entry counted k from the end |
| DenseReranker.RerankTieOrder | src/retrievers/bm25_okapi_dense_reranker.py:99-100 | an example of the tie order, not the general rule: equal similarities for ids 5 then 3 come out 3 then 5, as a stable ascending argsort reversed gives them |
| DenseReranker.RerankSpec | src/retrievers/bm25_okapi_dense_reranker.py:98-102 | the reranked list is a permutation of the (id, similarity) pairs: no id added or dropped, each with its own similarity, similarities not increasing |
| DenseReranker.Similarities | src/retrievers/bm25_okapi_dense_reranker.py:94-96 | one similarity per shortlisted id, in shortlist order, each the cosine of the query's embedding and that id's document embedding |
| DenseReranker.RerankShortlist | src/retrievers/bm25_okapi_dense_reranker.py:83-102 | the rerank step fails exactly when the lexical ranking is empty or top_k is 0, and then only with the empty-shortlist error |
| DenseReranker.RerankShortlistSpec | src/retrievers/bm25_okapi_dense_reranker.py:83-102 | the rerank step fails exactly when the shortlist is empty; otherwise it is a permutation of the shortlist ids, each paired with the cosine similarity of its own embedding to the query's, similarities not increasing |
| DenseReranker.DenseBucket | src/retrievers/bm25_okapi_dense_reranker.py:129-167 | an example drawn from the reranked list comes from a row of the query's section and type among the first 10 * top_k lexical results, with the bucket's label, and carries that row's similarity |
| DenseReranker.DenseQuery | src/retrievers/bm25_okapi_dense_reranker.py:104-172 | a dense query is the lexical ranking, reranked, then assembled; the only error it can return is the empty shortlist |
| DenseReranker.DenseQuerySpec | src/retrievers/bm25_okapi_dense_reranker.py:104-172 | a dense query fails exactly when the scope is empty or top_k is 0; otherwise each bucket has at most top_k examples, none is the querying statement, each is from a row of the query's section and type among the first 10 * top_k lexical results with the bucket's label and carries its similarity, and scores do not increase within a bucket |
| DenseReranker.DenseEmptyScope | src/retrievers/bm25_okapi_dense_reranker.py:104-125 | with no row in the query's section and type, the lexical ranking is empty and the dense query fails on the empty shortlist |
| DenseReranker.CtrBm25OkapiDenseReranker.constructor | src/retrievers/bm25_okapi_dense_reranker.py:21-57 | the retriever builds its token index as the lexical one does, and holds one embedding per record, that of the record's statement, in table order; it requires a non-empty table |
| DenseReranker.CtrBm25OkapiDenseReranker.GetRerankedDocumentScores | src/retrievers/bm25_okapi_dense_reranker.py:83-102 | the rerank step of a query, with the query embedded by the batch loop |
| DenseReranker.CtrBm25OkapiDenseReranker.GetDocumentScores | src/retrievers/bm25_okapi_dense_reranker.py:104-172 | a query's result is the lexical ranking, reranked, then assembled |

## Left out

- BM25 scoring (`get_batch_scores`, IDF and the epsilon floor) belongs to the `rank_bm25` library, which is not part of this model. It is an uninterpreted scoring function of the index, the query tokens and a row. The `tokenizer` (default `None`), `k1`, `b` and `epsilon` constructor arguments, which are passed to that library, are therefore not modelled.
- `tokenize_and_stem` is not part of this model. It is an uninterpreted, deterministic function from text to tokens.
- The neural encoder is an uninterpreted function from one text to one vector. This covers model and tokenizer loading, padding, truncation to 512 tokens, `truncation_side`, device placement, `torch.no_grad`, and the CLS or mean pooling chosen by the model name. The model therefore assumes that a text's embedding does not depend on the other texts of its batch. If the model name contains neither "bert" nor "contriever", the Python code has no embeddings to append; that case is not modelled.
- `cosine_similarity` is an uninterpreted function from two vectors to a `real`. Floating-point numerics are not modelled, and scores are exact reals.
- `np.float64` conversion of scores and the `print` calls are left out. They are serialisation and logging.
- pandas mechanics are left out. The table is a sequence of records. Because the frame is built from a list, index labels equal row positions, so `.loc` and `.iloc` coincide.
- Records.Record: labels are taken to be strings. A record without a label (NaN in the frame) or with a `None` label makes the query raise an AttributeError at `.lower()` once the walk reaches its row; the model cannot represent that failure.
- DenseReranker.RerankTieOrder: the tie order is shown on one example; the general rule (equal similarities come out latest shortlisted first) is not proved.
- `top_k` is a natural number. A negative `top_k` is not modelled.
- Python's `str.lower` is modelled as lower-casing of ASCII letters. The label is only ever compared with the ASCII words "contradiction" and "entailment". The only non-ASCII characters whose lower case holds an ASCII letter are U+212A KELVIN SIGN, which gives "k", a letter neither word contains, and U+0130, which gives "i" followed by a combining mark. Labels therefore route the same way under both definitions.
- DenseReranker.Rerank: NumPy does not specify the order of equal similarities. The model uses the order that a stable ascending argsort gives once reversed: latest shortlisted first, as NumPy's generic argsort gives on short arrays. The permutation, pairing and ordering lemmas hold for every tie order.
- Bm25Okapi.CtrBm25Okapi.constructor: `rank_bm25` fails on an empty corpus; the model builds the index of an empty table without failing.
- DenseReranker.CtrBm25OkapiDenseReranker.constructor: it requires a non-empty table, because embedding no statements fails in `np.concatenate`; that failure is modelled in `DenseForward`.
- DenseReranker.DenseForward: the batch loop runs over the texts rather than over the encoder's padded tensor; the two have the same number of rows.

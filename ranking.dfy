/** Ranking of scoped candidates: every candidate row is paired with its score and
    the pairs are sorted by score, highest first, by a stable sort, so that rows
    with equal scores keep their table order. Both retrievers rank this way. */
module Ranking {
  import opened Records

  /** A ranked entry: a row position of the corpus table and the score it got. */
  datatype Hit = Hit(doc: nat, score: real)

  /** The lexical scoring primitive fitted on the index's token sequences: the
      score of one row for the given query tokens. */
  type Scorer = (seq<seq<Token>>, seq<Token>, nat) -> real

  predicate NonIncreasing(s: seq<Hit>) {
    forall i, j :: 0 <= i < j < |s| ==> s[i].score >= s[j].score
  }

  /** `a` comes before `b`: a higher score, or the same score and an earlier row. */
  predicate Precedes(a: Hit, b: Hit) {
    a.score > b.score || (a.score == b.score && a.doc < b.doc)
  }

  /** Ordered by score, highest first, ties in ascending row order. */
  predicate Ranked(s: seq<Hit>) {
    forall i, j :: 0 <= i < j < |s| ==> Precedes(s[i], s[j])
  }

  predicate DocsIncreasing(s: seq<Hit>) {
    forall i, j :: 0 <= i < j < |s| ==> s[i].doc < s[j].doc
  }

  function Docs(s: seq<Hit>): seq<nat> {
    seq(|s|, i requires 0 <= i < |s| => s[i].doc)
  }

  /** Puts `x` after the entries of `t` that score strictly higher and before all
      the others, so that `x` stays ahead of the entries it ties with. */
  function Insert(x: Hit, t: seq<Hit>): (r: seq<Hit>)
    ensures multiset(r) == multiset(t) + multiset{x}
  {
    if t == [] then [x]
    else if t[0].score > x.score then
      assert t == [t[0]] + t[1..];
      [t[0]] + Insert(x, t[1..])
    else [x] + t
  }

  /** Sorting by score in descending order, stable: each entry is inserted ahead of
      the later entries it ties with. */
  function SortByScore(s: seq<Hit>): (r: seq<Hit>)
    ensures multiset(r) == multiset(s)
  {
    if s == [] then []
    else
      assert s == [s[0]] + s[1..];
      Insert(s[0], SortByScore(s[1..]))
  }

  lemma InsertMember(x: Hit, t: seq<Hit>, e: Hit)
    requires e in Insert(x, t)
    ensures e == x || e in t
  {
  }

  lemma {:induction false} InsertNonIncreasing(x: Hit, t: seq<Hit>)
    requires NonIncreasing(t)
    ensures NonIncreasing(Insert(x, t))
  {
    if t != [] && t[0].score > x.score {
      var rest := Insert(x, t[1..]);
      InsertNonIncreasing(x, t[1..]);
      forall k | 0 <= k < |rest|
        ensures t[0].score >= rest[k].score
      {
        InsertMember(x, t[1..], rest[k]);
      }
    }
  }

  /** The sorted list is ordered by score, highest first. */
  lemma {:induction false} SortNonIncreasing(s: seq<Hit>)
    ensures NonIncreasing(SortByScore(s))
  {
    if s != [] {
      SortNonIncreasing(s[1..]);
      InsertNonIncreasing(s[0], SortByScore(s[1..]));
    }
  }

  lemma {:induction false} InsertRanked(x: Hit, t: seq<Hit>)
    requires Ranked(t)
    requires forall k :: 0 <= k < |t| ==> x.doc < t[k].doc
    ensures Ranked(Insert(x, t))
  {
    if t != [] {
      if t[0].score > x.score {
        var rest := Insert(x, t[1..]);
        InsertRanked(x, t[1..]);
        forall k | 0 <= k < |rest|
          ensures Precedes(t[0], rest[k])
        {
          InsertMember(x, t[1..], rest[k]);
        }
      } else {
        forall k | 0 <= k < |t|
          ensures Precedes(x, t[k])
        {
          if k > 0 { assert Precedes(t[0], t[k]); }
        }
      }
    }
  }

  /** Stability: when the input lists its rows in ascending order, as the scoped
      candidates are, the sorted list breaks score ties by ascending row. */
  lemma {:induction false} SortRanked(s: seq<Hit>)
    requires DocsIncreasing(s)
    ensures Ranked(SortByScore(s))
  {
    if s != [] {
      var rest := SortByScore(s[1..]);
      SortRanked(s[1..]);
      forall k | 0 <= k < |rest|
        ensures s[0].doc < rest[k].doc
      {
        assert rest[k] in multiset(s[1..]);
      }
      InsertRanked(s[0], rest);
    }
  }

  lemma DocsConcat(a: seq<Hit>, b: seq<Hit>)
    ensures Docs(a + b) == Docs(a) + Docs(b)
  {
  }

  lemma {:induction false} InsertDocs(x: Hit, t: seq<Hit>)
    ensures multiset(Docs(Insert(x, t))) == multiset(Docs(t)) + multiset{x.doc}
  {
    assert Docs([x]) == [x.doc];
    if t == [] {
    } else if t[0].score > x.score {
      var rest := Insert(x, t[1..]);
      InsertDocs(x, t[1..]);
      assert Insert(x, t) == [t[0]] + rest;
      assert t == [t[0]] + t[1..];
      assert Docs([t[0]]) == [t[0].doc];
      DocsConcat([t[0]], rest);
      DocsConcat([t[0]], t[1..]);
    } else {
      DocsConcat([x], t);
    }
  }

  /** Sorting only reorders: the same rows come out, each as often as it went in. */
  lemma {:induction false} SortKeepsDocs(s: seq<Hit>)
    ensures multiset(Docs(SortByScore(s))) == multiset(Docs(s))
  {
    if s != [] {
      var rest := SortByScore(s[1..]);
      SortKeepsDocs(s[1..]);
      InsertDocs(s[0], rest);
      DocsCons(s);
      assert multiset(Docs(s)) == multiset{s[0].doc} + multiset(Docs(s[1..]));
    }
  }

  lemma DocsCons(s: seq<Hit>)
    requires s != []
    ensures Docs(s) == [s[0].doc] + Docs(s[1..])
  {
  }

  /** zip(doc_ids, scores): each scoped row with its lexical score. */
  function ScoreHits(ids: seq<nat>, scorer: Scorer, corpus: seq<seq<Token>>, query: seq<Token>): (hs: seq<Hit>)
    ensures Docs(hs) == ids
    ensures forall k :: 0 <= k < |hs| ==> hs[k].score == scorer(corpus, query, hs[k].doc)
  {
    seq(|ids|, k requires 0 <= k < |ids| => Hit(ids[k], scorer(corpus, query, ids[k])))
  }

  /** The lexical ranking of a query: the rows of the query's section and type,
      scored and sorted by score, highest first, stably. */
  function LexicalRanking(records: seq<Record>, section: string, docType: string,
                          scorer: Scorer, corpus: seq<seq<Token>>, query: seq<Token>): (r: seq<Hit>)
    ensures |r| == |ScopedIds(records, section, docType)|
    ensures multiset(r) == multiset(ScoreHits(ScopedIds(records, section, docType), scorer, corpus, query))
  {
    SortByScore(ScoreHits(ScopedIds(records, section, docType), scorer, corpus, query))
  }

  /** The lexical ranking is a permutation of the scoped (row, score) pairs, ordered
      by score with ties in table order; it holds every scoped row and nothing else,
      and each row carries its own score. */
  lemma LexicalRankingSpec(records: seq<Record>, section: string, docType: string,
                           scorer: Scorer, corpus: seq<seq<Token>>, query: seq<Token>)
    ensures var r := LexicalRanking(records, section, docType, scorer, corpus, query);
      && multiset(r) == multiset(ScoreHits(ScopedIds(records, section, docType), scorer, corpus, query))
      && Ranked(r)
      && (forall k :: 0 <= k < |r| ==>
            r[k].doc < |records| && InScope(records[r[k].doc], section, docType)
            && r[k].score == scorer(corpus, query, r[k].doc))
      && (forall j :: 0 <= j < |records| && InScope(records[j], section, docType) ==> j in Docs(r))
  {
    var ids := ScopedIds(records, section, docType);
    var hits := ScoreHits(ids, scorer, corpus, query);
    var r := SortByScore(hits);
    SortRanked(hits);
    forall k | 0 <= k < |r|
      ensures r[k].doc < |records| && InScope(records[r[k].doc], section, docType)
      ensures r[k].score == scorer(corpus, query, r[k].doc)
    {
      assert r[k] in multiset(hits);
      var m :| 0 <= m < |hits| && hits[m] == r[k];
    }
    SortKeepsDocs(hits);
    forall j | 0 <= j < |records| && InScope(records[j], section, docType)
      ensures j in Docs(r)
    {
      var m :| 0 <= m < |ids| && ids[m] == j;
      assert Docs(hits)[m] == j;
      assert j in multiset(Docs(r));
    }
  }
}

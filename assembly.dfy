/** Result assembly shared by both retrievers: a walk over a ranking that skips the
    querying statement, sends each record by its label to the contradiction or the
    entailment bucket, caps each bucket at `topK` and stops once both are full. */
module Assembly {
  import opened Records
  import opened Ranking

  /** One returned example: the record's id and its score at the final stage. */
  datatype Example = Example(id: string, score: real)

  datatype Buckets = Buckets(contradictions: seq<Example>, entailments: seq<Example>)

  /** Every ranked row is a row of the table (or of a table aligned with it). */
  predicate InCorpus<R>(rows: seq<R>, ranked: seq<Hit>) {
    forall k :: 0 <= k < |ranked| ==> ranked[k].doc < |rows|
  }

  /** A ranked entry may enter the bucket of `target`: it is not the querying
      statement and its label routes it there. */
  predicate Qualifies(records: seq<Record>, h: Hit, statementId: string, target: Label)
    requires h.doc < |records|
  {
    records[h.doc].id != statementId && LabelOf(records[h.doc].labels) == target
  }

  /** The ranked entries that may enter the bucket of `target`, in ranked order. */
  function Candidates(records: seq<Record>, ranked: seq<Hit>, statementId: string, target: Label): (c: seq<Hit>)
    requires InCorpus(records, ranked)
    ensures InCorpus(records, c)
  {
    if ranked == [] then []
    else
      var n := |ranked| - 1;
      assert InCorpus(records, ranked[..n]);
      Candidates(records, ranked[..n], statementId, target)
        + (if Qualifies(records, ranked[n], statementId, target) then [ranked[n]] else [])
  }

  function Take<T>(s: seq<T>, k: nat): (r: seq<T>)
    ensures |r| == if |s| <= k then |s| else k
    ensures forall i :: 0 <= i < |r| ==> r[i] == s[i]
  {
    if |s| <= k then s else s[..k]
  }

  /** The greedy fill of one bucket: the first `topK` entries of the ranking that
      may enter it. */
  function Bucket(records: seq<Record>, ranked: seq<Hit>, statementId: string, target: Label, topK: nat): seq<Hit>
    requires InCorpus(records, ranked)
  {
    Take(Candidates(records, ranked, statementId, target), topK)
  }

  function ToExamples(records: seq<Record>, hits: seq<Hit>): seq<Example>
    requires InCorpus(records, hits)
  {
    seq(|hits|, i requires 0 <= i < |hits| => Example(records[hits[i].doc].id, hits[i].score))
  }

  /** The result of a query over the ranking `ranked`, as the full scan defines it. */
  function Assembled(records: seq<Record>, ranked: seq<Hit>, statementId: string, topK: nat): Buckets
    requires InCorpus(records, ranked)
  {
    Buckets(
      ToExamples(records, Bucket(records, ranked, statementId, Contradiction, topK)),
      ToExamples(records, Bucket(records, ranked, statementId, Entailment, topK)))
  }

  predicate ScoresNonIncreasing(es: seq<Example>) {
    forall i, j :: 0 <= i < j < |es| ==> es[i].score >= es[j].score
  }

  /** `e` is the example of a ranked entry whose record carries `target`. */
  predicate Drawn(records: seq<Record>, ranked: seq<Hit>, e: Example, target: Label) {
    exists k :: 0 <= k < |ranked| && ranked[k].doc < |records|
      && records[ranked[k].doc].id == e.id && ranked[k].score == e.score
      && LabelOf(records[ranked[k].doc].labels) == target
  }

  /** Every candidate is an entry of the ranking that qualifies for the bucket. */
  lemma {:induction false} CandidatesSound(records: seq<Record>, ranked: seq<Hit>, statementId: string, target: Label)
    requires InCorpus(records, ranked)
    ensures forall h :: h in Candidates(records, ranked, statementId, target) ==>
      h in ranked && h.doc < |records| && Qualifies(records, h, statementId, target)
  {
    if ranked != [] {
      var n := |ranked| - 1;
      CandidatesSound(records, ranked[..n], statementId, target);
    }
  }

  lemma CandidatesSnoc(records: seq<Record>, s: seq<Hit>, h: Hit, statementId: string, target: Label)
    requires InCorpus(records, s + [h])
    ensures InCorpus(records, s) && h.doc < |records|
    ensures Candidates(records, s + [h], statementId, target)
         == Candidates(records, s, statementId, target)
            + (if Qualifies(records, h, statementId, target) then [h] else [])
  {
    assert (s + [h])[..|s|] == s;
    assert (s + [h])[|s|] == h;
  }

  lemma {:induction false} CandidatesConcat(records: seq<Record>, a: seq<Hit>, b: seq<Hit>,
                                            statementId: string, target: Label)
    requires InCorpus(records, a + b)
    ensures InCorpus(records, a) && InCorpus(records, b)
    ensures Candidates(records, a + b, statementId, target)
         == Candidates(records, a, statementId, target) + Candidates(records, b, statementId, target)
  {
    if b == [] {
      assert a + b == a;
    } else {
      var n := |b| - 1;
      var init := b[..n];
      assert b == init + [b[n]];
      assert a + b == (a + init) + [b[n]];
      CandidatesSnoc(records, a + init, b[n], statementId, target);
      CandidatesConcat(records, a, init, statementId, target);
      CandidatesSnoc(records, init, b[n], statementId, target);
    }
  }

  /** Every qualifying entry of the ranking is a candidate. */
  lemma {:induction false} CandidatesComplete(records: seq<Record>, ranked: seq<Hit>, statementId: string, target: Label)
    requires InCorpus(records, ranked)
    ensures forall k :: 0 <= k < |ranked| && Qualifies(records, ranked[k], statementId, target) ==>
      ranked[k] in Candidates(records, ranked, statementId, target)
  {
    if ranked != [] {
      var n := |ranked| - 1;
      CandidatesComplete(records, ranked[..n], statementId, target);
      forall k | 0 <= k < n && Qualifies(records, ranked[k], statementId, target)
        ensures ranked[k] in Candidates(records, ranked, statementId, target)
      {
        assert ranked[..n][k] == ranked[k];
      }
    }
  }

  predicate ScoreAtLeast(a: Hit, b: Hit) {
    a.score >= b.score
  }

  predicate Pairwise(s: seq<Hit>, before: (Hit, Hit) -> bool) {
    forall i, j :: 0 <= i < j < |s| ==> before(s[i], s[j])
  }

  /** Candidates keep the ranking's relative order, so any relation that holds
      between earlier and later entries of the ranking holds between candidates. */
  lemma {:induction false} CandidatesPairwise(records: seq<Record>, ranked: seq<Hit>, statementId: string,
                                              target: Label, before: (Hit, Hit) -> bool)
    requires InCorpus(records, ranked)
    requires Pairwise(ranked, before)
    ensures Pairwise(Candidates(records, ranked, statementId, target), before)
  {
    if ranked != [] {
      var n := |ranked| - 1;
      var init := ranked[..n];
      var ci := Candidates(records, init, statementId, target);
      var c := Candidates(records, ranked, statementId, target);
      assert forall i :: 0 <= i < n ==> init[i] == ranked[i];
      CandidatesPairwise(records, init, statementId, target, before);
      CandidatesSound(records, init, statementId, target);
      if Qualifies(records, ranked[n], statementId, target) {
        assert c == ci + [ranked[n]];
        forall i, j | 0 <= i < j < |c|
          ensures before(c[i], c[j])
        {
          if j < |ci| {
            assert c[i] == ci[i] && c[j] == ci[j];
          } else {
            assert c[i] == ci[i] && c[j] == ranked[n];
            var m :| 0 <= m < n && init[m] == ci[i];
            assert before(ranked[m], ranked[n]);
          }
        }
      } else {
        assert c == ci;
      }
    }
  }

  /** What one bucket holds: at most `topK` entries, each one an entry of the
      ranking that qualifies for it, in ranked order; and when it holds fewer than
      `topK`, no qualifying entry of the ranking was left out. */
  lemma BucketSpec(records: seq<Record>, ranked: seq<Hit>, statementId: string, target: Label, topK: nat)
    requires InCorpus(records, ranked)
    ensures var hs := Bucket(records, ranked, statementId, target, topK);
      && |hs| <= topK
      && (forall k :: 0 <= k < |hs| ==>
            hs[k] in ranked && hs[k].doc < |records| && Qualifies(records, hs[k], statementId, target))
      && (|hs| < topK ==> forall k :: 0 <= k < |ranked| && Qualifies(records, ranked[k], statementId, target) ==>
            ranked[k] in hs)
      && (NonIncreasing(ranked) ==> NonIncreasing(hs))
      && (Ranked(ranked) ==> Ranked(hs))
  {
    var c := Candidates(records, ranked, statementId, target);
    var hs := Bucket(records, ranked, statementId, target, topK);
    CandidatesComplete(records, ranked, statementId, target);
    CandidatesSound(records, ranked, statementId, target);
    if NonIncreasing(ranked) {
      CandidatesPairwise(records, ranked, statementId, target, ScoreAtLeast);
      forall i, j | 0 <= i < j < |hs| ensures hs[i].score >= hs[j].score {
        assert ScoreAtLeast(c[i], c[j]);
      }
    }
    if Ranked(ranked) {
      CandidatesPairwise(records, ranked, statementId, target, Precedes);
      forall i, j | 0 <= i < j < |hs| ensures Precedes(hs[i], hs[j]) {
        assert Precedes(c[i], c[j]);
      }
    }
  }

  /** The assembled result: each bucket has at most `topK` examples, none of them
      the querying statement, each the example of a ranked record carrying the
      bucket's label; and when the ranking is ordered by score, so is each bucket. */
  lemma AssembledSpec(records: seq<Record>, ranked: seq<Hit>, statementId: string, topK: nat)
    requires InCorpus(records, ranked)
    ensures var b := Assembled(records, ranked, statementId, topK);
      && |b.contradictions| <= topK && |b.entailments| <= topK
      && (forall k :: 0 <= k < |b.contradictions| ==>
            b.contradictions[k].id != statementId && Drawn(records, ranked, b.contradictions[k], Contradiction))
      && (forall k :: 0 <= k < |b.entailments| ==>
            b.entailments[k].id != statementId && Drawn(records, ranked, b.entailments[k], Entailment))
      && (NonIncreasing(ranked) ==>
            ScoresNonIncreasing(b.contradictions) && ScoresNonIncreasing(b.entailments))
  {
    BucketExamples(records, ranked, statementId, Contradiction, topK);
    BucketExamples(records, ranked, statementId, Entailment, topK);
  }

  lemma BucketExamples(records: seq<Record>, ranked: seq<Hit>, statementId: string, target: Label, topK: nat)
    requires InCorpus(records, ranked)
    ensures var es := ToExamples(records, Bucket(records, ranked, statementId, target, topK));
      && |es| <= topK
      && (forall k :: 0 <= k < |es| ==> es[k].id != statementId && Drawn(records, ranked, es[k], target))
      && (NonIncreasing(ranked) ==> ScoresNonIncreasing(es))
  {
    var hs := Bucket(records, ranked, statementId, target, topK);
    var es := ToExamples(records, hs);
    BucketSpec(records, ranked, statementId, target, topK);
    forall k | 0 <= k < |es|
      ensures es[k].id != statementId && Drawn(records, ranked, es[k], target)
    {
      var m :| 0 <= m < |ranked| && ranked[m] == hs[k];
    }
  }

  /** One step of the walk: the bucket over a longer prefix gains the next entry
      exactly when the entry qualifies and the bucket is not yet full. */
  lemma BucketStep(records: seq<Record>, ranked: seq<Hit>, i: nat, statementId: string, target: Label, topK: nat)
    requires i < |ranked| && InCorpus(records, ranked)
    ensures InCorpus(records, ranked[..i]) && InCorpus(records, ranked[..i + 1])
    ensures var before := Bucket(records, ranked[..i], statementId, target, topK);
      Bucket(records, ranked[..i + 1], statementId, target, topK)
        == if |before| < topK && Qualifies(records, ranked[i], statementId, target)
           then before + [ranked[i]] else before
  {
    assert ranked[..i + 1] == ranked[..i] + [ranked[i]];
    CandidatesSnoc(records, ranked[..i], ranked[i], statementId, target);
  }

  /** Once a bucket is full, the rest of the ranking cannot change it. */
  lemma BucketSettled(records: seq<Record>, ranked: seq<Hit>, i: nat, statementId: string, target: Label, topK: nat)
    requires i <= |ranked| && InCorpus(records, ranked)
    requires |Bucket(records, ranked[..i], statementId, target, topK)| >= topK
    ensures Bucket(records, ranked, statementId, target, topK) == Bucket(records, ranked[..i], statementId, target, topK)
  {
    assert ranked == ranked[..i] + ranked[i..];
    CandidatesConcat(records, ranked[..i], ranked[i..], statementId, target);
    var c := Candidates(records, ranked[..i], statementId, target);
    var d := Candidates(records, ranked[i..], statementId, target);
    assert (c + d)[..topK] == c[..topK];
  }

  /** One step of the walk for both buckets, in the terms the walk tests. */
  lemma WalkStep(records: seq<Record>, ranked: seq<Hit>, i: nat, statementId: string, topK: nat)
    requires i < |ranked| && InCorpus(records, ranked)
    ensures InCorpus(records, ranked[..i]) && InCorpus(records, ranked[..i + 1])
    ensures var doc := records[ranked[i].doc];
      var cs := Bucket(records, ranked[..i], statementId, Contradiction, topK);
      var es := Bucket(records, ranked[..i], statementId, Entailment, topK);
      && Bucket(records, ranked[..i + 1], statementId, Contradiction, topK)
         == (if doc.id != statementId && Lower(doc.labels) == "contradiction" && |cs| < topK
             then cs + [ranked[i]] else cs)
      && Bucket(records, ranked[..i + 1], statementId, Entailment, topK)
         == (if doc.id != statementId && Lower(doc.labels) != "contradiction"
                && Lower(doc.labels) == "entailment" && |es| < topK
             then es + [ranked[i]] else es)
  {
    BucketStep(records, ranked, i, statementId, Contradiction, topK);
    BucketStep(records, ranked, i, statementId, Entailment, topK);
  }

  lemma ToExamplesSnoc(records: seq<Record>, hs: seq<Hit>, h: Hit)
    requires InCorpus(records, hs + [h])
    ensures InCorpus(records, hs) && h.doc < |records|
    ensures ToExamples(records, hs + [h]) == ToExamples(records, hs) + [Example(records[h.doc].id, h.score)]
  {
    assert forall k :: 0 <= k < |hs| ==> (hs + [h])[k] == hs[k];
    assert (hs + [h])[|hs|] == h;
  }

  /** The walk over the ranking, with its `continue` and early `break`. It returns
      the first `topK` qualifying entries for each label, exactly as a walk over the
      whole ranking would: stopping once both buckets are full changes nothing. */
  method AssembleBuckets(records: seq<Record>, ranked: seq<Hit>, statementId: string, topK: nat)
    returns (b: Buckets)
    requires InCorpus(records, ranked)
    ensures b == Assembled(records, ranked, statementId, topK)
  {
    var contradictions: seq<Example> := [];
    var entailments: seq<Example> := [];
    ghost var cHits: seq<Hit> := [];
    ghost var eHits: seq<Hit> := [];
    for i := 0 to |ranked|
      invariant InCorpus(records, ranked[..i])
      invariant cHits == Bucket(records, ranked[..i], statementId, Contradiction, topK)
      invariant eHits == Bucket(records, ranked[..i], statementId, Entailment, topK)
      invariant InCorpus(records, cHits) && contradictions == ToExamples(records, cHits)
      invariant InCorpus(records, eHits) && entailments == ToExamples(records, eHits)
      invariant |contradictions| == |cHits| && |entailments| == |eHits|
    {
      WalkStep(records, ranked, i, statementId, topK);
      var doc := records[ranked[i].doc];
      var score := ranked[i].score;
      if statementId == doc.id {
        continue;
      } else {
        if Lower(doc.labels) == "contradiction" {
          if |contradictions| >= topK {
            continue;
          }
          ToExamplesSnoc(records, cHits, ranked[i]);
          contradictions := contradictions + [Example(doc.id, score)];
          cHits := cHits + [ranked[i]];
        } else if Lower(doc.labels) == "entailment" {
          if |entailments| >= topK {
            continue;
          }
          ToExamplesSnoc(records, eHits, ranked[i]);
          entailments := entailments + [Example(doc.id, score)];
          eHits := eHits + [ranked[i]];
        }
      }
      if |contradictions| >= topK && |entailments| >= topK {
        BucketSettled(records, ranked, i + 1, statementId, Contradiction, topK);
        BucketSettled(records, ranked, i + 1, statementId, Entailment, topK);
        break;
      }
    }
    assert ranked[..|ranked|] == ranked;
    b := Buckets(contradictions, entailments);
  }
}

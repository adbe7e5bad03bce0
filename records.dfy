/** The corpus table shared by both retrievers: one record per evidence/statement
    pair, the case-insensitive routing of its label, the (section, type) scope of a
    query, and the per-record token sequences the lexical index is built from. */
module Records {

  type Token = string

  /** One row of the corpus table. `docType` is the table's `type` column. */
  datatype Record = Record(
    id: string,
    evidence: string,
    statement: string,
    section: string,
    docType: string,
    labels: string)

  /** Where a record's label sends it during result assembly. */
  datatype Label = Contradiction | Entailment | Other

  function LowerChar(c: char): char {
    if 'A' <= c <= 'Z' then (c as int + 32) as char else c
  }

  /** Lower-casing of a label, on the ASCII letters. */
  function Lower(s: string): string {
    seq(|s|, i requires 0 <= i < |s| => LowerChar(s[i]))
  }

  /** The bucket a label routes to: contradictions exactly for a label whose lower
      case is "contradiction", entailments exactly for "entailment". */
  function LabelOf(labels: string): (l: Label)
    ensures l == Contradiction <==> Lower(labels) == "contradiction"
    ensures l == Entailment <==> Lower(labels) == "entailment"
  {
    if Lower(labels) == "contradiction" then Contradiction
    else if Lower(labels) == "entailment" then Entailment
    else Other
  }

  /** Routing ignores case: a label and its lower-case form go to the same bucket. */
  lemma LabelOfIgnoresCase(labels: string)
    ensures LabelOf(labels) == LabelOf(Lower(labels))
  {
  }

  /** Any capitalisation of the two label words reaches its bucket; other labels
      reach none. */
  lemma LabelOfExamples()
    ensures LabelOf("Contradiction") == Contradiction && LabelOf("CONTRADICTION") == Contradiction
    ensures LabelOf("Entailment") == Entailment && LabelOf("ENTAILMENT") == Entailment
    ensures LabelOf("neutral") == Other
  {
  }

  predicate InScope(r: Record, section: string, docType: string) {
    r.section == section && r.docType == docType
  }

  predicate StrictlyIncreasing(ids: seq<nat>) {
    forall i, j :: 0 <= i < j < |ids| ==> ids[i] < ids[j]
  }

  /** The row positions of the records whose section and type are the query's, in
      table order: the index of the scope-filtered table. */
  function ScopedIds(records: seq<Record>, section: string, docType: string): (ids: seq<nat>)
    ensures forall k :: 0 <= k < |ids| ==> ids[k] < |records| && InScope(records[ids[k]], section, docType)
    ensures forall j :: 0 <= j < |records| && InScope(records[j], section, docType) ==> j in ids
    ensures StrictlyIncreasing(ids)
  {
    if records == [] then []
    else
      var n := |records| - 1;
      var init := ScopedIds(records[..n], section, docType);
      assert forall j :: 0 <= j < n ==> records[..n][j] == records[j];
      if InScope(records[n], section, docType) then init + [n] else init
  }

  /** When no record has the query's section and type, the scope is empty. */
  lemma {:induction false} ScopedIdsEmpty(records: seq<Record>, section: string, docType: string)
    requires forall j :: 0 <= j < |records| ==> !InScope(records[j], section, docType)
    ensures ScopedIds(records, section, docType) == []
  {
    if records != [] {
      ScopedIdsEmpty(records[..|records| - 1], section, docType);
    }
  }

  /** The document token sequences of the lexical index: one per record, in table
      order, each the tokens of the evidence followed by those of the statement. */
  method BuildCorpus(records: seq<Record>, tokenize: string -> seq<Token>) returns (corpus: seq<seq<Token>>)
    ensures |corpus| == |records|
    ensures forall i :: 0 <= i < |records| ==>
      corpus[i] == tokenize(records[i].evidence) + tokenize(records[i].statement)
  {
    corpus := [];
    for i := 0 to |records|
      invariant |corpus| == i
      invariant forall j :: 0 <= j < i ==>
        corpus[j] == tokenize(records[j].evidence) + tokenize(records[j].statement)
    {
      var processedEvidence := tokenize(records[i].evidence);
      var processedStatement := tokenize(records[i].statement);
      corpus := corpus + [processedEvidence + processedStatement];
    }
  }
}

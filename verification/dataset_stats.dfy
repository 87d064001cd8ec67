/** Dataset statistics for a split: the number of examples, the mean
    tokenized length of the NL questions and of the SQL queries, and the
    vocabulary size of each side (distinct token ids). The NL side is
    optionally prefixed first; the SQL side never is. */
module DatasetStats {
  import opened Common
  import LoadData

  /** A tokenizer call reduced to what the statistics read: text to ids. */
  type Encoder = string -> seq<int>

  /** The NL text that is tokenized, with or without the task prefix. */
  function Prepared(query: string, addPrefix: bool): string
  {
    if addPrefix then LoadData.PreprocessNlQuery(query) else query
  }

  function PreparedAll(queries: seq<string>, addPrefix: bool): (r: seq<string>)
    ensures |r| == |queries|
    ensures forall i :: 0 <= i < |queries| ==> r[i] == Prepared(queries[i], addPrefix)
  {
    seq(|queries|, i requires 0 <= i < |queries| => Prepared(queries[i], addPrefix))
  }

  /** The list of token counts, built one query at a time. */
  function TokenLengths(encode: Encoder, queries: seq<string>): seq<nat>
  {
    if |queries| == 0 then []
    else TokenLengths(encode, queries[..|queries| - 1]) + [|encode(queries[|queries| - 1])|]
  }

  /** The set of token ids, grown one query at a time. */
  function Vocabulary(encode: Encoder, queries: seq<string>): set<int>
  {
    if |queries| == 0 then {}
    else Vocabulary(encode, queries[..|queries| - 1]) + TokenSet(encode(queries[|queries| - 1]))
  }

  /** `set(tokens)`. */
  function TokenSet(tokens: seq<int>): set<int>
  {
    set t | t in tokens
  }

  function Sum(xs: seq<nat>): nat
  {
    if |xs| == 0 then 0 else Sum(xs[..|xs| - 1]) + xs[|xs| - 1]
  }

  /** `sum(lengths) / len(lengths) if lengths else 0`, kept exact. */
  function Mean(xs: seq<nat>): (m: Ratio)
    ensures |xs| == 0 ==> m == Ratio(0, 1)
    ensures |xs| > 0 ==> m.num == Sum(xs) && m.den == |xs|
  {
    if |xs| == 0 then Ratio(0, 1) else Ratio(Sum(xs), |xs|)
  }

  datatype Stats = Stats(numExamples: nat, meanNlLength: Ratio, meanSqlLength: Ratio,
                         nlVocabSize: nat, sqlVocabSize: nat)

  /** The statistics `compute_stats` returns. */
  function StatsOf(nl: seq<string>, sql: seq<string>, encode: Encoder, addPrefix: bool): Stats
  {
    var nlQueries := PreparedAll(nl, addPrefix);
    Stats(|nl|,
          Mean(TokenLengths(encode, nlQueries)), Mean(TokenLengths(encode, sql)),
          |Vocabulary(encode, nlQueries)|, |Vocabulary(encode, sql)|)
  }

  /** `compute_stats`: the two loops over the NL and the SQL queries. */
  method ComputeStats(nl: seq<string>, sql: seq<string>, encode: Encoder, addPrefix: bool) returns (s: Stats)
    ensures s == StatsOf(nl, sql, encode, addPrefix)
  {
    var nlLengths, nlVocab := TokenizeAll(nl, encode, addPrefix);
    var sqlLengths, sqlVocab := TokenizeAll(sql, encode, false);
    assert PreparedAll(sql, false) == sql;
    var nlTotal := SumOf(nlLengths);
    var sqlTotal := SumOf(sqlLengths);
    var meanNl := if |nlLengths| > 0 then Ratio(nlTotal, |nlLengths|) else Ratio(0, 1);
    var meanSql := if |sqlLengths| > 0 then Ratio(sqlTotal, |sqlLengths|) else Ratio(0, 1);
    s := Stats(|nl|, meanNl, meanSql, |nlVocab|, |sqlVocab|);
  }

  /** One of the two loops: append each token count, add each token id. */
  method TokenizeAll(queries: seq<string>, encode: Encoder, addPrefix: bool) returns (lengths: seq<nat>, vocab: set<int>)
    ensures lengths == TokenLengths(encode, PreparedAll(queries, addPrefix))
    ensures vocab == Vocabulary(encode, PreparedAll(queries, addPrefix))
  {
    ghost var prepared := PreparedAll(queries, addPrefix);
    lengths, vocab := [], {};
    var i := 0;
    while i < |queries|
      invariant 0 <= i <= |queries|
      invariant lengths == TokenLengths(encode, prepared[..i])
      invariant vocab == Vocabulary(encode, prepared[..i])
    {
      var q := queries[i];
      if addPrefix {
        q := LoadData.PreprocessNlQuery(q);
      }
      var tokens := encode(q);
      assert prepared[..i + 1][..i] == prepared[..i];
      lengths := lengths + [|tokens|];
      vocab := vocab + TokenSet(tokens);
      i := i + 1;
    }
    assert prepared[..|queries|] == prepared;
  }

  /** `sum(xs)` with a loop. */
  method SumOf(xs: seq<nat>) returns (total: nat)
    ensures total == Sum(xs)
  {
    total := 0;
    var i := 0;
    while i < |xs|
      invariant 0 <= i <= |xs|
      invariant total == Sum(xs[..i])
    {
      assert xs[..i + 1][..i] == xs[..i];
      total := total + xs[i];
      i := i + 1;
    }
    assert xs[..|xs|] == xs;
  }

  // ---------------------------------------------------------------------
  // What the statistics mean
  // ---------------------------------------------------------------------

  /** One length per query, in order, each the query's token count. */
  lemma {:induction false} TokenLengthsAt(encode: Encoder, queries: seq<string>)
    ensures |TokenLengths(encode, queries)| == |queries|
    ensures forall i :: 0 <= i < |queries| ==> TokenLengths(encode, queries)[i] == |encode(queries[i])|
  {
    if |queries| > 0 {
      TokenLengthsAt(encode, queries[..|queries| - 1]);
    }
  }

  /** A token id is in the vocabulary exactly when some query's tokens hold it. */
  lemma {:induction false} VocabularyMembers(encode: Encoder, queries: seq<string>, t: int)
    ensures t in Vocabulary(encode, queries) <==> exists i :: 0 <= i < |queries| && t in encode(queries[i])
  {
    if |queries| > 0 {
      var init := queries[..|queries| - 1];
      VocabularyMembers(encode, init, t);
      if t in Vocabulary(encode, init) {
        var i :| 0 <= i < |init| && t in encode(init[i]);
        assert queries[i] == init[i];
      }
      if exists i :: 0 <= i < |queries| && t in encode(queries[i]) {
        var i :| 0 <= i < |queries| && t in encode(queries[i]);
        if i < |init| {
          assert init[i] == queries[i];
        }
      }
    }
  }

  lemma {:induction false} SetOfSeqBound(xs: seq<int>)
    ensures |TokenSet(xs)| <= |xs|
  {
    if |xs| > 0 {
      var init := xs[..|xs| - 1];
      SetOfSeqBound(init);
      assert TokenSet(xs) == TokenSet(init) + {xs[|xs| - 1]};
    }
  }

  /** There are never more distinct token ids than tokens. */
  lemma {:induction false} VocabularyBound(encode: Encoder, queries: seq<string>)
    ensures |Vocabulary(encode, queries)| <= Sum(TokenLengths(encode, queries))
  {
    if |queries| > 0 {
      var init := queries[..|queries| - 1];
      var last := encode(queries[|queries| - 1]);
      VocabularyBound(encode, init);
      SetOfSeqBound(last);
      var lengths := TokenLengths(encode, queries);
      assert lengths[..|lengths| - 1] == TokenLengths(encode, init);
    }
  }

  /** The mean times the count is the total number of tokens. */
  lemma MeanTimesCount(encode: Encoder, queries: seq<string>)
    requires |queries| > 0
    ensures Mean(TokenLengths(encode, queries)).den == |queries|
    ensures Mean(TokenLengths(encode, queries)).num == Sum(TokenLengths(encode, queries))
  {
    TokenLengthsAt(encode, queries);
  }

  /** The prefix changes only the NL statistics: the example count and the
      SQL statistics are the same with and without it. */
  lemma PrefixOnlyChangesNl(nl: seq<string>, sql: seq<string>, encode: Encoder)
    ensures StatsOf(nl, sql, encode, true).numExamples == StatsOf(nl, sql, encode, false).numExamples == |nl|
    ensures StatsOf(nl, sql, encode, true).meanSqlLength == StatsOf(nl, sql, encode, false).meanSqlLength
    ensures StatsOf(nl, sql, encode, true).sqlVocabSize == StatsOf(nl, sql, encode, false).sqlVocabSize
    ensures StatsOf(nl, sql, encode, false).nlVocabSize == |Vocabulary(encode, nl)|
  {
    assert PreparedAll(nl, false) == nl;
  }
}

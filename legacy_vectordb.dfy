// The first CheeUVectorDB (cheeu_vectordb.py): no cache, and a priority
// search that fuses raw store distances instead of similarities, divides the
// sub weight by the number of sub-queries including blank ones, and lets any
// failing sub-query search abandon the fusion.

module LegacyVectorDb {
  import opened Common
  import opened Fusion
  import VectorDb

  /** A fused candidate of the first version: it has no separate sub score. */
  datatype LegacyEntry = LegacyEntry(doc: Doc, score: real, mainScore: real)

  function LegacyEntryDoc(e: LegacyEntry): Doc { e.doc }
  function LegacyEntryScore(e: LegacyEntry): real { e.score }

  /** search_basic: the store's documents, or `[]` when it raises. */
  function LegacySearchBasic(store: Store, query: string, k: int): (docs: seq<Doc>)
    ensures store(query, k).Raised? ==> docs == []
    ensures store(query, k).Results? ==> |docs| == |store(query, k).hits|
    ensures store(query, k).Results? ==> forall i :: 0 <= i < |docs| ==> docs[i] == store(query, k).hits[i].doc
  {
    match store(query, k)
    case Raised => []
    case Results(hits) => DocsOf(hits)
  }

  /** The entry a main hit writes: the raw distance times the main weight. */
  function LegacyMainEntry(h: Hit, mainWeight: real): LegacyEntry
  {
    LegacyEntry(h.doc, h.distance * mainWeight, h.distance)
  }

  function LegacyMainPass(hits: seq<Hit>, mainWeight: real): (t: Table<LegacyEntry>)
    ensures WellFormed(t) && KeysMatch(t, LegacyEntryDoc)
  {
    if hits == [] then Table([], map[])
    else
      var h := hits[|hits| - 1];
      Put(LegacyMainPass(hits[..|hits| - 1], mainWeight), DocKey(h.doc), LegacyMainEntry(h, mainWeight))
  }

  /** What a sub hit adds: its raw distance times the per-query weight. */
  function LegacyGain(h: Hit, weight: real): real
  {
    h.distance * weight
  }

  /** A sub hit adds `distance * weight` to an existing entry, or creates one whose main score is 1.0. */
  function LegacySubStep(t: Table<LegacyEntry>, h: Hit, weight: real): Table<LegacyEntry>
  {
    var p := DocKey(h.doc);
    if p in t.entries then Put(t, p, t.entries[p].(score := t.entries[p].score + LegacyGain(h, weight)))
    else Put(t, p, LegacyEntry(h.doc, LegacyGain(h, weight), 1.0))
  }

  function LegacySubPass(t: Table<LegacyEntry>, hits: seq<Hit>, weight: real): Table<LegacyEntry>
  {
    if hits == [] then t else LegacySubStep(LegacySubPass(t, hits[..|hits| - 1], weight), hits[|hits| - 1], weight)
  }

  /** A sub-hit step keeps the dict well formed, every value under its own document's key. */
  lemma LegacySubStepKeepsWellFormed(t: Table<LegacyEntry>, h: Hit, weight: real)
    requires WellFormed(t) && KeysMatch(t, LegacyEntryDoc)
    ensures WellFormed(LegacySubStep(t, h, weight)) && KeysMatch(LegacySubStep(t, h, weight), LegacyEntryDoc)
  {
  }

  lemma {:induction false} LegacySubPassKeepsWellFormed(t: Table<LegacyEntry>, hits: seq<Hit>, weight: real)
    requires WellFormed(t) && KeysMatch(t, LegacyEntryDoc)
    ensures WellFormed(LegacySubPass(t, hits, weight)) && KeysMatch(LegacySubPass(t, hits, weight), LegacyEntryDoc)
  {
    if hits != [] {
      var prefix := hits[..|hits| - 1];
      LegacySubPassKeepsWellFormed(t, prefix, weight);
      LegacySubStepKeepsWellFormed(LegacySubPass(t, prefix, weight), hits[|hits| - 1], weight);
    }
  }

  /** The sub pass over one more hit is one more step. */
  lemma LegacySubPassSnoc(t: Table<LegacyEntry>, hits: seq<Hit>, weight: real, j: int)
    requires 0 <= j < |hits|
    ensures LegacySubPass(t, hits[..j + 1], weight) == LegacySubStep(LegacySubPass(t, hits[..j], weight), hits[j], weight)
  {
    assert hits[..j + 1][..j] == hits[..j];
  }

  /** Whether the sub-query loop raises at sub-query `q`: a `None` entry, or a non-blank one whose search raises. */
  predicate RaisesAt(store: Store, q: Option<string>, n: int)
  {
    q.None? || (!IsBlank(q.value) && store(q.value, n).Raised?)
  }

  /** The sub-query loop: the hits of the non-blank sub-queries in order, or `None` as soon as one raises. */
  function LegacyGather(store: Store, qs: seq<Option<string>>, n: int): (r: Option<seq<Hit>>)
    ensures r.None? <==> exists i :: 0 <= i < |qs| && RaisesAt(store, qs[i], n)
  {
    if qs == [] then Some([])
    else
      var rest := LegacyGather(store, qs[..|qs| - 1], n);
      var q := qs[|qs| - 1];
      assert forall i :: 0 <= i < |qs| - 1 ==> qs[..|qs| - 1][i] == qs[i];
      if rest.None? || q.None? then None
      else if IsBlank(q.value) then rest
      else
        match store(q.value, n)
        case Raised => None
        case Results(hits) => Some(rest.value + hits)
  }

  /** `sub_weight / len(sub_queries)`; only ever evaluated for a sub hit, hence with at least one sub-query. */
  function LegacyWeight(subWeight: real, subQueries: seq<Option<string>>): real
  {
    if |subQueries| > 0 then subWeight / |subQueries| as real else 0.0
  }

  function LegacyFusedTable(mainHits: seq<Hit>, subHits: seq<Hit>, mainWeight: real, weight: real): (t: Table<LegacyEntry>)
    ensures WellFormed(t) && KeysMatch(t, LegacyEntryDoc)
  {
    LegacySubPassKeepsWellFormed(LegacyMainPass(mainHits, mainWeight), subHits, weight);
    LegacySubPass(LegacyMainPass(mainHits, mainWeight), subHits, weight)
  }

  /** The try block of search_with_priority_weighting; `None` when anything in it raises. */
  function LegacyFusion(store: Store, mainQuery: string, subQueries: seq<Option<string>>,
                        mainWeight: real, subWeight: real, k: int): Option<seq<Doc>>
  {
    match store(mainQuery, k * 2)
    case Raised => None
    case Results(mainHits) =>
      match LegacyGather(store, subQueries, k)
      case None => None
      case Some(subHits) =>
        Some(RankedDocs(LegacyFusedTable(mainHits, subHits, mainWeight, LegacyWeight(subWeight, subQueries)),
                        LegacyEntryDoc, LegacyEntryScore, k))
  }

  /** search_with_priority_weighting: the fusion, or search_basic on the main query when it raised. */
  function LegacyPrioritySearch(store: Store, mainQuery: string, subQueries: seq<Option<string>>,
                                mainWeight: real, subWeight: real, k: int): seq<Doc>
  {
    match LegacyFusion(store, mainQuery, subQueries, mainWeight, subWeight, k)
    case Some(docs) => docs
    case None => LegacySearchBasic(store, mainQuery, k)
  }

  method LegacyCollectSubHits(store: Store, subQueries: seq<Option<string>>, n: int) returns (r: Option<seq<Hit>>)
    ensures r == LegacyGather(store, subQueries, n)
  {
    var hits: seq<Hit> := [];
    var i := 0;
    while i < |subQueries|
      invariant 0 <= i <= |subQueries|
      invariant LegacyGather(store, subQueries[..i], n) == Some(hits)
    {
      assert subQueries[..i + 1][..i] == subQueries[..i];
      var q := subQueries[i];
      if q.None? {
        return None;
      }
      if !IsBlank(q.value) {
        var outcome := store(q.value, n);
        if outcome.Raised? {
          return None;
        }
        hits := hits + outcome.hits;
      }
      i := i + 1;
    }
    assert subQueries[..i] == subQueries;
    r := Some(hits);
  }

  method LegacyScoreMainHits(mainHits: seq<Hit>, mainWeight: real) returns (table: Table<LegacyEntry>)
    ensures table == LegacyMainPass(mainHits, mainWeight)
  {
    table := Table([], map[]);
    var j := 0;
    while j < |mainHits|
      invariant 0 <= j <= |mainHits|
      invariant table == LegacyMainPass(mainHits[..j], mainWeight)
    {
      var h := mainHits[j];
      table := Put(table, DocKey(h.doc), LegacyMainEntry(h, mainWeight));
      assert mainHits[..j + 1][..j] == mainHits[..j];
      j := j + 1;
    }
    assert mainHits[..j] == mainHits;
  }

  method LegacyAddSubHits(start: Table<LegacyEntry>, subHits: seq<Hit>, weight: real) returns (table: Table<LegacyEntry>)
    ensures table == LegacySubPass(start, subHits, weight)
  {
    table := start;
    var j := 0;
    while j < |subHits|
      invariant 0 <= j <= |subHits|
      invariant table == LegacySubPass(start, subHits[..j], weight)
    {
      LegacySubPassSnoc(start, subHits, weight, j);
      var h := subHits[j];
      var p := DocKey(h.doc);
      if p in table.entries {
        table := Put(table, p, table.entries[p].(score := table.entries[p].score + LegacyGain(h, weight)));
      } else {
        table := Put(table, p, LegacyEntry(h.doc, LegacyGain(h, weight), 1.0));
      }
      j := j + 1;
    }
    assert subHits[..j] == subHits;
  }

  /** search_with_priority_weighting of the first version, loop by loop, with its fallback. */
  method LegacySearchWithPriorityWeighting(store: Store, mainQuery: string, subQueries: seq<Option<string>>,
                                           mainWeight: real, subWeight: real, k: int) returns (docs: seq<Doc>)
    ensures docs == LegacyPrioritySearch(store, mainQuery, subQueries, mainWeight, subWeight, k)
  {
    var mainOutcome := store(mainQuery, k * 2);
    if mainOutcome.Raised? {
      return LegacySearchBasic(store, mainQuery, k);
    }
    var subHits := LegacyCollectSubHits(store, subQueries, k);
    if subHits.None? {
      return LegacySearchBasic(store, mainQuery, k);
    }
    var table := LegacyScoreMainHits(mainOutcome.hits, mainWeight);
    table := LegacyAddSubHits(table, subHits.value, LegacyWeight(subWeight, subQueries));
    assert table == LegacyFusedTable(mainOutcome.hits, subHits.value, mainWeight, LegacyWeight(subWeight, subQueries));
    docs := RankedDocs(table, LegacyEntryDoc, LegacyEntryScore, k);
  }

  /** After the main loop a key holds the last main hit with that key; a sub-only key has main score 1.0. */
  lemma {:induction false} LegacyMainPassEntries(hits: seq<Hit>, mainWeight: real, p: string)
    ensures p in LegacyMainPass(hits, mainWeight).entries <==> VectorDb.LastHit(hits, p).Some?
    ensures p in LegacyMainPass(hits, mainWeight).entries ==>
      LegacyMainPass(hits, mainWeight).entries[p] == LegacyMainEntry(VectorDb.LastHit(hits, p).value, mainWeight)
  {
    if hits != [] {
      LegacyMainPassEntries(hits[..|hits| - 1], mainWeight, p);
    }
  }

  /** The sum of `distance * weight` over the hits whose key is `p`: raw distances, not similarities. */
  function LegacySubSum(hits: seq<Hit>, p: string, weight: real): real
  {
    if hits == [] then 0.0
    else
      var h := hits[|hits| - 1];
      LegacySubSum(hits[..|hits| - 1], p, weight) + (if DocKey(h.doc) == p then LegacyGain(h, weight) else 0.0)
  }

  lemma {:induction false} LegacyNoHitNoSum(hits: seq<Hit>, p: string, weight: real)
    requires VectorDb.FirstHit(hits, p).None?
    ensures LegacySubSum(hits, p, weight) == 0.0
  {
    if hits != [] {
      LegacyNoHitNoSum(hits[..|hits| - 1], p, weight);
    }
  }

  /**
   * After the sub loop, an entry that existed keeps its document and main
   * score and gains the sum of its sub-hits' raw distances times the weight;
   * a key first met in the sub-hits holds the document of its first sub-hit,
   * main score 1.0 and that sum.
   */
  lemma {:induction false} LegacySubPassEntries(t: Table<LegacyEntry>, hits: seq<Hit>, weight: real, p: string)
    ensures var r := LegacySubPass(t, hits, weight);
      && (p in r.entries <==> p in t.entries || VectorDb.FirstHit(hits, p).Some?)
      && (p in t.entries ==> r.entries[p] == t.entries[p].(score := t.entries[p].score + LegacySubSum(hits, p, weight)))
      && (p !in t.entries && VectorDb.FirstHit(hits, p).Some? ==>
            r.entries[p] == LegacyEntry(VectorDb.FirstHit(hits, p).value.doc, LegacySubSum(hits, p, weight), 1.0))
  {
    if hits != [] {
      var prefix := hits[..|hits| - 1];
      var h := hits[|hits| - 1];
      LegacySubPassEntries(t, prefix, weight, p);
      if DocKey(h.doc) == p && p !in LegacySubPass(t, prefix, weight).entries {
        LegacyNoHitNoSum(prefix, p, weight);
      }
    }
  }

  /**
   * The fallback conditions of the first version: the fusion is abandoned when
   * the main search raises, a sub-query is `None`, or any non-blank sub-query's
   * search raises; otherwise the result is ranked by the fused raw scores,
   * ties in first-seen order, and every entry left out is outranked by each
   * returned one.
   */
  lemma LegacyFusionSpec(store: Store, mainQuery: string, subQueries: seq<Option<string>>,
                         mainWeight: real, subWeight: real, k: int)
    ensures LegacyFusion(store, mainQuery, subQueries, mainWeight, subWeight, k).None? <==>
      store(mainQuery, k * 2).Raised? || exists i :: 0 <= i < |subQueries| && RaisesAt(store, subQueries[i], k)
    ensures LegacyFusion(store, mainQuery, subQueries, mainWeight, subWeight, k).Some? ==>
      var docs := LegacyFusion(store, mainQuery, subQueries, mainWeight, subWeight, k).value;
      var t := LegacyFusedTable(store(mainQuery, k * 2).hits, LegacyGather(store, subQueries, k).value,
                                mainWeight, LegacyWeight(subWeight, subQueries));
      && (0 <= k ==> |docs| == if k <= |t.order| then k else |t.order|)
      && (forall i :: 0 <= i < |docs| ==> DocKey(docs[i]) in t.entries && docs[i] == t.entries[DocKey(docs[i])].doc)
      && (forall i, j :: 0 <= i < j < |docs| ==> DocKey(docs[i]) != DocKey(docs[j]))
      && (forall i, j :: 0 <= i < j < |docs| ==> Outranks(t, LegacyEntryScore, DocKey(docs[i]), DocKey(docs[j])))
      && (forall p, i :: p in t.entries && 0 <= i < |docs| && (forall j :: 0 <= j < |docs| ==> DocKey(docs[j]) != p) ==>
            Outranks(t, LegacyEntryScore, DocKey(docs[i]), p))
  {
    if LegacyFusion(store, mainQuery, subQueries, mainWeight, subWeight, k).Some? {
      var t := LegacyFusedTable(store(mainQuery, k * 2).hits, LegacyGather(store, subQueries, k).value,
                                mainWeight, LegacyWeight(subWeight, subQueries));
      RankedDocsSpec(t, LegacyEntryDoc, LegacyEntryScore, k);
    }
  }

  /** The sub-query loop only appends keys: the dict's order before it is a prefix of the order after. */
  lemma {:induction false} LegacySubPassKeepsOrder(t: Table<LegacyEntry>, hits: seq<Hit>, weight: real)
    ensures t.order <= LegacySubPass(t, hits, weight).order
  {
    if hits != [] {
      LegacySubPassKeepsOrder(t, hits[..|hits| - 1], weight);
    }
  }

  /**
   * Every key the main query found comes, in the fused dict, before every key
   * that only a sub-query found.
   */
  lemma LegacyMainHitsFirst(mainHits: seq<Hit>, subHits: seq<Hit>, mainWeight: real, weight: real)
    ensures var m := LegacyMainPass(mainHits, mainWeight);
      var t := LegacyFusedTable(mainHits, subHits, mainWeight, weight);
      && (forall p :: p in m.entries ==> p in t.entries)
      && (forall p, q :: p in m.entries && q in t.entries && q !in m.entries ==> IndexOf(t.order, p) < IndexOf(t.order, q))
  {
    LegacySubPassKeepsOrder(LegacyMainPass(mainHits, mainWeight), subHits, weight);
    OldKeysFirst(LegacyMainPass(mainHits, mainWeight), LegacyFusedTable(mainHits, subHits, mainWeight, weight));
  }

  /**
   * Ties go to main hits: a document only a sub-query found, whose fused score
   * equals that of a document the main query found, is returned only after it.
   */
  lemma LegacyMainHitWinsTie(mainHits: seq<Hit>, subHits: seq<Hit>, mainWeight: real, weight: real, k: int, p: string, q: string)
    requires p in LegacyMainPass(mainHits, mainWeight).entries
    requires var t := LegacyFusedTable(mainHits, subHits, mainWeight, weight);
      q in t.entries && q !in LegacyMainPass(mainHits, mainWeight).entries && p in t.entries && t.entries[p].score == t.entries[q].score
    ensures var docs := RankedDocs(LegacyFusedTable(mainHits, subHits, mainWeight, weight), LegacyEntryDoc, LegacyEntryScore, k);
      forall j :: 0 <= j < |docs| && DocKey(docs[j]) == q ==> exists i :: 0 <= i < j && DocKey(docs[i]) == p
  {
    LegacySubPassKeepsOrder(LegacyMainPass(mainHits, mainWeight), subHits, weight);
    OldKeyWinsTie(LegacyMainPass(mainHits, mainWeight), LegacyFusedTable(mainHits, subHits, mainWeight, weight), LegacyEntryDoc, LegacyEntryScore, k, p, q);
  }

  /** The fused table of two main hits, the farther one first, and no sub hits. */
  lemma LegacyTwoHitTable(near: Doc, far: Doc, weight: real)
    requires near == Doc("near", map[]) && far == Doc("far", map[])
    ensures LegacyFusedTable([Hit(far, 0.9), Hit(near, 0.1)], [], 0.7, weight)
         == Table(["far", "near"], map["far" := LegacyEntry(far, 0.63, 0.9), "near" := LegacyEntry(near, 0.07, 0.1)])
  {
    var hits := [Hit(far, 0.9), Hit(near, 0.1)];
    assert DocKey(far) == "far" && DocKey(near) == "near";
    var one := [Hit(far, 0.9)];
    assert hits[..1] == one && one[..0] == [];
    var first := LegacyMainPass(one, 0.7);
    assert first == Put(LegacyMainPass([], 0.7), "far", LegacyMainEntry(Hit(far, 0.9), 0.7));
    assert first == Table(["far"], map["far" := LegacyEntry(far, 0.63, 0.9)]);
    assert LegacyMainPass(hits, 0.7) == Put(first, "near", LegacyMainEntry(Hit(near, 0.1), 0.7));
  }

  lemma LegacyTwoHitRanking(near: Doc, far: Doc)
    requires near == Doc("near", map[]) && far == Doc("far", map[])
    ensures var t := Table(["far", "near"], map["far" := LegacyEntry(far, 0.63, 0.9), "near" := LegacyEntry(near, 0.07, 0.1)]);
      WellFormed(t) && RankedDocs(t, LegacyEntryDoc, LegacyEntryScore, 1) == [far]
  {
    var t := Table(["far", "near"], map["far" := LegacyEntry(far, 0.63, 0.9), "near" := LegacyEntry(near, 0.07, 0.1)]);
    var cands := Candidates(t, LegacyEntryDoc, LegacyEntryScore);
    var c0, c1 := Cand(0, far, 0.63), Cand(1, near, 0.07);
    assert cands == [c0, c1];
    assert cands[1..] == [c1];
    assert SortByScore([c1]) == [c1];
    assert InsertByScore(c0, [c1]) == [c0, c1];
    assert SortByScore(cands) == [c0, c1];
    assert Top(cands, 1) == [c0];
  }

  /**
   * The store returns distances (smaller is closer), yet the first version ranks
   * by distance x weight in descending order: of two documents at distances 0.9
   * and 0.1, asking for one returns the FARTHER one.
   */
  lemma FartherDocumentRanksFirst()
    ensures var near := Doc("near", map[]);
      var far := Doc("far", map[]);
      var store: Store := (q: string, n: int) => Results([Hit(far, 0.9), Hit(near, 0.1)]);
      LegacyFusion(store, "q", [], 0.7, 0.3, 1) == Some([far])
  {
    var near := Doc("near", map[]);
    var far := Doc("far", map[]);
    var store: Store := (q: string, n: int) => Results([Hit(far, 0.9), Hit(near, 0.1)]);
    var hits := [Hit(far, 0.9), Hit(near, 0.1)];
    var weight := LegacyWeight(0.3, []);
    LegacyTwoHitTable(near, far, weight);
    LegacyTwoHitRanking(near, far);
    assert store("q", 1 * 2) == Results(hits);
    assert LegacyGather(store, [], 1) == Some([]);
    assert RankedDocs(LegacyFusedTable(hits, [], 0.7, weight), LegacyEntryDoc, LegacyEntryScore, 1) == [far];
  }

  // ---------------------------------------------------------------------
  // Confidence of the first version
  // ---------------------------------------------------------------------

  /** Keywords whose lower-cased form occurs in `content`; an empty keyword always occurs. */
  function LegacyMatches(content: string, keywords: seq<string>): (n: nat)
    ensures n <= |keywords|
  {
    if keywords == [] then 0
    else LegacyMatches(content, keywords[..|keywords| - 1]) + if Contains(content, Lower(keywords[|keywords| - 1])) then 1 else 0
  }

  /** 0.3 for 100..1000 characters, otherwise 0.1 above 50. */
  function LegacyLengthPoints(length: nat): real
  {
    if 100 <= length <= 1000 then 0.3 else if length > 50 then 0.1 else 0.0
  }

  /** The length points of all documents, added up (not averaged). */
  function LengthPointsSum(docs: seq<Doc>): (s: real)
    ensures 0.0 <= s
  {
    if docs == [] then 0.0 else LengthPointsSum(docs[..|docs| - 1]) + LegacyLengthPoints(|docs[|docs| - 1].content|)
  }

  /** The keyword matches of all documents. */
  function AllMatches(docs: seq<Doc>, keywords: seq<string>): (n: nat)
    ensures n <= |docs| * |keywords|
  {
    if docs == [] then 0
    else
      var n := |docs| - 1;
      var earlier := AllMatches(docs[..n], keywords);
      var last := LegacyMatches(Lower(docs[n].content), keywords);
      assert n * |keywords| + |keywords| == |docs| * |keywords|;
      earlier + last
  }

  /** calculate_search_confidence of the first version. */
  function LegacyConfidence(docs: seq<Doc>, keywords: seq<string>): real
  {
    if docs == [] then 0.0
    else
      var keywordPart := if keywords != [] then AllMatches(docs, keywords) as real / (|keywords| * |docs|) as real * 0.7 else 0.0;
      Min(LengthPointsSum(docs) + keywordPart + Min(|docs| as real / 3.0, 1.0) * 0.2, 1.0)
  }

  method LegacyCalculateSearchConfidence(docs: seq<Doc>, keywords: seq<string>) returns (confidence: real)
    ensures confidence == LegacyConfidence(docs, keywords)
  {
    if docs == [] {
      return 0.0;
    }
    var totalScore := 0.0;
    var keywordMatches := 0;
    var i := 0;
    while i < |docs|
      invariant 0 <= i <= |docs|
      invariant totalScore == LengthPointsSum(docs[..i])
      invariant keywordMatches == AllMatches(docs[..i], keywords)
    {
      var content := Lower(docs[i].content);
      var j := 0;
      var matches := 0;
      while j < |keywords|
        invariant 0 <= j <= |keywords|
        invariant matches == LegacyMatches(content, keywords[..j])
      {
        if Contains(content, Lower(keywords[j])) {
          matches := matches + 1;
        }
        assert keywords[..j + 1][..j] == keywords[..j];
        j := j + 1;
      }
      assert keywords[..j] == keywords;
      keywordMatches := keywordMatches + matches;
      totalScore := totalScore + LegacyLengthPoints(|content|);
      assert docs[..i + 1][..i] == docs[..i];
      i := i + 1;
    }
    assert docs[..i] == docs;
    if keywords != [] {
      totalScore := totalScore + keywordMatches as real / (|keywords| * |docs|) as real * 0.7;
    }
    totalScore := totalScore + Min(|docs| as real / 3.0, 1.0) * 0.2;
    confidence := Min(totalScore, 1.0);
  }

  lemma {:induction false} LengthPointsAtLeast(docs: seq<Doc>)
    requires forall i :: 0 <= i < |docs| ==> 100 <= |docs[i].content| <= 1000
    ensures LengthPointsSum(docs) >= 0.3 * |docs| as real
  {
    if docs != [] {
      LengthPointsAtLeast(docs[..|docs| - 1]);
    }
  }

  /** The first version's confidence lies in [0, 1], and is 0 exactly when no document was found. */
  lemma LegacyConfidenceBounds(docs: seq<Doc>, keywords: seq<string>)
    ensures 0.0 <= LegacyConfidence(docs, keywords) <= 1.0
    ensures LegacyConfidence(docs, keywords) == 0.0 <==> docs == []
  {
    if docs != [] && keywords != [] {
      var m := AllMatches(docs, keywords) as real;
      var n := (|keywords| * |docs|) as real;
      assert 0.0 <= m && 0.0 < n;
      PositiveQuotient(m, n);
    }
  }

  /** Proof step only, with no counterpart in the source: the weighted keyword ratio is non-negative. */
  lemma PositiveQuotient(x: real, y: real)
    requires 0.0 <= x && 0.0 < y
    ensures 0.0 <= x / y * 0.7
  {
  }

  /**
   * Length points are summed, not averaged: four documents of 100..1000
   * characters already give full confidence, whatever the keywords.
   */
  lemma LegacyConfidenceSaturates(docs: seq<Doc>, keywords: seq<string>)
    requires |docs| >= 4
    requires forall i :: 0 <= i < |docs| ==> 100 <= |docs[i].content| <= 1000
    ensures LegacyConfidence(docs, keywords) == 1.0
  {
    LengthPointsAtLeast(docs);
    if keywords != [] {
      PositiveQuotient(AllMatches(docs, keywords) as real, (|keywords| * |docs|) as real);
    }
  }

  /** An empty keyword counts as a match in the first version; the current one skips it. */
  lemma EmptyKeywordMatches(content: string)
    ensures LegacyMatches(content, [""]) == 1
    ensures VectorDb.KeywordHits(content, [""]) == 0
  {
    assert Contains(content, Lower(""));
    assert [""][..0] == [];
  }
}

// The current vector database front end: plain search behind a bounded
// cache, the priority-weighted search that fuses one main query with several
// sub-queries (70/30 by default), the confidence score of a result, and
// adding documents in batches.

module VectorDb {
  import opened Common
  import opened Fusion

  // ---------------------------------------------------------------------
  // Priority-weighted fusion
  // ---------------------------------------------------------------------

  /** A fused candidate: its document, its total score and the two parts that make it up. */
  datatype Entry = Entry(doc: Doc, score: real, mainScore: real, subScore: real)

  function EntryDoc(e: Entry): Doc { e.doc }
  function EntryScore(e: Entry): real { e.score }

  /** A store distance turned into a similarity: one minus the distance, never below zero. */
  function Similarity(distance: real): (s: real)
    ensures 0.0 <= s && 1.0 - distance <= s
    ensures s == 0.0 || s == 1.0 - distance
    ensures 0.0 <= distance ==> s <= 1.0
  {
    if 1.0 - distance > 0.0 then 1.0 - distance else 0.0
  }

  /** The entry a main-query hit writes. */
  function MainEntry(h: Hit, mainWeight: real): Entry
  {
    var similarity := Similarity(h.distance);
    Entry(h.doc, similarity * mainWeight, similarity, 0.0)
  }

  /** The dict after the main-query loop over `hits`; each hit (re)writes its key's entry. */
  function MainPass(hits: seq<Hit>, mainWeight: real): (t: Table<Entry>)
    ensures WellFormed(t) && KeysMatch(t, EntryDoc)
  {
    if hits == [] then Table([], map[])
    else
      var h := hits[|hits| - 1];
      Put(MainPass(hits[..|hits| - 1], mainWeight), DocKey(h.doc), MainEntry(h, mainWeight))
  }

  /** What a sub hit adds to its entry: its similarity times the per-query weight. */
  function Gain(h: Hit, weight: real): real
  {
    Similarity(h.distance) * weight
  }

  /** One step of the sub-query loop: add to an existing entry, or create a sub-only one. */
  function SubStep(t: Table<Entry>, h: Hit, weight: real): Table<Entry>
  {
    var p := DocKey(h.doc);
    var add := Gain(h, weight);
    if p in t.entries then
      var e := t.entries[p];
      Put(t, p, e.(score := e.score + add, subScore := e.subScore + add))
    else
      Put(t, p, Entry(h.doc, add, 0.0, add))
  }

  /** The dict after the sub-query loop over `hits`, starting from `t`. */
  function SubPass(t: Table<Entry>, hits: seq<Hit>, weight: real): Table<Entry>
  {
    if hits == [] then t else SubStep(SubPass(t, hits[..|hits| - 1], weight), hits[|hits| - 1], weight)
  }

  /** A sub-hit step keeps the dict well formed, every value under its own document's key. */
  lemma SubStepKeepsWellFormed(t: Table<Entry>, h: Hit, weight: real)
    requires WellFormed(t) && KeysMatch(t, EntryDoc)
    ensures WellFormed(SubStep(t, h, weight)) && KeysMatch(SubStep(t, h, weight), EntryDoc)
  {
  }

  lemma {:induction false} SubPassKeepsWellFormed(t: Table<Entry>, hits: seq<Hit>, weight: real)
    requires WellFormed(t) && KeysMatch(t, EntryDoc)
    ensures WellFormed(SubPass(t, hits, weight)) && KeysMatch(SubPass(t, hits, weight), EntryDoc)
  {
    if hits != [] {
      var prefix := hits[..|hits| - 1];
      SubPassKeepsWellFormed(t, prefix, weight);
      SubStepKeepsWellFormed(SubPass(t, prefix, weight), hits[|hits| - 1], weight);
    }
  }

  /** The sub pass over one more hit is one more step. */
  lemma SubPassSnoc(t: Table<Entry>, hits: seq<Hit>, weight: real, j: int)
    requires 0 <= j < |hits|
    ensures SubPass(t, hits[..j + 1], weight) == SubStep(SubPass(t, hits[..j], weight), hits[j], weight)
  {
    assert hits[..j + 1][..j] == hits[..j];
  }

  function FusedTable(mainHits: seq<Hit>, subHits: seq<Hit>, mainWeight: real, weight: real): (t: Table<Entry>)
    ensures WellFormed(t) && KeysMatch(t, EntryDoc)
  {
    SubPassKeepsWellFormed(MainPass(mainHits, mainWeight), subHits, weight);
    SubPass(MainPass(mainHits, mainWeight), subHits, weight)
  }

  /** The sub-query loop searches a sub-query only when `sub_query and sub_query.strip()` holds. */
  predicate Searched(q: Option<string>)
  {
    q.Some? && !IsBlank(q.value)
  }

  /** What one sub-query contributes: its hits, or nothing when it is skipped or its search raises. */
  function SubResults(store: Store, q: Option<string>, n: int): seq<Hit>
  {
    if Searched(q) then
      match store(q.value, n)
      case Results(hits) => hits
      case Raised => []
    else []
  }

  /** The hits of all sub-queries, extended in sub-query order. */
  function GatherSubHits(store: Store, qs: seq<Option<string>>, n: int): seq<Hit>
  {
    if qs == [] then [] else GatherSubHits(store, qs[..|qs| - 1], n) + SubResults(store, qs[|qs| - 1], n)
  }

  /** Gathering distributes over concatenation: each sub-query contributes on its own, in order. */
  lemma {:induction false} GatherConcat(store: Store, a: seq<Option<string>>, b: seq<Option<string>>, n: int)
    ensures GatherSubHits(store, a + b, n) == GatherSubHits(store, a, n) + GatherSubHits(store, b, n)
    decreases |b|
  {
    if b != [] {
      var b' := b[..|b| - 1];
      assert (a + b)[..|a + b| - 1] == a + b';
      GatherConcat(store, a, b', n);
    } else {
      assert a + b == a;
    }
  }

  /** A blank or missing sub-query, or one whose search raises, adds no hits; a searched one adds exactly its results. */
  lemma GatherOne(store: Store, q: Option<string>, n: int)
    ensures !Searched(q) ==> GatherSubHits(store, [q], n) == []
    ensures Searched(q) && store(q.value, n).Raised? ==> GatherSubHits(store, [q], n) == []
    ensures Searched(q) && store(q.value, n).Results? ==> GatherSubHits(store, [q], n) == store(q.value, n).hits
  {
    assert [q][..0] == [];
  }

  /**
   * The number of non-blank sub-queries, or `None` when some entry is missing
   * (stripping a missing entry raises in the source).
   */
  function NonBlankCount(qs: seq<Option<string>>): (r: Option<nat>)
    ensures r.Some? ==> r.value <= |qs|
    ensures r.None? <==> exists i :: 0 <= i < |qs| && qs[i].None?
  {
    if qs == [] then Some(0)
    else
      var q := qs[|qs| - 1];
      var rest := NonBlankCount(qs[..|qs| - 1]);
      if rest.None? || q.None? then
        assert qs[..|qs| - 1] <= qs;
        None
      else Some(rest.value + if IsBlank(q.value) then 0 else 1)
  }

  /** The sub-query weight shared out over the sub-queries, with a count of zero treated as one. */
  function WeightPerQuery(subWeight: real, count: nat): real
  {
    subWeight / (if count >= 1 then count else 1) as real
  }

  /**
   * search_with_priority_weighting without its cache: `None` stands for an
   * exception inside the try block (the main search raising, or a `None`
   * sub-query), after which the caller falls back to plain search.
   */
  function PriorityFusion(store: Store, mainQuery: string, subQueries: seq<Option<string>>,
                          mainWeight: real, subWeight: real, k: int): Option<seq<Doc>>
  {
    match store(mainQuery, k * 3)
    case Raised => None
    case Results(mainHits) =>
      var subHits := GatherSubHits(store, subQueries, k * 2);
      match NonBlankCount(subQueries)
      case None => None
      case Some(count) =>
        Some(RankedDocs(FusedTable(mainHits, subHits, mainWeight, WeightPerQuery(subWeight, count)), EntryDoc, EntryScore, k))
  }

  /** The sub-query loop of the try block: search each non-blank sub-query for `n` hits, skipping searches that raise. */
  method CollectSubHits(store: Store, subQueries: seq<Option<string>>, n: int) returns (subHits: seq<Hit>)
    ensures subHits == GatherSubHits(store, subQueries, n)
  {
    subHits := [];
    var i := 0;
    while i < |subQueries|
      invariant 0 <= i <= |subQueries|
      invariant subHits == GatherSubHits(store, subQueries[..i], n)
    {
      var q := subQueries[i];
      if q.Some? && !IsBlank(q.value) {
        var outcome := store(q.value, n);
        if outcome.Results? {
          subHits := subHits + outcome.hits;
        }
      }
      assert subQueries[..i + 1][..i] == subQueries[..i];
      i := i + 1;
    }
    assert subQueries[..i] == subQueries;
  }

  /** The main-result loop: every main hit (re)writes the entry under its key. */
  method ScoreMainHits(mainHits: seq<Hit>, mainWeight: real) returns (table: Table<Entry>)
    ensures table == MainPass(mainHits, mainWeight)
  {
    table := Table([], map[]);
    var j := 0;
    while j < |mainHits|
      invariant 0 <= j <= |mainHits|
      invariant table == MainPass(mainHits[..j], mainWeight)
    {
      var h := mainHits[j];
      table := Put(table, DocKey(h.doc), MainEntry(h, mainWeight));
      assert mainHits[..j + 1][..j] == mainHits[..j];
      j := j + 1;
    }
    assert mainHits[..j] == mainHits;
  }

  /** The sub-result loop: each sub hit adds its weighted similarity to its key's entry, creating it if needed. */
  method AddSubHits(start: Table<Entry>, subHits: seq<Hit>, weight: real) returns (table: Table<Entry>)
    ensures table == SubPass(start, subHits, weight)
  {
    table := start;
    var j := 0;
    while j < |subHits|
      invariant 0 <= j <= |subHits|
      invariant table == SubPass(start, subHits[..j], weight)
    {
      SubPassSnoc(start, subHits, weight, j);
      var h := subHits[j];
      var p := DocKey(h.doc);
      var add := Gain(h, weight);
      if p in table.entries {
        var e := table.entries[p];
        table := Put(table, p, e.(score := e.score + add, subScore := e.subScore + add));
      } else {
        table := Put(table, p, Entry(h.doc, add, 0.0, add));
      }
      j := j + 1;
    }
    assert subHits[..j] == subHits;
  }

  /** The body of the try block of search_with_priority_weighting. */
  method PriorityWeightedFusion(store: Store, mainQuery: string, subQueries: seq<Option<string>>,
                                mainWeight: real, subWeight: real, k: int) returns (r: Option<seq<Doc>>)
    ensures r == PriorityFusion(store, mainQuery, subQueries, mainWeight, subWeight, k)
  {
    var mainOutcome := store(mainQuery, k * 3);
    if mainOutcome.Raised? {
      return None;
    }
    var subHits := CollectSubHits(store, subQueries, k * 2);
    var table := ScoreMainHits(mainOutcome.hits, mainWeight);
    var count := NonBlankCount(subQueries);
    if count.None? {
      return None;
    }
    table := AddSubHits(table, subHits, WeightPerQuery(subWeight, count.value));
    assert table == FusedTable(mainOutcome.hits, subHits, mainWeight, WeightPerQuery(subWeight, count.value));
    r := Some(RankedDocs(table, EntryDoc, EntryScore, k));
  }

  /** The last hit whose document has key `p`. */
  function LastHit(hits: seq<Hit>, p: string): (r: Option<Hit>)
    ensures r.Some? ==> exists i :: 0 <= i < |hits| && hits[i] == r.value
    ensures r.Some? ==> DocKey(r.value.doc) == p
    ensures r.None? <==> forall i :: 0 <= i < |hits| ==> DocKey(hits[i].doc) != p
  {
    if hits == [] then None
    else if DocKey(hits[|hits| - 1].doc) == p then Some(hits[|hits| - 1])
    else LastHit(hits[..|hits| - 1], p)
  }

  /** The first hit whose document has key `p`. */
  function FirstHit(hits: seq<Hit>, p: string): (r: Option<Hit>)
    ensures r.Some? ==> exists i :: 0 <= i < |hits| && hits[i] == r.value
    ensures r.Some? ==> DocKey(r.value.doc) == p
    ensures r.None? <==> forall i :: 0 <= i < |hits| ==> DocKey(hits[i].doc) != p
  {
    if hits == [] then None
    else
      var first := FirstHit(hits[..|hits| - 1], p);
      if first.Some? then first
      else if DocKey(hits[|hits| - 1].doc) == p then Some(hits[|hits| - 1])
      else None
  }

  /** The sum of `similarity * weight` over the hits whose key is `p`. */
  function SubSum(hits: seq<Hit>, p: string, weight: real): (s: real)
    ensures 0.0 <= weight ==> 0.0 <= s
  {
    if hits == [] then 0.0
    else
      var h := hits[|hits| - 1];
      SubSum(hits[..|hits| - 1], p, weight) + (if DocKey(h.doc) == p then Gain(h, weight) else 0.0)
  }

  lemma {:induction false} NoHitNoSum(hits: seq<Hit>, p: string, weight: real)
    requires FirstHit(hits, p).None?
    ensures SubSum(hits, p, weight) == 0.0
  {
    if hits != [] {
      NoHitNoSum(hits[..|hits| - 1], p, weight);
    }
  }

  /** After the main loop, a key holds the entry of the LAST main hit with that key: later hits replace, they do not add. */
  lemma {:induction false} MainPassEntries(hits: seq<Hit>, mainWeight: real, p: string)
    ensures p in MainPass(hits, mainWeight).entries <==> LastHit(hits, p).Some?
    ensures p in MainPass(hits, mainWeight).entries ==>
      MainPass(hits, mainWeight).entries[p] == MainEntry(LastHit(hits, p).value, mainWeight)
  {
    if hits != [] {
      MainPassEntries(hits[..|hits| - 1], mainWeight, p);
    }
  }

  /**
   * After the sub loop, an entry that existed keeps its document and main
   * score and gains the sum of its sub-hits' weighted similarities on both its
   * score and its sub score; a key first met in the sub-hits holds the document
   * of its first sub-hit, main score 0 and that sum.
   */
  lemma {:induction false} SubPassEntries(t: Table<Entry>, hits: seq<Hit>, weight: real, p: string)
    ensures var r := SubPass(t, hits, weight);
      && (p in r.entries <==> p in t.entries || FirstHit(hits, p).Some?)
      && (p in t.entries ==> r.entries[p] == t.entries[p].(
            score := t.entries[p].score + SubSum(hits, p, weight),
            subScore := t.entries[p].subScore + SubSum(hits, p, weight)))
      && (p !in t.entries && FirstHit(hits, p).Some? ==>
            r.entries[p] == Entry(FirstHit(hits, p).value.doc, SubSum(hits, p, weight), 0.0, SubSum(hits, p, weight)))
  {
    if hits != [] {
      var prefix := hits[..|hits| - 1];
      var h := hits[|hits| - 1];
      SubPassEntries(t, prefix, weight, p);
      if DocKey(h.doc) == p && p !in SubPass(t, prefix, weight).entries {
        NoHitNoSum(prefix, p, weight);
      }
    }
  }

  /** An entry's score is its main similarity times the main weight plus its sub score. */
  predicate Decomposes(e: Entry, mainWeight: real)
  {
    e.score == e.mainScore * mainWeight + e.subScore
  }

  predicate AllDecomposed(t: Table<Entry>, mainWeight: real)
  {
    forall q :: q in t.entries ==> Decomposes(t.entries[q], mainWeight)
  }

  /** Neither part of an entry's score is negative. */
  predicate PartsNonNegative(e: Entry)
  {
    0.0 <= e.mainScore && 0.0 <= e.subScore
  }

  predicate AllPartsNonNegative(t: Table<Entry>)
  {
    forall q :: q in t.entries ==> PartsNonNegative(t.entries[q])
  }

  /** Proof step only, with no counterpart in the source: real arithmetic for the score parts. */
  lemma ProductNonNegative(a: real, b: real)
    requires 0.0 <= a && 0.0 <= b
    ensures 0.0 <= a * b
  {
  }

  lemma {:induction false} MainPassInvariants(hits: seq<Hit>, mainWeight: real)
    ensures AllDecomposed(MainPass(hits, mainWeight), mainWeight)
    ensures AllPartsNonNegative(MainPass(hits, mainWeight))
  {
    if hits != [] {
      var prefix := hits[..|hits| - 1];
      var h := hits[|hits| - 1];
      MainPassInvariants(prefix, mainWeight);
      var t := MainPass(prefix, mainWeight);
      var e := MainEntry(h, mainWeight);
      assert Decomposes(e, mainWeight) && PartsNonNegative(e);
      assert MainPass(hits, mainWeight).entries == t.entries[DocKey(h.doc) := e];
    }
  }

  /** A sub-hit step keeps every entry decomposed, and with a non-negative weight keeps its parts non-negative. */
  lemma SubStepInvariants(t: Table<Entry>, h: Hit, weight: real, mainWeight: real)
    ensures AllDecomposed(t, mainWeight) ==> AllDecomposed(SubStep(t, h, weight), mainWeight)
    ensures AllPartsNonNegative(t) && 0.0 <= weight ==> AllPartsNonNegative(SubStep(t, h, weight))
  {
    var p := DocKey(h.doc);
    var add := Gain(h, weight);
    if 0.0 <= weight {
      ProductNonNegative(Similarity(h.distance), weight);
    }
    var e := if p in t.entries then t.entries[p].(score := t.entries[p].score + add, subScore := t.entries[p].subScore + add)
             else Entry(h.doc, add, 0.0, add);
    assert SubStep(t, h, weight).entries == t.entries[p := e];
  }

  lemma {:induction false} SubPassInvariants(t: Table<Entry>, hits: seq<Hit>, weight: real, mainWeight: real)
    ensures AllDecomposed(t, mainWeight) ==> AllDecomposed(SubPass(t, hits, weight), mainWeight)
    ensures AllPartsNonNegative(t) && 0.0 <= weight ==> AllPartsNonNegative(SubPass(t, hits, weight))
  {
    if hits != [] {
      var prefix := hits[..|hits| - 1];
      SubPassInvariants(t, prefix, weight, mainWeight);
      SubStepInvariants(SubPass(t, prefix, weight), hits[|hits| - 1], weight, mainWeight);
    }
  }
  /**
   * Where each fused entry comes from: it exists exactly when some main or sub
   * hit has its key; its main score is the similarity of the LAST main hit with
   * the key (0 if none) and its sub score the sum of the weighted similarities
   * of the sub hits with the key.
   */
  lemma FusedEntry(mainHits: seq<Hit>, subHits: seq<Hit>, mainWeight: real, weight: real, p: string)
    ensures var t := FusedTable(mainHits, subHits, mainWeight, weight);
      && (p in t.entries <==> LastHit(mainHits, p).Some? || FirstHit(subHits, p).Some?)
      && (p in t.entries ==>
            && DocKey(t.entries[p].doc) == p
            && t.entries[p].mainScore == (if LastHit(mainHits, p).Some? then Similarity(LastHit(mainHits, p).value.distance) else 0.0)
            && t.entries[p].subScore == SubSum(subHits, p, weight))
  {
    MainPassEntries(mainHits, mainWeight, p);
    SubPassEntries(MainPass(mainHits, mainWeight), subHits, weight, p);
  }

  /** Every fused score is the sum of its parts: main similarity x main weight + sub score. */
  lemma FusedScoreDecomposes(mainHits: seq<Hit>, subHits: seq<Hit>, mainWeight: real, weight: real, p: string)
    requires p in FusedTable(mainHits, subHits, mainWeight, weight).entries
    ensures Decomposes(FusedTable(mainHits, subHits, mainWeight, weight).entries[p], mainWeight)
  {
    MainPassInvariants(mainHits, mainWeight);
    SubPassInvariants(MainPass(mainHits, mainWeight), subHits, weight, mainWeight);
  }

  /** With non-negative weights no fused score is negative. */
  lemma FusedScoresNonNegative(mainHits: seq<Hit>, subHits: seq<Hit>, mainWeight: real, weight: real, p: string)
    requires 0.0 <= mainWeight && 0.0 <= weight
    requires p in FusedTable(mainHits, subHits, mainWeight, weight).entries
    ensures 0.0 <= FusedTable(mainHits, subHits, mainWeight, weight).entries[p].score
  {
    var t := FusedTable(mainHits, subHits, mainWeight, weight);
    MainPassInvariants(mainHits, mainWeight);
    SubPassInvariants(MainPass(mainHits, mainWeight), subHits, weight, mainWeight);
    assert Decomposes(t.entries[p], mainWeight) && PartsNonNegative(t.entries[p]);
    ProductNonNegative(t.entries[p].mainScore, mainWeight);
  }

  /** The sub-query loop only appends keys: the dict's order before it is a prefix of the order after. */
  lemma {:induction false} SubPassKeepsOrder(t: Table<Entry>, hits: seq<Hit>, weight: real)
    ensures t.order <= SubPass(t, hits, weight).order
  {
    if hits != [] {
      SubPassKeepsOrder(t, hits[..|hits| - 1], weight);
    }
  }

  /**
   * Every key the main query found comes, in the fused dict, before every key
   * that only a sub-query found.
   */
  lemma MainHitsFirst(mainHits: seq<Hit>, subHits: seq<Hit>, mainWeight: real, weight: real)
    ensures var m := MainPass(mainHits, mainWeight);
      var t := FusedTable(mainHits, subHits, mainWeight, weight);
      && (forall p :: p in m.entries ==> p in t.entries)
      && (forall p, q :: p in m.entries && q in t.entries && q !in m.entries ==> IndexOf(t.order, p) < IndexOf(t.order, q))
  {
    SubPassKeepsOrder(MainPass(mainHits, mainWeight), subHits, weight);
    OldKeysFirst(MainPass(mainHits, mainWeight), FusedTable(mainHits, subHits, mainWeight, weight));
  }

  /**
   * Ties go to main hits: a document only a sub-query found, whose fused score
   * equals that of a document the main query found, is returned only after it.
   */
  lemma MainHitWinsTie(mainHits: seq<Hit>, subHits: seq<Hit>, mainWeight: real, weight: real, k: int, p: string, q: string)
    requires p in MainPass(mainHits, mainWeight).entries
    requires var t := FusedTable(mainHits, subHits, mainWeight, weight);
      q in t.entries && q !in MainPass(mainHits, mainWeight).entries && p in t.entries && t.entries[p].score == t.entries[q].score
    ensures var docs := RankedDocs(FusedTable(mainHits, subHits, mainWeight, weight), EntryDoc, EntryScore, k);
      forall j :: 0 <= j < |docs| && DocKey(docs[j]) == q ==> exists i :: 0 <= i < j && DocKey(docs[i]) == p
  {
    SubPassKeepsOrder(MainPass(mainHits, mainWeight), subHits, weight);
    OldKeyWinsTie(MainPass(mainHits, mainWeight), FusedTable(mainHits, subHits, mainWeight, weight), EntryDoc, EntryScore, k, p, q);
  }

  /**
   * The outcome of the fusion: it falls back exactly when the main search
   * raises or a sub-query is `None`; otherwise it returns at most `k`
   * documents, no two with the same key, each the document of its fused
   * entry, in non-increasing fused score with ties in first-seen order, and
   * every fused entry left out is outranked by each returned one.
   */
  lemma PriorityFusionSpec(store: Store, mainQuery: string, subQueries: seq<Option<string>>,
                           mainWeight: real, subWeight: real, k: int)
    ensures PriorityFusion(store, mainQuery, subQueries, mainWeight, subWeight, k).None? <==>
      store(mainQuery, k * 3).Raised? || exists i :: 0 <= i < |subQueries| && subQueries[i].None?
    ensures PriorityFusion(store, mainQuery, subQueries, mainWeight, subWeight, k).Some? ==>
      var docs := PriorityFusion(store, mainQuery, subQueries, mainWeight, subWeight, k).value;
      var t := FusedTable(store(mainQuery, k * 3).hits, GatherSubHits(store, subQueries, k * 2),
                          mainWeight, WeightPerQuery(subWeight, NonBlankCount(subQueries).value));
      && (0 <= k ==> |docs| == if k <= |t.order| then k else |t.order|)
      && (forall i :: 0 <= i < |docs| ==> DocKey(docs[i]) in t.entries && docs[i] == t.entries[DocKey(docs[i])].doc)
      && (forall i, j :: 0 <= i < j < |docs| ==> DocKey(docs[i]) != DocKey(docs[j]))
      && (forall i, j :: 0 <= i < j < |docs| ==> Outranks(t, EntryScore, DocKey(docs[i]), DocKey(docs[j])))
      && (forall p, i :: p in t.entries && 0 <= i < |docs| && (forall j :: 0 <= j < |docs| ==> DocKey(docs[j]) != p) ==>
            Outranks(t, EntryScore, DocKey(docs[i]), p))
  {
    var outcome := store(mainQuery, k * 3);
    var count := NonBlankCount(subQueries);
    if outcome.Results? && count.Some? {
      var t := FusedTable(outcome.hits, GatherSubHits(store, subQueries, k * 2), mainWeight, WeightPerQuery(subWeight, count.value));
      assert PriorityFusion(store, mainQuery, subQueries, mainWeight, subWeight, k) == Some(RankedDocs(t, EntryDoc, EntryScore, k));
      RankedDocsSpec(t, EntryDoc, EntryScore, k);
    }
  }

  /** The fused table of two main hits, the farther one first, and no sub hits. */
  lemma TwoHitTable(near: Doc, far: Doc, weight: real)
    requires near == Doc("near", map[]) && far == Doc("far", map[])
    ensures FusedTable([Hit(far, 0.9), Hit(near, 0.1)], [], 0.7, weight)
         == Table(["far", "near"], map["far" := Entry(far, 0.07, 0.1, 0.0), "near" := Entry(near, 0.63, 0.9, 0.0)])
  {
    var hits := [Hit(far, 0.9), Hit(near, 0.1)];
    assert DocKey(far) == "far" && DocKey(near) == "near";
    var one := [Hit(far, 0.9)];
    assert hits[..1] == one && one[..0] == [];
    var first := MainPass(one, 0.7);
    assert first == Put(MainPass([], 0.7), "far", MainEntry(Hit(far, 0.9), 0.7));
    assert first == Table(["far"], map["far" := Entry(far, 0.07, 0.1, 0.0)]);
    assert MainPass(hits, 0.7) == Put(first, "near", MainEntry(Hit(near, 0.1), 0.7));
  }

  /** Ranking that table keeps the entry with the higher score. */
  lemma TwoHitRanking(near: Doc, far: Doc)
    requires near == Doc("near", map[]) && far == Doc("far", map[])
    ensures var t := Table(["far", "near"], map["far" := Entry(far, 0.07, 0.1, 0.0), "near" := Entry(near, 0.63, 0.9, 0.0)]);
      WellFormed(t) && RankedDocs(t, EntryDoc, EntryScore, 1) == [near]
  {
    var t := Table(["far", "near"], map["far" := Entry(far, 0.07, 0.1, 0.0), "near" := Entry(near, 0.63, 0.9, 0.0)]);
    var cands := Candidates(t, EntryDoc, EntryScore);
    var c0, c1 := Cand(0, far, 0.07), Cand(1, near, 0.63);
    assert cands == [c0, c1];
    assert cands[1..] == [c1];
    assert SortByScore([c1]) == [c1];
    assert InsertByScore(c0, [c1]) == [c1] + InsertByScore(c0, []);
    assert SortByScore(cands) == [c1, c0];
    assert Top(cands, 1) == [c1];
  }

  /** Two main hits at distances 0.9 and 0.1, asking for one document: the closer one is returned. */
  lemma CloserDocumentRanksFirst()
    ensures var near := Doc("near", map[]);
      var far := Doc("far", map[]);
      var store: Store := (q: string, n: int) => Results([Hit(far, 0.9), Hit(near, 0.1)]);
      PriorityFusion(store, "q", [], 0.7, 0.3, 1) == Some([near])
  {
    var near := Doc("near", map[]);
    var far := Doc("far", map[]);
    var store: Store := (q: string, n: int) => Results([Hit(far, 0.9), Hit(near, 0.1)]);
    var hits := [Hit(far, 0.9), Hit(near, 0.1)];
    var weight := WeightPerQuery(0.3, 0);
    TwoHitTable(near, far, weight);
    TwoHitRanking(near, far);
    assert store("q", 1 * 3) == Results(hits);
    assert GatherSubHits(store, [], 1 * 2) == [] && NonBlankCount([]) == Some(0);
    assert RankedDocs(FusedTable(hits, [], 0.7, weight), EntryDoc, EntryScore, 1) == [near];
  }

  // ---------------------------------------------------------------------
  // Confidence of a search result
  // ---------------------------------------------------------------------

  /** The number of non-empty keywords whose lower-cased form occurs in `content` (already lower-cased). */
  function KeywordHits(content: string, keywords: seq<string>): (n: nat)
    ensures n <= |keywords|
  {
    if keywords == [] then 0
    else
      var keyword := keywords[|keywords| - 1];
      KeywordHits(content, keywords[..|keywords| - 1]) + if keyword != "" && Contains(content, Lower(keyword)) then 1 else 0
  }

  /** `len(keywords) if keywords else 1`. */
  function KeywordTotal(keywords: seq<string>): real
  {
    if |keywords| > 0 then |keywords| as real else 1.0
  }

  /** 0.2 for 100..1000 characters, 0.1 for 50..1500, else nothing. */
  function LengthScore(length: nat): real
  {
    if 100 <= length <= 1000 then 0.2 else if 50 <= length <= 1500 then 0.1 else 0.0
  }

  /** 0.1 for a non-empty `filename`, 0.05 more when `source` is `research_paper`. */
  function MetadataScore(metadata: map<string, string>): real
  {
    (if "filename" in metadata && metadata["filename"] != "" then 0.1 else 0.0)
    + (if "source" in metadata && metadata["source"] == "research_paper" then 0.05 else 0.0)
  }

  /** 0.15 for three or more full stops, 0.08 for one or two. */
  function RichnessScore(sentences: nat): real
  {
    if sentences >= 3 then 0.15 else if sentences >= 1 then 0.08 else 0.0
  }

  /** One document's score: keyword ratio x 0.5 plus its length, metadata and richness scores. */
  function DocScore(doc: Doc, keywords: seq<string>): real
  {
    var content := Lower(doc.content);
    (KeywordHits(content, keywords) as real / KeywordTotal(keywords)) * 0.5
    + LengthScore(|content|) + MetadataScore(doc.metadata) + RichnessScore(CountChar(content, '.'))
  }

  function TotalScore(docs: seq<Doc>, keywords: seq<string>): real
  {
    if docs == [] then 0.0 else TotalScore(docs[..|docs| - 1], keywords) + DocScore(docs[|docs| - 1], keywords)
  }

  /** calculate_search_confidence: the average document score plus a bonus of up to 0.1 for up to three documents, capped at 1. */
  function Confidence(docs: seq<Doc>, keywords: seq<string>): real
  {
    if docs == [] then 0.0
    else Min(TotalScore(docs, keywords) / |docs| as real + Min(|docs| as real / 3.0, 1.0) * 0.1, 1.0)
  }

  /** The keyword ratio lies in [0, 1]: with no keywords it is 0, otherwise at most every keyword matches. */
  lemma KeywordRatioBounds(content: string, keywords: seq<string>)
    ensures var ratio := KeywordHits(content, keywords) as real / KeywordTotal(keywords);
      0.0 <= ratio <= 1.0 && (keywords == [] ==> ratio == 0.0)
  {
    var hits := KeywordHits(content, keywords) as real;
    var total := KeywordTotal(keywords);
    assert 0.0 <= hits <= total;
    DivisionBounds(hits, total);
  }

  /** Proof step only, with no counterpart in the source: a ratio of 0 <= x <= y lies in [0, 1]. */
  lemma DivisionBounds(x: real, y: real)
    requires 0.0 <= x <= y && 0.0 < y
    ensures 0.0 <= x / y <= 1.0
  {
  }

  /** Each document scores in [0, 1]: the four parts top out at 0.5 + 0.2 + 0.15 + 0.15. */
  lemma DocScoreBounds(doc: Doc, keywords: seq<string>)
    ensures 0.0 <= DocScore(doc, keywords) <= 1.0
  {
    KeywordRatioBounds(Lower(doc.content), keywords);
  }

  lemma {:induction false} TotalScoreBounds(docs: seq<Doc>, keywords: seq<string>)
    ensures 0.0 <= TotalScore(docs, keywords) <= |docs| as real
  {
    if docs != [] {
      TotalScoreBounds(docs[..|docs| - 1], keywords);
      DocScoreBounds(docs[|docs| - 1], keywords);
    }
  }

  /** The confidence is a value in [0, 1], and 0 exactly for an empty result. */
  lemma ConfidenceBounds(docs: seq<Doc>, keywords: seq<string>)
    ensures 0.0 <= Confidence(docs, keywords) <= 1.0
    ensures docs == [] ==> Confidence(docs, keywords) == 0.0
    ensures docs != [] ==> Confidence(docs, keywords) > 0.0
  {
    if docs != [] {
      TotalScoreBounds(docs, keywords);
      var n := |docs| as real;
      DivisionBounds(TotalScore(docs, keywords), n);
      assert Min(n / 3.0, 1.0) > 0.0;
    }
  }

  /** A document scores at least as well with keywords as without: keywords can only add matches. */
  lemma KeywordsNeverLowerDocScore(doc: Doc, keywords: seq<string>)
    ensures DocScore(doc, []) <= DocScore(doc, keywords)
  {
    KeywordRatioBounds(Lower(doc.content), keywords);
    KeywordRatioBounds(Lower(doc.content), []);
  }

  lemma {:induction false} KeywordsNeverLowerTotal(docs: seq<Doc>, keywords: seq<string>)
    ensures TotalScore(docs, []) <= TotalScore(docs, keywords)
  {
    if docs != [] {
      KeywordsNeverLowerTotal(docs[..|docs| - 1], keywords);
      KeywordsNeverLowerDocScore(docs[|docs| - 1], keywords);
    }
  }

  /** Supplying keywords never lowers the confidence of a result. */
  lemma KeywordsNeverLowerConfidence(docs: seq<Doc>, keywords: seq<string>)
    ensures Confidence(docs, []) <= Confidence(docs, keywords)
  {
    if docs != [] {
      KeywordsNeverLowerTotal(docs, keywords);
      var n := |docs| as real;
      DivisionMonotone(TotalScore(docs, []), TotalScore(docs, keywords), n);
    }
  }

  /** Proof step only, with no counterpart in the source: dividing by a positive n keeps the order. */
  lemma DivisionMonotone(x: real, y: real, n: real)
    requires x <= y && 0.0 < n
    ensures x / n <= y / n
  {
  }

  /** calculate_search_confidence, loop by loop. */
  method CalculateSearchConfidence(docs: seq<Doc>, keywords: seq<string>) returns (confidence: real)
    ensures confidence == Confidence(docs, keywords)
  {
    if docs == [] {
      return 0.0;
    }
    var totalScore := 0.0;
    var total := if |keywords| > 0 then |keywords| as real else 1.0;
    var i := 0;
    while i < |docs|
      invariant 0 <= i <= |docs|
      invariant totalScore == TotalScore(docs[..i], keywords)
    {
      var doc := docs[i];
      var content := Lower(doc.content);
      var matches := 0;
      var j := 0;
      while j < |keywords|
        invariant 0 <= j <= |keywords|
        invariant matches == KeywordHits(content, keywords[..j])
      {
        var keyword := keywords[j];
        if keyword != "" && Contains(content, Lower(keyword)) {
          matches := matches + 1;
        }
        assert keywords[..j + 1][..j] == keywords[..j];
        j := j + 1;
      }
      assert keywords[..j] == keywords;
      var docScore := (matches as real / total) * 0.5;
      docScore := docScore + LengthScore(|content|);
      docScore := docScore + MetadataScore(doc.metadata);
      docScore := docScore + RichnessScore(CountChar(content, '.'));
      assert docs[..i + 1][..i] == docs[..i];
      totalScore := totalScore + docScore;
      i := i + 1;
    }
    assert docs[..i] == docs;
    var average := totalScore / |docs| as real;
    var bonus := Min(|docs| as real / 3.0, 1.0) * 0.1;
    confidence := Min(average + bonus, 1.0);
  }

  // ---------------------------------------------------------------------
  // The cache and the database object
  // ---------------------------------------------------------------------

  /** The cache keys `basic_{query}_{k}` and `priority_{main_query}_{hash(str(sub_queries))}_{k}`. */
  datatype CacheKey = BasicKey(query: string, k: int) | PriorityKey(mainQuery: string, subQueriesHash: int, k: int)

  type Cache = map<CacheKey, seq<Doc>>

  const MaxCacheSize: nat := 100

  /** Stores `docs` under `key` only while the cache has fewer than `MaxCacheSize` entries. */
  function Remember(cache: Cache, key: CacheKey, docs: seq<Doc>): Cache
  {
    if |cache| < MaxCacheSize then cache[key := docs] else cache
  }

  /** search_basic on a cache state: the documents returned and the cache afterwards. */
  function BasicSearch(cache: Cache, store: Store, query: string, k: int): (seq<Doc>, Cache)
  {
    var key := BasicKey(query, k);
    if key in cache then (cache[key], cache)
    else
      match store(query, k)
      case Raised => ([], cache)
      case Results(hits) => (DocsOf(hits), Remember(cache, key, DocsOf(hits)))
  }

  /** search_with_priority_weighting on a cache state, including the fallback to plain search. */
  function PrioritySearch(cache: Cache, store: Store, subQueriesHash: seq<Option<string>> -> int,
                          mainQuery: string, subQueries: seq<Option<string>>,
                          mainWeight: real, subWeight: real, k: int): (seq<Doc>, Cache)
  {
    var key := PriorityKey(mainQuery, subQueriesHash(subQueries), k);
    if key in cache then (cache[key], cache)
    else
      match PriorityFusion(store, mainQuery, subQueries, mainWeight, subWeight, k)
      case Some(docs) => (docs, Remember(cache, key, docs))
      case None => BasicSearch(cache, store, mainQuery, k)
  }

  /** A search never grows the cache past its bound, never drops or rewrites an entry, and adds at most one. */
  lemma SearchesKeepCacheBounded(cache: Cache, store: Store, subQueriesHash: seq<Option<string>> -> int,
                                 query: string, subQueries: seq<Option<string>>,
                                 mainWeight: real, subWeight: real, k: int)
    requires |cache| <= MaxCacheSize
    ensures var after := BasicSearch(cache, store, query, k).1;
      |after| <= MaxCacheSize && |after| <= |cache| + 1 && (forall key :: key in cache ==> key in after && after[key] == cache[key])
    ensures var after := PrioritySearch(cache, store, subQueriesHash, query, subQueries, mainWeight, subWeight, k).1;
      |after| <= MaxCacheSize && |after| <= |cache| + 1 && (forall key :: key in cache ==> key in after && after[key] == cache[key])
  {
  }

  /** The bound alone, for callers that do not need the rest. */
  lemma PrioritySearchKeepsCacheBounded(cache: Cache, store: Store, subQueriesHash: seq<Option<string>> -> int,
                                        query: string, subQueries: seq<Option<string>>,
                                        mainWeight: real, subWeight: real, k: int)
    requires |cache| <= MaxCacheSize
    ensures |PrioritySearch(cache, store, subQueriesHash, query, subQueries, mainWeight, subWeight, k).1| <= MaxCacheSize
  {
    SearchesKeepCacheBounded(cache, store, subQueriesHash, query, subQueries, mainWeight, subWeight, k);
  }

  /** A cached answer is returned as stored, whatever the store now holds and whatever the weights are. */
  lemma CacheHitIgnoresStoreAndWeights(cache: Cache, store: Store, other: Store, subQueriesHash: seq<Option<string>> -> int,
                                       mainQuery: string, subQueries: seq<Option<string>>,
                                       w1: real, w2: real, v1: real, v2: real, k: int)
    requires PriorityKey(mainQuery, subQueriesHash(subQueries), k) in cache
    ensures PrioritySearch(cache, store, subQueriesHash, mainQuery, subQueries, w1, w2, k)
         == PrioritySearch(cache, other, subQueriesHash, mainQuery, subQueries, v1, v2, k)
    ensures PrioritySearch(cache, store, subQueriesHash, mainQuery, subQueries, w1, w2, k)
         == (cache[PriorityKey(mainQuery, subQueriesHash(subQueries), k)], cache)
  {
  }

  /** A full cache is never written again; a search on it returns what the uncached computation returns. */
  lemma FullCacheIsReadOnly(cache: Cache, store: Store, subQueriesHash: seq<Option<string>> -> int,
                            mainQuery: string, subQueries: seq<Option<string>>,
                            mainWeight: real, subWeight: real, k: int)
    requires |cache| == MaxCacheSize
    ensures PrioritySearch(cache, store, subQueriesHash, mainQuery, subQueries, mainWeight, subWeight, k).1 == cache
  {
  }

  /** `documents[i:i+batch_size]` for `i in range(0, len(documents), batch_size)`. */
  function Batches(documents: seq<Doc>, batchSize: int): (bs: seq<seq<Doc>>)
    requires batchSize != 0
    ensures batchSize < 0 ==> bs == []
    ensures forall i :: 0 <= i < |bs| ==> 0 < |bs[i]| <= batchSize
    decreases |documents|
  {
    if batchSize < 0 || documents == [] then []
    else if |documents| <= batchSize then [documents]
    else [documents[..batchSize]] + Batches(documents[batchSize..], batchSize)
  }

  function Concat(bs: seq<seq<Doc>>): seq<Doc>
  {
    if bs == [] then [] else bs[0] + Concat(bs[1..])
  }

  /** With a positive batch size the batches are the documents, in order, cut into consecutive pieces. */
  lemma {:induction false} BatchesConcat(documents: seq<Doc>, batchSize: int)
    requires batchSize > 0
    ensures Concat(Batches(documents, batchSize)) == documents
    decreases |documents|
  {
    if documents != [] && |documents| > batchSize {
      BatchesConcat(documents[batchSize..], batchSize);
      var bs := Batches(documents, batchSize);
      assert bs[1..] == Batches(documents[batchSize..], batchSize);
      assert documents == documents[..batchSize] + documents[batchSize..];
    } else if documents != [] {
      assert Batches(documents, batchSize) == [documents];
      assert Concat([documents]) == documents + Concat([]);
    }
  }

  /** Adding one batch to the store: the store afterwards, or `None` when the store raises. */
  type AddBatch = (Store, seq<Doc>) -> Option<Store>

  /** The store after adding `batches` in order, and whether every call succeeded (it stops at the first failure). */
  function AddAll(store: Store, batches: seq<seq<Doc>>, addBatch: AddBatch): (Store, bool)
  {
    if batches == [] then (store, true)
    else
      match addBatch(store, batches[0])
      case None => (store, false)
      case Some(next) => AddAll(next, batches[1..], addBatch)
  }

  /** The CheeUVectorDB object: the store it searches and its search cache. */
  class CheeUVectorDB {
    var cache: Cache
    var store: Store
    /** Python's `hash` of the printed sub-query list; salted per process, so a parameter here. */
    const subQueriesHash: seq<Option<string>> -> int

    predicate Valid()
      reads this
    {
      |cache| <= MaxCacheSize
    }

    constructor(store: Store, subQueriesHash: seq<Option<string>> -> int)
      ensures Valid() && cache == map[]
      ensures this.store == store && this.subQueriesHash == subQueriesHash
    {
      this.cache := map[];
      this.store := store;
      this.subQueriesHash := subQueriesHash;
    }

    /** search_basic: answer from the cache, or search and remember while there is room; `[]` when the store raises. */
    method SearchBasic(query: string, k: int) returns (docs: seq<Doc>)
      requires Valid()
      modifies this
      ensures Valid() && store == old(store)
      ensures (docs, cache) == BasicSearch(old(cache), store, query, k)
    {
      var key := BasicKey(query, k);
      if key in cache {
        return cache[key];
      }
      var outcome := store(query, k);
      if outcome.Raised? {
        return [];
      }
      docs := DocsOf(outcome.hits);
      if |cache| < MaxCacheSize {
        cache := cache[key := docs];
      }
    }

    /** search_with_priority_weighting, with its cache and its fallback to search_basic. */
    method SearchWithPriorityWeighting(mainQuery: string, subQueries: seq<Option<string>>,
                                       mainWeight: real, subWeight: real, k: int) returns (docs: seq<Doc>)
      requires Valid()
      modifies this
      ensures Valid() && store == old(store)
      ensures (docs, cache) == PrioritySearch(old(cache), store, subQueriesHash, mainQuery, subQueries, mainWeight, subWeight, k)
    {
      var key := PriorityKey(mainQuery, subQueriesHash(subQueries), k);
      if key in cache {
        return cache[key];
      }
      var fused := PriorityWeightedFusion(store, mainQuery, subQueries, mainWeight, subWeight, k);
      if fused.None? {
        docs := SearchBasic(mainQuery, k);
        return;
      }
      docs := fused.value;
      if |cache| < MaxCacheSize {
        cache := cache[key := docs];
      }
    }

    /**
     * add_documents: hands the documents to the store in batches; the cache is
     * cleared only when every batch went in, otherwise the exception propagates
     * (reported here as `ok == false`) and the cache is left as it was.
     */
    method AddDocuments(documents: seq<Doc>, batchSize: int, addBatch: AddBatch) returns (ok: bool)
      requires Valid()
      modifies this
      ensures Valid()
      ensures batchSize == 0 ==> !ok && store == old(store) && cache == old(cache)
      ensures batchSize != 0 ==> (store, ok) == AddAll(old(store), Batches(documents, batchSize), addBatch)
      ensures ok ==> cache == map[]
      ensures !ok ==> cache == old(cache)
    {
      if batchSize == 0 {
        // range() with a zero step raises before any batch is sent.
        return false;
      }
      var batches := Batches(documents, batchSize);
      var i := 0;
      while i < |batches|
        invariant 0 <= i <= |batches|
        invariant AddAll(store, batches[i..], addBatch) == AddAll(old(store), batches, addBatch)
        invariant cache == old(cache)
      {
        var next := addBatch(store, batches[i]);
        if next.None? {
          return false;
        }
        store := next.value;
        i := i + 1;
      }
      cache := map[];
      ok := true;
    }

    /** clear_cache */
    method ClearCache()
      modifies this
      ensures Valid() && cache == map[] && store == old(store)
    {
      cache := map[];
    }
  }
}

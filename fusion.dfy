// What both versions of the priority-weighted search share: documents and
// the store's scored results, the dictionary of fused candidates keyed by
// the first 100 characters of a document (a Python dict, so it remembers the
// order keys were first inserted in), and the final step that sorts the
// candidates by descending score, stably, and keeps the first k.

module Fusion {
  import opened Common

  /** A stored document: its text and its metadata (filename, source, ...). */
  datatype Doc = Doc(content: string, metadata: map<string, string>)

  /** `page_content[:100]`: the identity under which hits of different queries are merged. */
  function DocKey(d: Doc): (p: string)
    ensures |p| <= 100 && p <= d.content
    ensures |d.content| <= 100 ==> p == d.content
  {
    SliceTo(d.content, 100)
  }

  /** One row of `similarity_search_with_score`: a document and the number the store reports with it. */
  datatype Hit = Hit(doc: Doc, distance: real)

  /** What one call to the store yields: its rows, or an exception. */
  datatype SearchOutcome = Results(hits: seq<Hit>) | Raised

  /** The vector store as seen by the pipeline: a query and a result count `k` determine the outcome. */
  type Store = (string, int) -> SearchOutcome

  /** The documents of an outcome, which is what `similarity_search` returns. */
  function DocsOf(hits: seq<Hit>): (docs: seq<Doc>)
    ensures |docs| == |hits|
    ensures forall i :: 0 <= i < |hits| ==> docs[i] == hits[i].doc
  {
    seq(|hits|, i requires 0 <= i < |hits| => hits[i].doc)
  }

  predicate Distinct<T(==)>(s: seq<T>)
  {
    forall i, j :: 0 <= i < j < |s| ==> s[i] != s[j]
  }

  /** A Python dict: its values, and its keys in first-insertion order. */
  datatype Table<V> = Table(order: seq<string>, entries: map<string, V>)

  predicate WellFormed<V>(t: Table<V>)
  {
    Distinct(t.order) && (forall p :: p in t.entries ==> p in t.order) && (forall p :: p in t.order ==> p in t.entries)
  }

  /** `d[p] = v`: a new key goes to the end; an existing key is overwritten where it stands. */
  function Put<V>(t: Table<V>, p: string, v: V): (r: Table<V>)
    ensures r.entries == t.entries[p := v]
    ensures |t.order| <= |r.order| <= |t.order| + 1 && r.order[..|t.order|] == t.order
    ensures p in t.entries ==> r.order == t.order
  {
    if p in t.entries then Table(t.order, t.entries[p := v]) else Table(t.order + [p], t.entries[p := v])
  }

  /** Every value is stored under the key of its own document. */
  predicate KeysMatch<V>(t: Table<V>, docOf: V -> Doc)
  {
    forall p :: p in t.entries ==> DocKey(docOf(t.entries[p])) == p
  }

  /** The position of a key in the dict's order. */
  function IndexOf(s: seq<string>, p: string): (i: nat)
    requires p in s
    ensures i < |s| && s[i] == p
    ensures forall j :: 0 <= j < i ==> s[j] != p
  {
    if s[0] == p then 0 else 1 + IndexOf(s[1..], p)
  }

  /**
   * Entry `p` ranks before entry `q` in `sorted(..., key=score, reverse=True)`:
   * a higher score, or an equal score and an earlier place in the dict.
   */
  predicate Outranks<V>(t: Table<V>, scoreOf: V -> real, p: string, q: string)
    requires WellFormed(t) && p in t.entries && q in t.entries
  {
    scoreOf(t.entries[p]) > scoreOf(t.entries[q])
    || (scoreOf(t.entries[p]) == scoreOf(t.entries[q]) && IndexOf(t.order, p) < IndexOf(t.order, q))
  }

  /** A candidate of the final sort: its position in the dict, its document and its score. */
  datatype Cand = Cand(pos: nat, doc: Doc, score: real)

  /** `d.values()` in dict order, each tagged with its position. */
  function Candidates<V>(t: Table<V>, docOf: V -> Doc, scoreOf: V -> real): (cs: seq<Cand>)
    requires WellFormed(t)
    ensures |cs| == |t.order|
    ensures forall i :: 0 <= i < |cs| ==>
      cs[i] == Cand(i, docOf(t.entries[t.order[i]]), scoreOf(t.entries[t.order[i]]))
  {
    seq(|t.order|, i requires 0 <= i < |t.order| =>
      Cand(i, docOf(t.entries[t.order[i]]), scoreOf(t.entries[t.order[i]])))
  }

  /** The order `sorted(..., key=score, reverse=True)` produces: higher score first, dict order among equal scores. */
  predicate Precedes(a: Cand, b: Cand)
  {
    a.score > b.score || (a.score == b.score && a.pos < b.pos)
  }

  predicate Ranked(s: seq<Cand>)
  {
    forall i, j :: 0 <= i < j < |s| ==> Precedes(s[i], s[j])
  }

  /** Puts `c` before the first element it does not score below. */
  function InsertByScore(c: Cand, s: seq<Cand>): (r: seq<Cand>)
    ensures multiset(r) == multiset(s) + multiset{c}
  {
    if s == [] then [c]
    else if c.score >= s[0].score then [c] + s
    else
      assert s == [s[0]] + s[1..];
      [s[0]] + InsertByScore(c, s[1..])
  }

  /** A stable sort by descending score. */
  function SortByScore(s: seq<Cand>): (r: seq<Cand>)
    ensures multiset(r) == multiset(s)
  {
    if s == [] then []
    else
      assert s == [s[0]] + s[1..];
      InsertByScore(s[0], SortByScore(s[1..]))
  }

  lemma {:induction false} InsertRanked(c: Cand, s: seq<Cand>)
    requires Ranked(s)
    requires forall x :: x in s ==> c.pos < x.pos
    ensures Ranked(InsertByScore(c, s))
    decreases |s|
  {
    if s == [] {
    } else if c.score >= s[0].score {
      var r := [c] + s;
      assert r == InsertByScore(c, s);
      forall i, j | 0 <= i < j < |r| ensures Precedes(r[i], r[j]) {
        if i == 0 {
          assert r[j] == s[j - 1];
          if j > 1 {
            assert Precedes(s[0], s[j - 1]);
          }
          assert s[j - 1] in s;
        } else {
          assert Precedes(s[i - 1], s[j - 1]);
        }
      }
    } else {
      var tail := s[1..];
      assert Ranked(tail) by {
        forall i, j | 0 <= i < j < |tail| ensures Precedes(tail[i], tail[j]) {
          assert Precedes(s[i + 1], s[j + 1]);
        }
      }
      forall x | x in tail ensures c.pos < x.pos {
        assert x in s;
      }
      InsertRanked(c, tail);
      var rest := InsertByScore(c, tail);
      var r := [s[0]] + rest;
      assert r == InsertByScore(c, s);
      forall i, j | 0 <= i < j < |r| ensures Precedes(r[i], r[j]) {
        if i == 0 {
          var y := rest[j - 1];
          assert y in multiset(rest);
          if y != c {
            assert y in multiset(tail);
            var m :| 0 <= m < |tail| && tail[m] == y;
            assert Precedes(s[0], s[m + 1]);
          }
        }
      }
    }
  }

  /** Sorting candidates whose positions increase yields them in `Precedes` order. */
  lemma {:induction false} SortRanked(s: seq<Cand>)
    requires forall i, j :: 0 <= i < j < |s| ==> s[i].pos < s[j].pos
    ensures Ranked(SortByScore(s))
    decreases |s|
  {
    if s != [] {
      SortRanked(s[1..]);
      var rest := SortByScore(s[1..]);
      forall x | x in rest ensures s[0].pos < x.pos {
        assert x in multiset(s[1..]);
        var m :| 0 <= m < |s[1..]| && s[1..][m] == x;
        assert s[m + 1] == x;
      }
      InsertRanked(s[0], rest);
    }
  }

  /** `sorted(...)[:k]`. */
  function Top(cands: seq<Cand>, k: int): seq<Cand>
  {
    SliceTo(SortByScore(cands), k)
  }

  /**
   * The kept candidates come first in `Precedes` order, are distinct, are all
   * candidates, and every candidate left out is preceded by each kept one.
   */
  lemma TopSpec(cands: seq<Cand>, k: int)
    requires forall i :: 0 <= i < |cands| ==> cands[i].pos == i
    ensures var top := Top(cands, k);
      && Ranked(top)
      && (0 <= k ==> |top| == if k <= |cands| then k else |cands|)
      && (forall x :: x in top ==> x in cands)
      && (forall i, j :: 0 <= i < j < |top| ==> top[i].pos != top[j].pos)
      && (forall x, y :: x in top && y in cands && y !in top ==> Precedes(x, y))
  {
    var sorted := SortByScore(cands);
    SortRanked(cands);
    var top := Top(cands, k);
    assert top <= sorted;
    assert |sorted| == |cands| by {
      assert |multiset(sorted)| == |multiset(cands)|;
    }
    forall x | x in top ensures x in cands {
      assert x in multiset(sorted);
    }
    forall i, j | 0 <= i < j < |top| ensures top[i].pos != top[j].pos {
      assert Precedes(sorted[i], sorted[j]);
      assert top[i] in cands && top[j] in cands;
    }
    forall x, y | x in top && y in cands && y !in top ensures Precedes(x, y) {
      assert y in multiset(sorted);
      var b :| 0 <= b < |sorted| && sorted[b] == y;
      var a :| 0 <= a < |top| && top[a] == x;
      assert sorted[a] == x;
    }
  }

  /** The documents of the first `k` candidates in ranking order. */
  function RankedDocs<V>(t: Table<V>, docOf: V -> Doc, scoreOf: V -> real, k: int): seq<Doc>
    requires WellFormed(t)
  {
    var top := Top(Candidates(t, docOf, scoreOf), k);
    seq(|top|, i requires 0 <= i < |top| => top[i].doc)
  }

  /** Each returned document is the one of a kept candidate, whose position is that of its key in the dict. */
  lemma RankedDocsLinks<V>(t: Table<V>, docOf: V -> Doc, scoreOf: V -> real, k: int)
    requires WellFormed(t) && KeysMatch(t, docOf)
    ensures var cands := Candidates(t, docOf, scoreOf);
      var top := Top(cands, k);
      var docs := RankedDocs(t, docOf, scoreOf, k);
      && |docs| == |top|
      && (forall i :: 0 <= i < |top| ==>
            && top[i].pos < |cands| && top[i] == cands[top[i].pos] && docs[i] == top[i].doc
            && DocKey(docs[i]) == t.order[top[i].pos] && IndexOf(t.order, DocKey(docs[i])) == top[i].pos)
  {
    var cands := Candidates(t, docOf, scoreOf);
    TopSpec(cands, k);
    var top := Top(cands, k);
    var docs := RankedDocs(t, docOf, scoreOf, k);
    forall i | 0 <= i < |top|
      ensures top[i].pos < |cands| && top[i] == cands[top[i].pos]
      ensures DocKey(docs[i]) == t.order[top[i].pos] && IndexOf(t.order, DocKey(docs[i])) == top[i].pos
    {
      assert top[i] in cands;
      var m :| 0 <= m < |cands| && cands[m] == top[i];
      assert t.order[m] in t.entries;
      var a := IndexOf(t.order, t.order[m]);
      assert t.order[a] == t.order[m];
    }
  }

  /** Score order of the result, ties broken by dict order, and no two results from the same entry. */
  lemma RankedDocsOrdered<V>(t: Table<V>, docOf: V -> Doc, scoreOf: V -> real, k: int)
    requires WellFormed(t) && KeysMatch(t, docOf)
    ensures var docs := RankedDocs(t, docOf, scoreOf, k);
      && (forall i :: 0 <= i < |docs| ==> DocKey(docs[i]) in t.entries && docs[i] == docOf(t.entries[DocKey(docs[i])]))
      && (forall i, j :: 0 <= i < j < |docs| ==> DocKey(docs[i]) != DocKey(docs[j]))
      && (forall i, j :: 0 <= i < j < |docs| ==> Outranks(t, scoreOf, DocKey(docs[i]), DocKey(docs[j])))
  {
    var cands := Candidates(t, docOf, scoreOf);
    TopSpec(cands, k);
    RankedDocsLinks(t, docOf, scoreOf, k);
    var top := Top(cands, k);
    var docs := RankedDocs(t, docOf, scoreOf, k);
    forall i, j | 0 <= i < j < |docs| ensures DocKey(docs[i]) != DocKey(docs[j]) {
      assert top[i].pos != top[j].pos;
    }
    forall i, j | 0 <= i < j < |docs| ensures Outranks(t, scoreOf, DocKey(docs[i]), DocKey(docs[j])) {
      assert Precedes(top[i], top[j]);
    }
  }

  /**
   * No dict entry left out of the result scores higher than a returned
   * document's entry, and one left out with an equal score comes later in
   * the dict: ties are cut in insertion order.
   */
  lemma RankedDocsComplete<V>(t: Table<V>, docOf: V -> Doc, scoreOf: V -> real, k: int)
    requires WellFormed(t) && KeysMatch(t, docOf)
    ensures var docs := RankedDocs(t, docOf, scoreOf, k);
      && (forall i :: 0 <= i < |docs| ==> DocKey(docs[i]) in t.entries)
      && (forall p, i :: p in t.entries && 0 <= i < |docs| && (forall j :: 0 <= j < |docs| ==> DocKey(docs[j]) != p) ==>
            Outranks(t, scoreOf, DocKey(docs[i]), p))
  {
    var cands := Candidates(t, docOf, scoreOf);
    TopSpec(cands, k);
    RankedDocsLinks(t, docOf, scoreOf, k);
    var top := Top(cands, k);
    var docs := RankedDocs(t, docOf, scoreOf, k);
    forall p, i | p in t.entries && 0 <= i < |docs| && (forall j :: 0 <= j < |docs| ==> DocKey(docs[j]) != p)
      ensures Outranks(t, scoreOf, DocKey(docs[i]), p)
    {
      var b := IndexOf(t.order, p);
      var y := cands[b];
      assert y.pos == b && y.score == scoreOf(t.entries[p]);
      assert y !in top;
      assert top[i] in top;
      assert top[i].score == scoreOf(t.entries[DocKey(docs[i])]);
      assert Precedes(top[i], y);
    }
  }

  /**
   * The ranked result: at most `k` documents (exactly `k` when there are enough),
   * each the document of a dict entry and no two from the same entry, in
   * non-increasing score order with ties in dict order, and every entry left
   * out scores lower than each one kept or ties with it and comes later in the dict.
   */
  lemma RankedDocsSpec<V>(t: Table<V>, docOf: V -> Doc, scoreOf: V -> real, k: int)
    requires WellFormed(t) && KeysMatch(t, docOf)
    ensures var docs := RankedDocs(t, docOf, scoreOf, k);
      && (0 <= k ==> |docs| == if k <= |t.order| then k else |t.order|)
      && (forall i :: 0 <= i < |docs| ==> DocKey(docs[i]) in t.entries && docs[i] == docOf(t.entries[DocKey(docs[i])]))
      && (forall i, j :: 0 <= i < j < |docs| ==> DocKey(docs[i]) != DocKey(docs[j]))
      && (forall i, j :: 0 <= i < j < |docs| ==> Outranks(t, scoreOf, DocKey(docs[i]), DocKey(docs[j])))
      && (forall p, i :: p in t.entries && 0 <= i < |docs| && (forall j :: 0 <= j < |docs| ==> DocKey(docs[j]) != p) ==>
            Outranks(t, scoreOf, DocKey(docs[i]), p))
  {
    TopSpec(Candidates(t, docOf, scoreOf), k);
    RankedDocsLinks(t, docOf, scoreOf, k);
    RankedDocsOrdered(t, docOf, scoreOf, k);
    RankedDocsComplete(t, docOf, scoreOf, k);
  }

  /**
   * When the dict `t` grew from `a` by appending keys, every key already in `a`
   * comes before every key added later.
   */
  lemma OldKeysFirst<V>(a: Table<V>, t: Table<V>)
    requires WellFormed(a) && WellFormed(t) && a.order <= t.order
    ensures forall p, q :: p in a.entries && q in t.entries && q !in a.entries ==>
      IndexOf(t.order, p) < IndexOf(t.order, q)
  {
    forall p, q | p in a.entries && q in t.entries && q !in a.entries
      ensures IndexOf(t.order, p) < IndexOf(t.order, q)
    {
      var m :| 0 <= m < |a.order| && a.order[m] == p;
      assert t.order[m] == p;
      assert q !in a.order;
    }
  }

  /**
   * So when `t` grew from `a` by appending keys, a key of `t` that `a` lacks and
   * that ties with a key of `a` is returned only after that key.
   */
  lemma OldKeyWinsTie<V>(a: Table<V>, t: Table<V>, docOf: V -> Doc, scoreOf: V -> real, k: int, p: string, q: string)
    requires WellFormed(a) && WellFormed(t) && KeysMatch(t, docOf) && a.order <= t.order
    requires p in a.entries && q in t.entries && q !in a.entries
    requires p in t.entries && scoreOf(t.entries[p]) == scoreOf(t.entries[q])
    ensures var docs := RankedDocs(t, docOf, scoreOf, k);
      forall j :: 0 <= j < |docs| && DocKey(docs[j]) == q ==> exists i :: 0 <= i < j && DocKey(docs[i]) == p
  {
    var docs := RankedDocs(t, docOf, scoreOf, k);
    RankedDocsSpec(t, docOf, scoreOf, k);
    OldKeysFirst(a, t);
    assert IndexOf(t.order, p) < IndexOf(t.order, q);
    forall j | 0 <= j < |docs| && DocKey(docs[j]) == q ensures exists i :: 0 <= i < j && DocKey(docs[i]) == p {
      assert !Outranks(t, scoreOf, q, p);
      var i :| 0 <= i < |docs| && DocKey(docs[i]) == p;
      assert i != j;
    }
  }
}

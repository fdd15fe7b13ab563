/**
 * The ranking half of the job recommender: each distinct hit is summarised
 * into a posting and scored, the postings are sorted by fit, best first, the
 * top ones are kept, and each is printed as a Markdown table row. The model's
 * summaries and scores are inputs here.
 */
module JobRanking {
  import opened Wrappers
  import opened Text
  import opened JobSearch

  /** A recommended job: the fields the ranking and the table read. */
  datatype JobPosting = JobPosting(
    title: string,
    company: Option<string>,
    location: Option<string>,
    url: Option<string>,
    summary: Option<string>,
    fitScore: Option<real>)

  // ----- Summarising and scoring -----

  /**
   * `summarize_hit`: the posting the model's reply describes (`reply`, `None`
   * when the reply is empty or does not parse), with the hit's URL filled in
   * when the reply has none.
   */
  function SummarizeHit(reply: SearchHit -> Option<JobPosting>, h: SearchHit): (p: Option<JobPosting>)
    ensures p.Some? <==> reply(h).Some?
    ensures p.Some? ==> p.value == reply(h).value.(url := p.value.url)
    ensures p.Some? && OrElse(reply(h).value.url, "") == "" ==> p.value.url == Some(h.url)
    ensures p.Some? && OrElse(reply(h).value.url, "") != "" ==> p.value.url == reply(h).value.url
  {
    match reply(h)
    case None => None
    case Some(jp) => Some(if OrElse(jp.url, "") == "" then jp.(url := Some(h.url)) else jp)
  }

  /** The postings the scoring loop builds from `hits`, in order, each with its fit score set. */
  function Scored(hits: seq<SearchHit>, reply: SearchHit -> Option<JobPosting>, score: JobPosting -> real): seq<JobPosting>
  {
    if hits == [] then []
    else
      var p := SummarizeHit(reply, hits[|hits| - 1]);
      Scored(hits[..|hits| - 1], reply, score) + (if p.Some? then [p.value.(fitScore := Some(score(p.value)))] else [])
  }

  /**
   * At most one posting per hit, every posting scored, and every posting
   * carrying a URL when the hits do.
   */
  lemma {:induction false} ScoredProperties(hits: seq<SearchHit>, reply: SearchHit -> Option<JobPosting>, score: JobPosting -> real)
    ensures |Scored(hits, reply, score)| <= |hits|
    ensures forall k :: 0 <= k < |Scored(hits, reply, score)| ==> Scored(hits, reply, score)[k].fitScore.Some?
    ensures (forall k :: 0 <= k < |hits| ==> hits[k].url != "") ==>
      forall k :: 0 <= k < |Scored(hits, reply, score)| ==> OrElse(Scored(hits, reply, score)[k].url, "") != ""
  {
    if hits != [] {
      var init := hits[..|hits| - 1];
      ScoredProperties(init, reply, score);
      if forall k :: 0 <= k < |hits| ==> hits[k].url != "" {
        assert forall k :: 0 <= k < |init| ==> init[k].url != "" by {
          forall k | 0 <= k < |init| ensures init[k].url != "" {
            assert init[k] == hits[k];
          }
        }
      }
    }
  }

  /** When every reply parses, every hit yields a posting. */
  lemma {:induction false} ScoredKeepsParsed(hits: seq<SearchHit>, reply: SearchHit -> Option<JobPosting>, score: JobPosting -> real)
    requires forall k :: 0 <= k < |hits| ==> reply(hits[k]).Some?
    ensures |Scored(hits, reply, score)| == |hits|
  {
    if hits != [] {
      var init := hits[..|hits| - 1];
      assert forall k :: 0 <= k < |init| ==> init[k] == hits[k];
      ScoredKeepsParsed(init, reply, score);
    }
  }

  /** The loop of `recommend` that summarises each distinct hit and scores the postings it gets. */
  method ScorePostings(hits: seq<SearchHit>, reply: SearchHit -> Option<JobPosting>, score: JobPosting -> real)
    returns (postings: seq<JobPosting>)
    ensures postings == Scored(hits, reply, score)
  {
    postings := [];
    for i := 0 to |hits|
      invariant postings == Scored(hits[..i], reply, score)
    {
      assert hits[..i + 1][..i] == hits[..i];
      var jp := SummarizeHit(reply, hits[i]);
      if jp.Some? {
        var scored := jp.value.(fitScore := Some(score(jp.value)));
        postings := postings + [scored];
      }
    }
    assert hits[..|hits|] == hits;
  }

  // ----- Sorting by fit -----

  /** `x.fit_score or 0.0`: the sort key, with an unscored posting counting as 0. */
  function Key(p: JobPosting): real
  {
    p.fitScore.GetOr(0.0)
  }

  /** Best fit first. */
  predicate SortedByFit(s: seq<JobPosting>)
  {
    forall i, j :: 0 <= i < j < |s| ==> Key(s[i]) >= Key(s[j])
  }

  /** `t` with `x` placed after every posting that fits at least as well. */
  function Insert(x: JobPosting, t: seq<JobPosting>): (r: seq<JobPosting>)
    ensures |r| == |t| + 1
  {
    if t == [] || Key(t[|t| - 1]) >= Key(x) then t + [x]
    else Insert(x, t[..|t| - 1]) + [t[|t| - 1]]
  }

  /** The stable sort by descending fit, as insertion of each posting in turn. */
  function SortByFit(s: seq<JobPosting>): (r: seq<JobPosting>)
    ensures |r| == |s|
  {
    if s == [] then [] else Insert(s[|s| - 1], SortByFit(s[..|s| - 1]))
  }

  /** The postings of `s` with key `k`, in their order in `s`. */
  function WithKey(s: seq<JobPosting>, k: real): seq<JobPosting>
  {
    if s == [] then []
    else WithKey(s[..|s| - 1], k) + (if Key(s[|s| - 1]) == k then [s[|s| - 1]] else [])
  }

  lemma WithKeyAppend(s: seq<JobPosting>, x: JobPosting, k: real)
    ensures WithKey(s + [x], k) == WithKey(s, k) + (if Key(x) == k then [x] else [])
  {
    assert (s + [x])[..|s|] == s;
  }

  /** Insertion adds `x` and nothing else. */
  lemma {:induction false} InsertMembers(x: JobPosting, t: seq<JobPosting>)
    ensures forall y :: y in Insert(x, t) <==> y == x || y in t
  {
    if !(t == [] || Key(t[|t| - 1]) >= Key(x)) {
      var init := t[..|t| - 1];
      InsertMembers(x, init);
      assert t == init + [t[|t| - 1]];
    }
  }

  lemma {:induction false} InsertOrdered(x: JobPosting, t: seq<JobPosting>)
    requires SortedByFit(t)
    ensures SortedByFit(Insert(x, t))
  {
    if !(t == [] || Key(t[|t| - 1]) >= Key(x)) {
      var init := t[..|t| - 1];
      var last := t[|t| - 1];
      InsertOrdered(x, init);
      InsertMembers(x, init);
      var r := Insert(x, init);
      forall y | y in r ensures Key(y) >= Key(last) {
        if y != x {
          var m :| 0 <= m < |init| && init[m] == y;
          assert t[m] == y;
        }
      }
      var r' := r + [last];
      forall i, j | 0 <= i < j < |r'| ensures Key(r'[i]) >= Key(r'[j]) {
        if j == |r| {
          assert r'[i] == r[i];
        } else {
          assert r'[i] == r[i] && r'[j] == r[j];
        }
      }
    }
  }

  lemma {:induction false} InsertPermutes(x: JobPosting, t: seq<JobPosting>)
    ensures multiset(Insert(x, t)) == multiset(t) + multiset{x}
  {
    if !(t == [] || Key(t[|t| - 1]) >= Key(x)) {
      var init := t[..|t| - 1];
      InsertPermutes(x, init);
      assert t == init + [t[|t| - 1]];
    }
  }

  /** Insertion puts `x` after every posting with its key. */
  lemma {:induction false} InsertWithKey(x: JobPosting, t: seq<JobPosting>, k: real)
    requires SortedByFit(t)
    ensures WithKey(Insert(x, t), k) == WithKey(t, k) + (if Key(x) == k then [x] else [])
  {
    if t == [] || Key(t[|t| - 1]) >= Key(x) {
      WithKeyAppend(t, x, k);
    } else {
      var init := t[..|t| - 1];
      var last := t[|t| - 1];
      assert t == init + [last];
      InsertWithKey(x, init, k);
      WithKeyAppend(Insert(x, init), last, k);
      WithKeyAppend(init, last, k);
    }
  }

  /**
   * The sort orders by fit, best first, loses and invents no posting, and is
   * stable: postings with equal fit keep their relative order.
   */
  lemma {:induction false} SortByFitCorrect(s: seq<JobPosting>)
    ensures SortedByFit(SortByFit(s))
    ensures multiset(SortByFit(s)) == multiset(s)
    ensures forall k :: WithKey(SortByFit(s), k) == WithKey(s, k)
  {
    if s != [] {
      var init := s[..|s| - 1];
      assert s == init + [s[|s| - 1]];
      SortByFitCorrect(init);
      InsertOrdered(s[|s| - 1], SortByFit(init));
      InsertPermutes(s[|s| - 1], SortByFit(init));
      forall k ensures WithKey(SortByFit(s), k) == WithKey(s, k) {
        InsertWithKey(s[|s| - 1], SortByFit(init), k);
        WithKeyAppend(init, s[|s| - 1], k);
      }
    }
  }

  /** Sorted, the same postings, and stable: the sort is determined, whatever algorithm performs it. */
  lemma {:induction false} SortedStableIsUnique(a: seq<JobPosting>, b: seq<JobPosting>)
    requires SortedByFit(a) && SortedByFit(b)
    requires multiset(a) == multiset(b)
    requires forall k :: WithKey(a, k) == WithKey(b, k)
    ensures a == b
  {
    assert |a| == |multiset(a)| == |multiset(b)| == |b|;
    if a != [] {
      LastAgrees(a, b);
      var last := a[|a| - 1];
      var a' := a[..|a| - 1];
      var b' := b[..|b| - 1];
      MultisetDropLast(a, b);
      forall k ensures WithKey(a', k) == WithKey(b', k) {
        DropLastWithKey(a, b, k);
      }
      SortedStableIsUnique(a', b');
    }
  }

  lemma MultisetDropLast(a: seq<JobPosting>, b: seq<JobPosting>)
    requires a != [] && b != [] && a[|a| - 1] == b[|b| - 1]
    requires multiset(a) == multiset(b)
    ensures multiset(a[..|a| - 1]) == multiset(b[..|b| - 1])
  {
    var last := a[|a| - 1];
    var ma, mb := multiset(a[..|a| - 1]), multiset(b[..|b| - 1]);
    assert a == a[..|a| - 1] + [last] && b == b[..|b| - 1] + [last];
    assert multiset(a) == ma + multiset{last};
    assert multiset(b) == mb + multiset{last};
    forall y ensures ma[y] == mb[y] {
      assert multiset(a)[y] == multiset(b)[y];
    }
  }

  /** Any stable sort by descending fit, such as Python's, gives exactly `SortByFit`. */
  lemma StableSortIsSortByFit(s: seq<JobPosting>, r: seq<JobPosting>)
    requires SortedByFit(r) && multiset(r) == multiset(s)
    requires forall k :: WithKey(r, k) == WithKey(s, k)
    ensures r == SortByFit(s)
  {
    SortByFitCorrect(s);
    SortedStableIsUnique(r, SortByFit(s));
  }

  /** Two sorted lists with the same postings of every key end with the same posting. */
  lemma LastAgrees(a: seq<JobPosting>, b: seq<JobPosting>)
    requires SortedByFit(a) && SortedByFit(b) && a != [] && b != []
    requires forall k :: WithKey(a, k) == WithKey(b, k)
    ensures a[|a| - 1] == b[|b| - 1]
  {
    var ka := Key(a[|a| - 1]);
    var kb := Key(b[|b| - 1]);
    WithKeyLast(a);
    WithKeyLast(b);
    // the last of each list has the least key, and both lists hold the same postings of that key
    if ka < kb {
      WithKeyMember(b, ka);
      assert false;
    } else if kb < ka {
      WithKeyMember(a, kb);
      assert false;
    }
    assert WithKey(a, ka) == WithKey(b, kb);
  }

  /** Removing the same last posting keeps the postings of every key equal. */
  lemma DropLastWithKey(a: seq<JobPosting>, b: seq<JobPosting>, k: real)
    requires a != [] && b != [] && a[|a| - 1] == b[|b| - 1]
    requires WithKey(a, k) == WithKey(b, k)
    ensures WithKey(a[..|a| - 1], k) == WithKey(b[..|b| - 1], k)
  {
    var last := a[|a| - 1];
    var a' := a[..|a| - 1];
    var b' := b[..|b| - 1];
    var tail := if Key(last) == k then [last] else [];
    assert WithKey(a, k) == WithKey(a', k) + tail;
    assert WithKey(b, k) == WithKey(b', k) + tail;
    assert WithKey(a', k) == WithKey(a, k)[..|WithKey(a', k)|];
    assert WithKey(b', k) == WithKey(b, k)[..|WithKey(b', k)|];
  }

  /** The last posting of a list is the last one with its key. */
  lemma WithKeyLast(s: seq<JobPosting>)
    requires s != []
    ensures WithKey(s, Key(s[|s| - 1])) != [] && WithKey(s, Key(s[|s| - 1]))[|WithKey(s, Key(s[|s| - 1]))| - 1] == s[|s| - 1]
  {
  }

  /** In a sorted list, a key below the last one's has no postings. */
  lemma {:induction false} WithKeyMember(s: seq<JobPosting>, k: real)
    requires SortedByFit(s) && s != [] && k < Key(s[|s| - 1])
    ensures WithKey(s, k) == []
  {
    var init := s[..|s| - 1];
    if init != [] {
      assert Key(init[|init| - 1]) >= Key(s[|s| - 1]);
      WithKeyMember(init, k);
    }
  }

  /**
   * Where the insertion puts `x`: after the last posting that fits at least as
   * well, with only worse-fitting postings behind it.
   */
  lemma {:induction false} InsertAfter(x: JobPosting, t: seq<JobPosting>, j: nat)
    requires j <= |t| && (j == 0 || Key(t[j - 1]) >= Key(x))
    requires forall m :: j <= m < |t| ==> Key(t[m]) < Key(x)
    ensures Insert(x, t) == t[..j] + [x] + t[j..]
    decreases |t|
  {
    if |t| == j {
      assert t[..j] == t && t[j..] == [];
    } else {
      var init := t[..|t| - 1];
      assert init[..j] == t[..j];
      InsertAfter(x, init, j);
      assert init[j..] + [t[|t| - 1]] == t[j..];
    }
  }

  /** One pass of the insertion sort: `a[i]` shifted left into the prefix `a[..i]`. */
  method InsertAt(a: array<JobPosting>, i: nat)
    requires i < a.Length
    modifies a
    ensures a[..i + 1] == Insert(old(a[i]), old(a[..i]))
    ensures a[i + 1..] == old(a[i + 1..])
  {
    var x := a[i];
    ghost var t := a[..i];
    var j := i;
    while j > 0 && Key(a[j - 1]) < Key(x)
      invariant 0 <= j <= i
      invariant forall m :: 0 <= m < j ==> a[m] == t[m]
      invariant forall m :: j < m <= i ==> a[m] == t[m - 1]
      invariant forall m :: i < m < a.Length ==> a[m] == old(a[m])
      invariant forall m :: j <= m < i ==> Key(t[m]) < Key(x)
    {
      a[j] := a[j - 1];
      j := j - 1;
    }
    a[j] := x;
    InsertAfter(x, t, j);
    SortedInsertStep(a[..i + 1], t, x, j);
    assert a[i + 1..] == old(a[i + 1..]);
  }

  /**
   * `postings.sort(key=..., reverse=True)`: insertion sort in place, each
   * posting shifted left past those that fit worse.
   */
  method SortPostings(a: array<JobPosting>)
    modifies a
    ensures a[..] == SortByFit(old(a[..]))
  {
    ghost var s := a[..];
    for i := 0 to a.Length
      invariant a[..i] == SortByFit(s[..i])
      invariant a[i..] == s[i..]
    {
      assert a[i] == s[i];
      InsertAt(a, i);
      SortStep(s, i);
    }
    assert s[..a.Length] == s;
  }

  /** The array after one pass holds `t` with `x` slotted in at `j`. */
  lemma SortedInsertStep(after: seq<JobPosting>, t: seq<JobPosting>, x: JobPosting, j: nat)
    requires j <= |t| && |after| == |t| + 1 && after[j] == x
    requires forall m :: 0 <= m < j ==> after[m] == t[m]
    requires forall m :: j < m < |after| ==> after[m] == t[m - 1]
    ensures after == t[..j] + [x] + t[j..]
  {
  }

  lemma SortStep(s: seq<JobPosting>, i: nat)
    requires i < |s|
    ensures SortByFit(s[..i + 1]) == Insert(s[i], SortByFit(s[..i]))
  {
    assert s[..i + 1][..i] == s[..i];
  }

  // ----- The top of the list -----

  /** Python's `s[:k]` for any integer `k`: a negative `k` drops that many from the end. */
  function SliceTo(s: seq<JobPosting>, k: int): (r: seq<JobPosting>)
    ensures |r| <= |s| && r == s[..|r|]
    ensures k >= 0 ==> |r| == if k < |s| then k else |s|
    ensures k < 0 ==> |r| == if |s| + k > 0 then |s| + k else 0
  {
    if k >= 0 then (if k < |s| then s[..k] else s)
    else (if |s| + k > 0 then s[..|s| + k] else [])
  }

  /** The recommendations of `recommend` from its hits: the top `topK` scored postings of the distinct hits, best first. */
  function Ranked(hits: seq<SearchHit>, reply: SearchHit -> Option<JobPosting>, score: JobPosting -> real, topK: int): seq<JobPosting>
  {
    SliceTo(SortByFit(Scored(FirstHits(hits), reply, score)), topK)
  }

  /**
   * The pipeline of `recommend` after the profile is read: settle the target
   * roles, build the queries, search, de-duplicate by URL, summarise and score,
   * sort and cut. `parsedRoles` and `parsedQueries` stand for the model's
   * parsed replies, `search`, `reply` and `score` for the search, summary and
   * scoring calls.
   */
  method Recommend(
    profile: Profile, location: Option<string>, topK: int,
    parsedRoles: Option<seq<string>>, parsedQueries: Option<seq<string>>,
    search: string -> seq<SearchItem>, reply: SearchHit -> Option<JobPosting>, score: JobPosting -> real)
    returns (top: seq<JobPosting>)
    ensures top == Ranked(AllHits(GenQueries(parsedQueries, profile,
      Preference(GuessedRoles(parsedRoles, profile.currentTitle), location)), search), reply, score, topK)
  {
    var pref := Preference(GuessedRoles(parsedRoles, profile.currentTitle), location);
    var queries := GenQueries(parsedQueries, profile, pref);
    var hits := SearchJobs(queries, search);
    var uniq := DedupByUrl(hits);
    var postings := ScorePostings(uniq, reply, score);
    var a := new JobPosting[|postings|](i requires 0 <= i < |postings| => postings[i]);
    assert a[..] == postings;
    SortPostings(a);
    top := SliceTo(a[..], topK);
  }

  /** The recommendations are the best of the scored postings, best first, and at most `topK` of them. */
  lemma RankedIsTop(hits: seq<SearchHit>, reply: SearchHit -> Option<JobPosting>, score: JobPosting -> real, topK: int)
    ensures var top := Ranked(hits, reply, score, topK);
      var scored := Scored(FirstHits(hits), reply, score);
      var rest := SortByFit(scored)[|top|..];
      SortedByFit(top) && (topK >= 0 ==> |top| <= topK)
      && multiset(top) + multiset(rest) == multiset(scored)
      && forall p, q :: p in top && q in rest ==> Key(p) >= Key(q)
  {
    var scored := Scored(FirstHits(hits), reply, score);
    var sorted := SortByFit(scored);
    var top := Ranked(hits, reply, score, topK);
    var rest := sorted[|top|..];
    SortByFitCorrect(scored);
    assert sorted == top + rest;
    PrefixBeatsRest(sorted, |top|);
  }

  /** In a list sorted by fit, every posting of a prefix fits at least as well as every posting after it. */
  lemma PrefixBeatsRest(sorted: seq<JobPosting>, n: nat)
    requires SortedByFit(sorted) && n <= |sorted|
    ensures forall p, q :: p in sorted[..n] && q in sorted[n..] ==> Key(p) >= Key(q)
  {
    forall p, q | p in sorted[..n] && q in sorted[n..] ensures Key(p) >= Key(q) {
      var i :| 0 <= i < n && sorted[..n][i] == p;
      var j :| 0 <= j < |sorted| - n && sorted[n..][j] == q;
      assert sorted[i] == p && sorted[n + j] == q;
    }
  }

  /** Every recommendation is scored. */
  lemma RankedAreScored(hits: seq<SearchHit>, reply: SearchHit -> Option<JobPosting>, score: JobPosting -> real, topK: int)
    ensures forall p :: p in Ranked(hits, reply, score, topK) ==> p.fitScore.Some?
  {
    var scored := Scored(FirstHits(hits), reply, score);
    var sorted := SortByFit(scored);
    SortByFitCorrect(scored);
    ScoredProperties(FirstHits(hits), reply, score);
    forall p | p in Ranked(hits, reply, score, topK) ensures p.fitScore.Some? {
      assert p in sorted;
      assert p in multiset(scored);
      var m :| 0 <= m < |scored| && scored[m] == p;
    }
  }

  // ----- The Markdown table -----

  /** A table cell with every `|` turned into `/`, as the title and company get. */
  function Escape(s: string): (r: string)
    ensures |r| == |s| && '|' !in r
    ensures '|' !in s ==> r == s
  {
    Replace(s, '|', '/')
  }

  /** The score column: the formatted score (`fmt` stands for `:.2f`), or "-" for an unscored posting. */
  function ScoreCell(j: JobPosting, fmt: real -> string): string
  {
    if j.fitScore.Some? then fmt(j.fitScore.value) else "-"
  }

  /** `row` as written: title and company escaped, location and URL not. */
  function Row(j: JobPosting, fmt: real -> string): string
  {
    "| " + Escape(j.title) + " | " + Escape(OrElse(j.company, "")) + " | " + OrElse(j.location, "")
      + " | " + ScoreCell(j, fmt) + " | " + OrElse(j.url, "") + " |"
  }

  /** `row` with every text cell escaped. */
  function RowEscaped(j: JobPosting, fmt: real -> string): string
  {
    "| " + Escape(j.title) + " | " + Escape(OrElse(j.company, "")) + " | " + Escape(OrElse(j.location, ""))
      + " | " + ScoreCell(j, fmt) + " | " + Escape(OrElse(j.url, "")) + " |"
  }

  /** A row of five cells holds six bars plus those inside the cells. */
  lemma RowBars(c1: string, c2: string, c3: string, c4: string, c5: string)
    ensures Count("| " + c1 + " | " + c2 + " | " + c3 + " | " + c4 + " | " + c5 + " |", '|')
      == 6 + Count(c1, '|') + Count(c2, '|') + Count(c3, '|') + Count(c4, '|') + Count(c5, '|')
  {
    assert Count("| ", '|') == 1;
    assert Count(" | ", '|') == 1;
    assert Count(" |", '|') == 1;
    var s1 := "| " + c1;
    CountAppend("| ", c1, '|');
    var s2 := s1 + " | ";
    CountAppend(s1, " | ", '|');
    var s3 := s2 + c2;
    CountAppend(s2, c2, '|');
    var s4 := s3 + " | ";
    CountAppend(s3, " | ", '|');
    var s5 := s4 + c3;
    CountAppend(s4, c3, '|');
    var s6 := s5 + " | ";
    CountAppend(s5, " | ", '|');
    var s7 := s6 + c4;
    CountAppend(s6, c4, '|');
    var s8 := s7 + " | ";
    CountAppend(s7, " | ", '|');
    var s9 := s8 + c5;
    CountAppend(s8, c5, '|');
    CountAppend(s9, " |", '|');
  }

  /** As written, every `|` inside the location or the URL adds a column to the row. */
  lemma RowColumns(j: JobPosting, fmt: real -> string)
    requires '|' !in ScoreCell(j, fmt)
    ensures Count(Row(j, fmt), '|') == 6 + Count(OrElse(j.location, ""), '|') + Count(OrElse(j.url, ""), '|')
  {
    RowBars(Escape(j.title), Escape(OrElse(j.company, "")), OrElse(j.location, ""), ScoreCell(j, fmt), OrElse(j.url, ""));
    CountAbsent(Escape(j.title), '|');
    CountAbsent(Escape(OrElse(j.company, "")), '|');
    CountAbsent(ScoreCell(j, fmt), '|');
  }

  /** With every cell escaped, each row has exactly the five columns of the table's header. */
  lemma RowEscapedHasFiveColumns(j: JobPosting, fmt: real -> string)
    requires forall x :: '|' !in fmt(x)
    ensures Count(RowEscaped(j, fmt), '|') == 6
  {
    if j.fitScore.Some? {
      var v := j.fitScore.value;
      assert '|' !in fmt(v);
      assert ScoreCell(j, fmt) == fmt(v);
    } else {
      assert ScoreCell(j, fmt) == "-";
    }
    RowBars(Escape(j.title), Escape(OrElse(j.company, "")), Escape(OrElse(j.location, "")),
      ScoreCell(j, fmt), Escape(OrElse(j.url, "")));
    CountAbsent(Escape(j.title), '|');
    CountAbsent(Escape(OrElse(j.company, "")), '|');
    CountAbsent(Escape(OrElse(j.location, "")), '|');
    CountAbsent(ScoreCell(j, fmt), '|');
    CountAbsent(Escape(OrElse(j.url, "")), '|');
  }

  /** The two rows differ only when the location or the URL holds a `|`. */
  lemma RowAgreesWithoutBars(j: JobPosting, fmt: real -> string)
    requires '|' !in OrElse(j.location, "") && '|' !in OrElse(j.url, "")
    ensures Row(j, fmt) == RowEscaped(j, fmt)
  {
  }

  /** A posting whose location names two places. */
  const TwoPlaces: JobPosting := JobPosting("Engineer", None, Some("Beijing" + " | " + "Remote"), None, None, None)

  /** The location of that posting holds one bar. */
  lemma TwoPlacesBar()
    ensures Count(OrElse(TwoPlaces.location, ""), '|') == 1
  {
    assert '|' !in "Beijing" && '|' !in "Remote";
    CountAbsent("Beijing", '|');
    CountAbsent("Remote", '|');
    assert Count(" | ", '|') == 1;
    CountAppend("Beijing", " | ", '|');
    CountAppend("Beijing" + " | ", "Remote", '|');
  }

  /** As written, the `|` in that location splits it over two columns: the row has six cells, not five. */
  lemma RowSplitsLocation(fmt: real -> string)
    ensures Count(Row(TwoPlaces, fmt), '|') == 7
  {
    assert ScoreCell(TwoPlaces, fmt) == "-";
    RowColumns(TwoPlaces, fmt);
    TwoPlacesBar();
    CountAbsent("", '|');
  }
}

/**
 * The deterministic steps of the job recommender around its language-model
 * and web-search calls: the fallback search queries, the guessed target roles,
 * the filter that turns search results into hits, and the de-duplication of
 * hits by URL. Model and search outputs are inputs here.
 */
module JobSearch {
  import opened Wrappers
  import opened Text

  /** Python's `x or default` on an optional string: `None` and "" both fall back. */
  function OrElse(x: Option<string>, default: string): (r: string)
    ensures x.Some? && x.value != "" ==> r == x.value
    ensures x.None? || x.value == "" ==> r == default
  {
    if x.Some? && x.value != "" then x.value else default
  }

  /** Python's `s[:n]` for a non-negative `n`. */
  function Take<T>(s: seq<T>, n: nat): (r: seq<T>)
    ensures |r| <= n && |r| <= |s|
    ensures |r| == if |s| <= n then |s| else n
    ensures r == s[..|r|]
    ensures |s| <= n ==> r == s
  {
    if |s| <= n then s else s[..n]
  }

  // ----- Fallback queries -----

  /** The parts of the candidate profile and of the preferences the fallback reads. */
  datatype Profile = Profile(currentTitle: Option<string>, skills: seq<string>)
  datatype Preference = Preference(targetRoles: seq<string>, location: Option<string>)

  const DefaultTitle: string := "工程师"
  const QuerySuffix: string := " hiring requirements"

  /** The roles the fallback searches for: the target roles, or else the current title, or else "engineer". */
  function BaseRoles(profile: Profile, pref: Preference): (base: seq<string>)
    ensures |base| >= 1
    ensures pref.targetRoles != [] ==> base == pref.targetRoles
    ensures pref.targetRoles == [] ==> base == [OrElse(profile.currentTitle, DefaultTitle)]
  {
    if pref.targetRoles != [] then pref.targetRoles else [OrElse(profile.currentTitle, DefaultTitle)]
  }

  /** The skills part of every fallback query: at most the first four skills, joined with ", ". */
  function SkillsPart(profile: Profile): string
  {
    Join(Take(profile.skills, 4), ", ")
  }

  /** One fallback query. */
  function Query(role: string, skills: string, loc: string): string
  {
    role + " " + skills + " " + loc + QuerySuffix
  }

  /**
   * The fallback of `gen_queries` when the model's reply is not JSON: one query
   * per base role, each naming the role, the first four skills and the location
   * (default "Remote").
   */
  function FallbackQueries(profile: Profile, pref: Preference): (qs: seq<string>)
    ensures |qs| == |BaseRoles(profile, pref)|
    ensures forall i :: 0 <= i < |qs| ==>
      qs[i] == Query(BaseRoles(profile, pref)[i], SkillsPart(profile), OrElse(pref.location, "Remote"))
  {
    var base := BaseRoles(profile, pref);
    var skills := SkillsPart(profile);
    var loc := OrElse(pref.location, "Remote");
    seq(|base|, i requires 0 <= i < |base| => Query(base[i], skills, loc))
  }

  /** Each fallback query begins with its role and ends with the location and the fixed suffix; at most four skills are named. */
  lemma FallbackQueryShape(profile: Profile, pref: Preference, i: nat)
    requires i < |FallbackQueries(profile, pref)|
    ensures var q := FallbackQueries(profile, pref)[i];
      var role := BaseRoles(profile, pref)[i];
      var tail := OrElse(pref.location, "Remote") + QuerySuffix;
      |q| >= |role| + |tail| && q[..|role|] == role && q[|q| - |tail|..] == tail
    ensures |Take(profile.skills, 4)| <= 4
  {
    var q := FallbackQueries(profile, pref)[i];
    var role := BaseRoles(profile, pref)[i];
    var loc := OrElse(pref.location, "Remote");
    assert q == role + (" " + SkillsPart(profile) + " ") + (loc + QuerySuffix);
  }

  /** Without target roles and without a title there is exactly one query, for "engineer", in "Remote" when no location is set. */
  lemma FallbackWithoutRoles(profile: Profile, pref: Preference)
    requires pref.targetRoles == [] && profile.currentTitle.None? && pref.location.None?
    ensures FallbackQueries(profile, pref) == [Query(DefaultTitle, SkillsPart(profile), "Remote")]
  {
  }

  /**
   * `gen_queries`: the queries the model returned when its reply parses as a
   * list (`parsed`), otherwise the fallback queries.
   */
  function GenQueries(parsed: Option<seq<string>>, profile: Profile, pref: Preference): (qs: seq<string>)
    ensures parsed.Some? ==> qs == parsed.value
    ensures parsed.None? ==> qs == FallbackQueries(profile, pref) && |qs| >= 1
  {
    match parsed
    case Some(q) => q
    case None => FallbackQueries(profile, pref)
  }

  // ----- Guessed target roles -----

  /**
   * The roles `recommend` settles on: the first five of the model's parsed
   * answer, or, when the answer does not parse (`None`), the current title or
   * "Software Engineer".
   */
  function GuessedRoles(parsed: Option<seq<string>>, currentTitle: Option<string>): (roles: seq<string>)
    ensures |roles| <= 5
    ensures parsed.Some? ==> |roles| <= |parsed.value| && roles == parsed.value[..|roles|]
    ensures parsed.Some? && |parsed.value| >= 5 ==> |roles| == 5
    ensures parsed.Some? && |parsed.value| <= 5 ==> roles == parsed.value
    ensures parsed.None? ==> roles == [OrElse(currentTitle, "Software Engineer")]
  {
    match parsed
    case Some(rs) => Take(rs, 5)
    case None => [OrElse(currentTitle, "Software Engineer")]
  }

  // ----- Search hits -----

  /** One search result: the fields `search_jobs` reads, each possibly missing. */
  datatype SearchItem = SearchItem(title: Option<string>, url: Option<string>, content: Option<string>, rawContent: Option<string>)

  datatype SearchHit = SearchHit(title: string, url: string, content: string)

  /** The most characters of a snippet a hit keeps. */
  const MaxContent: nat := 5000

  /** `item.get("content", '') or item.get("raw_content", '')` */
  function Snippet(item: SearchItem): string
  {
    OrElse(item.content, OrElse(item.rawContent, ""))
  }

  /** The hit a search result yields: only results with a URL and a snippet, the snippet cut to 5000 characters. */
  function HitOf(item: SearchItem): (h: Option<SearchHit>)
    ensures h.Some? <==> OrElse(item.url, "") != "" && Snippet(item) != ""
    ensures h.Some? ==> h.value.url == OrElse(item.url, "") && h.value.title == OrElse(item.title, "")
    ensures h.Some? ==> |h.value.content| <= MaxContent && |h.value.content| <= |Snippet(item)|
    ensures h.Some? ==> |h.value.content| == if |Snippet(item)| <= MaxContent then |Snippet(item)| else MaxContent
    ensures h.Some? ==> h.value.content == Snippet(item)[..|h.value.content|]
    ensures h.Some? && |Snippet(item)| <= MaxContent ==> h.value.content == Snippet(item)
  {
    var url := OrElse(item.url, "");
    var snippet := Snippet(item);
    if url != "" && snippet != "" then Some(SearchHit(OrElse(item.title, ""), url, Take(snippet, MaxContent)))
    else None
  }

  /** The hits of one result list, in order. */
  function HitsOf(items: seq<SearchItem>): seq<SearchHit>
  {
    if items == [] then []
    else
      var h := HitOf(items[|items| - 1]);
      HitsOf(items[..|items| - 1]) + (if h.Some? then [h.value] else [])
  }

  /** The hits of all queries, query by query. */
  function AllHits(queries: seq<string>, search: string -> seq<SearchItem>): seq<SearchHit>
  {
    if queries == [] then []
    else AllHits(queries[..|queries| - 1], search) + HitsOf(search(queries[|queries| - 1]))
  }

  /** A hit as the filter leaves it: a URL, some content, no more than 5000 characters of it. */
  predicate WellFormedHit(h: SearchHit)
  {
    h.url != "" && h.content != "" && |h.content| <= MaxContent
  }

  lemma {:induction false} HitsOfWellFormed(items: seq<SearchItem>)
    ensures forall k :: 0 <= k < |HitsOf(items)| ==> WellFormedHit(HitsOf(items)[k])
    ensures |HitsOf(items)| <= |items|
  {
    if items != [] {
      HitsOfWellFormed(items[..|items| - 1]);
    }
  }

  /** Every hit has a URL and content of at most 5000 characters. */
  lemma {:induction false} AllHitsWellFormed(queries: seq<string>, search: string -> seq<SearchItem>)
    ensures forall k :: 0 <= k < |AllHits(queries, search)| ==> WellFormedHit(AllHits(queries, search)[k])
  {
    if queries != [] {
      AllHitsWellFormed(queries[..|queries| - 1], search);
      HitsOfWellFormed(search(queries[|queries| - 1]));
    }
  }

  /**
   * `search_jobs`: for each query in turn, run the search (`search` stands for
   * the web-search call and its "results" list) and keep the hits of its results.
   */
  method SearchJobs(queries: seq<string>, search: string -> seq<SearchItem>) returns (hits: seq<SearchHit>)
    ensures hits == AllHits(queries, search)
  {
    hits := [];
    for i := 0 to |queries|
      invariant hits == AllHits(queries[..i], search)
    {
      var items := search(queries[i]);
      for j := 0 to |items|
        invariant hits == AllHits(queries[..i], search) + HitsOf(items[..j])
      {
        assert items[..j + 1][..j] == items[..j];
        var h := HitOf(items[j]);
        if h.Some? {
          hits := hits + [h.value];
        }
      }
      assert items[..|items|] == items;
      assert queries[..i + 1][..i] == queries[..i];
    }
    assert queries[..|queries|] == queries;
  }

  // ----- De-duplication by URL -----

  /** No earlier hit has the URL of hit `i`. */
  predicate FirstOfUrl(hits: seq<SearchHit>, i: int)
    requires 0 <= i < |hits|
  {
    forall j :: 0 <= j < i ==> hits[j].url != hits[i].url
  }

  /** The hits that are the first with their URL, in their original order. */
  function FirstHits(hits: seq<SearchHit>): seq<SearchHit>
  {
    if hits == [] then []
    else FirstHits(hits[..|hits| - 1]) + (if FirstOfUrl(hits, |hits| - 1) then [hits[|hits| - 1]] else [])
  }

  function Urls(hits: seq<SearchHit>): set<string>
  {
    set h | h in hits :: h.url
  }

  /**
   * The de-duplication loop of `recommend`: walk the hits, keeping a hit when
   * its URL is not yet in `seen`, and adding the URL to `seen`.
   */
  method DedupByUrl(hits: seq<SearchHit>) returns (uniq: seq<SearchHit>)
    ensures uniq == FirstHits(hits)
  {
    var seen: set<string> := {};
    uniq := [];
    for i := 0 to |hits|
      invariant uniq == FirstHits(hits[..i])
      invariant seen == Urls(hits[..i])
    {
      var prefix := hits[..i + 1];
      assert prefix[..i] == hits[..i] && prefix[i] == hits[i];
      assert hits[i].url !in seen <==> FirstOfUrl(prefix, i) by {
        if hits[i].url in seen {
          var h :| h in hits[..i] && h.url == hits[i].url;
          var j :| 0 <= j < i && hits[..i][j] == h;
          assert prefix[j].url == prefix[i].url;
        }
      }
      if hits[i].url !in seen {
        uniq := uniq + [hits[i]];
        seen := seen + {hits[i].url};
      }
      assert Urls(prefix) == Urls(hits[..i]) + {hits[i].url};
    }
    assert hits[..|hits|] == hits;
  }

  /** Everything `FirstHits` keeps is a hit, each is the first with its URL, no URL repeats, and every URL survives. */
  lemma {:induction false} FirstHitsProperties(hits: seq<SearchHit>)
    ensures forall h :: h in FirstHits(hits) ==> h in hits
    ensures forall i, j :: 0 <= i < j < |FirstHits(hits)| ==> FirstHits(hits)[i].url != FirstHits(hits)[j].url
    ensures Urls(FirstHits(hits)) == Urls(hits)
  {
    if hits != [] {
      var init := hits[..|hits| - 1];
      var last := hits[|hits| - 1];
      FirstHitsProperties(init);
      assert forall h :: h in init ==> h in hits;
      assert Urls(hits) == Urls(init) + {last.url} by {
        assert hits == init + [last];
      }
      if FirstOfUrl(hits, |hits| - 1) {
        forall h | h in init ensures h.url != last.url {
          var j :| 0 <= j < |init| && init[j] == h;
          assert hits[j] == h;
        }
      } else {
        var j :| 0 <= j < |hits| - 1 && hits[j].url == last.url;
        assert init[j] in init;
      }
    }
  }

  /** The positions of the hits `FirstHits` keeps. */
  function FirstIndices(hits: seq<SearchHit>): seq<nat>
  {
    if hits == [] then []
    else FirstIndices(hits[..|hits| - 1]) + (if FirstOfUrl(hits, |hits| - 1) then [|hits| - 1] else [])
  }

  /**
   * The kept hits keep their relative order: `FirstHits` is the input at
   * increasing positions, and exactly the first hit of each URL is kept there.
   */
  lemma {:induction false} FirstHitsSubsequence(hits: seq<SearchHit>)
    ensures |FirstIndices(hits)| == |FirstHits(hits)|
    ensures forall k :: 0 <= k < |FirstIndices(hits)| ==>
      FirstIndices(hits)[k] < |hits| && FirstHits(hits)[k] == hits[FirstIndices(hits)[k]] && FirstOfUrl(hits, FirstIndices(hits)[k])
    ensures forall k, l :: 0 <= k < l < |FirstIndices(hits)| ==> FirstIndices(hits)[k] < FirstIndices(hits)[l]
    ensures forall i :: 0 <= i < |hits| && FirstOfUrl(hits, i) ==> i in FirstIndices(hits)
  {
    if hits != [] {
      var init := hits[..|hits| - 1];
      FirstHitsSubsequence(init);
      var idx := FirstIndices(init);
      forall k | 0 <= k < |idx| ensures FirstOfUrl(hits, idx[k]) {
        assert FirstOfUrl(init, idx[k]);
      }
      forall i | 0 <= i < |init| && FirstOfUrl(hits, i) ensures i in FirstIndices(hits) {
        assert FirstOfUrl(init, i);
      }
    }
  }

  /** De-duplicating twice changes nothing more. */
  lemma FirstHitsIdempotent(hits: seq<SearchHit>)
    ensures FirstHits(FirstHits(hits)) == FirstHits(hits)
  {
    FirstHitsProperties(hits);
    DistinctUrlsKept(FirstHits(hits));
  }

  /** A list whose URLs are already distinct is kept whole. */
  lemma {:induction false} DistinctUrlsKept(hits: seq<SearchHit>)
    requires forall i, j :: 0 <= i < j < |hits| ==> hits[i].url != hits[j].url
    ensures FirstHits(hits) == hits
  {
    if hits != [] {
      var init := hits[..|hits| - 1];
      DistinctUrlsKept(init);
      assert FirstOfUrl(hits, |hits| - 1);
      assert init + [hits[|hits| - 1]] == hits;
    }
  }
}

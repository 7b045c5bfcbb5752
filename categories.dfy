/**
 * Category resolution: triviaCategorySelection in App.js turns a name chosen
 * on the title screen into the request URL of the trivia API.
 */
module Categories {
  import opened Wrappers

  /** The endpoint every request target starts with. */
  const ApiBase: string := "https://the-trivia-api.com/api/questions?"

  /** The labels the switch recognises. */
  const Labels: set<string> := {"easy", "medium", "hard", "80's Trivia", "Music", "Film", "Sport"}

  /** The request targets of the seven categories: the endpoint followed by the query App.js spells out. */
  const EasyUrl: string := ApiBase + "limit=5&difficulty=easy"
  const MediumUrl: string := ApiBase + "limit=5&region=GB&difficulty=medium"
  const HardUrl: string := ApiBase + "limit=5&difficulty=hard"
  const EightiesUrl: string := ApiBase + "limit=5&tags=1980's"
  const MusicUrl: string := ApiBase + "categories=music&limit=5"
  const FilmUrl: string := ApiBase + "categories=film_and_tv&limit=5"
  const SportUrl: string := ApiBase + "categories=sport_and_leisure&limit=5"

  /** The switch of triviaCategorySelection: None for a label it falls through. */
  function CategoryUrl(name: string): (r: Option<string>)
    ensures r.Some? <==> name in Labels
    ensures r.Some? ==> ApiBase < r.value && r.value[|r.value| - 1] != ' '
  {
    if name == "easy" then Some(EasyUrl)
    else if name == "medium" then Some(MediumUrl)
    else if name == "hard" then Some(HardUrl)
    else if name == "80's Trivia" then Some(EightiesUrl)
    else if name == "Music" then Some(MusicUrl)
    else if name == "Film" then Some(FilmUrl)
    else if name == "Sport" then Some(SportUrl)
    else None
  }

  /** t occurs in s starting at position k. */
  predicate OccursAt(s: string, t: string, k: nat)
  {
    k <= |s| && t <= s[k..]
  }

  /** t occurs somewhere in s. */
  ghost predicate Contains(s: string, t: string)
  {
    exists k: nat :: OccursAt(s, t, k)
  }

  /**
   * The query parameter limit=5 stands at position k of url as a whole
   * parameter: followed by the next parameter's '&' or by the end of the URL.
   */
  predicate LimitFiveAt(url: string, k: nat)
  {
    OccursAt(url, "limit=5", k) && (k + 7 == |url| || (k + 7 < |url| && url[k + 7] == '&'))
  }

  /** url asks for a batch of exactly five questions. */
  ghost predicate RequestsFive(url: string)
  {
    exists k: nat :: LimitFiveAt(url, k)
  }

  /** An occurrence in the query is an occurrence in the URL, shifted past the endpoint. */
  lemma OccursInQuery(query: string, t: string, k: nat)
    requires OccursAt(query, t, k)
    ensures OccursAt(ApiBase + query, t, |ApiBase| + k)
  {
    assert (ApiBase + query)[|ApiBase| + k..] == query[k..];
  }

  /** The difficulty and tag URLs open their query with the parameter limit=5 and an '&'. */
  lemma LeadingLimitUrls()
    ensures OccursAt(EasyUrl, "limit=5&", |ApiBase|) && OccursAt(MediumUrl, "limit=5&", |ApiBase|)
    ensures OccursAt(HardUrl, "limit=5&", |ApiBase|) && OccursAt(EightiesUrl, "limit=5&", |ApiBase|)
  {
    OccursInQuery("limit=5&difficulty=easy", "limit=5&", 0);
    OccursInQuery("limit=5&region=GB&difficulty=medium", "limit=5&", 0);
    OccursInQuery("limit=5&difficulty=hard", "limit=5&", 0);
    OccursInQuery("limit=5&tags=1980's", "limit=5&", 0);
  }

  /** The topic URLs end with the parameter limit=5. */
  lemma TrailingLimitUrls()
    ensures OccursAt(MusicUrl, "limit=5", |MusicUrl| - 7) && OccursAt(FilmUrl, "limit=5", |FilmUrl| - 7)
    ensures OccursAt(SportUrl, "limit=5", |SportUrl| - 7)
  {
    OccursInQuery("categories=music&limit=5", "limit=5", 17);
    OccursInQuery("categories=film_and_tv&limit=5", "limit=5", 23);
    OccursInQuery("categories=sport_and_leisure&limit=5", "limit=5", 29);
  }

  /**
   * Every URL of the table is a request to the questions endpoint for a
   * batch of exactly five: it carries limit=5 as a whole parameter.
   */
  lemma CategoryUrlRequestsBatch(name: string)
    requires CategoryUrl(name).Some?
    ensures ApiBase <= CategoryUrl(name).value
    ensures RequestsFive(CategoryUrl(name).value)
  {
    LeadingLimitUrls();
    TrailingLimitUrls();
    var url := CategoryUrl(name).value;
    if url == MusicUrl || url == FilmUrl || url == SportUrl {
      assert LimitFiveAt(url, |url| - 7);
    } else {
      LimitFollowedByNext(url, |ApiBase|);
    }
  }

  /** limit=5 followed by '&' is the whole parameter limit=5. */
  lemma LimitFollowedByNext(url: string, k: nat)
    requires OccursAt(url, "limit=5&", k)
    ensures LimitFiveAt(url, k)
  {
    assert url[k..][..7] == "limit=5&"[..7];
    assert url[k + 7] == url[k..][7];
  }

  /** The three difficulty labels request questions of that difficulty. */
  lemma DifficultyLabelsRequestDifficulty()
    ensures CategoryUrl("easy").Some? && Contains(CategoryUrl("easy").value, "difficulty=easy")
    ensures CategoryUrl("medium").Some? && Contains(CategoryUrl("medium").value, "difficulty=medium")
    ensures CategoryUrl("hard").Some? && Contains(CategoryUrl("hard").value, "difficulty=hard")
  {
    OccursInQuery("limit=5&difficulty=easy", "difficulty=easy", 8);
    OccursInQuery("limit=5&region=GB&difficulty=medium", "difficulty=medium", 18);
    OccursInQuery("limit=5&difficulty=hard", "difficulty=hard", 8);
  }

  /** Distinct labels resolve to distinct request targets. */
  lemma CategoryUrlInjective(a: string, b: string)
    requires CategoryUrl(a).Some? && CategoryUrl(a) == CategoryUrl(b)
    ensures a == b
  {
    assert EasyUrl[60] != HardUrl[60];
  }
}

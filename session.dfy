/**
 * The App component's state and the handlers that change it: the category
 * selection, the dark-mode toggle, the return to the main menu, the
 * play-again callback and the completion of the question fetch.
 *
 * React's useState becomes a field per state variable. The question-fetching
 * effect depends on the pair (triviaCategory, playAgain): it runs on mount and
 * again whenever a handler changes that pair; each handler reports whether it
 * did. The fetch itself is not modelled: the request the effect issues is a
 * Fetch value, and its completion is the method FetchCompleted, called by
 * the environment with the decoded response and with the Math.random() values
 * the shuffles consume, in whatever order responses arrive.
 */
module App {
  import opened Wrappers
  import opened Shuffling
  import opened Questions
  import opened Categories
  import opened Preferences

  /**
   * A request of the question-fetching effect: the URL it fetches (undefined
   * before any category is chosen) and the playAgain value that its
   * completion callback captured when the effect ran.
   */
  datatype Fetch = Fetch(target: Option<string>, autoStart: bool)

  /** JavaScript's string conversion of the category state: undefined becomes "undefined". */
  function JsText(category: Option<string>): string
  {
    match category
    case None => "undefined"
    case Some(s) => s
  }

  /**
   * The URL a request target denotes: URL parsing (the WHATWG URL Standard's
   * basic URL parser) drops trailing spaces before the request is sent.
   */
  function TrimTrailingSpaces(s: string): (r: string)
    ensures r <= s
    ensures r == [] || r[|r| - 1] != ' '
    ensures s == r + Spaces(|s| - |r|)
  {
    if |s| > 0 && s[|s| - 1] == ' ' then
      var r := TrimTrailingSpaces(s[..|s| - 1]);
      assert Spaces(|s| - |r|) == Spaces(|s| - 1 - |r|) + " ";
      assert s == s[..|s| - 1] + " ";
      r
    else
      assert Spaces(0) == [];
      s
  }

  /** n spaces. */
  function Spaces(n: nat): string
  {
    seq(n, _ => ' ')
  }

  /** Appending spaces to a target does not change the URL it denotes. */
  lemma {:induction false} AppendedSpacesDenoteSameUrl(s: string, n: nat)
    ensures TrimTrailingSpaces(s + Spaces(n)) == TrimTrailingSpaces(s)
  {
    if n == 0 {
      assert s + Spaces(n) == s;
    } else {
      var t := s + Spaces(n - 1);
      assert Spaces(n) == Spaces(n - 1) + " ";
      assert s + Spaces(n) == t + " ";
      assert (t + " ")[|t|] == ' ' && (t + " ")[..|t|] == t;
      AppendedSpacesDenoteSameUrl(s, n - 1);
    }
  }

  /**
   * A category URL followed by any number of play-again spaces still denotes
   * exactly that category URL.
   */
  lemma ReplayedCategoryDenotesItsUrl(name: string, n: nat)
    requires CategoryUrl(name).Some?
    ensures TrimTrailingSpaces(CategoryUrl(name).value + Spaces(n)) == CategoryUrl(name).value
  {
    AppendedSpacesDenoteSameUrl(CategoryUrl(name).value, n);
  }

  class Session {
    /** The darkMode state. */
    var darkMode: bool
    /** localStorage's value under "darkMode"; None while the key is absent. */
    var stored: Option<string>
    /** The triviaCategory state: the request URL, undefined until a recognised selection. */
    var triviaCategory: Option<string>
    /** The playAgain state: whether the next completed fetch starts the game. */
    var playAgain: bool
    /** The gameStart state: false shows the title screen, true the questions. */
    var gameStart: bool
    /** The questions state: the Blank placeholder, then whole batches. */
    var questions: seq<Question>

    /**
     * darkMode agrees with the store, and the questions are the placeholder
     * or a well-formed batch of five.
     */
    ghost predicate Valid()
      reads this
    {
      darkMode == LoadDarkMode(stored) &&
      (questions == [Blank] || WellFormedBatch(questions))
    }

    /** The request the question-fetching effect issues for the current dependency pair. */
    function CurrentRequest(): Fetch
      reads this
    {
      Fetch(triviaCategory, playAgain)
    }

    /**
     * The first render, with `saved` the value localStorage holds under
     * "darkMode". The effect runs on mount and issues CurrentRequest(), a
     * request for the undefined URL that starts the game if it succeeds.
     */
    constructor (saved: Option<string>)
      ensures Valid()
      ensures stored == saved && darkMode == LoadDarkMode(saved)
      ensures triviaCategory == None && playAgain && !gameStart
      ensures questions == [Blank]
    {
      darkMode := saved == Some("dark");
      stored := saved;
      triviaCategory := None;
      playAgain := true;
      gameStart := false;
      questions := [Blank];
    }

    /**
     * triviaCategorySelection: a recognised label sets the category to its
     * URL, any other leaves it; playAgain becomes true in every case. The
     * effect reruns exactly when the dependency pair changed.
     */
    method TriviaCategorySelection(name: string) returns (refetch: bool)
      requires Valid()
      modifies this
      ensures Valid()
      ensures triviaCategory == (if CategoryUrl(name).Some? then CategoryUrl(name) else old(triviaCategory))
      ensures playAgain
      ensures gameStart == old(gameStart) && questions == old(questions)
      ensures darkMode == old(darkMode) && stored == old(stored)
      ensures refetch <==> CurrentRequest() != old(CurrentRequest())
    {
      var before := CurrentRequest();
      match CategoryUrl(name) {
        case Some(url) =>
          triviaCategory := Some(url);
        case None =>
      }
      playAgain := true;
      refetch := CurrentRequest() != before;
    }

    /**
     * setMemoryDarkMode: a stored "dark" becomes "light" and the mode goes
     * off; anything else becomes "dark" and the mode goes on.
     */
    method SetMemoryDarkMode()
      requires Valid()
      modifies this
      ensures Valid()
      ensures stored == Toggled(old(stored))
      ensures darkMode == !old(darkMode)
      ensures triviaCategory == old(triviaCategory) && playAgain == old(playAgain)
      ensures gameStart == old(gameStart) && questions == old(questions)
    {
      if stored == Some("dark") {
        stored := Some("light");
        darkMode := false;
      } else {
        stored := Some("dark");
        darkMode := true;
      }
    }

    /**
     * returnToMainMenu: back to the title screen at once, and playAgain
     * negated, which reruns the effect: the background request it issues
     * starts the game on completion only if playAgain was false before.
     */
    method ReturnToMainMenu() returns (refetch: bool)
      requires Valid()
      modifies this
      ensures Valid()
      ensures !gameStart && playAgain == !old(playAgain)
      ensures triviaCategory == old(triviaCategory) && questions == old(questions)
      ensures darkMode == old(darkMode) && stored == old(stored)
      ensures refetch <==> CurrentRequest() != old(CurrentRequest())
      ensures refetch && CurrentRequest().autoStart == !old(playAgain)
    {
      var before := CurrentRequest();
      gameStart := false;
      playAgain := !playAgain;
      refetch := CurrentRequest() != before;
    }

    /**
     * The play-again callback: the category becomes its string form followed
     * by a space. The new value always differs from the old one, so the
     * effect reruns, yet it denotes the same URL.
     */
    method ReplaySameCategory() returns (refetch: bool)
      requires Valid()
      modifies this
      ensures Valid()
      ensures triviaCategory == Some(JsText(old(triviaCategory)) + " ")
      ensures JsText(old(triviaCategory)) <= JsText(triviaCategory)
      ensures TrimTrailingSpaces(JsText(triviaCategory)) == TrimTrailingSpaces(JsText(old(triviaCategory)))
      ensures playAgain == old(playAgain) && gameStart == old(gameStart) && questions == old(questions)
      ensures darkMode == old(darkMode) && stored == old(stored)
      ensures refetch <==> CurrentRequest() != old(CurrentRequest())
      ensures refetch
    {
      var before := CurrentRequest();
      triviaCategory := Some(JsText(triviaCategory) + " ");
      AppendedSpacesDenoteSameUrl(JsText(before.target), 1);
      assert |JsText(triviaCategory)| == |JsText(before.target)| + 1;
      refetch := CurrentRequest() != before;
    }

    /**
     * The completion callback of `request`. With at least five records the
     * questions are replaced wholesale by the normalised batch and gameStart
     * becomes the playAgain value the request captured; with fewer, reading
     * a missing record throws and nothing changes.
     */
    method FetchCompleted(request: Fetch, records: seq<RawRecord>, draws: seq<seq<Draw>>) returns (applied: bool)
      requires Valid()
      requires |draws| >= BatchSize
      requires forall i :: 0 <= i < |draws| ==> |draws[i]| >= AnswerCount
      modifies this
      ensures Valid()
      ensures applied <==> |records| >= BatchSize
      ensures applied ==> questions == Normalised(records, draws, BatchSize) && WellFormedBatch(questions)
      ensures applied ==> gameStart == request.autoStart
      ensures applied && request == old(CurrentRequest()) ==> gameStart == playAgain
      ensures !applied ==> questions == old(questions) && gameStart == old(gameStart)
      ensures triviaCategory == old(triviaCategory) && playAgain == old(playAgain)
      ensures darkMode == old(darkMode) && stored == old(stored)
    {
      var batch := NormaliseResponse(records, draws);
      match batch
      case None =>
        applied := false;
      case Some(qs) =>
        questions := qs;
        gameStart := request.autoStart;
        applied := true;
    }
  }

  /**
   * From a fresh session: choosing "medium" and completing its request
   * starts the game; returning to the menu shows the title screen at once,
   * and the background request it issues leaves it there; choosing "medium"
   * again reruns the effect with a request that starts the game.
   */
  method SelectPlayReturnScenario(saved: Option<string>, records: seq<RawRecord>, draws: seq<seq<Draw>>)
    returns (startedAfterSelect: bool, startedAfterBackground: bool, reselectRequest: Fetch)
    requires |records| >= BatchSize && |draws| >= BatchSize
    requires forall i :: 0 <= i < |draws| ==> |draws[i]| >= AnswerCount
    ensures startedAfterSelect && !startedAfterBackground
    ensures reselectRequest == Fetch(Some(MediumUrl), true)
  {
    var s := new Session(saved);
    var refetch := s.TriviaCategorySelection("medium");
    assert refetch && s.triviaCategory == Some(MediumUrl);
    var request := s.CurrentRequest();
    var applied := s.FetchCompleted(request, records, draws);
    assert s.gameStart && s.questions[0].questionNumber == 0;
    startedAfterSelect := s.gameStart;
    refetch := s.ReturnToMainMenu();
    assert !s.gameStart && refetch;
    request := s.CurrentRequest();
    applied := s.FetchCompleted(request, records, draws);
    startedAfterBackground := s.gameStart;
    refetch := s.TriviaCategorySelection("medium");
    assert refetch;
    reselectRequest := s.CurrentRequest();
  }
}

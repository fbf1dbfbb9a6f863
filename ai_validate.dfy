// Week-specific static checks run over the fetched repository text before
// the AI is asked to grade (src/services/ai.js).  The regular-expression
// detectors are inputs: each is the boolean (or, for `match`, the list of
// matches) the corresponding pattern produces on the repository text.  The
// `includes` checks are modelled exactly.
module AiValidate {
  import opened Wrappers
  import opened JsString

  /** What the week-9 patterns find in the repository text. */
  datatype WarDetections = WarDetections(
    cardClass: bool,     // class Card { / function Card (
    deckClass: bool,     // class Deck { / function Deck (
    playerClass: bool,   // class Player { / function Player (
    deals26: bool,       // 26 / twenty-six
    gameLoop: bool,      // for ( / while ( / .forEach / rounds
    scoring: bool,       // score / point(s) / win(s)
    winner: bool,        // winner / won / wins / victory
    unitTests: bool)     // describe( / it( / test( / expect(

  /** The object `validateWeek9WARGame` returns. */
  datatype WarChecks = WarChecks(
    hasCardClass: bool,
    hasDeckClass: bool,
    hasPlayerClass: bool,
    deals26Cards: bool,
    playsAllRounds: bool,
    hasPointSystem: bool,
    declaresWinner: bool,
    usesOOP: bool,
    hasUnitTests: bool)

  /** What the week-12 patterns find in the repository text. */
  datatype ApiDetections = ApiDetections(
    fetchMatches: seq<seq<string>>,  // `match` of each fetch pattern, [] when null
    async: bool,                     // async function / async (
    await: bool,                     // await
    promises: bool,                  // .then(
    postTests: seq<bool>,            // `test` of each POST pattern
    deleteTests: seq<bool>,          // `test` of each DELETE pattern
    getTests: seq<bool>,             // `test` of each GET pattern
    tryBlock: bool,                  // try {
    catchCall: bool,                 // .catch(
    formTag: bool,                   // <form
    inputById: bool,                 // getElementById.*Input
    inputBySelector: bool)           // querySelector.*input

  /** The object `validateWeek12APIImplementation` returns. */
  datatype ApiChecks = ApiChecks(
    hasRealFetch: bool,
    hasAsyncAwait: bool,
    hasPOST: bool,
    hasDELETE: bool,
    hasGET: bool,
    hasErrorHandling: bool,
    usesJsonServer: bool,
    actualAPICallsFound: seq<string>,
    hasFormElements: bool)

  /** `patterns.some(p => p.test(content))`. */
  predicate Any(tests: seq<bool>) {
    exists k :: 0 <= k < |tests| && tests[k]
  }

  /** Every match of every fetch pattern, pattern by pattern, in order. */
  function Flatten(lists: seq<seq<string>>): (r: seq<string>)
    ensures |r| == 0 <==> forall k :: 0 <= k < |lists| ==> |lists[k]| == 0
  {
    if lists == [] then [] else Flatten(lists[..|lists| - 1]) + lists[|lists| - 1]
  }

  /** The week-9 checks: each detector's answer, and object orientation when any class is defined. */
  method ValidateWeek9WarGame(d: WarDetections) returns (v: WarChecks)
    ensures v.hasCardClass == d.cardClass && v.hasDeckClass == d.deckClass
    ensures v.hasPlayerClass == d.playerClass && v.deals26Cards == d.deals26
    ensures v.playsAllRounds == d.gameLoop && v.hasPointSystem == d.scoring
    ensures v.declaresWinner == d.winner && v.hasUnitTests == d.unitTests
    ensures v.usesOOP <==> v.hasCardClass || v.hasDeckClass || v.hasPlayerClass
  {
    var hasCardClass := d.cardClass;
    var hasDeckClass := d.deckClass;
    var hasPlayerClass := d.playerClass;
    var usesOOP := hasCardClass || hasDeckClass || hasPlayerClass;
    v := WarChecks(hasCardClass, hasDeckClass, hasPlayerClass, d.deals26, d.gameLoop,
                   d.scoring, d.winner, usesOOP, d.unitTests);
  }

  /** The text shows a local json-server address or mentions json-server. */
  predicate MentionsJsonServerAddress(content: string) {
    Contains(content, "localhost:3000") || Contains(content, "localhost:5000") || Contains(content, "json-server")
  }

  /** The text hints at a json-server database. */
  predicate MentionsDatabase(content: string) {
    Contains(content, "db.json") || Contains(content, "\"Events\"") || Contains(content, "localhost")
  }

  /** The `for (const pattern of fetchPatterns)` loop: any pattern that matched, and all matches in order. */
  method CollectFetchMatches(lists: seq<seq<string>>) returns (hasRealFetch: bool, found: seq<string>)
    ensures hasRealFetch <==> exists k :: 0 <= k < |lists| && |lists[k]| > 0
    ensures found == Flatten(lists)
  {
    hasRealFetch, found := false, [];
    var i := 0;
    while i < |lists|
      invariant 0 <= i <= |lists|
      invariant hasRealFetch <==> exists k :: 0 <= k < i && |lists[k]| > 0
      invariant found == Flatten(lists[..i])
    {
      var matches := lists[i];
      assert lists[..i + 1][..i] == lists[..i];
      if |matches| > 0 {
        hasRealFetch, found := true, found + matches;
      }
      i := i + 1;
    }
    assert lists[..i] == lists;
  }

  /**
   * The week-12 checks.  A real API call is found when some fetch pattern
   * matches or the text names a json-server address; every match is kept in
   * order; json-server use is flagged by an address or a database hint.
   */
  method ValidateWeek12Api(content: string, d: ApiDetections) returns (v: ApiChecks)
    ensures v.hasRealFetch <==>
      (exists k :: 0 <= k < |d.fetchMatches| && |d.fetchMatches[k]| > 0) || MentionsJsonServerAddress(content)
    ensures v.actualAPICallsFound == Flatten(d.fetchMatches)
    ensures v.usesJsonServer <==> MentionsJsonServerAddress(content) || MentionsDatabase(content)
    ensures v.hasAsyncAwait <==> d.async || d.await || d.promises
    ensures v.hasPOST == Any(d.postTests) && v.hasDELETE == Any(d.deleteTests) && v.hasGET == Any(d.getTests)
    ensures v.hasErrorHandling <==> d.tryBlock || d.catchCall
    ensures v.hasFormElements <==> d.formTag || d.inputById || d.inputBySelector
  {
    var hasRealFetch, found := CollectFetchMatches(d.fetchMatches);
    var usesJsonServer := false;
    if MentionsJsonServerAddress(content) {
      usesJsonServer, hasRealFetch := true, true;
    }
    var hasAsyncAwait := d.async || d.await || d.promises;
    var hasPOST, hasDELETE, hasGET := Any(d.postTests), Any(d.deleteTests), Any(d.getTests);
    var hasErrorHandling := d.tryBlock || d.catchCall;
    var hasFormElements := d.formTag || d.inputById || d.inputBySelector;
    if MentionsDatabase(content) {
      usesJsonServer := true;
    }
    v := ApiChecks(hasRealFetch, hasAsyncAwait, hasPOST, hasDELETE, hasGET, hasErrorHandling,
                   usesJsonServer, found, hasFormElements);
  }

  /** A mention of a local json-server port makes both the fetch and the json-server flags true. */
  lemma LocalServerCountsAsFetch(content: string, d: ApiDetections, v: ApiChecks)
    requires v.hasRealFetch <==>
      (exists k :: 0 <= k < |d.fetchMatches| && |d.fetchMatches[k]| > 0) || MentionsJsonServerAddress(content)
    requires v.usesJsonServer <==> MentionsJsonServerAddress(content) || MentionsDatabase(content)
    requires Contains(content, "localhost:3000")
    ensures Contains(content, "localhost")
    ensures v.hasRealFetch && v.usesJsonServer
  {
    var i :| 0 <= i <= |content| - |"localhost:3000"| && OccursAt(content, "localhost:3000", i);
    assert content[i..i + 9] == content[i..i + 14][..9];
    assert OccursAt(content, "localhost", i);
  }

  /** The kind of check `evaluateAssignment` chooses ("WAR_GAME", "API", "GENERAL"). */
  datatype ValidationType = WarGame | Api | General

  /** The analysis object passed to the prompt, when there is one. */
  datatype CodeAnalysis = WarAnalysis(war: WarChecks) | ApiAnalysis(api: ApiChecks)

  /** Both detector families, as found in the repository text. */
  datatype Detections = Detections(war: WarDetections, api: ApiDetections)

  /** The checks chosen for a week: WAR checks for week 9, API checks for week 12, none otherwise. */
  predicate ChecksFor(weekNumber: int, validationType: ValidationType, analysis: Option<CodeAnalysis>) {
    (weekNumber == 9 <==> validationType == WarGame) &&
    (weekNumber == 12 <==> validationType == Api) &&
    (validationType == General <==> analysis.None?) &&
    (validationType == WarGame ==> analysis.Some? && analysis.value.WarAnalysis?) &&
    (validationType == Api ==> analysis.Some? && analysis.value.ApiAnalysis?)
  }

  /** The week switch of `evaluateAssignment`: week 9 plays WAR, week 12 calls an API, any other week has no analysis. */
  method AnalyzeWeek(weekNumber: int, content: string, d: Detections)
    returns (validationType: ValidationType, analysis: Option<CodeAnalysis>)
    ensures ChecksFor(weekNumber, validationType, analysis)
    ensures validationType == WarGame ==>
      (analysis.value.war.usesOOP <==> d.war.cardClass || d.war.deckClass || d.war.playerClass)
    ensures validationType == Api ==> analysis.value.api.actualAPICallsFound == Flatten(d.api.fetchMatches)
  {
    if weekNumber == 9 {
      var checks := ValidateWeek9WarGame(d.war);
      validationType, analysis := WarGame, Some(WarAnalysis(checks));
    } else if weekNumber == 12 {
      var checks := ValidateWeek12Api(content, d.api);
      validationType, analysis := Api, Some(ApiAnalysis(checks));
    } else {
      validationType, analysis := General, None;
    }
  }
}

/**
 * The backend of the game (backend/main.py): an in-memory table of games
 * keyed by id, and the three routes that create a game, run a test and score
 * a diagnosis. The language model's output, the JSON parser and the fresh
 * uuid are parameters.
 */
module Server {
  import opened Wrappers
  import opened Text
  import opened Transcript

  // ---------------------------------------------------------------------------
  // Parsed model output

  /**
   * The dictionary `json.loads` produced from the model's text, restricted to
   * the keys the backend reads, plus `test_narrative`, which nothing reads but
   * the fallback dictionary carries. `None` is a key the dictionary lacks:
   * reading it raises `KeyError`.
   */
  datatype Doc = Doc(
    narrative: Option<string>,
    testNarrative: Option<string>,
    illnessName: Option<string>,
    patientIntro: Option<string>,
    correctTest: Option<string>,
    symptomsHidden: Option<string>,
    explanationCorrect: Option<string>,
    initialTestOptions: Option<seq<string>>,
    diagnosisList: Option<seq<string>>)

  /** The dictionary `clean_and_parse_json` returns when the text is not valid JSON. */
  function Fallback(): (d: Doc)
    ensures d.patientIntro.None? && d.illnessName.None?
    ensures d.initialTestOptions == Some([]) && d.diagnosisList == Some([])
  {
    Doc(
      narrative := Some("SYSTEM ERROR: DATABANK CORRUPTED. (AI Generation Failed)"),
      testNarrative := Some("Inconclusive result due to signal interference."),
      illnessName := None,
      patientIntro := None,
      correctTest := None,
      symptomsHidden := None,
      explanationCorrect := None,
      initialTestOptions := Some([]),
      diagnosisList := Some([]))
  }

  /**
   * `clean_and_parse_json(text)`: strip the fences and the surrounding
   * whitespace, parse, and fall back to `Fallback()` when parsing fails.
   * `parse` stands for `json.loads`; `None` is a `JSONDecodeError`.
   */
  function CleanAndParse(text: string, parse: string -> Option<Doc>): (d: Doc)
    ensures parse(CleanText(text)) == Some(d) || (parse(CleanText(text)).None? && d == Fallback())
    ensures parse(CleanText(text)).None? ==>
      d.patientIntro.None? && d.illnessName.None? && d.initialTestOptions == Some([]) && d.diagnosisList == Some([])
  {
    match parse(CleanText(text))
    case Some(doc) => doc
    case None => Fallback()
  }

  /**
   * What the parser is given is free of fences and of surrounding whitespace,
   * and a text already in that form reaches it unchanged.
   */
  lemma ParserSeesCleanText(text: string, parse: string -> Option<Doc>)
    ensures !Contains(CleanText(text), Fence) && IsStripped(CleanText(text))
    ensures !Contains(text, Fence) && IsStripped(text) ==> CleanText(text) == text
  {
    if !Contains(text, Fence) && IsStripped(text) {
      RemoveFencesNoFence(text);
      StripStripped(text);
    }
  }

  // ---------------------------------------------------------------------------
  // Scoring

  /** `hp_map.get(difficulty, 100)` with `hp_map = {"easy": 100, "medium": 60, "hard": 20}`. */
  function StartingHp(difficulty: string): (hp: int)
    ensures hp == 20 <==> difficulty == "hard"
    ensures hp == 60 <==> difficulty == "medium"
    ensures hp == 100 <==> difficulty != "hard" && difficulty != "medium"
  {
    if difficulty == "easy" then 100
    else if difficulty == "medium" then 60
    else if difficulty == "hard" then 20
    else 100
  }

  /** The hp lost on each wrong diagnosis. */
  const Penalty: int := 20

  /**
   * The fuzzy match of `submit_diagnosis`: the lowered name occurs in the
   * lowered illness, or the lowered illness occurs in the lowered name.
   */
  function IsCorrect(name: string, illness: string): (r: bool)
    ensures name == illness || name == [] ==> r
    ensures Contains(illness, name) || Contains(name, illness) ==> r
  {
    ContainsLower(illness, name);
    ContainsLower(name, illness);
    Contains(Lower(illness), Lower(name)) || Contains(Lower(name), Lower(illness))
  }

  /** The match against the positional definition of an occurrence, in both directions. */
  lemma IsCorrectIffOccurs(name: string, illness: string)
    ensures IsCorrect(name, illness) <==> Occurs(Lower(illness), Lower(name)) || Occurs(Lower(name), Lower(illness))
  {
    ContainsIffOccurs(Lower(illness), Lower(name));
    ContainsIffOccurs(Lower(name), Lower(illness));
  }

  /** Naming the illness exactly, or naming nothing at all, is a correct diagnosis. */
  lemma ExactOrEmptyIsCorrect(illness: string)
    ensures IsCorrect(illness, illness)
    ensures IsCorrect("", illness)
  {
  }

  /** The match ignores letter case on either side, and either argument order gives the same verdict. */
  lemma IsCorrectIgnoresCase(name: string, illness: string)
    ensures IsCorrect(Lower(name), illness) == IsCorrect(name, illness)
    ensures IsCorrect(name, Lower(illness)) == IsCorrect(name, illness)
    ensures IsCorrect(illness, name) == IsCorrect(name, illness)
  {
    LowerIdempotent(name);
    LowerIdempotent(illness);
  }

  /**
   * A name that occurs in the illness, or that contains the illness with
   * anything around it, is correct, whatever the letter case.
   */
  lemma SubstringIsCorrect(name: string, illness: string, before: string, after: string)
    ensures Contains(illness, name) ==> IsCorrect(name, illness)
    ensures IsCorrect(before + illness + after, illness)
  {
    ContainsLower(illness, name);
    ContainsInfix(before, illness, after);
    ContainsLower(before + illness + after, illness);
  }

  // ---------------------------------------------------------------------------
  // Games

  /** `game['status']`: "PLAYING", "WON" or "LOST". */
  datatype Status = Playing | Won | Lost

  /** One entry of `games`: `{case, hp, max_hp, difficulty, log, status}`. */
  datatype Game = Game(
    caseData: Doc,
    hp: int,
    maxHp: int,
    difficulty: string,
    log: seq<Entry>,
    status: Status)

  /**
   * What every stored game satisfies: its max hp is its difficulty's starting
   * hp, hp has only gone down in steps of `Penalty`, a game still PLAYING has
   * hp left, and a LOST game has none.
   */
  ghost predicate GameInvariant(g: Game)
  {
    && g.maxHp == StartingHp(g.difficulty)
    && g.hp <= g.maxHp
    && (g.maxHp - g.hp) % Penalty == 0
    && (g.status == Playing ==> g.hp > 0)
    && (g.status == Lost ==> g.hp <= 0)
  }

  /** Every game in the table satisfies `GameInvariant`. */
  ghost predicate AllValid(games: map<string, Game>)
  {
    forall id :: id in games ==> GameInvariant(games[id])
  }

  lemma StoreKeepsValid(games: map<string, Game>, id: string, g: Game)
    requires AllValid(games) && GameInvariant(g)
    ensures AllValid(games[id := g])
  {
  }

  /** Scoring a diagnosis keeps the invariant: a win changes only the status, a miss costs `Penalty`. */
  lemma ScoringKeepsInvariant(g: Game)
    requires GameInvariant(g)
    ensures GameInvariant(g.(status := Won))
    ensures GameInvariant(g.(hp := g.hp - Penalty, status := if g.hp - Penalty <= 0 then Lost else Playing))
  {
    assert g.maxHp - (g.hp - Penalty) == (g.maxHp - g.hp) + Penalty;
  }

  /** The errors a route ends with: HTTP 404 "Game not found", or a `KeyError` (HTTP 500). */
  datatype ServerError = NotFound | MissingKey(key: string)

  /** Reply of `/start_game`. */
  datatype StartReply = StartReply(
    gameId: string,
    patientIntro: string,
    testOptions: seq<string>,
    hp: int,
    maxHp: int)

  /** Reply of `/submit_test`. */
  datatype TestReply = TestReply(narrative: string, diagnosisOptions: seq<string>)

  /** Reply of `/submit_diagnosis`, by its `status` field: "WIN", "LOSE" or "CONTINUE". */
  datatype DiagnosisReply =
    | Win(message: string, analysis: string)
    | Lose(message: string, analysis: string)
    | Continue(hp: int, message: string, analysis: string, testOptions: seq<string>)

  const WrongMessage: string := "INCORRECT DIAGNOSIS. Patient condition worsening."
  const WrongAnalysis: string := "That diagnosis does not match the clinical findings. Try a different test."

  /** The text of the LOSE reply's analysis: it names the illness, the definitive test and the explanation. */
  function LoseAnalysis(illness: string, test: string, explanation: string): (r: string)
    ensures Contains(r, illness) && Contains(r, test) && Contains(r, explanation)
  {
    ContainsEachPart("The patient actually had ", illness, ". The definitive test required was ", test, ". ", explanation);
    "The patient actually had " + illness + ". The definitive test required was " + test + ". " + explanation
  }

  /** The module-level `games` dictionary and the routes that update it in place. */
  class GameTable {
    var games: map<string, Game>

    ghost predicate Valid()
      reads this
    {
      AllValid(games)
    }

    constructor ()
      ensures Valid()
      ensures games == map[]
    {
      games := map[];
    }

    /**
     * `/start_game`: store a fresh game under `gameId`, then build the reply
     * from the case. The game is stored even when the reply cannot be built
     * because the case lacks `patient_intro` or `initial_test_options`.
     */
    method StartGame(difficulty: string, gameId: string, caseData: Doc) returns (r: Result<StartReply, ServerError>)
      requires Valid()
      requires gameId !in games
      modifies this
      ensures Valid()
      ensures games == old(games)[gameId := Game(caseData, StartingHp(difficulty), StartingHp(difficulty), difficulty, [], Playing)]
      ensures r.Success? <==> caseData.patientIntro.Some? && caseData.initialTestOptions.Some?
      ensures r.Success? ==> r.value == StartReply(gameId, caseData.patientIntro.value, caseData.initialTestOptions.value,
                                                   StartingHp(difficulty), StartingHp(difficulty))
      ensures caseData.patientIntro.None? ==> r == Failure(MissingKey("patient_intro"))
      ensures caseData.patientIntro.Some? && caseData.initialTestOptions.None? ==> r == Failure(MissingKey("initial_test_options"))
    {
      var startHp := StartingHp(difficulty);
      games := games[gameId := Game(caseData, startHp, startHp, difficulty, [], Playing)];
      if caseData.patientIntro.None? {
        r := Failure(MissingKey("patient_intro"));
        return;
      }
      if caseData.initialTestOptions.None? {
        r := Failure(MissingKey("initial_test_options"));
        return;
      }
      r := Success(StartReply(gameId, caseData.patientIntro.value, caseData.initialTestOptions.value, startHp, startHp));
    }

    /**
     * `/submit_test`: `result` is the parsed analysis of the test. Building the
     * analysis prompt reads the case's `illness_name`, `symptoms_hidden` and
     * `correct_test`; then the action entry and the narrative entry are
     * appended, each as soon as its text is known. Hp and status never change.
     */
    method SubmitTest(gameId: string, testName: string, result: Doc) returns (r: Result<TestReply, ServerError>)
      requires Valid()
      modifies this
      ensures Valid()
      ensures gameId !in old(games) ==> r == Failure(NotFound) && games == old(games)
      ensures gameId in old(games) ==>
        var g := old(games)[gameId];
        var c := g.caseData;
        var action := Entry(Action, "Running " + testName + "...");
        if c.illnessName.None? || c.symptomsHidden.None? || c.correctTest.None? then
          games == old(games)
          && r == Failure(MissingKey(if c.illnessName.None? then "illness_name"
                                     else if c.symptomsHidden.None? then "symptoms_hidden"
                                     else "correct_test"))
        else if result.narrative.None? then
          games == old(games)[gameId := g.(log := g.log + [action])]
          && r == Failure(MissingKey("narrative"))
        else
          games == old(games)[gameId := g.(log := g.log + [action, Entry(Narrative, result.narrative.value)])]
          && r == (if c.diagnosisList.None? then Failure(MissingKey("diagnosis_list"))
                   else Success(TestReply(result.narrative.value, c.diagnosisList.value)))
    {
      if gameId !in games {
        r := Failure(NotFound);
        return;
      }
      var game := games[gameId];
      var c := game.caseData;
      if c.illnessName.None? {
        r := Failure(MissingKey("illness_name"));
        return;
      }
      if c.symptomsHidden.None? {
        r := Failure(MissingKey("symptoms_hidden"));
        return;
      }
      if c.correctTest.None? {
        r := Failure(MissingKey("correct_test"));
        return;
      }
      game := game.(log := game.log + [Entry(Action, "Running " + testName + "...")]);
      games := games[gameId := game];
      if result.narrative.None? {
        r := Failure(MissingKey("narrative"));
        return;
      }
      ghost var before := old(games)[gameId].log;
      game := game.(log := game.log + [Entry(Narrative, result.narrative.value)]);
      games := games[gameId := game];
      assert game.log == before + [Entry(Action, "Running " + testName + "..."), Entry(Narrative, result.narrative.value)];
      if c.diagnosisList.None? {
        r := Failure(MissingKey("diagnosis_list"));
        return;
      }
      r := Success(TestReply(result.narrative.value, c.diagnosisList.value));
    }

    /**
     * `/submit_diagnosis`: a correct name marks the game WON and leaves hp
     * alone; a wrong one costs exactly `Penalty` hp and marks the game LOST
     * once hp is at most 0, PLAYING otherwise. The status is never consulted,
     * so a finished game still accepts diagnoses.
     */
    method SubmitDiagnosis(gameId: string, name: string) returns (r: Result<DiagnosisReply, ServerError>)
      requires Valid()
      modifies this
      ensures Valid()
      ensures gameId !in old(games) ==> r == Failure(NotFound) && games == old(games)
      ensures gameId in old(games) && old(games)[gameId].caseData.illnessName.None? ==>
        r == Failure(MissingKey("illness_name")) && games == old(games)
      ensures gameId in old(games) && old(games)[gameId].caseData.illnessName.Some? ==>
        var g := old(games)[gameId];
        var c := g.caseData;
        var illness := c.illnessName.value;
        if IsCorrect(name, illness) then
          games == old(games)[gameId := g.(status := Won)]
          && r == (if c.explanationCorrect.None? then Failure(MissingKey("explanation_correct"))
                   else Success(Win("CORRECT DIAGNOSIS: " + illness, c.explanationCorrect.value)))
        else if g.hp - Penalty <= 0 then
          games == old(games)[gameId := g.(hp := g.hp - Penalty, status := Lost)]
          && r == (if c.correctTest.None? then Failure(MissingKey("correct_test"))
                   else if c.explanationCorrect.None? then Failure(MissingKey("explanation_correct"))
                   else Success(Lose("PATIENT DECEASED.",
                                     LoseAnalysis(illness, c.correctTest.value, c.explanationCorrect.value))))
        else
          games == old(games)[gameId := g.(hp := g.hp - Penalty, status := Playing)]
          && r == (if c.initialTestOptions.None? then Failure(MissingKey("initial_test_options"))
                   else Success(Continue(g.hp - Penalty, WrongMessage, WrongAnalysis, c.initialTestOptions.value)))
    {
      if gameId !in games {
        r := Failure(NotFound);
        return;
      }
      var game := games[gameId];
      var c := game.caseData;
      if c.illnessName.None? {
        r := Failure(MissingKey("illness_name"));
        return;
      }
      var illness := c.illnessName.value;
      var isCorrect := IsCorrect(name, illness);
      ScoringKeepsInvariant(game);
      if isCorrect {
        game := game.(status := Won);
        StoreKeepsValid(games, gameId, game);
        games := games[gameId := game];
        if c.explanationCorrect.None? {
          r := Failure(MissingKey("explanation_correct"));
          return;
        }
        r := Success(Win("CORRECT DIAGNOSIS: " + illness, c.explanationCorrect.value));
      } else {
        // `game` is the stored record itself: the hp and status changes below
        // reach the table before any key of the case is read.
        game := game.(hp := game.hp - Penalty);
        if game.hp <= 0 {
          game := game.(status := Lost);
          StoreKeepsValid(games, gameId, game);
          games := games[gameId := game];
          if c.correctTest.None? {
            r := Failure(MissingKey("correct_test"));
            return;
          }
          if c.explanationCorrect.None? {
            r := Failure(MissingKey("explanation_correct"));
            return;
          }
          r := Success(Lose("PATIENT DECEASED.", LoseAnalysis(illness, c.correctTest.value, c.explanationCorrect.value)));
        } else {
          game := game.(status := Playing);
          StoreKeepsValid(games, gameId, game);
          games := games[gameId := game];
          if c.initialTestOptions.None? {
            r := Failure(MissingKey("initial_test_options"));
            return;
          }
          r := Success(Continue(game.hp, WrongMessage, WrongAnalysis, c.initialTestOptions.value));
        }
      }
    }
  }
}

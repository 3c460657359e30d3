/**
 * The browser side of the game (frontend/src/App.jsx): the session record the
 * page keeps in React state and the two handlers that drive it, `startGame`
 * and `handleAction`. Each handler runs as one step; the server's answer to
 * the request it sends is a parameter.
 */
module Client {
  import opened Wrappers
  import opened Transcript

  /** The screen the page is on: 'START', 'TEST', 'DIAGNOSE' or 'END'. */
  datatype Phase = Start | Test | Diagnose | End

  /** The `type` of the end-of-game modal: 'win' or 'lose'. */
  datatype Outcome = WinOutcome | LoseOutcome

  /** The end-of-game modal `{title, msg, type}`. */
  datatype Modal = Modal(title: string, msg: string, kind: Outcome)

  /** What an awaited `fetch(...)` followed by `res.json()` gives: the reply's body, or a rejection. */
  datatype Fetch<T> = Replied(data: T) | Failed

  /** Body of a `/start_game` reply. */
  datatype StartData = StartData(gameId: string, hp: int, maxHp: int, patientIntro: string, testOptions: seq<string>)

  /** Body of a `/submit_test` reply. */
  datatype TestData = TestData(narrative: string, diagnosisOptions: seq<string>)

  /** Body of a `/submit_diagnosis` reply; `testOptions` is `None` when the key is absent or null. */
  datatype DiagnosisData = DiagnosisData(
    status: string,
    analysis: string,
    message: string,
    hp: int,
    testOptions: Option<seq<string>>)

  const Retrieving: string := "RETRIEVING PATIENT SYMPTOMS..."
  const ConnectError: string := "ERROR: COULD NOT CONNECT TO BACKEND. IS SERVER RUNNING?"
  const Reinitializing: string := "RE-INITIALIZING TESTS..."
  const SavedTitle: string := "PATIENT SAVED"
  const FlatlinedTitle: string := "PATIENT FLATLINED"

  /** The state the page component holds, one field per `useState`. */
  class Session {
    var gameId: Option<string>
    var hp: int
    var maxHp: int
    var difficulty: Option<string>
    var logs: seq<Entry>
    var phase: Phase
    var options: seq<string>
    var modal: Option<Modal>

    /**
     * Past the start screen a game has been asked for and answered; the end
     * screen is only ever reached together with its modal.
     */
    ghost predicate Valid()
      reads this
    {
      && (phase != Start ==> gameId.Some? && difficulty.Some?)
      && (phase == End ==> modal.Some?)
    }

    /** A fresh page, as after `window.location.reload()`. */
    constructor ()
      ensures Valid()
      ensures gameId == None && hp == 100 && maxHp == 100 && difficulty == None
      ensures logs == [] && phase == Start && options == [] && modal == None
    {
      gameId := None;
      hp := 100;
      maxHp := 100;
      difficulty := None;
      logs := [];
      phase := Start;
      options := [];
      modal := None;
    }

    /** `addLog(type, text)`: one entry added at the end; the earlier entries stay as they were. */
    method AddLog(kind: Kind, text: string)
      modifies this`logs
      ensures logs == old(logs) + [Entry(kind, text)]
      ensures |logs| == |old(logs)| + 1 && logs[..|old(logs)|] == old(logs)
    {
      logs := logs + [Entry(kind, text)];
    }

    /**
     * `startGame(diff)`: the difficulty is recorded and the "retrieving" line
     * logged before the request; on a reply the game's id, vitals, intro and
     * test options are taken over and the page moves to TEST; on a rejection
     * only the error line is added.
     */
    method StartGame(diff: string, reply: Fetch<StartData>)
      requires Valid()
      modifies this
      ensures Valid()
      ensures difficulty == Some(diff)
      ensures modal == old(modal)
      ensures reply.Replied? ==>
        var d := reply.data;
        && gameId == Some(d.gameId) && hp == d.hp && maxHp == d.maxHp
        && logs == old(logs) + [Entry(System, Retrieving), Entry(Narrative, d.patientIntro)]
        && options == d.testOptions
        && phase == Test
      ensures reply.Failed? ==>
        && gameId == old(gameId) && hp == old(hp) && maxHp == old(maxHp)
        && logs == old(logs) + [Entry(System, Retrieving), Entry(System, ConnectError)]
        && options == old(options)
        && phase == old(phase)
    {
      difficulty := Some(diff);
      AddLog(System, Retrieving);
      match reply
      case Replied(data) =>
        gameId := Some(data.gameId);
        hp := data.hp;
        maxHp := data.maxHp;
        AddLog(Narrative, data.patientIntro);
        options := data.testOptions;
        phase := Test;
      case Failed =>
        AddLog(System, ConnectError);
    }

    /**
     * `handleAction(selection)`. In TEST the selection is a test: it is logged,
     * and the reply's narrative and diagnosis options take the page to
     * DIAGNOSE. In DIAGNOSE it is a diagnosis: it is logged, then a "WIN"
     * reply ends the game with the analysis, a "LOSE" reply zeroes hp and ends
     * it, and any other status takes the reply's hp as is, logs the message and
     * returns to TEST, keeping the old options when the reply has none. On the
     * START and END screens nothing happens. A rejected request leaves only the
     * first log entry behind. `testReply` and `diagnosisReply` are the answers
     * to the request the phase sends; the other one is not looked at.
     */
    method HandleAction(selection: string, testReply: Fetch<TestData>, diagnosisReply: Fetch<DiagnosisData>)
      requires Valid()
      modifies this
      ensures Valid()
      ensures gameId == old(gameId) && difficulty == old(difficulty) && maxHp == old(maxHp)
      ensures old(phase) == Start || old(phase) == End ==>
        && hp == old(hp) && logs == old(logs) && phase == old(phase)
        && options == old(options) && modal == old(modal)
      ensures old(phase) == Test ==>
        && hp == old(hp) && modal == old(modal)
        && (testReply.Failed? ==>
              logs == old(logs) + [Entry(Action, "PERFORMING: " + selection)]
              && phase == Test && options == old(options))
        && (testReply.Replied? ==>
              logs == old(logs) + [Entry(Action, "PERFORMING: " + selection), Entry(Narrative, testReply.data.narrative)]
              && options == testReply.data.diagnosisOptions
              && phase == Diagnose)
      ensures old(phase) == Diagnose && diagnosisReply.Failed? ==>
        && logs == old(logs) + [Entry(Action, "DIAGNOSING: " + selection)]
        && hp == old(hp) && phase == Diagnose && options == old(options) && modal == old(modal)
      ensures old(phase) == Diagnose && diagnosisReply.Replied? ==>
        var d := diagnosisReply.data;
        if d.status == "WIN" then
          && logs == old(logs) + [Entry(Action, "DIAGNOSING: " + selection)]
          && modal == Some(Modal(SavedTitle, d.analysis, WinOutcome))
          && hp == old(hp) && options == old(options) && phase == End
        else if d.status == "LOSE" then
          && logs == old(logs) + [Entry(Action, "DIAGNOSING: " + selection)]
          && modal == Some(Modal(FlatlinedTitle, d.analysis, LoseOutcome))
          && hp == 0 && options == old(options) && phase == End
        else
          && logs == old(logs) + [Entry(Action, "DIAGNOSING: " + selection),
                                  Entry(Diagnosis, d.message), Entry(System, Reinitializing)]
          && hp == d.hp
          && options == (if d.testOptions.Some? then d.testOptions.value else old(options))
          && modal == old(modal) && phase == Test
    {
      if phase == Test {
        AddLog(Action, "PERFORMING: " + selection);
        match testReply
        case Failed =>
        case Replied(data) =>
          AddLog(Narrative, data.narrative);
          options := data.diagnosisOptions;
          phase := Diagnose;
      } else if phase == Diagnose {
        AddLog(Action, "DIAGNOSING: " + selection);
        match diagnosisReply
        case Failed =>
        case Replied(data) =>
          if data.status == "WIN" {
            modal := Some(Modal(SavedTitle, data.analysis, WinOutcome));
            phase := End;
          } else if data.status == "LOSE" {
            hp := 0;
            modal := Some(Modal(FlatlinedTitle, data.analysis, LoseOutcome));
            phase := End;
          } else {
            hp := data.hp;
            AddLog(Diagnosis, data.message);
            AddLog(System, Reinitializing);
            if data.testOptions.Some? {
              options := data.testOptions.value;
            }
            phase := Test;
          }
      }
    }
  }
}

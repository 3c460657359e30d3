/**
 * Plays of the game put together from the contracts alone: the page against
 * scripted replies, the backend on its own, and games where the page is fed
 * the backend's own replies.
 */
module Scenarios {
  import opened Wrappers
  import opened Transcript
  import Text
  import Server
  import Client

  /** An easy game: test, a wrong diagnosis, another test, then the right one. */
  method EasyGameWon()
  {
    var s := new Client.Session();
    s.StartGame("easy", Client.Replied(Client.StartData("g1", 100, 100, "intro", ["CBC", "MRI"])));
    assert s.phase == Client.Test && s.options == ["CBC", "MRI"];

    s.HandleAction("CBC", Client.Replied(Client.TestData("normal", ["Flu", "Sepsis"])), Client.Failed);
    assert s.phase == Client.Diagnose && s.options == ["Flu", "Sepsis"];

    s.HandleAction("Flu", Client.Failed,
      Client.Replied(Client.DiagnosisData("CONTINUE", "", "wrong", 70, Some(["CBC", "MRI"]))));
    assert s.phase == Client.Test && s.hp == 70 && s.options == ["CBC", "MRI"];

    s.HandleAction("MRI", Client.Replied(Client.TestData("lesion", ["Flu", "Sepsis"])), Client.Failed);
    s.HandleAction("Sepsis", Client.Failed,
      Client.Replied(Client.DiagnosisData("WIN", "because", "", 0, None)));
    assert s.phase == Client.End && s.hp == 70 && s.modal.value.kind == Client.WinOutcome;
    assert |s.logs| == 10;

    // The end screen ignores further selections.
    s.HandleAction("Flu", Client.Failed,
      Client.Replied(Client.DiagnosisData("LOSE", "late", "", 0, None)));
    assert s.phase == Client.End && s.modal.value.kind == Client.WinOutcome;
  }

  /** A LOSE reply zeroes hp whatever hp was; a server that is down leaves the start screen up. */
  method LostAndUnreachable()
  {
    var s := new Client.Session();
    s.StartGame("hard", Client.Failed);
    assert s.phase == Client.Start && s.gameId == None && s.difficulty == Some("hard");
    assert s.logs == [Entry(System, Client.Retrieving), Entry(System, Client.ConnectError)];

    s.StartGame("hard", Client.Replied(Client.StartData("g2", 20, 20, "intro", ["ECG"])));
    s.HandleAction("ECG", Client.Replied(Client.TestData("flat", ["MI"])), Client.Failed);
    s.HandleAction("MI", Client.Failed, Client.Replied(Client.DiagnosisData("LOSE", "why", "", 0, None)));
    assert s.phase == Client.End && s.hp == 0 && s.modal.value.kind == Client.LoseOutcome;
  }

  /** The page takes a CONTINUE reply's hp as it comes, even beyond max hp or below zero. */
  method HpNotClamped()
  {
    var s := new Client.Session();
    s.StartGame("easy", Client.Replied(Client.StartData("g3", 100, 100, "intro", ["CBC"])));
    s.HandleAction("CBC", Client.Replied(Client.TestData("ok", ["Flu"])), Client.Failed);
    s.HandleAction("Flu", Client.Failed, Client.Replied(Client.DiagnosisData("CONTINUE", "", "m", 150, None)));
    // No test_options in the reply: the diagnosis names stay on offer as tests.
    assert s.hp == 150 && s.hp > s.maxHp && s.options == ["Flu"];
    s.HandleAction("CBC", Client.Replied(Client.TestData("ok", ["Flu"])), Client.Failed);
    s.HandleAction("Flu", Client.Failed, Client.Replied(Client.DiagnosisData("???", "", "m", -40, None)));
    assert s.hp == -40 && s.phase == Client.Test;
  }

  /** A case that failed to parse is stored, yet starting fails, and so does every later diagnosis. */
  method FallbackCaseIsStoredButUnplayable()
  {
    var t := new Server.GameTable();
    var r := t.StartGame("medium", "id-1", Server.Fallback());
    assert r == Failure(Server.MissingKey("patient_intro"));
    assert "id-1" in t.games && t.games["id-1"].hp == 60 && t.games["id-1"].status == Server.Playing;
    var d := t.SubmitDiagnosis("id-1", "");
    assert d == Failure(Server.MissingKey("illness_name"));
    var u := t.SubmitTest("id-2", "CBC", Server.Fallback());
    assert u == Failure(Server.NotFound);
  }

  function CaseOf(illness: string): Server.Doc
  {
    Server.Doc(
      narrative := None,
      testNarrative := None,
      illnessName := Some(illness),
      patientIntro := Some("A patient."),
      correctTest := Some("Serology"),
      symptomsHidden := Some("parotitis"),
      explanationCorrect := Some("Classic signs."),
      initialTestOptions := Some(["Serology", "CBC"]),
      diagnosisList := Some(["Mumps", "Flu"]))
  }

  lemma FluIsNotMumps()
    ensures !Server.IsCorrect("Flu", "Mumps")
  {
    assert Text.Lower("Flu") == "flu" && Text.Lower("Mumps") == "mumps";
  }

  /** A test is logged twice over and changes neither hp nor status. */
  method TestLoggedTwice()
  {
    var t := new Server.GameTable();
    var c := CaseOf("Mumps");
    var st := t.StartGame("easy", "g", c);
    var tr := t.SubmitTest("g", "CBC", c.(narrative := Some("normal")));
    assert tr.value.diagnosisOptions == ["Mumps", "Flu"];
    assert |t.games["g"].log| == 2 && t.games["g"].hp == 100 && t.games["g"].status == Server.Playing;
  }

  /** A right name wins, and the WON game still takes wrong names. */
  method WonGameStillScored()
  {
    var t := new Server.GameTable();
    var c := CaseOf("Mumps");
    var st := t.StartGame("easy", "g", c);
    var w := t.SubmitDiagnosis("g", "Mumps");
    assert w.value.Win? && t.games["g"].status == Server.Won && t.games["g"].hp == 100;

    FluIsNotMumps();
    var d := t.SubmitDiagnosis("g", "Flu");
    assert d.value.Continue? && d.value.hp == 80 && t.games["g"].status == Server.Playing;
  }

  /** Medium starts at 60, so the third wrong name loses, and a fourth drives hp below zero. */
  method MediumLostOnThirdMiss()
  {
    var t := new Server.GameTable();
    var c := CaseOf("Mumps");
    var st := t.StartGame("medium", "g", c);
    assert st.value.hp == 60;
    FluIsNotMumps();
    var d1 := t.SubmitDiagnosis("g", "Flu");
    assert d1.value.Continue? && d1.value.hp == 40;
    var d2 := t.SubmitDiagnosis("g", "Flu");
    assert d2.value.Continue? && d2.value.hp == 20;
    var d3 := t.SubmitDiagnosis("g", "Flu");
    assert d3.value.Lose? && t.games["g"].hp == 0 && t.games["g"].status == Server.Lost;
    var d4 := t.SubmitDiagnosis("g", "Flu");
    assert d4.value.Lose? && t.games["g"].hp == -20;
  }

  // ---------------------------------------------------------------------------
  // The page fed the backend's own replies

  /** A route's reply as the page reads it. A `KeyError` is an HTTP 500 whose body is not JSON, so `res.json()` rejects. */
  function AsStart(r: Result<Server.StartReply, Server.ServerError>): Client.Fetch<Client.StartData>
  {
    match r
    case Success(v) => Client.Replied(Client.StartData(v.gameId, v.hp, v.maxHp, v.patientIntro, v.testOptions))
    case Failure(_) => Client.Failed
  }

  function AsTest(r: Result<Server.TestReply, Server.ServerError>): Client.Fetch<Client.TestData>
  {
    match r
    case Success(v) => Client.Replied(Client.TestData(v.narrative, v.diagnosisOptions))
    case Failure(_) => Client.Failed
  }

  /** WIN and LOSE bodies have no `hp` or `test_options`; the page does not read them for those statuses. */
  function AsDiagnosis(r: Result<Server.DiagnosisReply, Server.ServerError>): Client.Fetch<Client.DiagnosisData>
  {
    match r
    case Success(Win(m, a)) => Client.Replied(Client.DiagnosisData("WIN", a, m, 0, None))
    case Success(Lose(m, a)) => Client.Replied(Client.DiagnosisData("LOSE", a, m, 0, None))
    case Success(Continue(hp, m, a, opts)) => Client.Replied(Client.DiagnosisData("CONTINUE", a, m, hp, Some(opts)))
    case Failure(_) => Client.Failed
  }

  /** The start and test replies of the backend take the page to DIAGNOSE with the case's options. */
  method StartAndTestEndToEnd()
  {
    var t := new Server.GameTable();
    var page := new Client.Session();
    var c := CaseOf("Mumps");

    var st := t.StartGame("hard", "g", c);
    page.StartGame("hard", AsStart(st));
    assert page.phase == Client.Test && page.hp == 20 && page.maxHp == 20 && page.gameId == Some("g");
    assert page.options == ["Serology", "CBC"];

    var tr := t.SubmitTest("g", "CBC", c.(narrative := Some("normal")));
    page.HandleAction("CBC", AsTest(tr), Client.Failed);
    assert page.phase == Client.Diagnose && page.options == ["Mumps", "Flu"];
  }

  /** A hard game: one wrong diagnosis and the page shows the patient flatlined. */
  method HardMissEndToEnd()
  {
    var t := new Server.GameTable();
    var page := new Client.Session();
    var c := CaseOf("Mumps");

    var st := t.StartGame("hard", "g", c);
    page.StartGame("hard", AsStart(st));
    page.HandleAction("CBC", Client.Replied(Client.TestData("normal", ["Mumps", "Flu"])), Client.Failed);

    FluIsNotMumps();
    var d := t.SubmitDiagnosis("g", "Flu");
    page.HandleAction("Flu", Client.Failed, AsDiagnosis(d));
    assert page.phase == Client.End && page.hp == 0 && page.modal.value.kind == Client.LoseOutcome;
  }

  /** A medium game: a miss, and the page shows the server's lowered hp and the test list again. */
  method MediumMissEndToEnd()
  {
    var t := new Server.GameTable();
    var page := new Client.Session();
    var c := CaseOf("Mumps");

    var st := t.StartGame("medium", "g", c);
    page.StartGame("medium", AsStart(st));
    page.HandleAction("CBC", Client.Replied(Client.TestData("normal", ["Mumps", "Flu"])), Client.Failed);

    FluIsNotMumps();
    var d := t.SubmitDiagnosis("g", "Flu");
    page.HandleAction("Flu", Client.Failed, AsDiagnosis(d));
    assert page.phase == Client.Test && page.hp == 40 == t.games["g"].hp;
    assert page.options == ["Serology", "CBC"];
  }
}

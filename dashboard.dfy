/**
 * The session and gating logic of the dashboard (index.py:76-99, 156-159).
 *
 * Streamlit re-runs the whole script after every widget interaction; the only
 * state that survives a re-run is `st.session_state.username`. One re-run is
 * `Session.Rerun`: the login section (index.py:80-91) reacts to the button
 * that was pressed, then the gate (index.py:94, 99) decides whether the
 * dataset pipeline runs on the uploaded file.
 */
module Dashboard {
  import opened Wrappers
  import opened Binarize
  import opened AgeGroups
  import opened Frame

  /** The button pressed before this re-run, with the text then in the
      username box. Only the button rendered on the previous run can be
      pressed: "Log In" while logged out, "Log Out" while logged in. */
  datatype Click = NoClick | LogInClicked | LogOutClicked

  /** Python truthiness of `st.session_state.username` (index.py:80, 94):
      None and the empty string are both false. */
  predicate LoggedIn(u: Option<string>)
  {
    u.Some? && u.value != ""
  }

  /** How one re-run of the login section (index.py:80-91) changes the username. */
  function NextUser(u: Option<string>, click: Click, typed: string): (v: Option<string>)
    ensures !LoggedIn(u) && click == LogInClicked && typed != "" ==> v == Some(typed)
    ensures !LoggedIn(u) && click == LogInClicked && typed == "" ==> v == u
    ensures LoggedIn(u) && click == LogOutClicked ==> v == None
    ensures click == NoClick ==> v == u
    ensures LoggedIn(v) ==> v == u || (click == LogInClicked && v == Some(typed))
  {
    if !LoggedIn(u) then
      if click == LogInClicked && typed != "" then Some(typed) else u
    else if click == LogOutClicked then None
    else u
  }

  /** The username after a whole session of re-runs, starting from the unset
      value of index.py:76-77. */
  function Replay(events: seq<(Click, string)>): Option<string>
  {
    if events == [] then None
    else
      var last := events[|events| - 1];
      NextUser(Replay(events[..|events| - 1]), last.0, last.1)
  }

  /** Throughout a session the username is either unset or a non-empty name
      that was typed when "Log In" was pressed. */
  lemma {:induction false} ReplayUserWasTyped(events: seq<(Click, string)>)
    ensures Replay(events).Some? ==>
              Replay(events).value != "" &&
              exists k :: 0 <= k < |events| && events[k] == (LogInClicked, Replay(events).value)
  {
    if events != [] {
      var prefix := events[..|events| - 1];
      ReplayUserWasTyped(prefix);
      var u, v := Replay(prefix), Replay(events);
      if v.Some? {
        if v == u {
          var k :| 0 <= k < |prefix| && prefix[k] == (LogInClicked, u.value);
          assert events[k] == prefix[k];
        } else {
          assert events[|events| - 1] == (LogInClicked, v.value);
        }
      }
    }
  }

  /** Pressing "Log Out" always leaves the session logged out, whatever came before. */
  lemma {:induction false} LogOutClears(events: seq<(Click, string)>, typed: string)
    ensures Replay(events + [(LogOutClicked, typed)]) == None
  {
    var all := events + [(LogOutClicked, typed)];
    assert all[..|all| - 1] == events;
    ReplayUserWasTyped(events);
  }

  /** What the main area shows after one re-run. */
  datatype Screen =
    | LoginPrompt                                          // index.py:205
    | UploadPrompt                                         // index.py:203
    | AgeCutError                                          // pd.cut raised at index.py:122
    | Analysis(chart: AgeChart, basket: seq<seq<int>>)     // index.py:102-159

  /** What the sidebar reports from the login section. */
  datatype Notice = NoNotice | LoggedInAs(name: string) | EnterName

  /** The gate of index.py:94 and index.py:99 and the pipeline behind it, up to
      the binarized table handed to the miner (index.py:157). */
  function Page(u: Option<string>, upload: Option<Data>): (s: Screen)
    requires upload.Some? ==> WellFormed(upload.value)
    ensures s.LoginPrompt? <==> !LoggedIn(u)
    ensures s.UploadPrompt? <==> LoggedIn(u) && upload.None?
    ensures s.Analysis? || s.AgeCutError? <==> LoggedIn(u) && upload.Some?
    ensures s.AgeCutError? <==> LoggedIn(u) && upload.Some? && AgeStage(upload.value).0.AgeNotNumeric?
    ensures s.Analysis? ==> IsBinary(s.basket) && |s.basket| == |upload.value.rows|
    ensures s.Analysis? ==> s.chart == AgeStage(upload.value).0 && !s.chart.AgeNotNumeric?
  {
    if !LoggedIn(u) then LoginPrompt
    else if upload.None? then UploadPrompt
    else
      var (chart, data) := AgeStage(upload.value);
      if chart.AgeNotNumeric? then AgeCutError
      else Analysis(chart, PreprocessData(data.rows))
  }

  /** The binarized table the miner receives: every uploaded column keeps its
      presence bits (a cell is 1 exactly when it is a positive number), and the
      "Age Group" column, when the age block wrote it, is all zeros. */
  lemma {:induction false} AnalysisBasket(u: Option<string>, upload: Data)
    requires WellFormed(upload)
    requires Page(u, Some(upload)).Analysis?
    ensures var s := Page(u, Some(upload));
            var columns := AgeStage(upload).1.columns;
            && (forall i :: 0 <= i < |s.basket| ==> |s.basket[i]| == |columns|)
            && (forall i, j :: 0 <= i < |s.basket| && 0 <= j < |upload.columns| && upload.columns[j] != "Age Group" ==>
                  (s.basket[i][j] == 1 <==> Positive(upload.rows[i][j])))
            && (forall i, j :: 0 <= i < |s.basket| && 0 <= j < |columns| && columns[j] == "Age Group" && s.chart.AgeCounts? ==>
                  s.basket[i][j] == 0)
  {
    var s := Page(u, Some(upload));
    assert s == Analysis(AgeStage(upload).0, PreprocessData(AgeStage(upload).1.rows));
    UploadedColumnsKeepBits(upload);
    if s.chart.AgeCounts? {
      AgeGroupColumnIsZero(upload);
    }
  }

  /** `st.session_state` of one browser session. */
  class Session {
    var username: Option<string>

    ghost predicate Valid()
      reads this
    {
      username.Some? ==> username.value != ""
    }

    /** index.py:76-77: a new session starts with no username. */
    constructor ()
      ensures Valid() && username == None
    {
      username := None;
    }

    /** "Log In" (index.py:82-87): a non-empty name is stored, an empty one is
        refused with an error and the session stays logged out. The button is
        only offered while logged out; otherwise nothing happens. */
    method LogIn(typed: string) returns (notice: Notice)
      requires Valid()
      modifies this
      ensures Valid()
      ensures username == NextUser(old(username), LogInClicked, typed)
      ensures old(username).None? && typed != "" ==> username == Some(typed) && notice == LoggedInAs(typed)
      ensures old(username).None? && typed == "" ==> username == None && notice == EnterName
      ensures old(username).Some? ==> username == old(username) && notice == NoNotice
    {
      notice := NoNotice;
      if username.None? {
        if typed != "" {
          username := Some(typed);
          notice := LoggedInAs(typed);
        } else {
          notice := EnterName;
        }
      }
    }

    /** "Log Out" (index.py:90-91): the username is cleared. The button is only
        offered while logged in; either way the session ends logged out. */
    method LogOut()
      requires Valid()
      modifies this
      ensures Valid()
      ensures username == NextUser(old(username), LogOutClicked, "")
      ensures username == None
    {
      username := None;
    }

    /** One run of the script: the login section reacts to the click, then the
        page is built from the new username and the uploaded file. */
    method Rerun(click: Click, typed: string, upload: Option<Data>) returns (notice: Notice, screen: Screen)
      requires Valid()
      requires upload.Some? ==> WellFormed(upload.value)
      modifies this
      ensures Valid()
      ensures username == NextUser(old(username), click, typed)
      ensures old(username).Some? ==> notice == LoggedInAs(old(username).value)
      ensures old(username).None? && click == LogInClicked ==>
                notice == if typed != "" then LoggedInAs(typed) else EnterName
      ensures old(username).None? && click != LogInClicked ==> notice == NoNotice
      ensures screen == Page(username, upload)
    {
      if username.None? {
        notice := NoNotice;
        if click == LogInClicked {
          notice := LogIn(typed);
        }
      } else {
        notice := LoggedInAs(username.value);
        if click == LogOutClicked {
          LogOut();
        }
      }
      if username.None? {
        screen := LoginPrompt;
        return;
      }
      if upload.None? {
        screen := UploadPrompt;
        return;
      }
      var data := new DataFrame(upload.value);
      var chart := data.AddAgeGroups();
      if chart.AgeNotNumeric? {
        screen := AgeCutError;
        return;
      }
      screen := Analysis(chart, PreprocessData(data.rows));
    }
  }
}

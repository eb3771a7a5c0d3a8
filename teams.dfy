/** Responder resolution: which team an alert is attributed to. */
module Teams {

  /** UNKNOWN_TEAM_NAME */
  const UnknownTeamName := "Unknown"

  datatype Team = Team(id: string, name: string)

  /** An entry of an alert's `responders` list; `kind` is the JSON field `type`. */
  datatype ResponderRef = ResponderRef(kind: string, id: string)

  /** teams[i] is the first team whose id is teamId. */
  predicate FirstWithId(teams: seq<Team>, teamId: string, i: int) {
    0 <= i < |teams| && teams[i].id == teamId && forall j :: 0 <= j < i ==> teams[j].id != teamId
  }

  /** rs[i] is the first responder of type "team". */
  predicate FirstTeamTyped(rs: seq<ResponderRef>, i: int) {
    0 <= i < |rs| && rs[i].kind == "team" && forall j :: 0 <= j < i ==> rs[j].kind != "team"
  }

  /** teamName: the name of the first team whose id is teamId, or "Unknown" when none is. */
  function TeamName(teams: seq<Team>, teamId: string): (name: string)
    ensures (forall i :: 0 <= i < |teams| ==> teams[i].id != teamId) ==> name == UnknownTeamName
    ensures forall i :: FirstWithId(teams, teamId, i) ==> name == teams[i].name
  {
    if |teams| == 0 then UnknownTeamName
    else if teams[0].id == teamId then teams[0].name
    else TeamName(teams[1..], teamId)
  }

  /** responders.filter(r => r.type === "team") */
  function TeamResponders(rs: seq<ResponderRef>): (f: seq<ResponderRef>)
    ensures forall x :: x in f <==> x in rs && x.kind == "team"
    ensures forall i :: FirstTeamTyped(rs, i) ==> |f| > 0 && f[0] == rs[i]
  {
    if |rs| == 0 then []
    else (if rs[0].kind == "team" then [rs[0]] else []) + TeamResponders(rs[1..])
  }

  /** respondingTeam: the name of the team referenced by the first team-typed responder, or
      "Unknown" when there is no team-typed responder or no team has its id. */
  function RespondingTeam(teams: seq<Team>, responders: seq<ResponderRef>): (name: string)
    ensures (forall i :: 0 <= i < |responders| ==> responders[i].kind != "team") ==> name == UnknownTeamName
    ensures forall i :: FirstTeamTyped(responders, i) ==> name == TeamName(teams, responders[i].id)
  {
    var teamResponders := TeamResponders(responders);
    if |teamResponders| == 0 then UnknownTeamName else TeamName(teams, teamResponders[0].id)
  }

  /** Examples: a user responder before a team responder is skipped; an alert without a
      team responder, or naming a team that is not listed, goes to "Unknown". */
  lemma RespondingTeamExamples()
    ensures RespondingTeam([Team("t1", "SRE")], [ResponderRef("user", "u1"), ResponderRef("team", "t1")]) == "SRE"
    ensures RespondingTeam([Team("t1", "SRE")], [ResponderRef("user", "u1")]) == UnknownTeamName
    ensures RespondingTeam([Team("t1", "SRE")], [ResponderRef("team", "missing")]) == UnknownTeamName
  {
    var teams := [Team("t1", "SRE")];
    var rs := [ResponderRef("user", "u1"), ResponderRef("team", "t1")];
    assert FirstTeamTyped(rs, 1);
    assert FirstWithId(teams, "t1", 0);
    var missing := [ResponderRef("team", "missing")];
    assert FirstTeamTyped(missing, 0);
    assert teams[0].id != "missing";
  }
}

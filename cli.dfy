/** The command-line driver: fetch, then print a report or an error. */
module Cli {
  import opened Wrappers
  import opened Activity
  import opened Fetch
  import Json

  function NoActivityLine(username: string): string {
    "No recent activity found for user: " + username
  }

  function HeaderLine(username: string): string {
    "Recent activity for " + username + ":"
  }

  /** One "- " line per event, in the order received. */
  function EventLines(events: seq<Event>): (lines: seq<string>)
    ensures |lines| == |events|
    ensures forall i :: 0 <= i < |events| ==> lines[i] == "- " + FormatActivity(events[i])
  {
    if events == [] then [] else ["- " + FormatActivity(events[0])] + EventLines(events[1..])
  }

  /** The report printed for a successful fetch: one line when there is
      no event, otherwise a header, a blank line and the event lines. */
  function ReportLines(username: string, events: seq<Event>): (lines: seq<string>)
    ensures events == [] <==> |lines| == 1
    ensures events == [] ==> lines == [NoActivityLine(username)]
    ensures events != [] ==> |lines| == |events| + 2
    ensures events != [] ==> lines[0] == HeaderLine(username) && lines[1] == ""
    ensures events != [] ==> forall i :: 0 <= i < |events| ==> lines[i + 2] == "- " + FormatActivity(events[i])
  {
    if events == [] then [NoActivityLine(username)]
    else [HeaderLine(username), ""] + EventLines(events)
  }

  /** Builds the report as the driver prints it: the header, then one
      line per event from the loop over the events. */
  method PrintReport(username: string, events: seq<Event>) returns (lines: seq<string>)
    ensures lines == ReportLines(username, events)
  {
    if |events| == 0 {
      lines := [NoActivityLine(username)];
      return;
    }
    var printed := [];
    for i := 0 to |events|
      invariant |printed| == i
      invariant forall k :: 0 <= k < i ==> printed[k] == "- " + FormatActivity(events[k])
    {
      printed := printed + ["- " + FormatActivity(events[i])];
    }
    lines := [HeaderLine(username), ""] + printed;
  }

  /** What one run of the tool leaves behind. */
  datatype Outcome = Outcome(stdout: seq<string>, stderr: seq<string>, exitCode: int)

  /** One run: on success the report on standard output and exit code 0;
      on failure one "Error: " line on standard error and exit code 1. */
  method Run(username: string, exchange: Exchange) returns (out: Outcome)
    ensures out.exitCode == 0 <==> FetchUserActivity(username, exchange).Success?
    ensures out.exitCode == 0 || out.exitCode == 1
    ensures out.exitCode == 0 ==>
              out.stdout == ReportLines(username, FetchUserActivity(username, exchange).value) && out.stderr == []
    ensures out.exitCode == 1 ==>
              out.stdout == [] && out.stderr == ["Error: " + ErrorMessage(FetchUserActivity(username, exchange).error)]
  {
    match FetchUserActivity(username, exchange)
    case Success(events) =>
      var lines := PrintReport(username, events);
      out := Outcome(lines, [], 0);
    case Failure(e) =>
      out := Outcome([], ["Error: " + ErrorMessage(e)], 1);
  }

  /** A feed with one push of two commits, a feed with no events, a user
      that does not exist, and the rate limit. */
  lemma EndToEndExamples()
    ensures var push := Event("PushEvent", Actor("octocat"), Repository("octo/repo"),
                              Json.Obj(map["commits" := Json.Arr([Json.Obj(map[]), Json.Obj(map[])])]));
            var fetched := FetchUserActivity("octocat", Responded(OK, Some("OK"), Success([push])));
            fetched == Success([push])
            && ReportLines("octocat", fetched.value)[2] == "- " + ("Pushed " + "2" + " commits" + " to " + "octo/repo")
    ensures var fetched := FetchUserActivity("octocat", Responded(OK, Some("OK"), Success([])));
            fetched == Success([]) && ReportLines("octocat", fetched.value) == [NoActivityLine("octocat")]
    ensures FetchUserActivity("nonexistent-user-xyz", Responded(NOT_FOUND, Some("Not Found"), Failure("not read")))
            == Failure(UserNotFound("nonexistent-user-xyz"))
    ensures FetchUserActivity("octocat", Responded(FORBIDDEN, Some("Forbidden"), Failure("not read"))) == Failure(RateLimited)
  {
    var push := Event("PushEvent", Actor("octocat"), Repository("octo/repo"),
                      Json.Obj(map["commits" := Json.Arr([Json.Obj(map[]), Json.Obj(map[])])]));
    PushExamples("octo/repo");
    assert FormatActivity(push) == Describe(Push, "octo/repo", push.payload);
  }
}

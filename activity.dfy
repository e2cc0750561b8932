/** One event of the user's public feed and its one-line description. */
module Activity {
  import opened Wrappers
  import opened Json
  import opened Text

  datatype Actor = Actor(login: string)
  datatype Repository = Repository(name: string)

  /** An event as deserialised from the feed; its timestamp is not modelled. */
  datatype Event = Event(eventType: string, actor: Actor, repo: Repository, payload: Json.Value)

  /** The event types the formatter describes with a phrasing of their own. */
  const KNOWN_KINDS: set<string> := {
    "PushEvent", "CreateEvent", "DeleteEvent", "IssuesEvent", "PullRequestEvent",
    "WatchEvent", "ForkEvent", "ReleaseEvent", "PublicEvent", "MemberEvent",
    "IssueCommentEvent", "PullRequestReviewEvent"
  }

  /** The formatter's dispatch on the event-type string: one constructor per
      known type, and the catch-all keeping the raw string. */
  datatype Kind =
    | Push | Create | Delete | Issues | PullRequest | Watch | Fork
    | Release | Public | Member | IssueComment | PullRequestReview
    | Unrecognised(name: string)

  /** The event-type string a kind stands for. */
  function KindName(k: Kind): string {
    match k
    case Push => "PushEvent"
    case Create => "CreateEvent"
    case Delete => "DeleteEvent"
    case Issues => "IssuesEvent"
    case PullRequest => "PullRequestEvent"
    case Watch => "WatchEvent"
    case Fork => "ForkEvent"
    case Release => "ReleaseEvent"
    case Public => "PublicEvent"
    case Member => "MemberEvent"
    case IssueComment => "IssueCommentEvent"
    case PullRequestReview => "PullRequestReviewEvent"
    case Unrecognised(name) => name
  }

  /** Which arm of the formatter an event-type string selects. */
  function KindOf(eventType: string): (k: Kind)
    ensures KindName(k) == eventType
    ensures k.Unrecognised? <==> eventType !in KNOWN_KINDS
  {
    match eventType
    case "PushEvent" => Push
    case "CreateEvent" => Create
    case "DeleteEvent" => Delete
    case "IssuesEvent" => Issues
    case "PullRequestEvent" => PullRequest
    case "WatchEvent" => Watch
    case "ForkEvent" => Fork
    case "ReleaseEvent" => Release
    case "PublicEvent" => Public
    case "MemberEvent" => Member
    case "IssueCommentEvent" => IssueComment
    case "PullRequestReviewEvent" => PullRequestReview
    case _ => Unrecognised(eventType)
  }

  /** Every kind but the catch-all is selected by its own name. */
  lemma KindOfKindName(k: Kind)
    requires !k.Unrecognised? || k.name !in KNOWN_KINDS
    ensures KindOf(KindName(k)) == k
  {
  }

  predicate IsAsciiLower(c: char) {
    'a' <= c <= 'z'
  }

  /** Upper-case form of one character, restricted to ASCII: a lower-case
      ASCII letter becomes its capital, every other character stays. */
  function ToUppercase(c: char): (r: string)
    ensures |r| == 1 && !IsAsciiLower(r[0])
    ensures IsAsciiLower(c) ==> r[0] as int == c as int - 32
    ensures !IsAsciiLower(c) ==> r == [c]
  {
    if IsAsciiLower(c) then [(c as int - 32) as char] else [c]
  }

  /** The string with only its first character upper-cased; the rest is kept. */
  function CapitalizeFirstLetter(s: string): (r: string)
    ensures |r| == |s|
    ensures s != [] ==> r[1..] == s[1..] && !IsAsciiLower(r[0])
    ensures s != [] ==> r[0] == if IsAsciiLower(s[0]) then (s[0] as int - 32) as char else s[0]
  {
    if s == [] then [] else ToUppercase(s[0]) + s[1..]
  }

  /** A string field with a fallback: the text when the looked-up value
      is a string, `default` when it is absent or of another type. */
  function StrOr(o: Option<Value>, default: string): (r: string)
    ensures o.Some? && o.value.Str? ==> r == o.value.s
    ensures !(o.Some? && o.value.Str?) ==> r == default
  {
    o.AndThen(AsStr).UnwrapOr(default)
  }

  /** A number field with a fallback: the value when the looked-up value
      is an integer in the unsigned 64-bit range, 0 otherwise. */
  function U64Or0(o: Option<Value>): (n: nat)
    ensures n < U64_LIMIT
    ensures o.Some? && o.value.Num? && o.value.n.Int? && 0 <= o.value.n.i < U64_LIMIT ==> n == o.value.n.i
    ensures n != 0 ==> o == Some(Num(Int(n)))
  {
    o.AndThen(AsU64).UnwrapOr(0)
  }

  /** Number of commits of a push: the length of `commits` when it is an array, else 0. */
  function CommitCount(payload: Value): (n: nat)
    ensures payload.Obj? && "commits" in payload.fields && payload.fields["commits"].Arr? ==>
              n == |payload.fields["commits"].items|
    ensures !(payload.Obj? && "commits" in payload.fields && payload.fields["commits"].Arr?) ==> n == 0
  {
    Get(payload, "commits").AndThen(AsArray).Map((c: seq<Value>) => |c|).UnwrapOr(0)
  }

  /** The value at `key` inside the object found at `outer`. */
  function Nested(payload: Value, outer: string, key: string): Option<Value> {
    Get(payload, outer).AndThen((v: Value) => Get(v, key))
  }

  /** The one-line description of an event. Total: every field it reads
      falls back to a default when absent or of the wrong type. */
  function FormatActivity(event: Event): string {
    Describe(KindOf(event.eventType), event.repo.name, event.payload)
  }

  /** The arm of the formatter for one kind of event in `repo`. */
  function Describe(kind: Kind, repo: string, p: Value): string {
    match kind
    case Push =>
      var commits := CommitCount(p);
      "Pushed " + NatToString(commits) + " commit" + (if commits == 1 then "" else "s") + " to " + repo
    case Create =>
      var refType := StrOr(Get(p, "ref_type"), "repository");
      (match refType
       case "repository" => "Created repository " + repo
       case "branch" => "Created branch '" + StrOr(Get(p, "ref"), "unknown") + "' in " + repo
       case "tag" => "Created tag '" + StrOr(Get(p, "ref"), "unknown") + "' in " + repo
       case _ => "Created " + refType + " in " + repo)
    case Delete =>
      var refType := StrOr(Get(p, "ref_type"), "branch");
      var refName := StrOr(Get(p, "ref"), "unknown");
      "Deleted " + refType + " '" + refName + "' in " + repo
    case Issues =>
      var action := StrOr(Get(p, "action"), "updated");
      var issueNumber := U64Or0(Nested(p, "issue", "number"));
      CapitalizeFirstLetter(action) + " issue #" + NatToString(issueNumber) + " in " + repo
    case PullRequest =>
      var action := StrOr(Get(p, "action"), "updated");
      var prNumber := U64Or0(Get(p, "number"));
      CapitalizeFirstLetter(action) + " pull request #" + NatToString(prNumber) + " in " + repo
    case Watch =>
      "Starred " + repo
    case Fork =>
      "Forked " + repo
    case Release =>
      var action := StrOr(Get(p, "action"), "published");
      var releaseName := StrOr(Nested(p, "release", "tag_name"), "unknown");
      CapitalizeFirstLetter(action) + " release " + releaseName + " in " + repo
    case Public =>
      "Made " + repo + " public"
    case Member =>
      var action := StrOr(Get(p, "action"), "added");
      CapitalizeFirstLetter(action) + " as collaborator to " + repo
    case IssueComment =>
      var action := StrOr(Get(p, "action"), "created");
      var issueNumber := U64Or0(Nested(p, "issue", "number"));
      CapitalizeFirstLetter(action) + " comment on issue #" + NatToString(issueNumber) + " in " + repo
    case PullRequestReview =>
      var action := StrOr(Get(p, "action"), "submitted");
      var prNumber := U64Or0(Nested(p, "pull_request", "number"));
      CapitalizeFirstLetter(action) + " review on pull request #" + NatToString(prNumber) + " in " + repo
    case Unrecognised(eventType) =>
      "Performed " + eventType + " in " + repo
  }

  // ---------------------------------------------------------------------
  // Capitalisation

  /** Capitalising changes nothing exactly when the string is empty or
      does not start with a lower-case letter. */
  lemma CapitalizeIdentity(s: string)
    ensures CapitalizeFirstLetter(s) == s <==> (s == [] || !IsAsciiLower(s[0]))
  {
    if s != [] && !IsAsciiLower(s[0]) {
      assert CapitalizeFirstLetter(s) == [s[0]] + s[1..] == s;
    }
  }

  lemma CapitalizeIdempotent(s: string)
    ensures CapitalizeFirstLetter(CapitalizeFirstLetter(s)) == CapitalizeFirstLetter(s)
  {
    CapitalizeIdentity(CapitalizeFirstLetter(s));
  }

  lemma CapitalizeExamples()
    ensures CapitalizeFirstLetter("created") == "Created"
    ensures CapitalizeFirstLetter("") == ""
    ensures CapitalizeFirstLetter("Merged") == "Merged"
  {
    CapitalizeIdentity("Merged");
  }

  // ---------------------------------------------------------------------
  // Push events

  /** A push line gives the decimal commit count, then "commit" in the
      singular exactly when the count is 1, then the repository. */
  lemma PushLine(repo: string, p: Value)
    ensures var n := CommitCount(p);
            Describe(Push, repo, p)
            == "Pushed " + NatToString(n) + (if n == 1 then " commit" else " commits") + " to " + repo
  {
    var d := NatToString(CommitCount(p));
    if CommitCount(p) == 1 {
      assert "Pushed " + d + " commit" + "" + " to " + repo == "Pushed " + d + " commit" + " to " + repo;
    } else {
      assert "Pushed " + d + " commit" + "s" + " to " + repo == "Pushed " + d + " commits" + " to " + repo;
    }
  }

  /** No commits, one commit, two commits, and a `commits` that is not an array. */
  lemma PushExamples(repo: string)
    ensures Describe(Push, repo, Obj(map["commits" := Arr([])]))
            == "Pushed " + "0" + " commits" + " to " + repo
    ensures Describe(Push, repo, Obj(map["commits" := Arr([Obj(map[])])]))
            == "Pushed " + "1" + " commit" + " to " + repo
    ensures Describe(Push, repo, Obj(map["commits" := Arr([Obj(map[]), Obj(map[])])]))
            == "Pushed " + "2" + " commits" + " to " + repo
    ensures Describe(Push, repo, Obj(map["commits" := Str("two")]))
            == "Pushed " + "0" + " commits" + " to " + repo
  {
    PushLine(repo, Obj(map["commits" := Arr([])]));
    PushLine(repo, Obj(map["commits" := Arr([Obj(map[])])]));
    PushLine(repo, Obj(map["commits" := Arr([Obj(map[]), Obj(map[])])]));
    PushLine(repo, Obj(map["commits" := Str("two")]));
    assert NatToString(0) == "0" && NatToString(1) == "1" && NatToString(2) == "2";
  }

  /** The commit count and the repository can be read back from a push
      line: two push lines that are equal agree on both. */
  lemma PushLineInjective(repo1: string, p1: Value, repo2: string, p2: Value)
    requires Describe(Push, repo1, p1) == Describe(Push, repo2, p2)
    ensures CommitCount(p1) == CommitCount(p2) && repo1 == repo2
  {
    PushLine(repo1, p1);
    PushLine(repo2, p2);
    PushTextInjective(CommitCount(p1), repo1, CommitCount(p2), repo2);
  }

  /** A push line says "1 commit" exactly when the payload's `commits` is
      an array of one element; every other payload gives the plural. */
  lemma PushSingularIff(repo: string, p: Value)
    ensures Describe(Push, repo, p) == "Pushed " + "1" + " commit" + " to " + repo
            <==> Get(p, "commits").Some? && Get(p, "commits").value.Arr? && |Get(p, "commits").value.items| == 1
  {
    PushLine(repo, p);
    assert NatToString(1) == "1";
    if Describe(Push, repo, p) == "Pushed " + "1" + " commit" + " to " + repo {
      PushTextInjective(CommitCount(p), repo, 1, repo);
    }
  }

  lemma PushTextInjective(n1: nat, r1: string, n2: nat, r2: string)
    requires "Pushed " + NatToString(n1) + (if n1 == 1 then " commit" else " commits") + " to " + r1
          == "Pushed " + NatToString(n2) + (if n2 == 1 then " commit" else " commits") + " to " + r2
    ensures n1 == n2 && r1 == r2
  {
    var w1 := (if n1 == 1 then " commit" else " commits") + " to ";
    var w2 := (if n2 == 1 then " commit" else " commits") + " to ";
    Regroup("Pushed ", NatToString(n1), if n1 == 1 then " commit" else " commits", " to ", r1);
    Regroup("Pushed ", NatToString(n2), if n2 == 1 then " commit" else " commits", " to ", r2);
    LeadingNumberUnique("Pushed ", NatToString(n1), w1 + r1, NatToString(n2), w2 + r2);
    NatToStringInjective(n1, n2);
    assert r1 == (w1 + r1)[|w1|..] == r2;
  }

  // ---------------------------------------------------------------------
  // Create events

  /** A create line depends on `ref_type` (default "repository"); only a
      branch or a tag names its `ref` (default "unknown"). */
  lemma CreateLine(repo: string, p: Value)
    ensures var refType := Get(p, "ref_type");
            var refName := StrOr(Get(p, "ref"), "unknown");
            var line := Describe(Create, repo, p);
            && (refType.None? || !refType.value.Str? || refType.value.s == "repository" ==>
                  line == "Created repository " + repo)
            && (refType == Some(Str("branch")) ==> line == "Created branch '" + refName + "' in " + repo)
            && (refType == Some(Str("tag")) ==> line == "Created tag '" + refName + "' in " + repo)
            && (refType.Some? && refType.value.Str? && refType.value.s !in {"repository", "branch", "tag"} ==>
                  line == "Created " + refType.value.s + " in " + repo)
  {
  }

  // ---------------------------------------------------------------------
  // Defaults

  /** The action each action-bearing kind assumes when `action` is absent. */
  function DefaultAction(kind: Kind): Option<string> {
    match kind
    case Issues => Some("updated")
    case PullRequest => Some("updated")
    case Release => Some("published")
    case Member => Some("added")
    case IssueComment => Some("created")
    case PullRequestReview => Some("submitted")
    case _ => None
  }

  /** The line each kind produces when none of the fields it reads is
      present, written as its template filled with the defaults each arm
      falls back to: no commits, a repository, a branch named "unknown",
      the default action capitalised, number 0, tag "unknown". */
  function DefaultLine(kind: Kind, repo: string): string {
    match kind
    case Push => "Pushed " + "0" + " commit" + "s" + " to " + repo
    case Create => "Created repository " + repo
    case Delete => "Deleted " + "branch" + " '" + "unknown" + "' in " + repo
    case Issues => "Updated" + " issue #" + "0" + " in " + repo
    case PullRequest => "Updated" + " pull request #" + "0" + " in " + repo
    case Watch => "Starred " + repo
    case Fork => "Forked " + repo
    case Release => "Published" + " release " + "unknown" + " in " + repo
    case Public => "Made " + repo + " public"
    case Member => "Added" + " as collaborator to " + repo
    case IssueComment => "Created" + " comment on issue #" + "0" + " in " + repo
    case PullRequestReview => "Submitted" + " review on pull request #" + "0" + " in " + repo
    case Unrecognised(name) => "Performed " + name + " in " + repo
  }

  /** The top-level payload keys whose absence sends a kind's line to its
      defaults. A create event without `ref_type` never looks at `ref`. */
  function KeysRead(kind: Kind): set<string> {
    match kind
    case Push => {"commits"}
    case Create => {"ref_type"}
    case Delete => {"ref_type", "ref"}
    case Issues => {"action", "issue"}
    case PullRequest => {"action", "number"}
    case Release => {"action", "release"}
    case Member => {"action"}
    case IssueComment => {"action", "issue"}
    case PullRequestReview => {"action", "pull_request"}
    case _ => {}
  }

  /** None of the keys the kind reads is present; any other key may be. */
  predicate LacksKeysRead(kind: Kind, p: Value) {
    forall k | k in KeysRead(kind) :: Get(p, k).None?
  }

  /** With none of the keys it reads present, every kind falls back to its
      defaults, whatever else the payload holds. */
  lemma DefaultsWhenFieldsAbsent(kind: Kind, repo: string, p: Value)
    requires LacksKeysRead(kind, p)
    ensures Describe(kind, repo, p) == DefaultLine(kind, repo)
  {
    if IsNumbered(kind) {
      NumberedDefaults(kind, repo, p);
    } else if DefaultAction(kind).Some? {
      ActionDefaults(kind, repo, p);
    } else {
      FixedDefaults(kind, repo, p);
    }
  }

  lemma FixedDefaults(kind: Kind, repo: string, p: Value)
    requires DefaultAction(kind).None?
    requires LacksKeysRead(kind, p)
    ensures Describe(kind, repo, p) == DefaultLine(kind, repo)
  {
    match kind
    case Push =>
      assert Get(p, "commits").None? by { assert "commits" in KeysRead(kind); }
      assert NatToString(0) == "0";
    case Create =>
      assert Get(p, "ref_type").None? by { assert "ref_type" in KeysRead(kind); }
    case Delete =>
      assert Get(p, "ref_type").None? by { assert "ref_type" in KeysRead(kind); }
      assert Get(p, "ref").None? by { assert "ref" in KeysRead(kind); }
    case _ =>
  }

  lemma ActionDefaults(kind: Kind, repo: string, p: Value)
    requires kind.Release? || kind.Member?
    requires LacksKeysRead(kind, p)
    ensures Describe(kind, repo, p) == DefaultLine(kind, repo)
  {
    assert Get(p, "action") == None by { assert "action" in KeysRead(kind); }
    if kind.Release? {
      assert Get(p, "release") == None by { assert "release" in KeysRead(kind); }
      assert CapitalizeFirstLetter("published") == "Published";
    } else {
      assert CapitalizeFirstLetter("added") == "Added";
    }
  }

  lemma NumberedDefaults(kind: Kind, repo: string, p: Value)
    requires IsNumbered(kind)
    requires LacksKeysRead(kind, p)
    ensures Describe(kind, repo, p) == DefaultLine(kind, repo)
  {
    NumberedArmDefaults(kind, repo, p);
    NumberedDefaultText(kind, repo);
  }

  lemma NumberedDefaultText(kind: Kind, repo: string)
    requires IsNumbered(kind)
    ensures CapitalizeFirstLetter(DefaultAction(kind).value) + NumberWords(kind) + "0" + " in " + repo
         == DefaultLine(kind, repo)
  {
    var verb := CapitalizeFirstLetter(DefaultAction(kind).value);
    match kind
    case Issues => assert verb == "Updated";
    case PullRequest => assert verb == "Updated";
    case IssueComment => assert verb == "Created";
    case PullRequestReview => assert verb == "Submitted";
  }

  lemma NumberedArmDefaults(kind: Kind, repo: string, p: Value)
    requires IsNumbered(kind)
    requires LacksKeysRead(kind, p)
    ensures Describe(kind, repo, p)
         == CapitalizeFirstLetter(DefaultAction(kind).value) + NumberWords(kind) + "0" + " in " + repo
  {
    NumberedArm(kind, repo, p);
    assert Get(p, "action") == None by { assert "action" in KeysRead(kind); }
    assert NumberField(kind, p) == None by {
      match kind
      case PullRequest => assert "number" in KeysRead(kind);
      case PullRequestReview => assert "pull_request" in KeysRead(kind);
      case Issues => assert "issue" in KeysRead(kind);
      case IssueComment => assert "issue" in KeysRead(kind);
    }
    assert NatToString(0) == "0";
  }

  /** For the action-bearing kinds the line opens with the action (the
      payload's string or the kind's default), first letter capitalised,
      followed by a space. */
  lemma ActionLeadsLine(kind: Kind, repo: string, p: Value)
    requires DefaultAction(kind).Some?
    ensures var head := CapitalizeFirstLetter(StrOr(Get(p, "action"), DefaultAction(kind).value));
            var line := Describe(kind, repo, p);
            |head| < |line| && line[..|head|] == head && line[|head|] == ' '
  {
    var head := CapitalizeFirstLetter(StrOr(Get(p, "action"), DefaultAction(kind).value));
    match kind
    case Issues =>
      HeadThenSpace(head, " issue #", NatToString(U64Or0(Nested(p, "issue", "number"))), " in ", repo);
    case PullRequest =>
      HeadThenSpace(head, " pull request #", NatToString(U64Or0(Get(p, "number"))), " in ", repo);
    case Release =>
      HeadThenSpace(head, " release ", StrOr(Nested(p, "release", "tag_name"), "unknown"), " in ", repo);
    case Member =>
      HeadThenSpace(head, " as collaborator to ", repo, "", "");
      assert head + " as collaborator to " + repo + "" + "" == head + " as collaborator to " + repo;
    case IssueComment =>
      HeadThenSpace(head, " comment on issue #", NatToString(U64Or0(Nested(p, "issue", "number"))), " in ", repo);
    case PullRequestReview =>
      HeadThenSpace(head, " review on pull request #", NatToString(U64Or0(Nested(p, "pull_request", "number"))), " in ", repo);
  }

  lemma HeadThenSpace(head: string, words: string, a: string, b: string, c: string)
    requires words != [] && words[0] == ' '
    ensures var line := head + words + a + b + c;
            |head| < |line| && line[..|head|] == head && line[|head|] == ' '
  {
    var line := head + words + a + b + c;
    assert line == head + (words + a + b + c);
  }

  /** The kinds whose line carries an issue or pull-request number. */
  predicate IsNumbered(kind: Kind) {
    kind.Issues? || kind.PullRequest? || kind.IssueComment? || kind.PullRequestReview?
  }

  /** Where a numbered kind reads its number: `issue.number`, the payload's
      own `number`, or `pull_request.number`. */
  function NumberField(kind: Kind, p: Value): Option<Value>
    requires IsNumbered(kind)
  {
    match kind
    case PullRequest => Get(p, "number")
    case PullRequestReview => Nested(p, "pull_request", "number")
    case _ => Nested(p, "issue", "number")
  }

  /** The words between the action and the number of a numbered line. */
  function NumberWords(kind: Kind): (w: string)
    requires IsNumbered(kind)
    ensures w != [] && w[|w| - 1] == '#'
  {
    match kind
    case Issues => " issue #"
    case PullRequest => " pull request #"
    case IssueComment => " comment on issue #"
    case PullRequestReview => " review on pull request #"
  }

  /** A numbered line ends with "#", the number (0 unless the field holds
      an unsigned 64-bit integer), " in " and the repository. */
  lemma NumberEndsLine(kind: Kind, repo: string, p: Value)
    requires IsNumbered(kind)
    ensures var tail := NatToString(U64Or0(NumberField(kind, p))) + " in " + repo;
            var line := Describe(kind, repo, p);
            |tail| < |line| && line[|line| - |tail|..] == tail && line[|line| - |tail| - 1] == '#'
  {
    var action := CapitalizeFirstLetter(StrOr(Get(p, "action"), DefaultAction(kind).value));
    var digits := NatToString(U64Or0(NumberField(kind, p)));
    NumberedArm(kind, repo, p);
    HashThenTail(action, NumberWords(kind), digits, repo);
  }

  lemma NumberedArm(kind: Kind, repo: string, p: Value)
    requires IsNumbered(kind)
    ensures Describe(kind, repo, p)
         == CapitalizeFirstLetter(StrOr(Get(p, "action"), DefaultAction(kind).value))
            + NumberWords(kind) + NatToString(U64Or0(NumberField(kind, p))) + " in " + repo
  {
  }

  lemma HashThenTail(head: string, words: string, digits: string, repo: string)
    requires words != [] && words[|words| - 1] == '#'
    ensures var line := head + words + digits + " in " + repo;
            var tail := digits + " in " + repo;
            |tail| < |line| && line[|line| - |tail|..] == tail && line[|line| - |tail| - 1] == '#'
  {
    var line := head + words + digits + " in " + repo;
    assert line == (head + words) + (digits + " in " + repo);
  }

  // ---------------------------------------------------------------------
  // Every event

  /** An event type outside the known kinds is reported verbatim. */
  lemma UnrecognisedKindLine(e: Event)
    requires e.eventType !in KNOWN_KINDS
    ensures FormatActivity(e) == "Performed " + e.eventType + " in " + e.repo.name
  {
  }

  /** Every line mentions the repository the event happened in. */
  lemma MentionsRepository(e: Event)
    ensures IsSubstring(e.repo.name, FormatActivity(e))
  {
    var line := FormatActivity(e);
    var repo := e.repo.name;
    if KindOf(e.eventType) == Public {
      InfixIsSubstring("Made ", repo, " public");
    } else {
      EndsWithRepository(KindOf(e.eventType), repo, e.payload);
      SuffixIsSubstring(line[..|line| - |repo|], repo);
    }
  }

  lemma EndsWithRepository(kind: Kind, repo: string, p: Value)
    requires !kind.Public?
    ensures var line := Describe(kind, repo, p);
            |repo| <= |line| && line == line[..|line| - |repo|] + repo
  {
    var line := Describe(kind, repo, p);
    if IsNumbered(kind) {
      NumberedArm(kind, repo, p);
    }
    assert line[|line| - |repo|..] == repo;
  }

  /** The catch-all phrasing, with the event's own type, comes out exactly
      for the types outside the known kinds. */
  lemma CatchAllIffUnrecognised(e: Event)
    ensures FormatActivity(e) == "Performed " + e.eventType + " in " + e.repo.name
            <==> e.eventType !in KNOWN_KINDS
  {
    var kind := KindOf(e.eventType);
    if !kind.Unrecognised? {
      DescribeNotCatchAll(kind, e.repo.name, e.payload);
    }
  }

  /** No known kind's line reads "Performed {its type} in {repo}". */
  lemma DescribeNotCatchAll(kind: Kind, repo: string, p: Value)
    requires !kind.Unrecognised?
    ensures Describe(kind, repo, p) != "Performed " + KindName(kind) + " in " + repo
  {
    match kind
    case Member => MemberNotCatchAll(repo, p);
    case Release => ReleaseNotCatchAll(repo, p);
    case Issues => NumberedNotCatchAll(kind, repo, p);
    case PullRequest => NumberedNotCatchAll(kind, repo, p);
    case IssueComment => NumberedNotCatchAll(kind, repo, p);
    case PullRequestReview => NumberedNotCatchAll(kind, repo, p);
    case _ => OpeningNotCatchAll(kind, repo, p);
  }

  /** The kinds without an action differ from "Performed" in their first word. */
  lemma OpeningNotCatchAll(kind: Kind, repo: string, p: Value)
    requires kind.Push? || kind.Create? || kind.Delete? || kind.Watch? || kind.Fork? || kind.Public?
    ensures Describe(kind, repo, p) != "Performed " + KindName(kind) + " in " + repo
  {
    var line := Describe(kind, repo, p);
    var catchAll := "Performed " + KindName(kind) + " in " + repo;
    assert catchAll[1] == 'e';
    match kind
    case Push => assert line[1] == 'u';
    case Create => assert line[1] == 'r';
    case Delete => assert line[1] == 'e' && line[0] == 'D';
    case Watch => assert line[1] == 't';
    case Fork => assert line[1] == 'o';
    case Public => assert line[1] == 'a';
  }

  /** A numbered line has a digit where the catch-all has the 't' of "Event". */
  lemma NumberedNotCatchAll(kind: Kind, repo: string, p: Value)
    requires IsNumbered(kind)
    ensures Describe(kind, repo, p) != "Performed " + KindName(kind) + " in " + repo
  {
    var line := Describe(kind, repo, p);
    var catchAll := "Performed " + KindName(kind) + " in " + repo;
    NumberEndsLine(kind, repo, p);
    var digits := NatToString(U64Or0(NumberField(kind, p)));
    var tail := digits + " in " + repo;
    if |line| == |catchAll| {
      var k := |line| - |repo| - 5;
      assert line[k] == tail[|digits| - 1];
      assert catchAll[k] == KindName(kind)[|KindName(kind)| - 1] == 't';
    }
  }

  /** "... as collaborator to" ends in "to", the catch-all in "in". */
  lemma MemberNotCatchAll(repo: string, p: Value)
    ensures Describe(Member, repo, p) != "Performed " + KindName(Member) + " in " + repo
  {
    var action := CapitalizeFirstLetter(StrOr(Get(p, "action"), "added"));
    MemberTextNotCatchAll(action, repo);
  }

  lemma MemberTextNotCatchAll(action: string, repo: string)
    ensures action + " as collaborator to " + repo != "Performed " + "MemberEvent" + " in " + repo
  {
    var line := action + " as collaborator to " + repo;
    var catchAll := "Performed " + "MemberEvent" + " in " + repo;
    if |line| == |catchAll| {
      var k := |line| - |repo| - 2;
      assert line[k] == 'o' && catchAll[k] == 'n';
    }
  }

  /** A release line needs " release " right after the action, and
      "Performed ReleaseEvent" contains no such run. */
  lemma ReleaseNotCatchAll(repo: string, p: Value)
    ensures Describe(Release, repo, p) != "Performed " + KindName(Release) + " in " + repo
  {
    var action := CapitalizeFirstLetter(StrOr(Get(p, "action"), "published"));
    var tag := StrOr(Nested(p, "release", "tag_name"), "unknown");
    ReleaseTextNotCatchAll(action, tag, repo);
  }

  lemma ReleaseTextNotCatchAll(action: string, tag: string, repo: string)
    ensures action + " release " + tag + " in " + repo != "Performed " + "ReleaseEvent" + " in " + repo
  {
    var line := action + " release " + tag + " in " + repo;
    var x := "Performed " + "ReleaseEvent";
    if |line| == |x + " in " + repo| {
      var k := |action|;
      assert line[k] == ' ' && line[k + 1] == 'r';
      assert k <= 13;
      assert x[k] != ' ' || x[k + 1] != 'r';
    }
  }
}

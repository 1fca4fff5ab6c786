/** The comment-command gate of the pretty-please GitHub Action: what one run
    does with one inbound webhook event.

    The Action's only entry point reads its token, checks that the event is
    an issue comment, classifies the comment body, fetches the issue to learn
    whether it is a pull request, and if so answers with a single 'I ran!'
    comment. Every call into the Actions toolkit and into the GitHub REST
    client (reading the token, building the client, fetching the issue,
    posting the comment) is represented here by the value that call returns
    or the message it throws, given as input; `Run` returns the requests issued, in order,
    and the terminal outcome.
 */
module PrettyPlease {
  import opened JsString

  // ---------------------------------------------------------------------
  // The comment classifier
  // ---------------------------------------------------------------------

  /** The literal, case-sensitive command prefix. */
  const TriggerPhrase: string := "prettier, please!"

  datatype Command = Prettier | Nothing

  /** `testComment`: the comment is the command exactly when its trimmed text
      starts with the trigger phrase (TestCommentRecognises states this
      without `trim`). It is total, and a comment that is all white space or
      shorter than the phrase is never the command. */
  function TestComment(comment: string): (c: Command)
    ensures c == Prettier ==> |TriggerPhrase| <= |comment|
    ensures AllWhiteSpace(comment) ==> c == Nothing
  {
    TrimEmpty(comment);
    if TriggerPhrase <= Trim(comment) then Prettier else Nothing
  }

  /** The trigger phrase neither starts nor ends with white space. */
  lemma TriggerPhraseTrimmed()
    ensures |TriggerPhrase| == 17
    ensures Trimmed(TriggerPhrase)
  {
  }

  /** The classifier without `trim`: the comment is the command exactly when
      it is some white space, then the trigger phrase, then anything. */
  lemma TestCommentRecognises(comment: string)
    ensures TestComment(comment) == Prettier <==>
      exists k :: 0 <= k <= |comment| && AllWhiteSpace(comment[..k]) && TriggerPhrase <= comment[k..]
  {
    TriggerPhraseTrimmed();
    if TriggerPhrase <= Trim(comment) {
      var lead, trail := TrimSplits(comment);
      var k := |lead|;
      assert AllWhiteSpace(comment[..k]) && TriggerPhrase <= comment[k..] by {
        assert comment[..k] == lead;
        assert comment[k..] == Trim(comment) + trail;
      }
    }
    if exists k :: 0 <= k <= |comment| && AllWhiteSpace(comment[..k]) && TriggerPhrase <= comment[k..] {
      var k :| 0 <= k <= |comment| && AllWhiteSpace(comment[..k]) && TriggerPhrase <= comment[k..];
      TrimKeepsPhrase(comment, k, TriggerPhrase);
    }
  }

  /** White space and line breaks around the comment do not change the
      command. */
  lemma TestCommentIgnoresSurroundingWhiteSpace(ws1: string, comment: string, ws2: string)
    requires AllWhiteSpace(ws1) && AllWhiteSpace(ws2)
    ensures TestComment(ws1 + comment + ws2) == TestComment(comment)
  {
    TrimIgnoresSurroundingWhiteSpace(ws1, comment, ws2);
  }

  /** Whatever follows the trigger phrase, the comment is the command. */
  lemma TestCommentIgnoresTrailingText(rest: string)
    ensures TestComment(TriggerPhrase + rest) == Prettier
  {
    TriggerPhraseTrimmed();
    var comment := TriggerPhrase + rest;
    assert comment[..0] == [] && comment[0..] == comment;
    TrimKeepsPhrase(comment, 0, TriggerPhrase);
  }

  /** A line break or more text after the phrase still matches. */
  lemma TestCommentAcceptsExamples()
    ensures TestComment(TriggerPhrase + "\n") == Prettier
    ensures TestComment(TriggerPhrase + " now") == Prettier
  {
    TestCommentIgnoresTrailingText("\n");
    TestCommentIgnoresTrailingText(" now");
  }

  /** Matching is case-sensitive. */
  lemma TestCommentIsCaseSensitive()
    ensures TestComment("Prettier, please!") == Nothing
  {
    TrimFixesTrimmed("Prettier, please!");
  }

  /** Any other request is not the command. */
  lemma TestCommentRejectsOtherText()
    ensures TestComment("please format this") == Nothing
  {
    TrimFixesTrimmed("please format this");
    assert "please format this"[1] != TriggerPhrase[1];
  }

  // ---------------------------------------------------------------------
  // The run
  // ---------------------------------------------------------------------

  /** The only event the Action handles. */
  const IssueCommentEvent: string := "issue_comment"

  /** The body of the one comment the Action writes. */
  const Reply: string := "I ran!"

  datatype Repo = Repo(owner: string, name: string)

  /** The parts of the run's context that the gate reads: the event name,
      the comment body, whether the payload carries `changes` (a truthy
      value there marks an edit of an existing comment), the issue number
      and the repository. */
  datatype Event = Event(
    eventName: string,
    body: string,
    changes: bool,
    issueNumber: nat,
    repo: Repo)

  /** What a foreign call gives back: a value, or an error with its message. */
  datatype CallResult<+T> = Returned(value: T) | Threw(message: string)

  /** The fetched issue record, reduced to whether it carries a truthy
      `pull_request` field. */
  datatype Issue = Issue(pullRequest: bool)

  /** The results the foreign calls give if the run makes them: reading the
      required `github-token` input, building the REST client from it,
      fetching the issue, posting the comment. */
  datatype Collaborators = Collaborators(
    token: CallResult<string>,
    client: CallResult<()>,
    issue: CallResult<Issue>,
    created: CallResult<()>)

  /** A request the run sends to the GitHub REST API. */
  datatype Call =
    | IssuesGet(repo: Repo, issueNumber: nat)
    | CreateComment(repo: Repo, issueNumber: nat, body: string)

  /** How a run ends: one value per branch of the entry point. Only `Failed`
      marks the run as failed; the others end it normally. */
  datatype Outcome =
    | UnsupportedEvent(eventName: string)
    | NoCommandExit
    | NotAPullRequest
    | PostedIRan
    | Failed(message: string)

  datatype RunRecord = RunRecord(calls: seq<Call>, outcome: Outcome)

  /** The two requests a run can make, in the only order it makes them. */
  function Requests(ev: Event): seq<Call> {
    [IssuesGet(ev.repo, ev.issueNumber), CreateComment(ev.repo, ev.issueNumber, Reply)]
  }

  /** `run`: the requests issued and the outcome, for an event and the
      results of the foreign calls. The requests are always a prefix of
      "fetch the issue, then post 'I ran!' on it": the issue is fetched at
      most once, at most one comment is posted, never before the fetch, and
      both are addressed to the issue the event came from. */
  function Run(ev: Event, w: Collaborators): (r: RunRecord)
    ensures r.calls <= Requests(ev)
  {
    match w.token
    case Threw(m) => RunRecord([], Failed(m))
    case Returned(_) =>
      if ev.eventName == IssueCommentEvent then
        var command := TestComment(ev.body);
        if command == Prettier && !ev.changes then
          match w.client
          case Threw(m) => RunRecord([], Failed(m))
          case Returned(_) =>
            match w.issue
            case Threw(m) => RunRecord(Requests(ev)[..1], Failed(m))
            case Returned(issue) =>
              if issue.pullRequest then
                match w.created
                case Threw(m) => RunRecord(Requests(ev), Failed(m))
                case Returned(_) => RunRecord(Requests(ev), PostedIRan)
              else
                RunRecord(Requests(ev)[..1], NotAPullRequest)
        else
          RunRecord([], NoCommandExit)
      else
        RunRecord([], UnsupportedEvent(ev.eventName))
  }

  /** The token was read, the event is an issue comment, the body is the
      command and the comment is new: the run goes on to build the client. */
  predicate PassesGate(ev: Event, w: Collaborators) {
    && w.token.Returned?
    && ev.eventName == IssueCommentEvent
    && TestComment(ev.body) == Prettier
    && !ev.changes
  }

  /** Whether the run attempted to write the reply comment. */
  predicate Replied(r: RunRecord) {
    exists c :: c in r.calls && c.CreateComment?
  }

  /** An event other than an issue comment makes no request and, once the
      token has been read, ends as unsupported without failing. */
  lemma UnsupportedEventMakesNoCalls(ev: Event, w: Collaborators)
    requires ev.eventName != IssueCommentEvent
    ensures Run(ev, w).calls == []
    ensures w.token.Returned? ==> Run(ev, w).outcome == UnsupportedEvent(ev.eventName)
  {
  }

  /** A comment that is not the command, or an edit of an existing comment,
      ends the run before the issue is fetched: an edited comment that
      contains the trigger phrase gets no reply. */
  lemma NoCommandMakesNoCalls(ev: Event, w: Collaborators)
    requires ev.eventName == IssueCommentEvent && w.token.Returned?
    requires TestComment(ev.body) == Nothing || ev.changes
    ensures Run(ev, w) == RunRecord([], NoCommandExit)
  {
  }

  /** An edited comment is never answered, whatever it says. */
  lemma EditedCommentNeverReplies(ev: Event, w: Collaborators)
    requires ev.changes
    ensures Run(ev, w).calls == []
    ensures !Replied(Run(ev, w))
  {
  }

  /** The decision table of the write: the reply is requested exactly when
      the gate lets the command through, the client was built, and the
      fetched issue is a pull request; it is reported as posted exactly
      when, in addition, posting did not throw. */
  lemma ReplyConditions(ev: Event, w: Collaborators)
    ensures Replied(Run(ev, w)) <==>
      && w.token.Returned?
      && ev.eventName == IssueCommentEvent
      && TestComment(ev.body) == Prettier
      && !ev.changes
      && w.client.Returned?
      && w.issue.Returned? && w.issue.value.pullRequest
    ensures Run(ev, w).outcome == PostedIRan <==>
      Replied(Run(ev, w)) && w.created.Returned?
  {
    var r := Run(ev, w);
    if |r.calls| == 2 {
      assert r.calls[1] in r.calls;
    }
  }

  /** The issue is fetched exactly when the gate lets the command through
      and the client was built. */
  lemma FetchConditions(ev: Event, w: Collaborators)
    ensures IssuesGet(ev.repo, ev.issueNumber) in Run(ev, w).calls <==>
      && w.token.Returned?
      && ev.eventName == IssueCommentEvent
      && TestComment(ev.body) == Prettier
      && !ev.changes
      && w.client.Returned?
  {
    var r := Run(ev, w);
    if |r.calls| > 0 {
      assert r.calls[0] in r.calls;
    }
  }

  /** An issue that is not a pull request is fetched and left alone. */
  lemma NotAPullRequestWritesNothing(ev: Event, w: Collaborators)
    requires PassesGate(ev, w) && w.client.Returned?
    requires w.issue == Returned(Issue(false))
    ensures Run(ev, w) == RunRecord([IssuesGet(ev.repo, ev.issueNumber)], NotAPullRequest)
    ensures !Replied(Run(ev, w))
  {
  }

  /** Each error ends the run where it is thrown, as `Failed` with that
      error's message: a failed token read or client construction before
      any request, a failed fetch after the fetch alone, a failed post after
      both requests. */
  lemma FailuresCarryThrownMessage(ev: Event, w: Collaborators)
    ensures w.token.Threw? ==>
      Run(ev, w) == RunRecord([], Failed(w.token.message))
    ensures PassesGate(ev, w) && w.client.Threw? ==>
      Run(ev, w) == RunRecord([], Failed(w.client.message))
    ensures PassesGate(ev, w) && w.client.Returned? && w.issue.Threw? ==>
      Run(ev, w) == RunRecord(Requests(ev)[..1], Failed(w.issue.message))
    ensures PassesGate(ev, w) && w.client.Returned? && w.issue == Returned(Issue(true)) && w.created.Threw? ==>
      Run(ev, w) == RunRecord(Requests(ev), Failed(w.created.message))
  {
  }

  /** A run fails exactly when a call it made threw: the token read, the
      client construction, the issue fetch (the only request then made), or
      the comment post. */
  lemma FailsExactlyWhenACallThrew(ev: Event, w: Collaborators)
    ensures Run(ev, w).outcome.Failed? <==>
      || w.token.Threw?
      || (PassesGate(ev, w) && w.client.Threw?)
      || (|Run(ev, w).calls| == 1 && w.issue.Threw?)
      || (|Run(ev, w).calls| == 2 && w.created.Threw?)
  {
    if PassesGate(ev, w) && w.client.Returned? {
      match w.issue
      case Threw(m) =>
      case Returned(issue) =>
    }
  }

  /** White space around the comment body never changes what a run does. */
  lemma RunIgnoresSurroundingWhiteSpace(ev: Event, w: Collaborators, ws1: string, ws2: string)
    requires AllWhiteSpace(ws1) && AllWhiteSpace(ws2)
    ensures Run(ev.(body := ws1 + ev.body + ws2), w) == Run(ev, w)
  {
    TestCommentIgnoresSurroundingWhiteSpace(ws1, ev.body, ws2);
  }

  /** A new comment "prettier, please!" followed by a line break, on a pull
      request, with every call succeeding: the issue is fetched, then
      'I ran!' is posted. */
  lemma ScenarioTriggerOnPullRequest(repo: Repo)
    ensures Run(Event(IssueCommentEvent, TriggerPhrase + "\n", false, 42, repo),
                Collaborators(Returned("t"), Returned(()), Returned(Issue(true)), Returned(()))) ==
            RunRecord([IssuesGet(repo, 42), CreateComment(repo, 42, "I ran!")], PostedIRan)
  {
    TestCommentAcceptsExamples();
  }

  /** "please format this" is not the command: nothing is requested. */
  lemma ScenarioNotACommand(repo: Repo, w: Collaborators)
    requires w.token.Returned?
    ensures Run(Event(IssueCommentEvent, "please format this", false, 42, repo), w) ==
            RunRecord([], NoCommandExit)
  {
    TestCommentRejectsOtherText();
  }
}
